/** What a filter over the run projection means, told on the parsed filter and
    the run a reader sees, with no SQL in sight; and the proof that the compiled
    predicate means the same, in all three truth values. */
module RunMeaning {
  import opened Prelude
  import opened Json
  import opened Backend
  import opened Ir
  import opened Validate
  import opened Quoting
  import opened Paths
  import opened Typecheck
  import opened Sql
  import opened RunSql
  import G = Grammar

  // -------------------------------------------------------------- the reader

  /** The columns of a run a reader may see. */
  datatype Detail = Detail(
    status: string, errorKind: Option<string>, startedAt: Option<int>, endedAt: Option<int>,
    body: Option<Json>, metrics: map<string, int>, fingerprints: map<string, string>)

  /** A run as one reader sees it: its columns if it is shown, and the verdicts
      of the Cards the request joins. */
  datatype View = View(runId: string, detail: Option<Detail>, verdicts: seq<Entry>)

  function Seen(db: Db, member: bool, r: RunRow): View {
    View(
      r.runId,
      if Shown(member, r) then
        Some(Detail(r.status, r.errorKind, r.startedAt, r.endedAt, r.body,
                    SideOf(db.metrics, r.recordId, r.runId), SideOf(db.fingerprints, r.recordId, r.runId)))
      else None,
      Select(db.results, (e: Entry) => e.evalId == r.recordId && e.runId == r.runId))
  }

  // ----------------------------------------------------------------- meaning

  function KindOf(column: Column, ty: ValueType): KeyType {
    if IsTimeColumn(column) then KTime else KeyTypeOf(ty)
  }

  /** The value of a scalar column; none for a run not shown. */
  function ValueOf(be: Backend, v: View, column: Column, ty: ValueType): Option<Sql.Value> {
    if column == Run(RunId) then Some(VText(v.runId))
    else if v.detail.None? then None
    else
      var d := v.detail.value;
      match column
      case Run(Status) => Some(VText(d.status))
      case Run(ErrorKind) => Texted(d.errorKind)
      case Run(StartedAt) => Timed(d.startedAt)
      case Run(EndedAt) => Timed(d.endedAt)
      case Run(Facet(path)) => if d.body.None? then None else CastTo(AtPath(be, d.body.value, path), ty)
      case Run(RunFingerprint(facet)) => if facet in d.fingerprints then Some(VText(d.fingerprints[facet])) else None
      case Run(Metric(id)) => if id in d.metrics then Some(VNum(d.metrics[id])) else None
      case Ext(path, _) => if d.body.None? then None else CastTo(AtPath(be, d.body.value, path), ty)
      case _ => None
  }

  /** A literal as a value of the column's kind. */
  function Literal(be: Backend, kind: KeyType, j: Json): Option<Sql.Value> {
    match kind
    case KNumber => if j.JNum? then Some(VNum(j.n)) else None
    case KText => if j.JStr? then Some(VText(j.s)) else None
    case KBoolean => if j.JBool? then Some(VBool(j.b)) else None
    case KTime => if j.JStr? then Timed(be.readTime(j.s)) else None
  }

  predicate Satisfies(be: Backend, kind: KeyType, op: Op, x: Sql.Value, j: Json) {
    var l := Literal(be, kind, j);
    match op
    case Eq => l == Some(x)
    case Ne => l.Some? && l.value != x
    case Gt => l.Some? && Rank(be, x) > Rank(be, l.value)
    case Gte => l.Some? && Rank(be, x) >= Rank(be, l.value)
    case Lt => l.Some? && Rank(be, x) < Rank(be, l.value)
    case Lte => l.Some? && Rank(be, x) <= Rank(be, l.value)
    case In => j.JArr? && exists item :: item in j.items && Literal(be, kind, item) == Some(x)
    case Prefix => j.JStr? && x.VText? && j.s <= x.s
    case Contains => j.JStr? && x.VText? && Within(j.s, x.s)
  }

  /** A comparison with a missing value is unknown, except that nothing is among
      no alternatives. */
  function Compared(be: Backend, kind: KeyType, op: Op, x: Option<Sql.Value>, j: Json): Truth {
    if op.In? && j == JArr([]) then False
    else if x.None? then Unknown
    else Truly(Satisfies(be, kind, op, x.value, j))
  }

  /** The verdicts of one Card on one metric. */
  predicate Verdict(cards: seq<(CardRef, Uuid)>, card: CardRef, metric: string, e: Entry) {
    CardVersion(cards, card) == Some(e.versionId) && e.metric == metric
  }

  function MeansCompare(be: Backend, cards: seq<(CardRef, Uuid)>, v: View, info: PathInfo, op: Op, j: Json): Truth
    requires info.Scalar?
  {
    match info.column
    case Run(Judgement(card, metric, field)) =>
      Truly(exists e :: e in v.verdicts && Verdict(cards, card, metric, e)
                     && FieldOf(e, field).Some? && Satisfies(be, FieldKeyType(field), op, FieldOf(e, field).value, j))
    case Body(path) =>
      if v.detail.None? || v.detail.value.body.None? then Unknown
      else
        var at := Member(v.detail.value.body.value, path);
        Truly(at.Some? && JsonContains(at.value, j))
    case column => Compared(be, KindOf(column, info.ty), op, ValueOf(be, v, column, info.ty), j)
  }

  /** Which path an `exists` asks for where nobody declared one: the path as
      written, or as its jsonpath is read. */
  datatype Reading = AsWritten | AsRendered

  function AskedPath(be: Backend, reading: Reading, path: seq<string>): Option<seq<string>> {
    if reading.AsWritten? then Some(path) else ReadJsonPath(be, JsonPathText(path))
  }

  function MeansExists(be: Backend, reading: Reading, cards: seq<(CardRef, Uuid)>, v: View, info: PathInfo): Truth
    requires info.Scalar?
  {
    match info.column
    case Run(Judgement(card, metric, field)) =>
      Truly(exists e :: e in v.verdicts && Verdict(cards, card, metric, e) && FieldOf(e, field).Some?)
    case Body(path) =>
      var asked := AskedPath(be, reading, path);
      if v.detail.None? || v.detail.value.body.None? || asked.None? then Unknown
      else Truly(LaxExists(v.detail.value.body.value, asked.value))
    case column => Truly(ValueOf(be, v, column, info.ty).Some?)
  }

  /** A filter, read directly. */
  function Means(be: Backend, reading: Reading, cards: seq<(CardRef, Uuid)>, table: PathTable, v: View, f: G.Filter): Truth
    requires WellTyped(f, table)
    decreases f
  {
    match f
    case And(fs) =>
      if exists i :: 0 <= i < |fs| && Means(be, reading, cards, table, v, fs[i]).False? then False
      else if exists i :: 0 <= i < |fs| && Means(be, reading, cards, table, v, fs[i]).Unknown? then Unknown
      else True
    case Or(fs) =>
      if exists i :: 0 <= i < |fs| && Means(be, reading, cards, table, v, fs[i]).True? then True
      else if exists i :: 0 <= i < |fs| && Means(be, reading, cards, table, v, fs[i]).Unknown? then Unknown
      else False
    case Not(g) => Negate(Means(be, reading, cards, table, v, g))
    case Compare(path, op, value) => MeansCompare(be, cards, v, table.Resolve(path).value, op, value)
    case Exists(path) => MeansExists(be, reading, cards, v, table.Resolve(path).value)
    case Any(_, _) => Unknown
  }

  // ------------------------------------------------------------------ tables

  /** The leaves are keyed by their dotted path, and their names are plain. */
  ghost predicate LeavesKeyed(leaves: FacetLeaves) {
    forall p :: p in leaves ==> Join(leaves[p].0, '.') == p && Renderable(leaves[p].0)
  }

  function RunTable(leaves: FacetLeaves, cards: seq<CardRef>, ext: seq<ExtSchema>): PathTable {
    ForRuns(leaves, cards).WithExt(ext)
  }

  lemma {:induction false} FingerprintPathsShape(facets: seq<string>, p: string)
    ensures p in FingerprintPaths(facets) ==>
              var info := FingerprintPaths(facets)[p];
              info.Scalar? && info.column.Run? && info.column.run.RunFingerprint? && info.ty.String?
              && info.indexed.Full? && info.column.run.facet in facets
  {
    if facets != [] { FingerprintPathsShape(facets[..|facets| - 1], p); }
  }

  /** What a path of the run table can resolve to. */
  ghost predicate RunInfo(leaves: FacetLeaves, cards: seq<CardRef>, info: PathInfo) {
    && info.Scalar?
    && (match info.column
       case Run(Facet(path)) => FacetType(leaves, path) == Some(info.ty) && Renderable(path)
       case Run(RunFingerprint(facet)) => facet in RUN_FACETS && info.ty.String?
       case Run(Metric(_)) => info.ty.Number?
       case Run(Judgement(card, _, field)) => card in cards && info.ty == FieldType(field)
       case Run(_) => info.ty.String?
       case Ext(_, ty) => ty == info.ty
       case Body(_) => true
       case _ => false)
    && (info.indexed == if info.column.Body? then EqExistsUntyped else Full)
  }

  /** Where a listed path of the run table comes from. */
  lemma ForRunsAt(leaves: FacetLeaves, cards: seq<CardRef>, p: string)
    requires p in ForRuns(leaves, cards).paths
    ensures var info := ForRuns(leaves, cards).paths[p];
            if p in FingerprintPaths(RUN_FACETS) then info == FingerprintPaths(RUN_FACETS)[p]
            else if p in leaves then info == FullRun(Facet(leaves[p].0), leaves[p].1)
            else FixedColumn(p) == Some(info)
  {
    hide FixedColumn, FingerprintPaths, Dedup;
  }

  lemma LeafType(leaves: FacetLeaves, p: string)
    requires LeavesKeyed(leaves) && p in leaves && p !in FingerprintPaths(RUN_FACETS)
    ensures FacetType(leaves, leaves[p].0) == Some(leaves[p].1) && Renderable(leaves[p].0)
  {
    hide Renderable, Join, FixedColumn, FingerprintPaths, Dedup, ResolveRunParam;
    assert Join(leaves[p].0, '.') == p;
    assert p in ForRuns(leaves, []).paths;
    ForRunsAt(leaves, [], p);
  }

  lemma BaseRun(leaves: FacetLeaves, cards: seq<CardRef>, p: string)
    requires LeavesKeyed(leaves) && p in ForRuns(leaves, cards).paths
    ensures RunInfo(leaves, cards, ForRuns(leaves, cards).paths[p])
  {
    hide LeavesKeyed, ForRuns, FacetType, Renderable, FingerprintPaths;
    ForRunsAt(leaves, cards, p);
    FingerprintPathsShape(RUN_FACETS, p);
    if p !in FingerprintPaths(RUN_FACETS) && p in leaves { LeafType(leaves, p); }
  }

  lemma ParamRun(leaves: FacetLeaves, cards: seq<CardRef>, p: string, named: seq<CardRef>)
    requires forall c :: c in named ==> c in cards
    ensures var param := ResolveRunParam(p, named); param.Found? ==> RunInfo(leaves, cards, param.info)
  {
    hide SplitOnce, Validate.IsValidId;
  }

  lemma ResolvedRun(leaves: FacetLeaves, cards: seq<CardRef>, ext: seq<ExtSchema>, p: string)
    requires LeavesKeyed(leaves)
    ensures var info := RunTable(leaves, cards, ext).Resolve(p);
            info.Some? ==> RunInfo(leaves, cards, info.value)
  {
    hide Join, Split, SplitOnce, Validate.IsValidId, ResolveRunParam, LeavesKeyed;
    var table := RunTable(leaves, cards, ext);
    WithExtKeepsRuns(ForRuns(leaves, cards), ext, p);
    ParamRun(leaves, cards, p, table.target.cards);
    if p in table.paths && !IsExt(table.paths[p]) {
      BaseRun(leaves, cards, p);
    }
  }

  lemma InfoShape(leaves: FacetLeaves, cards: seq<CardRef>, info: PathInfo)
    requires info.Scalar? && RunInfo(leaves, cards, info)
    ensures info.indexed == if info.column.Body? then EqExistsUntyped else Full
    ensures info.column.Run? && info.column.run.Judgement? ==>
              info.ty == FieldType(info.column.run.field) && info.column.run.card in cards
    ensures IsTimeColumn(info.column) ==> info.ty.String?
  {
  }

  predicate IsTimeColumn(column: Column) {
    column == Run(StartedAt) || column == Run(EndedAt)
  }

  // ----------------------------------------------------------- one comparison

  lemma LiteralIsKeyValue(be: Backend, kind: KeyType, j: Json)
    ensures Literal(be, kind, j).Some? <==> KeyValue(be, kind, j).Ok?
    ensures Literal(be, kind, j).Some? ==> KeyValue(be, kind, j) == Ok(Literal(be, kind, j).value)
    ensures Literal(be, kind, j).Some? ==> HasType(Literal(be, kind, j).value, kind)
  {
  }

  lemma RankInjective(be: Backend, kind: KeyType, x: Sql.Value, y: Sql.Value)
    requires be.Sound() && HasType(x, kind) && HasType(y, kind)
    ensures Rank(be, x) == Rank(be, y) <==> x == y
  {
  }

  lemma {:induction false} AmongMeans(be: Backend, kind: KeyType, x: Sql.Value, items: seq<Json>)
    requires be.Sound() && HasType(x, kind) && KeyValues(be, kind, items).Ok?
    ensures (exists v :: v in KeyValues(be, kind, items).value && Rank(be, x) == Rank(be, v))
       <==> (exists item :: item in items && Literal(be, kind, item) == Some(x))
    ensures |KeyValues(be, kind, items).value| == |items|
  {
    hide Backend.Sound;
    if items != [] {
      AmongMeans(be, kind, x, items[1..]);
      LiteralIsKeyValue(be, kind, items[0]);
      var vs := KeyValues(be, kind, items).value;
      RankInjective(be, kind, x, vs[0]);
      assert vs[1..] == KeyValues(be, kind, items[1..]).value;
      assert forall v :: v in vs <==> v == vs[0] || v in vs[1..];
      assert forall i :: i in items <==> i == items[0] || i in items[1..];
    }
  }

  lemma {:induction false} LikeMeans(s: Scene, e: Expr, op: Op, kind: KeyType, j: Json)
    requires (op.Prefix? || op.Contains?) && Operator(s.be, e, op, kind, j).Ok?
    ensures EvalPred(s, Operator(s.be, e, op, kind, j).value) == Compared(s.be, kind, op, EvalExpr(s, e), j)
  {
    hide Backend.Sound, EvalExpr, Like, Escaped, Within;
    var x := EvalExpr(s, e);
    if x.Some? && x.value.VText? {
      PrefixPattern(j.s, x.value.s);
      ContainsPattern(j.s, x.value.s);
    }
  }

  /** One operator on one expression means the comparison of its value. */
  lemma {:induction false} OperatorMeans(s: Scene, e: Expr, op: Op, kind: KeyType, j: Json)
    requires s.be.Sound() && Operator(s.be, e, op, kind, j).Ok?
    requires EvalExpr(s, e).Some? ==> HasType(EvalExpr(s, e).value, kind)
    ensures EvalPred(s, Operator(s.be, e, op, kind, j).value) == Compared(s.be, kind, op, EvalExpr(s, e), j)
  {
    hide Backend.Sound, EvalExpr, Like;
    var x := EvalExpr(s, e);
    if op.In? {
      InMeans(s, e, kind, j);
    } else if op.Prefix? || op.Contains? {
      LikeMeans(s, e, op, kind, j);
    } else {
      LiteralIsKeyValue(s.be, kind, j);
      if x.Some? {
        RankInjective(s.be, kind, x.value, Literal(s.be, kind, j).value);
      }
    }
  }

  lemma {:induction false} InMeans(s: Scene, e: Expr, kind: KeyType, j: Json)
    requires s.be.Sound() && Operator(s.be, e, In, kind, j).Ok?
    requires EvalExpr(s, e).Some? ==> HasType(EvalExpr(s, e).value, kind)
    ensures EvalPred(s, Operator(s.be, e, In, kind, j).value) == Compared(s.be, kind, In, EvalExpr(s, e), j)
  {
    hide Backend.Sound, EvalExpr, Like;
    var x := EvalExpr(s, e);
    if j.items != [] {
      assert KeyValues(s.be, kind, j.items).value != [];
      if x.Some? {
        AmongMeans(s.be, kind, x.value, j.items);
      }
    }
  }

  // ------------------------------------------------------------- one column

  /** The scene of a masked row: no entry is in scope. */
  function SceneFor(be: Backend, db: Db, member: bool, r: RunRow, keys: seq<Option<Sql.Value>>): Scene {
    Scene(be, db, Mask(member, r), keys, None)
  }

  /** A rendered scalar column reads the value the reader sees. */
  lemma ColumnMeans(be: Backend, leaves: FacetLeaves, db: Db, scope: Scope, r: RunRow, keys: seq<Option<Sql.Value>>,
                    cards: seq<CardRef>, info: PathInfo)
    requires RunInfo(leaves, cards, info) && ColumnExpr(leaves, info.column, scope, None).Ok?
    ensures var (e, kind) := ColumnExpr(leaves, info.column, scope, None).value;
            && EvalExpr(SceneFor(be, db, scope.member, r, keys), e) == ValueOf(be, Seen(db, scope.member, r), info.column, info.ty)
            && kind == KindOf(info.column, info.ty)
  {
    hide FacetType, LiteralText, ReadLiteral, Renderable, Select, AtPath;
    if info.column.Ext? {
      BodyMeansPath(be, db, scope.member, r, keys, info.column.extPath, info.ty);
    } else if info.column.Run? && info.column.run.Facet? {
      BodyMeansPath(be, db, scope.member, r, keys, info.column.run.path, info.ty);
    }
  }

  lemma {:induction false} BodyMeansPath(be: Backend, db: Db, member: bool, r: RunRow, keys: seq<Option<Sql.Value>>, path: seq<string>, ty: ValueType)
    requires BodyExpr(path, ty).Ok?
    ensures EvalExpr(SceneFor(be, db, member, r, keys), BodyExpr(path, ty).value)
         == if Shown(member, r) && r.body.Some? then CastTo(AtPath(be, r.body.value, path), ty) else None
  {
    hide LiteralText, ReadLiteral, Renderable, AtPath;
    BodyReads(path, ty);
  }

  lemma BodyReads(path: seq<string>, ty: ValueType)
    requires BodyExpr(path, ty).Ok?
    ensures BodyExpr(path, ty).value == BodyPath(LiteralText(path), ty)
    ensures ReadLiteral(LiteralText(path)) == Some(path)
  {
    LiteralReadsBack(path);
  }

  // ------------------------------------------------------------------ verdicts

  predicate Judged(be: Backend, field: ResultField, op: Op, j: Json, e: Entry) {
    FieldOf(e, field).Some? && Satisfies(be, FieldKeyType(field), op, FieldOf(e, field).value, j)
  }

  lemma EntryMeans(s: Scene, e: Entry, field: ResultField, op: Op, j: Json)
    requires s.be.Sound() && Operator(s.be, EntryField(field), op, FieldKeyType(field), j).Ok?
    ensures EvalPred(s.(entry := Some(e)), Operator(s.be, EntryField(field), op, FieldKeyType(field), j).value).True?
       <==> Judged(s.be, field, op, j, e)
  {
    hide Backend.Sound, EvalPred, Operator;
    OperatorMeans(s.(entry := Some(e)), EntryField(field), op, FieldKeyType(field), j);
  }

  /** The verdicts in view are the rows the subquery ranges over. */
  lemma {:induction false} VerdictIsAbout(be: Backend, db: Db, scope: Scope, r: RunRow, card: CardRef, metric: string, version: Uuid, e: Entry)
    requires CardVersion(scope.cards, card) == Some(version)
    ensures e in Seen(db, scope.member, r).verdicts && Verdict(scope.cards, card, metric, e)
       <==> e in db.results && About(e, version, Mask(scope.member, r), metric)
  {
    SelectMember(db.results, (e: Entry) => e.evalId == r.recordId && e.runId == r.runId, e);
  }

  lemma {:induction false} JudgementMeans(be: Backend, db: Db, scope: Scope, r: RunRow, keys: seq<Option<Sql.Value>>,
                       card: CardRef, metric: string, field: ResultField, op: Op, j: Json)
    requires be.Sound() && CardVersion(scope.cards, card).Some?
    requires Operator(be, EntryField(field), op, FieldKeyType(field), j).Ok?
    ensures var cond := Operator(be, EntryField(field), op, FieldKeyType(field), j).value;
            var s := SceneFor(be, db, scope.member, r, keys);
            EvalPred(s, PExistsEntry(CardVersion(scope.cards, card).value, metric, cond))
              == Truly(exists e :: e in Seen(db, scope.member, r).verdicts && Verdict(scope.cards, card, metric, e)
                                   && Judged(be, field, op, j, e))
  {
    hide Backend.Sound, Operator, Seen, Verdict, Judged, About, Mask;
    var version := CardVersion(scope.cards, card).value;
    var s := SceneFor(be, db, scope.member, r, keys);
    var cond := Operator(be, EntryField(field), op, FieldKeyType(field), j).value;
    forall e: Entry
      ensures (e in db.results && About(e, version, s.row, metric) && EvalPred(s.(entry := Some(e)), cond).True?)
         <==> (e in Seen(db, scope.member, r).verdicts && Verdict(scope.cards, card, metric, e) && Judged(be, field, op, j, e))
    {
      EntryMeans(s, e, field, op, j);
      VerdictIsAbout(be, db, scope, r, card, metric, version, e);
    }
  }

  lemma {:induction false} JudgementExistsMeans(be: Backend, db: Db, scope: Scope, r: RunRow, keys: seq<Option<Sql.Value>>,
                             card: CardRef, metric: string, field: ResultField)
    requires CardVersion(scope.cards, card).Some?
    ensures var s := SceneFor(be, db, scope.member, r, keys);
            EvalPred(s, PExistsEntry(CardVersion(scope.cards, card).value, metric, PNotNull(EntryField(field))))
              == Truly(exists e :: e in Seen(db, scope.member, r).verdicts && Verdict(scope.cards, card, metric, e)
                                   && FieldOf(e, field).Some?)
  {
    hide Seen, Verdict, About, Mask;
    var version := CardVersion(scope.cards, card).value;
    var s := SceneFor(be, db, scope.member, r, keys);
    forall e: Entry
      ensures (e in db.results && About(e, version, s.row, metric)
               && EvalPred(s.(entry := Some(e)), PNotNull(EntryField(field))).True?)
         <==> (e in Seen(db, scope.member, r).verdicts && Verdict(scope.cards, card, metric, e) && FieldOf(e, field).Some?)
    {
      VerdictIsAbout(be, db, scope, r, card, metric, version, e);
    }
  }

  // ------------------------------------------------------------------ leaves

  lemma ScalarMeans(be: Backend, leaves: FacetLeaves, db: Db, scope: Scope, r: RunRow, keys: seq<Option<Sql.Value>>,
                    cards: seq<CardRef>, info: PathInfo, op: Op, j: Json)
    requires be.Sound() && info.Scalar? && RunInfo(leaves, cards, info)
    requires ColumnExpr(leaves, info.column, scope, None).Ok?
    requires var (e, kind) := ColumnExpr(leaves, info.column, scope, None).value; Operator(be, e, op, kind, j).Ok?
    ensures var (e, kind) := ColumnExpr(leaves, info.column, scope, None).value;
            EvalPred(SceneFor(be, db, scope.member, r, keys), Operator(be, e, op, kind, j).value)
              == Compared(be, KindOf(info.column, info.ty), op,
                          ValueOf(be, Seen(db, scope.member, r), info.column, info.ty), j)
  {
    hide Backend.Sound, Operator, ValueOf, Seen, ColumnExpr, EvalExpr, RunInfo, Compared, KindOf;
    var (e, kind) := ColumnExpr(leaves, info.column, scope, None).value;
    ColumnMeans(be, leaves, db, scope, r, keys, cards, info);
    ColumnTyped(leaves, info.column, scope, None, SceneFor(be, db, scope.member, r, keys));
    OperatorMeans(SceneFor(be, db, scope.member, r, keys), e, op, kind, j);
  }

  lemma {:induction false} BodyMeans(be: Backend, db: Db, member: bool, r: RunRow, keys: seq<Option<Sql.Value>>, path: seq<string>, j: Json)
    ensures EvalPred(SceneFor(be, db, member, r, keys), PContains(Nest(path, j)))
         == (var v := Seen(db, member, r);
             if v.detail.None? || v.detail.value.body.None? then Unknown
             else
               var at := Member(v.detail.value.body.value, path);
               Truly(at.Some? && JsonContains(at.value, j)))
  {
    hide Select;
    if Shown(member, r) && r.body.Some? {
      ContainsNest(r.body.value, path, j);
    }
  }

  lemma CmpMeans(be: Backend, leaves: FacetLeaves, db: Db, scope: Scope, r: RunRow, keys: seq<Option<Sql.Value>>,
                 cards: seq<CardRef>, info: PathInfo, op: Op, j: Json)
    requires be.Sound() && info.Scalar? && RunInfo(leaves, cards, info)
    requires RenderCmp(be, leaves, scope, Cmp(info.column, op, j)).Ok?
    ensures EvalPred(SceneFor(be, db, scope.member, r, keys), RenderCmp(be, leaves, scope, Cmp(info.column, op, j)).value)
         == MeansCompare(be, scope.cards, Seen(db, scope.member, r), info, op, j)
  {
    hide Backend.Sound, EvalPred, Operator, ValueOf, Seen, ColumnExpr, Compared, KindOf, RunInfo;
    match info.column
    case Run(Judgement(card, metric, field)) =>
      JudgementMeans(be, db, scope, r, keys, card, metric, field, op, j);
    case Body(path) => BodyMeans(be, db, scope.member, r, keys, path, j);
    case _ => ScalarMeans(be, leaves, db, scope, r, keys, cards, info, op, j);
  }

  lemma ExistsMeans(be: Backend, leaves: FacetLeaves, db: Db, scope: Scope, r: RunRow, keys: seq<Option<Sql.Value>>,
                    cards: seq<CardRef>, info: PathInfo)
    requires be.Sound() && info.Scalar? && RunInfo(leaves, cards, info)
    requires RenderExists(leaves, scope, info.column).Ok?
    ensures EvalPred(SceneFor(be, db, scope.member, r, keys), RenderExists(leaves, scope, info.column).value)
         == MeansExists(be, AsRendered, scope.cards, Seen(db, scope.member, r), info)
  {
    hide Backend.Sound, ValueOf, ColumnExpr, RunInfo, ReadJsonPath, JsonPathText, Select, LaxExists;
    match info.column
    case Run(Judgement(card, metric, field)) =>
      JudgementExistsMeans(be, db, scope, r, keys, card, metric, field);
    case Body(path) =>
    case _ => ColumnMeans(be, leaves, db, scope, r, keys, cards, info);
  }

  /** The predicate rendered for `exists` on a path nobody declared asks for that
      path, on every run that has a body, exactly when no segment of it holds a
      backslash. */
  lemma {:induction false} PathExistsExact(be: Backend, path: seq<string>)
    requires be.Sound()
    ensures (forall s: Scene :: s.be == be && s.row.body.Some? ==>
               EvalPred(s, PPathExists(JsonPathText(path))) == Truly(LaxExists(s.row.body.value, path)))
       <==> NoBackslash(path)
  {
    hide Backend.Sound, LaxExists, JsonPathText, ReadJsonPath, NoBackslash;
    JsonPathReadsBack(be, path);
    var read := ReadJsonPath(be, JsonPathText(path));
    if read != Some(path) {
      var doc := JNull;
      if read.Some? { doc := LaxTells(read.value, path); }
      var row := Masked(0, "", Sha256(JNull), Live, true, None, None, None, None, Some(doc));
      var s := Scene(be, Db([], map[], map[], [], map[]), row, [], None);
      assert EvalPred(s, PPathExists(JsonPathText(path))) != Truly(LaxExists(doc, path));
    }
  }

  // ------------------------------------------------------------------ filter

  lemma {:induction false} AllMeans(s: Scene, ps: seq<Pred>)
    ensures EvalAll(s, ps).False? <==> exists i :: 0 <= i < |ps| && EvalPred(s, ps[i]).False?
    ensures EvalAll(s, ps).True? <==> forall i :: 0 <= i < |ps| ==> EvalPred(s, ps[i]).True?
  {
    hide EvalPred;
    if ps != [] {
      AllMeans(s, ps[1..]);
      assert forall i :: 0 < i < |ps| ==> ps[i] == ps[1..][i - 1];
      assert forall i :: 0 <= i < |ps[1..]| ==> ps[1..][i] == ps[i + 1];
    }
  }

  lemma {:induction false} AnyMeans(s: Scene, ps: seq<Pred>)
    ensures EvalAny(s, ps).True? <==> exists i :: 0 <= i < |ps| && EvalPred(s, ps[i]).True?
    ensures EvalAny(s, ps).False? <==> forall i :: 0 <= i < |ps| ==> EvalPred(s, ps[i]).False?
  {
    hide EvalPred;
    if ps != [] {
      AnyMeans(s, ps[1..]);
      assert forall i :: 0 < i < |ps| ==> ps[i] == ps[1..][i - 1];
      assert forall i :: 0 <= i < |ps[1..]| ==> ps[1..][i] == ps[i + 1];
    }
  }

  lemma {:induction false} RenderedAll(be: Backend, leaves: FacetLeaves, scope: Scope, fs: seq<Filter>)
    ensures RenderAll(be, leaves, scope, fs).Ok? <==> forall i :: 0 <= i < |fs| ==> Render(be, leaves, scope, fs[i]).Ok?
    ensures RenderAll(be, leaves, scope, fs).Ok? ==>
              && |RenderAll(be, leaves, scope, fs).value| == |fs|
              && forall i :: 0 <= i < |fs| ==> Render(be, leaves, scope, fs[i]) == Ok(RenderAll(be, leaves, scope, fs).value[i])
  {
    hide RenderCmp, RenderExists;
    if fs != [] {
      RenderedAll(be, leaves, scope, fs[1..]);
      assert forall i :: 0 <= i < |fs| ==> fs[i] == if i == 0 then fs[0] else fs[1..][i - 1];
    }
  }

  /** Somewhere the filter asks whether this path nobody declared exists. */
  ghost predicate Asks(f: G.Filter, table: PathTable, asked: seq<string>) {
    match f
    case And(fs) => exists g :: g in fs && Asks(g, table, asked)
    case Or(fs) => exists g :: g in fs && Asks(g, table, asked)
    case Not(g) => Asks(g, table, asked)
    case Exists(path) =>
      var info := table.Resolve(path);
      info.Some? && info.value.Scalar? && info.value.column == Body(asked)
    case _ => false
  }

  /** The paths a filter asks for in this way hold no backslash. */
  ghost predicate PathsRead(f: G.Filter, table: PathTable) {
    forall path :: Asks(f, table, path) ==> NoBackslash(path)
  }

  /** Each of them reads back as some path. */
  ghost predicate PathsCast(be: Backend, f: G.Filter, table: PathTable) {
    forall path :: Asks(f, table, path) ==> AskedPath(be, AsRendered, path).Some?
  }

  /** Such a filter means what is written. */
  lemma {:induction false} MeansAsWritten(be: Backend, cards: seq<(CardRef, Uuid)>, table: PathTable, v: View, f: G.Filter)
    requires be.Sound() && WellTyped(f, table) && PathsRead(f, table)
    ensures Means(be, AsRendered, cards, table, v, f) == Means(be, AsWritten, cards, table, v, f)
    decreases f
  {
    hide Backend.Sound, MeansCompare, NoBackslash, ReadJsonPath, JsonPathText;
    match f
    case And(fs) => AllAsWritten(be, cards, table, v, f, fs);
    case Or(fs) => AllAsWritten(be, cards, table, v, f, fs);
    case Not(g) => MeansAsWritten(be, cards, table, v, g);
    case Exists(path) =>
      var info := table.Resolve(path).value;
      assert info.Scalar? && info.column.Body? ==> Asks(f, table, info.column.bodyPath);
      if info.column.Body? { JsonPathReadsBack(be, info.column.bodyPath); }
    case _ =>
  }

  lemma {:induction false} AllAsWritten(be: Backend, cards: seq<(CardRef, Uuid)>, table: PathTable, v: View, f: G.Filter, fs: seq<G.Filter>)
    requires be.Sound() && (f == G.And(fs) || f == G.Or(fs)) && WellTyped(f, table) && PathsRead(f, table)
    ensures forall i :: 0 <= i < |fs| ==> Means(be, AsRendered, cards, table, v, fs[i]) == Means(be, AsWritten, cards, table, v, fs[i])
    decreases f, 0
  {
    hide Backend.Sound, Means;
    forall i | 0 <= i < |fs|
      ensures Means(be, AsRendered, cards, table, v, fs[i]) == Means(be, AsWritten, cards, table, v, fs[i])
    {
      assert fs[i] in fs;
      forall path | Asks(fs[i], table, path) ensures Asks(f, table, path) {}
      MeansAsWritten(be, cards, table, v, fs[i]);
    }
  }

  /** Compilation preserves meaning: the rendered predicate of a filter that
      checks and renders has, on every run, the truth value of the filter. */
  lemma {:induction false} FilterMeans(
      be: Backend, leaves: FacetLeaves, cards: seq<CardRef>, ext: seq<ExtSchema>, db: Db, scope: Scope,
      r: RunRow, keys: seq<Option<Sql.Value>>, f: G.Filter)
    requires be.Sound() && LeavesKeyed(leaves)
    requires var table := RunTable(leaves, cards, ext);
             && WellTyped(f, table)
             && Render(be, leaves, scope, Elaborate(f, table)).Ok?
    ensures var table := RunTable(leaves, cards, ext);
            EvalPred(SceneFor(be, db, scope.member, r, keys), Render(be, leaves, scope, Elaborate(f, table)).value)
              == Means(be, AsRendered, scope.cards, table, Seen(db, scope.member, r), f)
    decreases f
  {
    hide Backend.Sound, LeavesKeyed, RunTable, Seen, RenderCmp, RenderExists, MeansCompare, MeansExists, SceneFor;
    var table := RunTable(leaves, cards, ext);
    var s := SceneFor(be, db, scope.member, r, keys);
    match f
    case And(fs) => JunctionMeans(be, leaves, cards, ext, db, scope, r, keys, f, fs);
    case Or(fs) => JunctionMeans(be, leaves, cards, ext, db, scope, r, keys, f, fs);
    case Not(g) => FilterMeans(be, leaves, cards, ext, db, scope, r, keys, g);
    case Compare(path, op, value) =>
      ResolvedRun(leaves, cards, ext, path);
      CmpMeans(be, leaves, db, scope, r, keys, cards, table.Resolve(path).value, op, value);
    case Exists(path) =>
      ResolvedRun(leaves, cards, ext, path);
      ExistsMeans(be, leaves, db, scope, r, keys, cards, table.Resolve(path).value);
    case Any(_, _) =>
  }

  lemma {:induction false} JunctionMeans(
      be: Backend, leaves: FacetLeaves, cards: seq<CardRef>, ext: seq<ExtSchema>, db: Db, scope: Scope,
      r: RunRow, keys: seq<Option<Sql.Value>>, f: G.Filter, fs: seq<G.Filter>)
    requires be.Sound() && LeavesKeyed(leaves)
    requires f == G.And(fs) || f == G.Or(fs)
    requires var table := RunTable(leaves, cards, ext);
             && WellTyped(f, table)
             && Render(be, leaves, scope, Elaborate(f, table)).Ok?
    ensures var table := RunTable(leaves, cards, ext);
            EvalPred(SceneFor(be, db, scope.member, r, keys), Render(be, leaves, scope, Elaborate(f, table)).value)
              == Means(be, AsRendered, scope.cards, table, Seen(db, scope.member, r), f)
    decreases f, 0
  {
    hide Backend.Sound, LeavesKeyed, RunTable, Seen, RenderCmp, RenderExists, MeansCompare, MeansExists, SceneFor;
    var table := RunTable(leaves, cards, ext);
    var s := SceneFor(be, db, scope.member, r, keys);
    var v := Seen(db, scope.member, r);
    var irs := Elaborate(f, table).children;
    RenderedAll(be, leaves, scope, irs);
    var ps := RenderAll(be, leaves, scope, irs).value;
    forall i | 0 <= i < |fs| ensures EvalPred(s, ps[i]) == Means(be, AsRendered, scope.cards, table, v, fs[i]) {
      assert fs[i] in fs && irs[i] == Elaborate(fs[i], table);
      FilterMeans(be, leaves, cards, ext, db, scope, r, keys, fs[i]);
    }
    SameTruths(s, ps, be, scope.cards, table, v, fs);
  }

  lemma {:induction false} SameTruths(s: Scene, ps: seq<Pred>, be: Backend, cards: seq<(CardRef, Uuid)>, table: PathTable, v: View, fs: seq<G.Filter>)
    requires forall g :: g in fs ==> WellTyped(g, table)
    requires |ps| == |fs|
    requires forall i :: 0 <= i < |fs| ==> EvalPred(s, ps[i]) == Means(be, AsRendered, cards, table, v, fs[i])
    ensures EvalAll(s, ps) == Means(be, AsRendered, cards, table, v, G.And(fs))
    ensures EvalAny(s, ps) == Means(be, AsRendered, cards, table, v, G.Or(fs))
  {
    hide EvalPred, WellTyped, EvalAll, EvalAny;
    AllMeans(s, ps);
    AnyMeans(s, ps);
  }
}
