/** The compiler of the run projection (`evalhub-store/src/run_sql.rs`): a
    checked query to a statement, and one page of its rows. */
module RunSql {
  import opened Prelude
  import opened Json
  import opened Backend
  import opened Ir
  import opened Validate
  import opened Quoting
  import opened Paths
  import opened Sql

  /** Why a query cannot be rendered (`StoreError::QueryUnsupported`). */
  datatype Unsupported =
    | BadTimestamp
    | NotText
    | BadLiteral
    | BadSegment
    | UnknownColumn
    | CardNotJoined
    | CursorShape
    | FingerprintOperator
    | NotHexadecimal
    /** Rendered, but the statement fails at the database. */
    | CastFailed

  datatype Scope = Scope(recordId: Uuid, member: bool, archived: bool, deleted: bool, cards: seq<(CardRef, Uuid)>)

  datatype SortPlan = SortPlan(expr: Expr, dir: Dir, ty: KeyType)

  type Rendered<T> = Result<T, Unsupported>

  function KeyTypeOf(ty: ValueType): KeyType {
    match ty case Number => KNumber case String => KText case Boolean => KBoolean
  }

  /** A typed read below the run's body. */
  function BodyExpr(path: seq<string>, ty: ValueType): Rendered<Expr> {
    if Renderable(path) then Ok(BodyPath(LiteralText(path), ty)) else Err(BadSegment)
  }

  /** The IR carries a facet key's path, not its type; the run table has it. */
  function FacetType(leaves: FacetLeaves, path: seq<string>): Option<ValueType> {
    var info := ForRuns(leaves, []).Resolve(Join(path, '.'));
    if info.Some? && info.value.Scalar? then Some(info.value.ty) else None
  }

  function CardVersion(cards: seq<(CardRef, Uuid)>, card: CardRef): Option<Uuid> {
    if cards == [] then None
    else if cards[0].0 == card then Some(cards[0].1)
    else CardVersion(cards[1..], card)
  }

  function ColumnExpr(leaves: FacetLeaves, column: Column, scope: Scope, dir: Option<Dir>): Rendered<(Expr, KeyType)> {
    match column
    case Run(RunId) => Ok((RunIdColumn, KText))
    case Run(Status) => Ok((StatusColumn, KText))
    case Run(ErrorKind) => Ok((ErrorKindColumn, KText))
    case Run(StartedAt) => Ok((StartedColumn, KTime))
    case Run(EndedAt) => Ok((EndedColumn, KTime))
    case Run(Facet(path)) =>
      var ty := FacetType(leaves, path);
      if ty.None? then Err(UnknownColumn)
      else
        var e := BodyExpr(path, ty.value);
        if e.Err? then Err(e.error) else Ok((e.value, KeyTypeOf(ty.value)))
    case Run(RunFingerprint(facet)) =>
      if facet in RUN_FACETS then Ok((FingerprintOf(facet), KText)) else Err(UnknownColumn)
    case Run(Metric(id)) => Ok((MetricOf(id), KNumber))
    case Run(Judgement(card, metric, field)) =>
      if dir.None? then Err(UnknownColumn)
      else if CardVersion(scope.cards, card).None? then Err(CardNotJoined)
      else Ok((BestEntry(CardVersion(scope.cards, card).value, metric, field, dir.value), FieldKeyType(field)))
    case Ext(path, ty) =>
      var e := BodyExpr(path, ty);
      if e.Err? then Err(e.error) else Ok((e.value, KeyTypeOf(ty)))
    case _ => Err(UnknownColumn)
  }

  function FieldKeyType(field: ResultField): KeyType {
    if field.Value? then KNumber else KText
  }

  /** A column expression yields values of its type. */
  lemma ColumnTyped(leaves: FacetLeaves, column: Column, scope: Scope, dir: Option<Dir>, s: Scene)
    requires ColumnExpr(leaves, column, scope, dir).Ok?
    ensures var (e, ty) := ColumnExpr(leaves, column, scope, dir).value;
            EvalExpr(s, e).Some? ==> HasType(EvalExpr(s, e).value, ty)
  {
    hide ForRuns, FacetType, LiteralText, ReadLiteral, AtPath, Select, CardVersion;
  }

  // ---------------------------------------------------------------- literals

  /** `push_key_value` */
  function KeyValue(be: Backend, ty: KeyType, value: Json): Rendered<Sql.Value> {
    match ty
    case KNumber => if value.JNum? then Ok(VNum(value.n)) else Err(BadLiteral)
    case KText => if value.JStr? then Ok(VText(value.s)) else Err(BadLiteral)
    case KBoolean => if value.JBool? then Ok(VBool(value.b)) else Err(BadLiteral)
    case KTime =>
      if !value.JStr? then Err(BadLiteral)
      else if be.readTime(value.s).None? then Err(BadTimestamp)
      else Ok(VTime(be.readTime(value.s).value))
  }

  function KeyValues(be: Backend, ty: KeyType, items: seq<Json>): Rendered<seq<Sql.Value>> {
    if items == [] then Ok([])
    else
      var head := KeyValue(be, ty, items[0]);
      if head.Err? then Err(head.error)
      else
        var tail := KeyValues(be, ty, items[1..]);
        if tail.Err? then Err(tail.error) else Ok([head.value] + tail.value)
  }

  /** `read_key`: a key as the cursor carries it. */
  function ReadKey(be: Backend, v: Option<Sql.Value>): Json {
    match v
    case None => JNull
    case Some(VNum(n)) => JNum(n)
    case Some(VText(s)) => JStr(s)
    case Some(VBool(b)) => JBool(b)
    case Some(VTime(t)) => JStr(be.showTime(t))
  }

  function SignOf(op: Op): Option<Sign> {
    match op
    case Eq => Some(Equal) case Ne => Some(NotEqual)
    case Gt => Some(Greater) case Gte => Some(GreaterEq)
    case Lt => Some(Less) case Lte => Some(LessEq)
    case _ => None
  }

  /** `push_operator` */
  function Operator(be: Backend, e: Expr, op: Op, ty: KeyType, value: Json): Rendered<Pred> {
    if op.In? then
      if !value.JArr? then Err(BadLiteral)
      else
        var vs := KeyValues(be, ty, value.items);
        if vs.Err? then Err(vs.error) else Ok(PIn(e, vs.value))
    else if op.Prefix? || op.Contains? then
      if !ty.KText? then Err(NotText)
      else if !value.JStr? then Err(BadLiteral)
      else Ok(PLike(e, if op.Prefix? then Escaped(value.s) + "%" else "%" + Escaped(value.s) + "%"))
    else
      var v := KeyValue(be, ty, value);
      if v.Err? then Err(v.error) else Ok(PCompare(e, SignOf(op).value, v.value))
  }

  // ------------------------------------------------------------------ filter

  function RenderCmp(be: Backend, leaves: FacetLeaves, scope: Scope, cmp: Cmp): Rendered<Pred> {
    match cmp.column
    case Run(Judgement(card, metric, field)) =>
      var version := CardVersion(scope.cards, card);
      if version.None? then Err(CardNotJoined)
      else
        var cond := Operator(be, EntryField(field), cmp.op, FieldKeyType(field), cmp.value);
        if cond.Err? then Err(cond.error) else Ok(PExistsEntry(version.value, metric, cond.value))
    case Body(path) => if cmp.op.Eq? then Ok(PContains(Nest(path, cmp.value))) else Err(UnknownColumn)
    case column =>
      var e := ColumnExpr(leaves, column, scope, None);
      if e.Err? then Err(e.error) else Operator(be, e.value.0, cmp.op, e.value.1, cmp.value)
  }

  function RenderExists(leaves: FacetLeaves, scope: Scope, column: Column): Rendered<Pred> {
    match column
    case Run(Judgement(card, metric, field)) =>
      var version := CardVersion(scope.cards, card);
      if version.None? then Err(CardNotJoined)
      else Ok(PExistsEntry(version.value, metric, PNotNull(EntryField(field))))
    case Body(path) =>
      if JsonPathRenderable(path) then Ok(PPathExists(JsonPathText(path))) else Err(BadSegment)
    case _ =>
      var e := ColumnExpr(leaves, column, scope, None);
      if e.Err? then Err(e.error) else Ok(PNotNull(e.value.0))
  }

  /** `push_filter` and `push_junction` */
  function Render(be: Backend, leaves: FacetLeaves, scope: Scope, f: Filter): Rendered<Pred>
    decreases f
  {
    match f
    case And(fs) =>
      var ps := RenderAll(be, leaves, scope, fs);
      if ps.Err? then Err(ps.error) else Ok(if fs == [] then PTrue else PAll(ps.value))
    case Or(fs) =>
      var ps := RenderAll(be, leaves, scope, fs);
      if ps.Err? then Err(ps.error) else Ok(if fs == [] then PFalse else PAny(ps.value))
    case Not(g) =>
      var p := Render(be, leaves, scope, g);
      if p.Err? then p else Ok(PNot(p.value))
    case Compare(cmp) => RenderCmp(be, leaves, scope, cmp)
    case Exists(column) => RenderExists(leaves, scope, column)
    case Any(_, _) => Err(UnknownColumn)
  }

  function RenderAll(be: Backend, leaves: FacetLeaves, scope: Scope, fs: seq<Filter>): Rendered<seq<Pred>>
    decreases fs
  {
    if fs == [] then Ok([])
    else
      var head := Render(be, leaves, scope, fs[0]);
      if head.Err? then Err(head.error)
      else
        var tail := RenderAll(be, leaves, scope, fs[1..]);
        if tail.Err? then Err(tail.error) else Ok([head.value] + tail.value)
  }

  lemma {:induction false} RenderSnoc(be: Backend, leaves: FacetLeaves, scope: Scope, fs: seq<Filter>, f: Filter)
    requires RenderAll(be, leaves, scope, fs).Ok?
    ensures var p := Render(be, leaves, scope, f);
            RenderAll(be, leaves, scope, fs + [f])
              == if p.Err? then Err(p.error) else Ok(RenderAll(be, leaves, scope, fs).value + [p.value])
  {
    hide RenderCmp, RenderExists;
    if fs == [] {
      assert fs + [f] == [f] && [f][1..] == [];
      var p := Render(be, leaves, scope, f);
      if p.Ok? {
        assert RenderAll(be, leaves, scope, [f]) == Ok([p.value] + []);
        assert [p.value] + [] == [] + [p.value];
      }
    } else {
      RenderSnoc(be, leaves, scope, fs[1..], f);
      assert (fs + [f])[0] == fs[0] && (fs + [f])[1..] == fs[1..] + [f];
      var p := Render(be, leaves, scope, f);
      if p.Ok? {
        Regroup([Render(be, leaves, scope, fs[0]).value], RenderAll(be, leaves, scope, fs[1..]).value, [p.value]);
      }
    }
  }

  lemma {:induction false} RenderStops(be: Backend, leaves: FacetLeaves, scope: Scope, fs: seq<Filter>, more: seq<Filter>)
    requires RenderAll(be, leaves, scope, fs).Err?
    ensures RenderAll(be, leaves, scope, fs + more) == RenderAll(be, leaves, scope, fs)
  {
    hide RenderCmp, RenderExists;
    assert (fs + more)[0] == fs[0] && (fs + more)[1..] == fs[1..] + more;
    if Render(be, leaves, scope, fs[0]).Ok? { RenderStops(be, leaves, scope, fs[1..], more); }
  }

  /** `push_filter`: one term after the other, until one cannot be rendered. */
  method PushFilter(be: Backend, leaves: FacetLeaves, scope: Scope, f: Filter) returns (r: Rendered<Pred>)
    ensures r == Render(be, leaves, scope, f)
    decreases f, 1
  {
    hide RenderCmp, RenderExists;
    match f
    case And(fs) =>
      var ps := PushJunction(be, leaves, scope, fs);
      r := if ps.Err? then Err(ps.error) else Ok(if fs == [] then PTrue else PAll(ps.value));
    case Or(fs) =>
      var ps := PushJunction(be, leaves, scope, fs);
      r := if ps.Err? then Err(ps.error) else Ok(if fs == [] then PFalse else PAny(ps.value));
    case Not(g) =>
      var p := PushFilter(be, leaves, scope, g);
      r := if p.Err? then p else Ok(PNot(p.value));
    case Compare(cmp) => r := RenderCmp(be, leaves, scope, cmp);
    case Exists(column) => r := RenderExists(leaves, scope, column);
    case Any(_, _) => r := Err(UnknownColumn);
  }

  /** `push_junction` */
  method PushJunction(be: Backend, leaves: FacetLeaves, scope: Scope, fs: seq<Filter>) returns (r: Rendered<seq<Pred>>)
    ensures r == RenderAll(be, leaves, scope, fs)
    decreases fs, 0
  {
    hide Render;
    var ps: seq<Pred> := [];
    assert fs[..0] == [];
    for i := 0 to |fs|
      invariant RenderAll(be, leaves, scope, fs[..i]) == Ok(ps)
    {
      assert fs[..i + 1] == fs[..i] + [fs[i]];
      RenderSnoc(be, leaves, scope, fs[..i], fs[i]);
      var p := PushFilter(be, leaves, scope, fs[i]);
      if p.Err? {
        assert fs == fs[..i + 1] + fs[i + 1..];
        RenderStops(be, leaves, scope, fs[..i + 1], fs[i + 1..]);
        return Err(p.error);
      }
      ps := ps + [p.value];
    }
    assert fs[..|fs|] == fs;
    r := Ok(ps);
  }

  // -------------------------------------------------------------------- sort

  function SortColumnOf(key: SortKey): Option<Column> {
    match key
    case SortRun(c) => Some(Run(c))
    case SortColumn(c) => if c.Ext? then Some(c) else None
    case _ => None
  }

  function PlanSort(leaves: FacetLeaves, scope: Scope, s: Ir.Sort): Rendered<SortPlan> {
    var column := SortColumnOf(s.key);
    if column.None? then Err(UnknownColumn)
    else
      var e := ColumnExpr(leaves, column.value, scope, Some(s.dir));
      if e.Err? then Err(e.error) else Ok(SortPlan(e.value.0, s.dir, e.value.1))
  }

  function PlanSorts(leaves: FacetLeaves, scope: Scope, sorts: seq<Ir.Sort>): (r: Rendered<seq<SortPlan>>)
    ensures r.Ok? ==> |r.value| == |sorts|
  {
    if sorts == [] then Ok([])
    else
      var head := PlanSort(leaves, scope, sorts[0]);
      if head.Err? then Err(head.error)
      else
        var tail := PlanSorts(leaves, scope, sorts[1..]);
        if tail.Err? then Err(tail.error) else Ok([head.value] + tail.value)
  }

  function Tiebreak(plans: seq<SortPlan>): Dir {
    if plans == [] then Asc else plans[|plans| - 1].dir
  }

  // ------------------------------------------------------------------ keyset

  function KeyEqual(i: nat, v: Option<Sql.Value>): Pred {
    if v.None? then PIsNull(KeyColumn(i)) else PCompare(KeyColumn(i), Equal, v.value)
  }

  function KeyAfter(i: nat, dir: Dir, v: Option<Sql.Value>): Pred {
    match (dir, v)
    case (Asc, None) => PFalse
    case (Asc, Some(c)) => PAny([PCompare(KeyColumn(i), Greater, c), PIsNull(KeyColumn(i))])
    case (Desc, None) => PNotNull(KeyColumn(i))
    case (Desc, Some(c)) => PCompare(KeyColumn(i), Less, c)
  }

  function IdAfter(dir: Dir, runId: string): Pred {
    PCompare(RunIdColumn, if dir.Asc? then Greater else Less, VText(runId))
  }

  /** The first `n` keys equal the cursor's. */
  function EqualUpTo(values: seq<Option<Sql.Value>>, n: nat): (r: seq<Pred>)
    requires n <= |values|
    ensures |r| == n
  {
    seq(n, j requires 0 <= j < n => KeyEqual(j, values[j]))
  }

  function Disjunct(plans: seq<SortPlan>, values: seq<Option<Sql.Value>>, runId: string, i: nat): Pred
    requires |values| == |plans| && i <= |plans|
  {
    PAll(EqualUpTo(values, i)
         + [if i < |plans| then KeyAfter(i, plans[i].dir, values[i]) else IdAfter(Tiebreak(plans), runId)])
  }

  /** The lexicographic expansion over decoded cursor values. */
  function KeysetPred(plans: seq<SortPlan>, values: seq<Option<Sql.Value>>, runId: string): Pred
    requires |values| == |plans|
  {
    PAny(seq(|plans| + 1, i requires 0 <= i <= |plans| => Disjunct(plans, values, runId, i)))
  }

  function CursorKey(be: Backend, ty: KeyType, key: Json): Rendered<Option<Sql.Value>> {
    if key.JNull? then Ok(None)
    else
      var v := KeyValue(be, ty, key);
      if v.Err? then Err(v.error) else Ok(Some(v.value))
  }

  function CursorKeys(be: Backend, plans: seq<SortPlan>, keys: seq<Json>): (r: Rendered<seq<Option<Sql.Value>>>)
    requires |keys| == |plans|
    ensures r.Ok? ==> |r.value| == |plans|
    ensures r.Ok? <==> forall j :: 0 <= j < |plans| ==> CursorKey(be, plans[j].ty, keys[j]).Ok?
    ensures r.Ok? ==> forall j :: 0 <= j < |plans| ==> r.value[j] == CursorKey(be, plans[j].ty, keys[j]).value
  {
    if keys == [] then Ok([])
    else
      var front := CursorKeys(be, plans[..|plans| - 1], keys[..|keys| - 1]);
      if front.Err? then front
      else
        var last := CursorKey(be, plans[|plans| - 1].ty, keys[|keys| - 1]);
        if last.Err? then Err(last.error) else Ok(front.value + [last.value])
  }

  function Keyset(be: Backend, plans: seq<SortPlan>, cursor: RunCursor): Rendered<Pred> {
    if |cursor.keys| != |plans| then Err(CursorShape)
    else
      var values := CursorKeys(be, plans, cursor.keys);
      if values.Err? then Err(values.error) else Ok(KeysetPred(plans, values.value, cursor.runId))
  }

  lemma {:induction false} FirstCursorError(be: Backend, plans: seq<SortPlan>, keys: seq<Json>, i: nat)
    requires |keys| == |plans| && i < |plans| && CursorKey(be, plans[i].ty, keys[i]).Err?
    requires forall j :: 0 <= j < i ==> CursorKey(be, plans[j].ty, keys[j]).Ok?
    ensures CursorKeys(be, plans, keys) == Err(CursorKey(be, plans[i].ty, keys[i]).error)
    decreases |plans|
  {
    hide CursorKey;
    if i < |plans| - 1 { FirstCursorError(be, plans[..|plans| - 1], keys[..|keys| - 1], i); }
  }

  /** `push_keyset`: the disjuncts are pushed one after the other, each as its
      run of equalities and one comparison. */
  method PushKeyset(be: Backend, plans: seq<SortPlan>, cursor: RunCursor) returns (r: Rendered<Pred>)
    ensures r == Keyset(be, plans, cursor)
  {
    if |cursor.keys| != |plans| {
      return Err(CursorShape);
    }
    var disjuncts := [];
    for i := 0 to |plans| + 1
      invariant |disjuncts| == i
      invariant forall j :: 0 <= j < i && j < |plans| ==> CursorKey(be, plans[j].ty, cursor.keys[j]).Ok?
      invariant forall values: seq<Option<Sql.Value>>, k: nat ::
                  k < i && Keyset(be, plans, cursor).Ok? && values == CursorKeys(be, plans, cursor.keys).value
                  ==> disjuncts[k] == Disjunct(plans, values, cursor.runId, k)
    {
      var conjuncts: seq<Pred> := [];
      for j := 0 to i
        invariant |conjuncts| == j
        invariant forall k :: 0 <= k < j ==> conjuncts[k] == KeyEqual(k, CursorKey(be, plans[k].ty, cursor.keys[k]).value)
      {
        var v := CursorKey(be, plans[j].ty, cursor.keys[j]);
        conjuncts := conjuncts + [KeyEqual(j, v.value)];
      }
      if i < |plans| {
        var v := CursorKey(be, plans[i].ty, cursor.keys[i]);
        if v.Err? {
          FirstCursorError(be, plans, cursor.keys, i);
          return Err(v.error);
        }
        conjuncts := conjuncts + [KeyAfter(i, plans[i].dir, v.value)];
      } else {
        conjuncts := conjuncts + [IdAfter(Tiebreak(plans), cursor.runId)];
      }
      if Keyset(be, plans, cursor).Ok? {
        ghost var values := CursorKeys(be, plans, cursor.keys).value;
        assert conjuncts == Disjunct(plans, values, cursor.runId, i).all;
      }
      disjuncts := disjuncts + [PAll(conjuncts)];
    }
    r := Ok(PAny(disjuncts));
    assert disjuncts == KeysetPred(plans, CursorKeys(be, plans, cursor.keys).value, cursor.runId).any;
  }

  // --------------------------------------------------------------- statement

  /** What `build` makes of a query apart from its cursor: the sort plans, and
      the statement that starts at the first row. */
  datatype Compiled = Compiled(plans: seq<SortPlan>, stmt: Stmt)

  function Assemble(plans: seq<SortPlan>, filter: Pred, query: RunQuery, scope: Scope): Compiled {
    Compiled(plans, Stmt(
      scope.recordId, scope.member, scope.archived, scope.deleted, Versions(scope.cards),
      Exprs(plans), filter, PTrue, Dirs(plans), Tiebreak(plans), PageSize(query) + 1))
  }

  function RenderWhere(be: Backend, leaves: FacetLeaves, scope: Scope, f: Option<Filter>): Rendered<Pred> {
    if f.None? then Ok(PTrue) else Render(be, leaves, scope, f.value)
  }

  function Compile(be: Backend, leaves: FacetLeaves, query: RunQuery, scope: Scope): Rendered<Compiled> {
    var plans := PlanSorts(leaves, scope, query.sort);
    if plans.Err? then Err(plans.error)
    else
      var filter := RenderWhere(be, leaves, scope, query.filter);
      if filter.Err? then Err(filter.error) else Ok(Assemble(plans.value, filter.value, query, scope))
  }

  /** The statement that continues after a cursor. */
  function Continue(be: Backend, c: Compiled, cursor: Option<RunCursor>): Rendered<Stmt> {
    if cursor.None? then Ok(c.stmt)
    else
      var keyset := Keyset(be, c.plans, cursor.value);
      if keyset.Err? then Err(keyset.error) else Ok(c.stmt.(keyset := keyset.value))
  }

  function Versions(cards: seq<(CardRef, Uuid)>): (r: seq<Uuid>)
    ensures |r| == |cards|
    ensures forall i :: 0 <= i < |r| ==> r[i] == cards[i].1
  {
    seq(|cards|, i requires 0 <= i < |cards| => cards[i].1)
  }

  function Exprs(plans: seq<SortPlan>): (r: seq<Expr>)
    ensures |r| == |plans|
    ensures forall i :: 0 <= i < |r| ==> r[i] == plans[i].expr
  {
    seq(|plans|, i requires 0 <= i < |plans| => plans[i].expr)
  }

  function Dirs(plans: seq<SortPlan>): (r: seq<Dir>)
    ensures |r| == |plans|
    ensures forall i :: 0 <= i < |r| ==> r[i] == plans[i].dir
  {
    seq(|plans|, i requires 0 <= i < |plans| => plans[i].dir)
  }

  function PageSize(query: RunQuery): (n: nat)
    ensures n >= 1 && n >= query.limit
  {
    if query.limit == 0 then 1 else query.limit
  }

  function CursorAt(be: Backend, k: Keyed): RunCursor {
    RunCursor(Map(v => ReadKey(be, v), k.keys), k.row.runId)
  }

  datatype Page = Page(rows: seq<Keyed>, next: Option<RunCursor>)

  /** A page of `n` rows; whether there is a next one shows in the row after it. */
  function PageOf(be: Backend, rows: seq<Keyed>, n: nat): Page
    requires n >= 1
  {
    Page(Take(rows, n), if |rows| <= n then None else Some(CursorAt(be, rows[n - 1])))
  }

  lemma OneMoreIsEnough(be: Backend, rows: seq<Keyed>, n: nat)
    requires n >= 1
    ensures PageOf(be, Take(rows, n + 1), n) == PageOf(be, rows, n)
  {
  }

  /** The page of a statement, if the database takes it. */
  function Answer(be: Backend, db: Db, stmt: Rendered<Stmt>, n: nat): Rendered<Page>
    requires n >= 1
  {
    if stmt.Err? then Err(stmt.error)
    else if !Castable(be, stmt.value.filter) then Err(CastFailed)
    else Ok(PageOf(be, Rows(be, db, stmt.value), n))
  }

  /** `fetch`, its query compiled. */
  method FetchPage(be: Backend, db: Db, c: Compiled, cursor: Option<RunCursor>) returns (r: Rendered<Page>)
    requires c.stmt.limit >= 2
    ensures r == Answer(be, db, Continue(be, c, cursor), c.stmt.limit - 1)
  {
    var keyset := Ok(PTrue);
    if cursor.Some? {
      keyset := PushKeyset(be, c.plans, cursor.value);
    }
    if keyset.Err? {
      return Err(keyset.error);
    }
    var stmt := if cursor.None? then c.stmt else c.stmt.(keyset := keyset.value);
    if !Castable(be, stmt.filter) {
      return Err(CastFailed);
    }
    var rows := Execute(be, db, stmt);
    OneMoreIsEnough(be, Rows(be, db, stmt), stmt.limit - 1);
    var page := ReadPage(be, rows, stmt.limit - 1);
    r := Ok(page);
  }

  method ReadPage(be: Backend, rows: seq<Keyed>, limit: nat) returns (page: Page)
    requires limit >= 1
    ensures page == PageOf(be, rows, limit)
  {
    var out: seq<Keyed> := [];
    var lastKeys: seq<Json> := [];
    for i := 0 to Min(limit, |rows|)
      invariant out == rows[..i]
      invariant i > 0 ==> lastKeys == CursorAt(be, rows[i - 1]).keys
    {
      out := out + [rows[i]];
      lastKeys := Map(v => ReadKey(be, v), rows[i].keys);
    }
    var next := if |rows| > limit then Some(RunCursor(lastKeys, out[|out| - 1].row.runId)) else None;
    page := Page(out, next);
  }

  /** `build`, short of the cursor. */
  method Build(be: Backend, leaves: FacetLeaves, query: RunQuery, scope: Scope) returns (r: Rendered<Compiled>)
    ensures r == Compile(be, leaves, query, scope)
  {
    hide Render;
    var plans := PlanSorts(leaves, scope, query.sort);
    if plans.Err? {
      return Err(plans.error);
    }
    var filter := Ok(PTrue);
    if query.filter.Some? {
      filter := PushFilter(be, leaves, scope, query.filter.value);
    }
    r := if filter.Err? then Err(filter.error) else Ok(Assemble(plans.value, filter.value, query, scope));
  }

  method Fetch(be: Backend, leaves: FacetLeaves, db: Db, query: RunQuery, scope: Scope)
    returns (r: Rendered<Page>)
    ensures var c := Compile(be, leaves, query, scope);
            r == if c.Err? then Err(c.error) else Answer(be, db, Continue(be, c.value, query.cursor), PageSize(query))
  {
    var c := Build(be, leaves, query, scope);
    if c.Err? {
      return Err(c.error);
    }
    r := FetchPage(be, db, c.value, query.cursor);
  }
}
