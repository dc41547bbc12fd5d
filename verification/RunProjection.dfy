/** The run projection as a whole: which accepted requests it cannot render, and
    what the pages of the others hold. */
module RunProjection {
  import opened Prelude
  import opened Json
  import opened Backend
  import opened Ir
  import opened Validate
  import opened Quoting
  import opened Paths
  import opened Typecheck
  import opened Sql
  import opened RunSql
  import opened RunPaging
  import opened RunMeaning
  import G = Grammar

  // -------------------------------------------------- what cannot be rendered

  predicate ReadsTime(be: Backend, j: Json) {
    j.JStr? && be.readTime(j.s).Some?
  }

  /** A timestamp column takes no text operator, and RFC 3339 literals only. */
  predicate TimeServed(be: Backend, op: Op, j: Json) {
    && !op.Prefix? && !op.Contains?
    && if op.In? then j.JArr? && forall item :: item in j.items ==> ReadsTime(be, item) else ReadsTime(be, j)
  }

  predicate CompareServed(be: Backend, info: PathInfo, op: Op, j: Json)
    requires info.Scalar?
  {
    && (info.column.Ext? ==> Renderable(info.column.extPath))
    && (IsTimeColumn(info.column) ==> TimeServed(be, op, j))
  }

  predicate ExistsServed(info: PathInfo)
    requires info.Scalar?
  {
    && (info.column.Ext? ==> Renderable(info.column.extPath))
    && (info.column.Body? ==> JsonPathRenderable(info.column.bodyPath))
  }

  /** A well-typed filter the projection can also render. */
  predicate Served(be: Backend, table: PathTable, f: G.Filter)
    requires WellTyped(f, table)
  {
    match f
    case And(fs) => forall i :: 0 <= i < |fs| ==> Served(be, table, fs[i])
    case Or(fs) => forall i :: 0 <= i < |fs| ==> Served(be, table, fs[i])
    case Not(g) => Served(be, table, g)
    case Compare(path, op, value) => CompareServed(be, table.Resolve(path).value, op, value)
    case Exists(path) => ExistsServed(table.Resolve(path).value)
    case Any(_, _) => true
  }

  /** Every Card the request names is joined. */
  ghost predicate Covers(scope: Scope, cards: seq<CardRef>) {
    forall c :: c in cards ==> CardVersion(scope.cards, c).Some?
  }

  lemma ColumnServed(leaves: FacetLeaves, cards: seq<CardRef>, scope: Scope, info: PathInfo, dir: Option<Dir>)
    requires info.Scalar? && RunInfo(leaves, cards, info) && Covers(scope, cards)
    requires !info.column.Body?
    requires info.column.Run? && info.column.run.Judgement? ==> dir.Some?
    ensures ColumnExpr(leaves, info.column, scope, dir).Ok? <==> (info.column.Ext? ==> Renderable(info.column.extPath))
    ensures ColumnExpr(leaves, info.column, scope, dir).Ok? && dir.None? ==>
              ColumnExpr(leaves, info.column, scope, dir).value.1 == KindOf(info.column, info.ty)
  {
    hide ForRuns, FacetType, LiteralText, Renderable, CardVersion;
  }

  lemma {:induction false} LiteralsServed(be: Backend, kind: KeyType, ty: ValueType, items: seq<Json>)
    requires kind == KeyTypeOf(ty) || (kind.KTime? && ty.String?)
    requires forall item :: item in items ==> LiteralMatches(item, ty)
    ensures KeyValues(be, kind, items).Ok? <==> (kind.KTime? ==> forall item :: item in items ==> ReadsTime(be, item))
  {
    if items != [] {
      LiteralsServed(be, kind, ty, items[1..]);
      assert items[0] in items && forall i :: i in items <==> i == items[0] || i in items[1..];
    }
  }

  lemma OperatorServed(be: Backend, e: Expr, op: Op, kind: KeyType, ty: ValueType, j: Json)
    requires kind == KeyTypeOf(ty) || (kind.KTime? && ty.String?)
    requires WellTypedCmp(ty, Full, op, j)
    ensures Operator(be, e, op, kind, j).Ok? <==> (kind.KTime? ==> TimeServed(be, op, j))
  {
    if op.In? {
      LiteralsServed(be, kind, ty, j.items);
    }
  }

  lemma ScalarServed(be: Backend, leaves: FacetLeaves, cards: seq<CardRef>, scope: Scope, info: PathInfo, op: Op, j: Json)
    requires info.Scalar? && RunInfo(leaves, cards, info) && Covers(scope, cards)
    requires !info.column.Body? && !(info.column.Run? && info.column.run.Judgement?)
    requires WellTypedCmp(info.ty, Full, op, j)
    ensures var e := ColumnExpr(leaves, info.column, scope, None);
            (e.Ok? && Operator(be, e.value.0, op, e.value.1, j).Ok?) <==> CompareServed(be, info, op, j)
  {
    hide Operator, ColumnExpr, Renderable, TimeServed, WellTypedCmp, RunInfo, Covers;
    InfoShape(leaves, cards, info);
    ColumnServed(leaves, cards, scope, info, None);
    var e := ColumnExpr(leaves, info.column, scope, None);
    if e.Ok? {
      OperatorServed(be, e.value.0, op, e.value.1, info.ty, j);
    }
  }

  lemma CompareServedExact(be: Backend, leaves: FacetLeaves, cards: seq<CardRef>, scope: Scope, info: PathInfo, op: Op, j: Json)
    requires info.Scalar? && RunInfo(leaves, cards, info) && Covers(scope, cards)
    requires WellTypedCmp(info.ty, info.indexed, op, j)
    ensures RenderCmp(be, leaves, scope, Cmp(info.column, op, j)).Ok? <==> CompareServed(be, info, op, j)
  {
    hide Operator, ColumnExpr, Renderable, TimeServed, WellTypedCmp, CardVersion, RunInfo;
    InfoShape(leaves, cards, info);
    if info.column.Body? {
      BodyTakesEq(info.ty, op, j);
    } else if info.column.Run? && info.column.run.Judgement? {
      var field := info.column.run.field;
      OperatorServed(be, EntryField(field), op, FieldKeyType(field), info.ty, j);
    } else {
      ScalarServed(be, leaves, cards, scope, info, op, j);
    }
  }

  lemma BodyTakesEq(ty: ValueType, op: Op, j: Json)
    requires WellTypedCmp(ty, EqExistsUntyped, op, j)
    ensures op.Eq?
  {
  }

  lemma ExistsServedExact(leaves: FacetLeaves, cards: seq<CardRef>, scope: Scope, info: PathInfo)
    requires info.Scalar? && RunInfo(leaves, cards, info) && Covers(scope, cards)
    ensures RenderExists(leaves, scope, info.column).Ok? <==> ExistsServed(info)
  {
    hide ColumnExpr, Renderable, FacetType, CardVersion;
    if !info.column.Body? && !(info.column.Run? && info.column.run.Judgement?) {
      ColumnServed(leaves, cards, scope, info, None);
    }
  }

  /** An accepted filter fails to render exactly on a timestamp asked for as text
      or against a literal that is not RFC 3339, or on a path segment that
      cannot be written down. */
  lemma {:induction false} RendersExactly(
      be: Backend, leaves: FacetLeaves, cards: seq<CardRef>, ext: seq<ExtSchema>, scope: Scope, f: G.Filter)
    requires LeavesKeyed(leaves) && Covers(scope, cards)
    requires WellTyped(f, RunTable(leaves, cards, ext))
    ensures var table := RunTable(leaves, cards, ext);
            Render(be, leaves, scope, Elaborate(f, table)).Ok? <==> Served(be, table, f)
    decreases f
  {
    hide LeavesKeyed, Covers, RunTable, RenderCmp, RenderExists, CompareServed, ExistsServed, WellTypedCmp, RunInfo;
    var table := RunTable(leaves, cards, ext);
    match f
    case And(fs) => JunctionRenders(be, leaves, cards, ext, scope, f, fs);
    case Or(fs) => JunctionRenders(be, leaves, cards, ext, scope, f, fs);
    case Not(g) => RendersExactly(be, leaves, cards, ext, scope, g);
    case Compare(path, op, value) =>
      ResolvedRun(leaves, cards, ext, path);
      CompareServedExact(be, leaves, cards, scope, table.Resolve(path).value, op, value);
    case Exists(path) =>
      ResolvedRun(leaves, cards, ext, path);
      ExistsServedExact(leaves, cards, scope, table.Resolve(path).value);
    case Any(path, _) => NothingRanged(leaves, cards, ext, path);
  }

  lemma NothingRanged(leaves: FacetLeaves, cards: seq<CardRef>, ext: seq<ExtSchema>, path: string)
    requires LeavesKeyed(leaves)
    ensures var info := RunTable(leaves, cards, ext).Resolve(path); info.Some? ==> info.value.Scalar?
  {
    ResolvedRun(leaves, cards, ext, path);
  }

  lemma {:induction false} JunctionRenders(
      be: Backend, leaves: FacetLeaves, cards: seq<CardRef>, ext: seq<ExtSchema>, scope: Scope,
      f: G.Filter, fs: seq<G.Filter>)
    requires LeavesKeyed(leaves) && Covers(scope, cards)
    requires f == G.And(fs) || f == G.Or(fs)
    requires WellTyped(f, RunTable(leaves, cards, ext))
    ensures var table := RunTable(leaves, cards, ext);
            Render(be, leaves, scope, Elaborate(f, table)).Ok? <==> Served(be, table, f)
    decreases f, 0
  {
    hide LeavesKeyed, Covers, RunTable, RenderCmp, RenderExists, CompareServed, ExistsServed;
    var table := RunTable(leaves, cards, ext);
    var irs := Elaborate(f, table).children;
    RenderedAll(be, leaves, scope, irs);
    forall i | 0 <= i < |fs| ensures Render(be, leaves, scope, irs[i]).Ok? <==> Served(be, table, fs[i]) {
      assert fs[i] in fs && irs[i] == Elaborate(fs[i], table);
      RendersExactly(be, leaves, cards, ext, scope, fs[i]);
    }
  }

  // ------------------------------------------------------ what the database takes

  lemma {:induction false} OperatorCasts(be: Backend, e: Expr, op: Op, ty: KeyType, value: Json)
    requires Operator(be, e, op, ty, value).Ok?
    ensures Castable(be, Operator(be, e, op, ty, value).value)
  {
    hide KeyValue, KeyValues, Escaped;
  }

  lemma {:induction false} CmpCasts(be: Backend, leaves: FacetLeaves, scope: Scope, cmp: Cmp)
    requires RenderCmp(be, leaves, scope, cmp).Ok?
    ensures Castable(be, RenderCmp(be, leaves, scope, cmp).value)
  {
    hide Operator, ColumnExpr;
    match cmp.column
    case Run(Judgement(card, metric, field)) => OperatorCasts(be, EntryField(field), cmp.op, FieldKeyType(field), cmp.value);
    case Body(path) =>
    case column =>
      var (e, ty) := ColumnExpr(leaves, column, scope, None).value;
      OperatorCasts(be, e, cmp.op, ty, cmp.value);
  }

  lemma {:induction false} ExistsCasts(be: Backend, leaves: FacetLeaves, scope: Scope, column: Column)
    requires RenderExists(leaves, scope, column).Ok?
    ensures Castable(be, RenderExists(leaves, scope, column).value)
       <==> (column.Body? ==> AskedPath(be, AsRendered, column.bodyPath).Some?)
  {
    hide ColumnExpr, JsonPathText, ReadJsonPath;
  }

  /** A rendered filter fails at the database exactly when one of the paths it
      asks for by `exists` is written as no member path. */
  lemma {:induction false} CastsExactly(
      be: Backend, leaves: FacetLeaves, cards: seq<CardRef>, ext: seq<ExtSchema>, scope: Scope, f: G.Filter)
    requires WellTyped(f, RunTable(leaves, cards, ext))
    requires Render(be, leaves, scope, Elaborate(f, RunTable(leaves, cards, ext))).Ok?
    ensures var table := RunTable(leaves, cards, ext);
            Castable(be, Render(be, leaves, scope, Elaborate(f, table)).value) <==> PathsCast(be, f, table)
    decreases f
  {
    hide RunTable, RenderCmp, RenderExists, AskedPath;
    var table := RunTable(leaves, cards, ext);
    match f
    case And(fs) => JunctionCasts(be, leaves, cards, ext, scope, f, fs);
    case Or(fs) => JunctionCasts(be, leaves, cards, ext, scope, f, fs);
    case Not(g) =>
      CastsExactly(be, leaves, cards, ext, scope, g);
      forall path ensures Asks(f, table, path) <==> Asks(g, table, path) {}
    case Compare(path, op, value) => CmpCasts(be, leaves, scope, Cmp(table.Resolve(path).value.column, op, value));
    case Exists(path) =>
      var column := table.Resolve(path).value.column;
      ExistsCasts(be, leaves, scope, column);
      forall asked ensures Asks(f, table, asked) <==> column == Body(asked) {}
    case Any(_, _) =>
  }

  lemma {:induction false} JunctionCasts(
      be: Backend, leaves: FacetLeaves, cards: seq<CardRef>, ext: seq<ExtSchema>, scope: Scope,
      f: G.Filter, fs: seq<G.Filter>)
    requires (f == G.And(fs) || f == G.Or(fs)) && WellTyped(f, RunTable(leaves, cards, ext))
    requires Render(be, leaves, scope, Elaborate(f, RunTable(leaves, cards, ext))).Ok?
    ensures var table := RunTable(leaves, cards, ext);
            Castable(be, Render(be, leaves, scope, Elaborate(f, table)).value) <==> PathsCast(be, f, table)
    decreases f, 0
  {
    hide RunTable, RenderCmp, RenderExists, AskedPath;
    var table := RunTable(leaves, cards, ext);
    var irs := Elaborate(f, table).children;
    RenderedAll(be, leaves, scope, irs);
    var ps := RenderAll(be, leaves, scope, irs).value;
    forall i | 0 <= i < |fs| ensures Castable(be, ps[i]) <==> PathsCast(be, fs[i], table) {
      assert fs[i] in fs && irs[i] == Elaborate(fs[i], table);
      CastsExactly(be, leaves, cards, ext, scope, fs[i]);
    }
    JunctionTakes(be, ps, f, fs, table);
  }

  lemma {:induction false} JunctionTakes(be: Backend, ps: seq<Pred>, f: G.Filter, fs: seq<G.Filter>, table: PathTable)
    requires (f == G.And(fs) || f == G.Or(fs)) && |ps| == |fs|
    requires forall i :: 0 <= i < |fs| ==> (Castable(be, ps[i]) <==> PathsCast(be, fs[i], table))
    ensures (forall p :: p in ps ==> Castable(be, p)) <==> PathsCast(be, f, table)
  {
    hide Castable, AskedPath;
    if forall p :: p in ps ==> Castable(be, p) {
      forall path | Asks(f, table, path) ensures AskedPath(be, AsRendered, path).Some? {
        var g :| g in fs && Asks(g, table, path);
        var i :| 0 <= i < |fs| && fs[i] == g;
        assert ps[i] in ps;
      }
    }
    if PathsCast(be, f, table) {
      forall p | p in ps ensures Castable(be, p) {
        var i :| 0 <= i < |ps| && ps[i] == p;
        assert fs[i] in fs;
        forall path | Asks(fs[i], table, path) ensures Asks(f, table, path) {}
      }
    }
  }

  // -------------------------------------------------------- whole requests

  /** The sort columns that can be written down. */
  predicate SortServed(table: PathTable, path: string) {
    var info := table.Resolve(path);
    info.Some? && info.value.Scalar? && info.value.column.Ext? ==> Renderable(info.value.column.extPath)
  }

  predicate RequestServed(be: Backend, table: PathTable, request: Request)
    requires Accepted(request, table, None)
  {
    && (request.filter.Some? ==> Served(be, table, G.Parse(request.filter.value).value))
    && (forall i :: 0 <= i < |request.sort| ==> SortServed(table, request.sort[i].0))
  }

  lemma AcceptedSort(request: Request, table: PathTable, i: nat)
    requires Accepted(request, table, None) && i < |request.sort|
    ensures RunSortKey(request.sort[i].0, table).Some?
  {
    assert request.sort[i] in request.sort;
  }

  /** A sort key the table accepts, and the column its plan reads. */
  lemma SortKeyColumn(leaves: FacetLeaves, cards: seq<CardRef>, ext: seq<ExtSchema>, path: string)
    requires LeavesKeyed(leaves) && RunSortKey(path, RunTable(leaves, cards, ext)).Some?
    ensures var info := RunTable(leaves, cards, ext).Resolve(path);
            && info.Some? && info.value.Scalar? && RunInfo(leaves, cards, info.value) && !info.value.column.Body?
            && SortColumnOf(RunSortKey(path, RunTable(leaves, cards, ext)).value) == Some(info.value.column)
  {
    hide LeavesKeyed, RunTable, FacetType, Renderable;
    ResolvedRun(leaves, cards, ext, path);
  }

  lemma PlanServed(leaves: FacetLeaves, cards: seq<CardRef>, ext: seq<ExtSchema>, scope: Scope, path: string, dir: Dir)
    requires LeavesKeyed(leaves) && Covers(scope, cards)
    requires RunSortKey(path, RunTable(leaves, cards, ext)).Some?
    ensures PlanSort(leaves, scope, Ir.Sort(RunSortKey(path, RunTable(leaves, cards, ext)).value, dir)).Ok?
       <==> SortServed(RunTable(leaves, cards, ext), path)
  {
    hide LeavesKeyed, Covers, RunTable, RunInfo, ColumnExpr, RunSortKey, SortColumnOf, Renderable;
    SortKeyColumn(leaves, cards, ext, path);
    ColumnServed(leaves, cards, scope, RunTable(leaves, cards, ext).Resolve(path).value, Some(dir));
  }

  lemma {:induction false} PlannedAll(leaves: FacetLeaves, scope: Scope, sorts: seq<Ir.Sort>)
    ensures PlanSorts(leaves, scope, sorts).Ok? <==> forall i :: 0 <= i < |sorts| ==> PlanSort(leaves, scope, sorts[i]).Ok?
    ensures PlanSorts(leaves, scope, sorts).Ok? ==>
              forall i :: 0 <= i < |sorts| ==> PlanSort(leaves, scope, sorts[i]) == Ok(PlanSorts(leaves, scope, sorts).value[i])
  {
    hide PlanSort;
    if sorts != [] {
      PlannedAll(leaves, scope, sorts[1..]);
      assert forall i :: 0 <= i < |sorts| ==> sorts[i] == if i == 0 then sorts[0] else sorts[1..][i - 1];
    }
  }

  /** Of the requests the front end accepts, the projection refuses exactly
      those that are not served. */
  lemma RequestRendersExactly(
      be: Backend, leaves: FacetLeaves, cards: seq<CardRef>, ext: seq<ExtSchema>, scope: Scope,
      request: Request, limit: nat)
    requires LeavesKeyed(leaves) && Covers(scope, cards)
    requires RunTable(leaves, cards, ext).target.Runs? && Accepted(request, RunTable(leaves, cards, ext), None)
    ensures var table := RunTable(leaves, cards, ext);
            Compile(be, leaves, QueryOf(request, table, limit, None), scope).Ok? <==> RequestServed(be, table, request)
  {
    hide LeavesKeyed, Covers, RunTable, Render, Served, SortServed, PlanSort, RunSortKey;
    var table := RunTable(leaves, cards, ext);
    var query := QueryOf(request, table, limit, None);
    PlannedAll(leaves, scope, query.sort);
    forall i | 0 <= i < |request.sort|
      ensures PlanSort(leaves, scope, query.sort[i]).Ok? <==> SortServed(table, request.sort[i].0)
    {
      AcceptedSort(request, table, i);
      PlanServed(leaves, cards, ext, scope, request.sort[i].0, request.sort[i].1);
    }
    if request.filter.Some? {
      RendersExactly(be, leaves, cards, ext, scope, G.Parse(request.filter.value).value);
    }
  }

  // ------------------------------------------------------------- sort keys

  /** The value a run sorts under: a column as the reader sees it, and of a
      Card's verdicts the best in the direction of the sort. */
  function SortValue(be: Backend, cards: seq<(CardRef, Uuid)>, v: View, info: PathInfo, dir: Dir): Option<Sql.Value>
    requires info.Scalar?
  {
    match info.column
    case Run(Judgement(card, metric, field)) =>
      var best := Best(be, Select(v.verdicts, (e: Entry) => Verdict(cards, card, metric, e)), field, dir);
      if best.None? then None else FieldOf(best.value, field)
    case column => ValueOf(be, v, column, info.ty)
  }

  lemma {:induction false} SelectTwice<T(!new)>(xs: seq<T>, p: T -> bool, q: T -> bool, both: T -> bool)
    requires forall x :: both(x) <==> p(x) && q(x)
    ensures Select(Select(xs, p), q) == Select(xs, both)
  {
    if xs != [] {
      SelectTwice(xs[1..], p, q, both);
      var rest := Select(xs[1..], p);
      if p(xs[0]) { assert ([xs[0]] + rest)[1..] == rest; }
    }
  }

  lemma {:induction false} VerdictsOf(db: Db, scope: Scope, r: RunRow, card: CardRef, metric: string, version: Uuid)
    requires CardVersion(scope.cards, card) == Some(version)
    ensures Select(Seen(db, scope.member, r).verdicts, (e: Entry) => Verdict(scope.cards, card, metric, e))
         == Select(db.results, e => About(e, version, Mask(scope.member, r), metric))
  {
    SelectTwice(db.results, (e: Entry) => e.evalId == r.recordId && e.runId == r.runId,
                (e: Entry) => Verdict(scope.cards, card, metric, e),
                e => About(e, version, Mask(scope.member, r), metric));
  }

  lemma SortColumnMeans(be: Backend, leaves: FacetLeaves, db: Db, scope: Scope, r: RunRow,
                        cards: seq<CardRef>, info: PathInfo, dir: Dir)
    requires info.Scalar? && RunInfo(leaves, cards, info) && !info.column.Body?
    requires ColumnExpr(leaves, info.column, scope, Some(dir)).Ok?
    ensures EvalExpr(SceneFor(be, db, scope.member, r, []), ColumnExpr(leaves, info.column, scope, Some(dir)).value.0)
         == SortValue(be, scope.cards, Seen(db, scope.member, r), info, dir)
  {
    hide FacetType, LiteralText, ReadLiteral, Renderable, Select, AtPath, Seen, ValueOf, RunInfo;
    if info.column.Run? && info.column.run.Judgement? {
      var Judgement(card, metric, field) := info.column.run;
      VerdictsOf(db, scope, r, card, metric, CardVersion(scope.cards, card).value);
    } else {
      ColumnMeans(be, leaves, db, scope, r, [], cards, info);
    }
  }

  /** The keys of a row are the sort values of the run as the reader sees it. */
  lemma KeysMean(be: Backend, leaves: FacetLeaves, cards: seq<CardRef>, ext: seq<ExtSchema>, db: Db, scope: Scope,
                 request: Request, limit: nat, r: RunRow, i: nat)
    requires LeavesKeyed(leaves) && i < |request.sort|
    requires RunTable(leaves, cards, ext).target.Runs? && Accepted(request, RunTable(leaves, cards, ext), None)
    requires Compile(be, leaves, QueryOf(request, RunTable(leaves, cards, ext), limit, None), scope).Ok?
    ensures var table := RunTable(leaves, cards, ext);
            var stmt := Compile(be, leaves, QueryOf(request, table, limit, None), scope).value.stmt;
            var info := table.Resolve(request.sort[i].0);
            && info.Some? && info.value.Scalar? && |stmt.keys| == |request.sort| && stmt.dirs[i] == request.sort[i].1
            && KeyedRow(be, db, stmt, r).keys[i]
               == SortValue(be, scope.cards, Seen(db, scope.member, r), info.value, request.sort[i].1)
  {
    hide LeavesKeyed, RunTable, RenderWhere, ColumnExpr, SortValue, Seen, RunSortKey, EvalExpr, SortColumnOf, RunInfo, Mask;
    var table := RunTable(leaves, cards, ext);
    var query := QueryOf(request, table, limit, None);
    AcceptedSort(request, table, i);
    SortKeyColumn(leaves, cards, ext, request.sort[i].0);
    PlannedAll(leaves, scope, query.sort);
    assert PlanSort(leaves, scope, query.sort[i]).Ok?;
    SortColumnMeans(be, leaves, db, scope, r, cards, table.Resolve(request.sort[i].0).value, request.sort[i].1);
  }

  // ---------------------------------------------------------- end to end

  /** The request's filter is true of a run as the reader sees it. */
  predicate Matches(be: Backend, reading: Reading, scope: Scope, table: PathTable, request: Request, v: View)
    requires Accepted(request, table, None)
  {
    request.filter.Some? ==> Means(be, reading, scope.cards, table, v, G.Parse(request.filter.value).value).True?
  }

  ghost predicate ReadsPaths(request: Request, table: PathTable) {
    request.filter.Some? && G.Parse(request.filter.value).Ok? ==> PathsRead(G.Parse(request.filter.value).value, table)
  }

  lemma FilterSelects(be: Backend, leaves: FacetLeaves, cards: seq<CardRef>, ext: seq<ExtSchema>, db: Db, scope: Scope,
                      request: Request, limit: nat, reading: Reading, r: RunRow)
    requires be.Sound() && LeavesKeyed(leaves)
    requires RunTable(leaves, cards, ext).target.Runs? && Accepted(request, RunTable(leaves, cards, ext), None)
    requires reading.AsWritten? ==> ReadsPaths(request, RunTable(leaves, cards, ext))
    requires Compile(be, leaves, QueryOf(request, RunTable(leaves, cards, ext), limit, None), scope).Ok?
    ensures var table := RunTable(leaves, cards, ext);
            var stmt := Compile(be, leaves, QueryOf(request, table, limit, None), scope).value.stmt;
            && stmt.member == scope.member
            && (EvalPred(SceneOf(be, db, KeyedRow(be, db, stmt, r)), stmt.filter).True?
                <==> Matches(be, reading, scope, table, request, Seen(db, scope.member, r)))
  {
    hide Backend.Sound, LeavesKeyed, RunTable, PlanSorts, Seen, EvalExpr, Render, Mask, PathsRead, Means, EvalPred;
    var table := RunTable(leaves, cards, ext);
    var stmt := Compile(be, leaves, QueryOf(request, table, limit, None), scope).value.stmt;
    if request.filter.Some? {
      FilterMeans(be, leaves, cards, ext, db, scope, r, KeyedRow(be, db, stmt, r).keys, G.Parse(request.filter.value).value);
      if reading.AsWritten? {
        MeansAsWritten(be, scope.cards, table, Seen(db, scope.member, r), G.Parse(request.filter.value).value);
      }
    } else {
      AlwaysTrue(SceneOf(be, db, KeyedRow(be, db, stmt, r)));
    }
  }

  lemma {:induction false} AlwaysTrue(s: Scene)
    ensures EvalPred(s, PTrue).True?
  {
  }

  /** From the wire to the rows: an accepted, rendered request answers, in the
      order it asks for and none twice, exactly the listed runs whose filter is
      true of what the reader sees: as written where no path it asks for by
      `exists` holds a backslash, and as rendered always. */
  lemma RequestAnswers(be: Backend, leaves: FacetLeaves, cards: seq<CardRef>, ext: seq<ExtSchema>, db: Db, scope: Scope,
                       request: Request, limit: nat, reading: Reading)
    requires be.Sound() && LeavesKeyed(leaves) && WellKeyed(db)
    requires RunTable(leaves, cards, ext).target.Runs? && Accepted(request, RunTable(leaves, cards, ext), None)
    requires reading.AsWritten? ==> ReadsPaths(request, RunTable(leaves, cards, ext))
    requires Compile(be, leaves, QueryOf(request, RunTable(leaves, cards, ext), limit, None), scope).Ok?
    ensures var table := RunTable(leaves, cards, ext);
            var stmt := Compile(be, leaves, QueryOf(request, table, limit, None), scope).value.stmt;
            && Sorted(RowOrder(be, stmt), Rows(be, db, stmt)) && Distinct(Rows(be, db, stmt))
            && forall k :: k in Rows(be, db, stmt) <==>
                 exists r :: r in db.runs && Listed(db, stmt, r) && k == KeyedRow(be, db, stmt, r)
                             && Matches(be, reading, scope, table, request, Seen(db, scope.member, r))
  {
    hide Backend.Sound, LeavesKeyed, RunTable, WellKeyed, Seen, Compile, Matches, Listed, KeyedRow, EvalPred,
         Rows, Scan, RowOrder, Proper, Accepted, ReadsPaths, QueryOf;
    var table := RunTable(leaves, cards, ext);
    var query := QueryOf(request, table, limit, None);
    var c := Compile(be, leaves, query, scope).value;
    CompiledProper(be, leaves, query, scope);
    RowsAreFilteredAndSorted(be, db, c);
    forall r: RunRow
      ensures EvalPred(SceneOf(be, db, KeyedRow(be, db, c.stmt, r)), c.stmt.filter).True?
         <==> Matches(be, reading, scope, table, request, Seen(db, scope.member, r))
    {
      FilterSelects(be, leaves, cards, ext, db, scope, request, limit, reading, r);
    }
    forall k { ScanMember(be, db, c.stmt, k); }
  }

  // ---------------------------------------------------------- where it fails

  const SLASHED_PATH := "ext.a/b.k\\n"

  /** The run that has that path. */
  const SLASHED_DOC := Nest(SLASHED, JNull)

  /** Asked whether `ext.a/b.k\\n` exists, the projection answers no of a run that
      has it. */
  lemma {:induction false} SlashedIsMissed(be: Backend, db: Db, scope: Scope, r: RunRow)
    requires be.Sound() && be.unescape("n\"") == Some(('\n', 1))
    requires Shown(scope.member, r) && r.body == Some(SLASHED_DOC)
    ensures var table := RunTable(map[], [], []);
            var f := G.Exists(SLASHED_PATH);
            && G.Parse(G.Wire(f)) == Ok(f) && WellTyped(f, table)
            && Render(be, map[], scope, Elaborate(f, table)).Ok?
            && EvalPred(SceneFor(be, db, scope.member, r, []), Render(be, map[], scope, Elaborate(f, table)).value).False?
            && Means(be, AsWritten, scope.cards, table, Seen(db, scope.member, r), f).True?
  {
    hide Backend.Sound, LaxExists, JsonPathText, ReadJsonPath, Nest, RunTable, G.Parse, G.Wire, Select, EvalPred, Seen,
         MeansExists, Means, Render, Elaborate, WellTyped, SceneFor;
    SlashedParses();
    SlashedReadsElsewhere(be);
    SlashedRenders(be, scope, Seen(db, scope.member, r));
    SlashedRow(be, db, scope, r);
  }

  lemma {:induction false} SlashedRenders(be: Backend, scope: Scope, v: View)
    requires JsonPathRenderable(SLASHED)
    ensures var table := RunTable(map[], [], []);
            var f := G.Exists(SLASHED_PATH);
            && WellTyped(f, table)
            && Render(be, map[], scope, Elaborate(f, table)) == Ok(PPathExists(JsonPathText(SLASHED)))
            && Means(be, AsWritten, scope.cards, table, v, f)
               == MeansExists(be, AsWritten, scope.cards, v, Scalar(Body(SLASHED), String, EqExistsUntyped))
  {
    hide JsonPathText, RunTable, MeansExists, JsonPathRenderable, PathTable.Resolve, ColumnExpr;
    SlashedResolves();
  }

  lemma SlashedParses()
    ensures G.Parse(G.Wire(G.Exists(SLASHED_PATH))) == Ok(G.Exists(SLASHED_PATH))
  {
    hide G.Parse, G.Wire;
    G.ParseWire(G.Exists(SLASHED_PATH));
  }

  lemma {:induction false} SlashedRow(be: Backend, db: Db, scope: Scope, r: RunRow)
    requires Shown(scope.member, r) && r.body == Some(SLASHED_DOC)
    requires ReadJsonPath(be, JsonPathText(SLASHED)) == Some(["ext", "a/b", "k\n"])
    ensures EvalPred(SceneFor(be, db, scope.member, r, []), PPathExists(JsonPathText(SLASHED))).False?
    ensures MeansExists(be, AsWritten, scope.cards, Seen(db, scope.member, r), Scalar(Body(SLASHED), String, EqExistsUntyped)).True?
  {
    hide LaxExists, JsonPathText, ReadJsonPath, Nest, Select;
    SlashedHas();
  }

  lemma SlashedHas()
    ensures LaxExists(SLASHED_DOC, SLASHED) && !LaxExists(SLASHED_DOC, ["ext", "a/b", "k\n"])
  {
    hide LaxExists, Nest;
    LaxNest(SLASHED, JNull, SLASHED);
    LaxNest(SLASHED, JNull, ["ext", "a/b", "k\n"]);
    assert |SLASHED[2]| == 3 && SLASHED[2] != "k\n";
  }

  lemma {:induction false} SlashedResolves()
    ensures RunTable(map[], [], []).Resolve(SLASHED_PATH) == Some(Scalar(Body(SLASHED), String, EqExistsUntyped))
  {
    hide FingerprintPaths, Split, SplitOnce, ResolveUnregistered;
    var p := SLASHED_PATH;
    assert p[0] == 'e' && p[1] == 'x';
    FingerprintHead(RUN_FACETS, p);
    assert p == "ext." + "a/b" + "." + SLASHED_KEY;
    UnregisteredPath("a/b", SLASHED_KEY);
    SplitWhole(SLASHED_KEY, '.');
    assert ["ext", "a/b"] + [SLASHED_KEY] == SLASHED;
  }

  lemma {:induction false} FingerprintHead(facets: seq<string>, p: string)
    ensures p in FingerprintPaths(facets) ==> "fingerprint." <= p
  {
    if facets != [] { FingerprintHead(facets[..|facets| - 1], p); }
  }
}
