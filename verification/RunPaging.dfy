/** Following cursors over the run projection: the pages are the filtered rows
    in their order, each row once, whatever the keys and however many are NULL. */
module RunPaging {
  import opened Prelude
  import opened Json
  import opened Backend
  import opened Ir
  import opened Paths
  import opened Sql
  import opened RunSql

  // ------------------------------------------------- keys survive the cursor

  lemma KeyRoundTrip(be: Backend, ty: KeyType, v: Sql.Value)
    requires be.Sound() && HasType(v, ty)
    ensures CursorKey(be, ty, ReadKey(be, Some(v))) == Ok(Some(v))
  {
    if v.VTime? { assert be.readTime(be.showTime(v.t)) == Some(v.t); }
  }

  ghost predicate Typed(plans: seq<SortPlan>, k: Keyed) {
    && |k.keys| == |plans|
    && forall i :: 0 <= i < |plans| && k.keys[i].Some? ==> HasType(k.keys[i].value, plans[i].ty)
  }

  /** Every value of a key has the type its plan gives it. */
  ghost predicate PlanTyped(plan: SortPlan) {
    forall s: Scene :: EvalExpr(s, plan.expr).Some? ==> HasType(EvalExpr(s, plan.expr).value, plan.ty)
  }

  /** A statement that starts at the first row, with its plans. */
  ghost predicate Proper(c: Compiled) {
    && (forall p :: p in c.plans ==> PlanTyped(p))
    && c.stmt.keys == Exprs(c.plans) && c.stmt.dirs == Dirs(c.plans) && c.stmt.tiebreak == Tiebreak(c.plans)
    && c.stmt.keyset == PTrue && c.stmt.limit >= 2
  }

  lemma {:induction false} PlansTyped(leaves: FacetLeaves, scope: Scope, sorts: seq<Ir.Sort>)
    requires PlanSorts(leaves, scope, sorts).Ok?
    ensures forall p :: p in PlanSorts(leaves, scope, sorts).value ==> PlanTyped(p)
  {
    if sorts != [] {
      PlansTyped(leaves, scope, sorts[1..]);
      var plan := PlanSort(leaves, scope, sorts[0]).value;
      forall s: Scene ensures EvalExpr(s, plan.expr).Some? ==> HasType(EvalExpr(s, plan.expr).value, plan.ty) {
        ColumnTyped(leaves, SortColumnOf(sorts[0].key).value, scope, Some(sorts[0].dir), s);
      }
      assert PlanTyped(plan);
    }
  }

  lemma CompiledProper(be: Backend, leaves: FacetLeaves, query: RunQuery, scope: Scope)
    requires Compile(be, leaves, query, scope).Ok?
    ensures Proper(Compile(be, leaves, query, scope).value)
    ensures Compile(be, leaves, query, scope).value.stmt.limit == PageSize(query) + 1
  {
    PlansTyped(leaves, scope, query.sort);
  }

  lemma ScanTyped(be: Backend, db: Db, c: Compiled, k: Keyed)
    requires Proper(c) && k in Scan(be, db, c.stmt)
    ensures Typed(c.plans, k)
  {
    var listed := Select(db.runs, Listing(db, c.stmt));
    var n :| 0 <= n < |listed| && Scan(be, db, c.stmt)[n] == k;
    var scene := Scene(be, db, Mask(c.stmt.member, listed[n]), [], None);
    forall i | 0 <= i < |c.plans| && k.keys[i].Some? ensures HasType(k.keys[i].value, c.plans[i].ty) {
      assert k.keys[i] == EvalExpr(scene, c.plans[i].expr);
      assert c.plans[i] in c.plans;
    }
  }

  /** The cursor of a row decodes to that row's keys. */
  lemma {:induction false} CursorDecodes(be: Backend, plans: seq<SortPlan>, k: Keyed)
    requires be.Sound() && Typed(plans, k)
    ensures CursorKeys(be, plans, CursorAt(be, k).keys) == Ok(k.keys)
  {
    var keys := CursorAt(be, k).keys;
    forall j | 0 <= j < |plans| ensures CursorKey(be, plans[j].ty, keys[j]) == Ok(k.keys[j]) {
      assert keys[j] == ReadKey(be, k.keys[j]);
      if k.keys[j].Some? { KeyRoundTrip(be, plans[j].ty, k.keys[j].value); }
    }
    assert CursorKeys(be, plans, keys).value == k.keys;
  }

  // ------------------------------------------------------ the keyset is exact

  lemma {:induction false} AllTrue(s: Scene, ps: seq<Pred>)
    ensures EvalAll(s, ps).True? <==> forall p :: p in ps ==> EvalPred(s, p).True?
  {
    if ps != [] {
      AllTrue(s, ps[1..]);
      assert ps[0] in ps && forall p :: p in ps <==> p == ps[0] || p in ps[1..];
    }
  }

  lemma {:induction false} AnyTrue(s: Scene, ps: seq<Pred>)
    ensures EvalAny(s, ps).True? <==> exists p :: p in ps && EvalPred(s, p).True?
  {
    if ps != [] {
      AnyTrue(s, ps[1..]);
      assert ps[0] in ps && forall p :: p in ps <==> p == ps[0] || p in ps[1..];
    }
  }

  lemma {:induction false} KeyEqualExact(s: Scene, i: nat, v: Option<Sql.Value>)
    requires i < |s.keys|
    ensures EvalPred(s, KeyEqual(i, v)).True? <==> KeySame(s.be, v, s.keys[i])
  {
  }

  lemma {:induction false} KeyAfterExact(s: Scene, i: nat, dir: Dir, v: Option<Sql.Value>)
    requires i < |s.keys|
    ensures EvalPred(s, KeyAfter(i, dir, v)).True? <==> KeyBefore(s.be, dir, v, s.keys[i])
  {
    if dir.Asc? && v.Some? {
      AnyTrue(s, KeyAfter(i, dir, v).any);
      assert KeyAfter(i, dir, v).any[0] in KeyAfter(i, dir, v).any;
      assert KeyAfter(i, dir, v).any[1] in KeyAfter(i, dir, v).any;
    }
  }

  ghost predicate SameUpTo(be: Backend, a: Keyed, b: Keyed, n: nat) {
    forall j :: 0 <= j < n ==> KeySame(be, KeyAt(a, j), KeyAt(b, j))
  }

  ghost predicate AfterAt(be: Backend, plans: seq<SortPlan>, a: Keyed, b: Keyed, i: nat)
    requires i <= |plans|
  {
    if i < |plans| then KeyBefore(be, plans[i].dir, KeyAt(a, i), KeyAt(b, i))
    else IdBefore(be, Tiebreak(plans), a.row.runId, b.row.runId)
  }

  lemma {:induction false} AllSnoc(s: Scene, ps: seq<Pred>, p: Pred)
    ensures EvalAll(s, ps + [p]).True? <==> EvalAll(s, ps).True? && EvalPred(s, p).True?
  {
    hide EvalPred, EvalAll;
    AllTrue(s, ps);
    AllTrue(s, ps + [p]);
    assert forall q :: q in ps + [p] <==> q in ps || q == p;
  }

  lemma EqualsExact(be: Backend, db: Db, c: Keyed, k: Keyed, i: nat)
    requires |c.keys| == |k.keys| && i <= |c.keys|
    ensures EvalAll(SceneOf(be, db, k), EqualUpTo(c.keys, i)).True? <==> SameUpTo(be, c, k, i)
  {
    hide EvalPred, EvalAll, KeyEqual, KeySame;
    var s, equals := SceneOf(be, db, k), EqualUpTo(c.keys, i);
    AllTrue(s, equals);
    forall j | 0 <= j < i
      ensures equals[j] in equals && (EvalPred(s, equals[j]).True? <==> KeySame(be, KeyAt(c, j), KeyAt(k, j)))
    {
      KeyEqualExact(s, j, c.keys[j]);
    }
  }

  lemma DisjunctExact(be: Backend, db: Db, plans: seq<SortPlan>, c: Keyed, k: Keyed, i: nat)
    requires |c.keys| == |plans| == |k.keys| && i <= |plans|
    ensures EvalPred(SceneOf(be, db, k), Disjunct(plans, c.keys, c.row.runId, i)).True?
       <==> SameUpTo(be, c, k, i) && AfterAt(be, plans, c, k, i)
  {
    hide KeyAfter, KeyEqual, SameUpTo, KeyBefore;
    var s := SceneOf(be, db, k);
    var last := if i < |plans| then KeyAfter(i, plans[i].dir, c.keys[i]) else IdAfter(Tiebreak(plans), c.row.runId);
    AllSnoc(s, EqualUpTo(c.keys, i), last);
    EqualsExact(be, db, c, k, i);
    if i < |plans| { KeyAfterExact(s, i, plans[i].dir, c.keys[i]); }
  }

  /** Strictly after, unfolded: some key decides and the keys before it agree. */
  lemma {:induction false} BeforeUnfolds(be: Backend, plans: seq<SortPlan>, a: Keyed, b: Keyed, i: nat)
    requires i <= |plans|
    ensures Before(be, Dirs(plans), Tiebreak(plans), i, a, b)
       <==> exists m :: i <= m <= |plans| && (forall j :: i <= j < m ==> KeySame(be, KeyAt(a, j), KeyAt(b, j)))
                        && AfterAt(be, plans, a, b, m)
    decreases |plans| - i
  {
    if i < |plans| {
      BeforeUnfolds(be, plans, a, b, i + 1);
      if AfterAt(be, plans, a, b, i) {
        assert Before(be, Dirs(plans), Tiebreak(plans), i, a, b);
      }
    } else {
      assert Before(be, Dirs(plans), Tiebreak(plans), i, a, b) <==> AfterAt(be, plans, a, b, i);
    }
  }

  /** The keyset predicate is TRUE, in three-valued logic, exactly for the rows
      strictly after the cursor's. */
  lemma {:induction false} KeysetExact(be: Backend, db: Db, plans: seq<SortPlan>, c: Keyed, k: Keyed)
    requires |c.keys| == |plans| == |k.keys|
    ensures EvalPred(SceneOf(be, db, k), KeysetPred(plans, c.keys, c.row.runId)).True?
       <==> Before(be, Dirs(plans), Tiebreak(plans), 0, c, k)
  {
    var s := SceneOf(be, db, k);
    var ps := KeysetPred(plans, c.keys, c.row.runId).any;
    AnyTrue(s, ps);
    BeforeUnfolds(be, plans, c, k, 0);
    forall i | 0 <= i <= |plans|
      ensures EvalPred(s, ps[i]).True? <==> SameUpTo(be, c, k, i) && AfterAt(be, plans, c, k, i)
    {
      DisjunctExact(be, db, plans, c, k, i);
    }
    if EvalPred(s, PAny(ps)).True? {
      var p :| p in ps && EvalPred(s, p).True?;
      var i :| 0 <= i < |ps| && ps[i] == p;
      assert SameUpTo(be, c, k, i) && AfterAt(be, plans, c, k, i);
    }
    if Before(be, Dirs(plans), Tiebreak(plans), 0, c, k) {
      var m :| 0 <= m <= |plans| && SameUpTo(be, c, k, m) && AfterAt(be, plans, c, k, m);
      assert ps[m] in ps;
    }
  }

  // ------------------------------------------------------------- whole walks

  /** The statement continued after row `k`. */
  function After(c: Compiled, k: Keyed): Stmt
    requires |k.keys| == |c.plans|
  {
    c.stmt.(keyset := KeysetPred(c.plans, k.keys, k.row.runId))
  }

  lemma AfterContinues(be: Backend, c: Compiled, k: Keyed)
    requires be.Sound() && Typed(c.plans, k)
    ensures Continue(be, c, Some(CursorAt(be, k))) == Ok(After(c, k))
  {
    CursorDecodes(be, c.plans, k);
  }

  /** The keyset plays no part before the `WHERE`. */
  lemma {:induction false} SameListing(db: Db, a: Stmt, b: Stmt, runs: seq<RunRow>)
    requires b == a.(keyset := b.keyset)
    ensures Select(runs, Listing(db, a)) == Select(runs, Listing(db, b))
  {
    if runs != [] { SameListing(db, a, b, runs[1..]); }
  }

  lemma SameScan(be: Backend, db: Db, a: Stmt, b: Stmt)
    requires b == a.(keyset := b.keyset)
    ensures Scan(be, db, a) == Scan(be, db, b)
  {
    SameListing(db, a, b, db.runs);
    forall r ensures KeyedRow(be, db, a, r) == KeyedRow(be, db, b, r) {}
  }

  lemma AfterRow(be: Backend, db: Db, c: Compiled, from: Keyed, k: Keyed)
    requires Proper(c) && |from.keys| == |c.plans|
    ensures k in Rows(be, db, After(c, from)) <==> k in Rows(be, db, c.stmt) && RowOrder(be, c.stmt)(from, k)
  {
    SameScan(be, db, c.stmt, After(c, from));
    RowMember(be, db, c.stmt, k);
    RowMember(be, db, After(c, from), k);
    if k in Scan(be, db, c.stmt) {
      ScanTyped(be, db, c, k);
      KeysetExact(be, db, c.plans, from, k);
    }
  }

  lemma SortedTail<T(!new)>(less: (T, T) -> bool, xs: seq<T>, i: nat, x: T)
    requires StrictOrder(less) && Sorted(less, xs) && i < |xs|
    ensures x in xs[i + 1..] <==> x in xs && less(xs[i], x)
  {
    if x in xs && less(xs[i], x) {
      var j :| 0 <= j < |xs| && xs[j] == x;
      assert j > i;
      assert xs[i + 1..][j - i - 1] == x;
    }
  }

  /** After row `i` come exactly the rows from `i + 1` on. */
  lemma RowsAfter(be: Backend, db: Db, c: Compiled, i: nat)
    requires be.Sound() && WellKeyed(db) && Proper(c)
    requires i < |Rows(be, db, c.stmt)|
    ensures var all := Rows(be, db, c.stmt);
            && Continue(be, c, Some(CursorAt(be, all[i]))).Ok?
            && Rows(be, db, Continue(be, c, Some(CursorAt(be, all[i]))).value) == all[i + 1..]
  {
    var all := Rows(be, db, c.stmt);
    var from := all[i];
    RowMember(be, db, c.stmt, from);
    ScanTyped(be, db, c, from);
    AfterContinues(be, c, from);
    var rest := Rows(be, db, After(c, from));
    RowsSorted(be, db, c.stmt);
    RowsSorted(be, db, After(c, from));
    var less := RowOrder(be, c.stmt);
    SameOrder(be, c.stmt, After(c, from), rest);
    forall k ensures k in rest <==> k in all[i + 1..] {
      AfterRow(be, db, c, from, k);
      SortedTail(less, all, i, k);
    }
    SortedUnique(less, rest, all[i + 1..]);
  }

  lemma SameOrder(be: Backend, a: Stmt, b: Stmt, rows: seq<Keyed>)
    requires b == a.(keyset := b.keyset) && Sorted(RowOrder(be, b), rows)
    ensures Sorted(RowOrder(be, a), rows)
  {
    forall i, j | 0 <= i < j < |rows| ensures RowOrder(be, a)(rows[i], rows[j]) {
      assert RowOrder(be, b)(rows[i], rows[j]);
    }
  }

  /** The cursor stands where `rest` is still to come. */
  ghost predicate StandsAt(be: Backend, db: Db, c: Compiled, cursor: Option<RunCursor>, rest: seq<Keyed>) {
    Continue(be, c, cursor).Ok? && Rows(be, db, Continue(be, c, cursor).value) == rest
  }

  lemma StandsAtStart(be: Backend, db: Db, c: Compiled)
    ensures StandsAt(be, db, c, None, Rows(be, db, c.stmt))
  {
  }

  lemma StandsAfter(be: Backend, db: Db, c: Compiled, i: nat)
    requires be.Sound() && WellKeyed(db) && Proper(c) && i < |Rows(be, db, c.stmt)|
    ensures StandsAt(be, db, c, Some(CursorAt(be, Rows(be, db, c.stmt)[i])), Rows(be, db, c.stmt)[i + 1..])
  {
    RowsAfter(be, db, c, i);
  }

  /** One page: the next `n` rows, or all that are left and no cursor. */
  lemma PageSplits(be: Backend, all: seq<Keyed>, done: nat, n: nat, page: Page)
    requires done <= |all| && n >= 1 && page == PageOf(be, all[done..], n)
    ensures var after := done + |page.rows|;
            && after <= |all| && page.rows == all[done..after] && |page.rows| <= n
            && if page.next.None? then after == |all|
               else |page.rows| == n && page.next == Some(CursorAt(be, all[after - 1]))
  {
  }

  ghost predicate AllOf(pages: seq<seq<Keyed>>, n: nat) {
    forall p :: p in pages ==> |p| == n
  }

  /** A client that follows `next` from no cursor until there is none: the pages
      end, put together they are all the rows in order, and all but the last
      are full. */
  method FollowCursors(be: Backend, db: Db, c: Compiled) returns (full: seq<seq<Keyed>>, last: seq<Keyed>)
    requires be.Sound() && WellKeyed(db) && Proper(c) && c.stmt.limit >= 2 && Castable(be, c.stmt.filter)
    ensures Flatten(full) + last == Rows(be, db, c.stmt)
    ensures AllOf(full, c.stmt.limit - 1) && |last| <= c.stmt.limit - 1
  {
    hide Proper, Rows, PageOf, CursorAt, WellKeyed, Backend.Sound, Castable, Keyset;
    var n := c.stmt.limit - 1;
    ghost var all := Rows(be, db, c.stmt);
    ghost var done: nat := 0;
    full := [];
    StandsAtStart(be, db, c);
    var fetched := FetchPage(be, db, c, None);
    var page := fetched.value;
    PageSplits(be, all, 0, n, page);
    while page.next.Some?
      invariant done <= |all| && page == PageOf(be, all[done..], n)
      invariant Flatten(full) == all[..done] && AllOf(full, n)
      decreases |all| - done
    {
      PageSplits(be, all, done, n, page);
      FlattenSnoc(full, page.rows);
      full := full + [page.rows];
      done := done + n;
      StandsAfter(be, db, c, done - 1);
      fetched := FetchPage(be, db, c, page.next);
      page := fetched.value;
    }
    PageSplits(be, all, done, n, page);
    last := page.rows;
  }

  /** The rows of a walk are exactly those the filter makes TRUE, in strictly
      ascending order of the sort, none twice. */
  lemma RowsAreFilteredAndSorted(be: Backend, db: Db, c: Compiled)
    requires be.Sound() && WellKeyed(db) && Proper(c)
    ensures var all := Rows(be, db, c.stmt);
            && Sorted(RowOrder(be, c.stmt), all) && Distinct(all)
            && forall k :: k in all <==>
                 k in Scan(be, db, c.stmt) && EvalPred(SceneOf(be, db, k), c.stmt.filter).True?
  {
    RowsSorted(be, db, c.stmt);
    var all := Rows(be, db, c.stmt);
    forall k { RowMember(be, db, c.stmt, k); }
    forall i, j | 0 <= i < j < |all| ensures all[i] != all[j] {
      assert RowOrder(be, c.stmt)(all[i], all[j]);
    }
  }

  /** The pages of a walk, the last one apart. */
  datatype Walked = Walked(full: seq<seq<Keyed>>, last: seq<Keyed>)

  /** The whole of a query, page by page, or why there is none. */
  method WalkQuery(be: Backend, leaves: FacetLeaves, db: Db, query: RunQuery, scope: Scope) returns (r: Rendered<Walked>)
    requires be.Sound() && WellKeyed(db)
    ensures var c := Compile(be, leaves, query, scope);
            r.Ok? <==> c.Ok? && Castable(be, c.value.stmt.filter)
    ensures r.Ok? ==>
              && Flatten(r.value.full) + r.value.last == Rows(be, db, Compile(be, leaves, query, scope).value.stmt)
              && AllOf(r.value.full, PageSize(query)) && |r.value.last| <= PageSize(query)
  {
    hide Backend.Sound, Castable, Rows, Proper;
    var c := Build(be, leaves, query, scope);
    if c.Err? {
      return Err(c.error);
    }
    if !Castable(be, c.value.stmt.filter) {
      return Err(CastFailed);
    }
    CompiledProper(be, leaves, query, scope);
    var full, last := FollowCursors(be, db, c.value);
    r := Ok(Walked(full, last));
  }
}
