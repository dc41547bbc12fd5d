/** The run projection as a reader gets it (`evalhub-store/src/runs.rs`,
    `project`), and what it keeps from the reader: two stores that differ only
    in runs not shown give the same page for every query. */
module RunMasking {
  import opened Prelude
  import opened Json
  import opened Backend
  import opened Ir
  import opened Paths
  import opened Sql
  import opened RunSql
  import opened RunHash

  // --------------------------------------------------------------- the page

  /** A Card of the request: its latest live version, and whether that version
      has a `core/uses_eval` edge into this Eval. */
  datatype CardRow = CardRow(recordId: Uuid, ns: string, open: bool, versionId: Uuid, seqNo: nat, uses: bool)

  datatype JoinedCard = JoinedCard(card: CardRef, recordId: Uuid, versionId: Uuid, seqNo: nat)

  datatype ProjectedCard = ProjectedCard(card: JoinedCard, summary: Summary)

  datatype RunDetail = RunDetail(
    status: string, errorKind: Option<string>, startedAt: Option<int>, endedAt: Option<int>,
    metrics: map<string, int>, fingerprints: map<string, string>)

  datatype CardCell = CardCell(used: bool, changed: bool, verdicts: seq<Entry>)

  datatype ProjectedRun = ProjectedRun(
    runId: string, contentHash: Digest, state: RunState, detail: Option<RunDetail>, cells: seq<CardCell>)

  datatype RunPage = RunPage(cards: seq<ProjectedCard>, runs: seq<ProjectedRun>, next: Option<RunCursor>)

  predicate VisibleTo(open: bool, ns: string, callerNs: seq<string>) {
    open || ns in callerNs
  }

  // ------------------------------------------------------------------ Cards

  predicate CardJoins(rows: map<CardRef, CardRow>, callerNs: seq<string>, card: CardRef) {
    card in rows && rows[card].uses && VisibleTo(rows[card].open, rows[card].ns, callerNs)
  }

  function JoinCard(rows: map<CardRef, CardRow>, card: CardRef): JoinedCard
    requires card in rows
  {
    JoinedCard(card, rows[card].recordId, rows[card].versionId, rows[card].seqNo)
  }

  ghost predicate AllJoin(rows: map<CardRef, CardRow>, callerNs: seq<string>, cards: seq<CardRef>) {
    forall c :: c in cards ==> CardJoins(rows, callerNs, c)
  }

  function JoinAll(rows: map<CardRef, CardRow>, cards: seq<CardRef>): (r: seq<JoinedCard>)
    requires forall c :: c in cards ==> c in rows
    ensures |r| == |cards| && forall i :: 0 <= i < |cards| ==> r[i] == JoinCard(rows, cards[i])
  {
    seq(|cards|, i requires 0 <= i < |cards| => assert cards[i] in cards; JoinCard(rows, cards[i]))
  }

  function Unjoined(rows: map<CardRef, CardRow>, callerNs: seq<string>, cards: seq<CardRef>): seq<CardRef> {
    Select(cards, (c: CardRef) => !CardJoins(rows, callerNs, c))
  }

  /** Every Card of the request joins, or the ones that do not are listed. */
  method ResolveCards(rows: map<CardRef, CardRow>, callerNs: seq<string>, cards: seq<CardRef>)
    returns (r: Result<seq<JoinedCard>, seq<CardRef>>)
    ensures r.Ok? <==> AllJoin(rows, callerNs, cards)
    ensures r.Ok? ==> r.value == JoinAll(rows, cards)
    ensures r.Err? ==> r.error == Unjoined(rows, callerNs, cards)
  {
    var joined: seq<JoinedCard> := [];
    var unknown: seq<CardRef> := [];
    for i := 0 to |cards|
      invariant unknown == Unjoined(rows, callerNs, cards[..i])
      invariant unknown == [] ==> |joined| == i
      invariant unknown == [] ==> forall k :: 0 <= k < i ==>
                  CardJoins(rows, callerNs, cards[k]) && joined[k] == JoinCard(rows, cards[k])
    {
      assert cards[..i + 1] == cards[..i] + [cards[i]];
      SelectSnoc(cards[..i], (c: CardRef) => !CardJoins(rows, callerNs, c), cards[i]);
      if CardJoins(rows, callerNs, cards[i]) {
        joined := joined + [JoinCard(rows, cards[i])];
      } else {
        unknown := unknown + [cards[i]];
      }
    }
    assert cards[..|cards|] == cards;
    if unknown != [] {
      SelectMember(cards, (c: CardRef) => !CardJoins(rows, callerNs, c), unknown[0]);
      return Err(unknown);
    }
    assert joined == JoinAll(rows, cards);
    r := Ok(joined);
  }

  // -------------------------------------------------------------- used sets

  function UsedBy(db: Db, version: Uuid, evalId: Uuid): RunRow -> bool {
    (r: RunRow) => r.recordId == evalId && UsedKey(version, evalId, r.runId) in db.used
  }

  function AsUsed(db: Db, version: Uuid, r: RunRow): UsedRun
    requires UsedKey(version, r.recordId, r.runId) in db.used
  {
    UsedRun(r.runId, db.used[UsedKey(version, r.recordId, r.runId)], r.contentHash)
  }

  function UsedOrder(be: Backend): (UsedRun, UsedRun) -> bool {
    (a: UsedRun, b: UsedRun) => be.collate(a.runId) < be.collate(b.runId)
  }

  function UsedScan(db: Db, version: Uuid, evalId: Uuid, runs: seq<RunRow>): seq<UsedRun> {
    if runs == [] then []
    else
      (if UsedBy(db, version, evalId)(runs[0]) then [AsUsed(db, version, runs[0])] else [])
      + UsedScan(db, version, evalId, runs[1..])
  }

  /** `used_set::read` for one Card version: the recorded runs joined with their
      rows, by `run_id`. */
  function UsedRuns(be: Backend, db: Db, version: Uuid, evalId: Uuid): seq<UsedRun> {
    Prelude.Sort(UsedOrder(be), UsedScan(db, version, evalId, db.runs))
  }

  // ------------------------------------------------------------------- cells

  predicate OrdinalLess(a: Entry, b: Entry) {
    a.ordinal < b.ordinal
  }

  /** One Card's `run_results[]` entries for a run, in their order. */
  function VerdictsFor(results: seq<Entry>, version: Uuid, evalId: Uuid, runId: string): seq<Entry> {
    Prelude.Sort(OrdinalLess, Select(results, (e: Entry) => e.versionId == version && e.evalId == evalId && e.runId == runId))
  }

  function Ids(runs: seq<UsedRun>): set<string> {
    set u | u in runs :: u.runId
  }

  function Cell(be: Backend, db: Db, evalId: Uuid, card: JoinedCard, runId: string): CardCell {
    var used := UsedRuns(be, db, card.versionId, evalId);
    CardCell(runId in Ids(used), runId in ChangedIds(used), VerdictsFor(db.results, card.versionId, evalId, runId))
  }

  function DetailOf(db: Db, row: Masked): Option<RunDetail> {
    if !row.shown then None
    else Some(RunDetail(
      if row.status.Some? then row.status.value else "", row.errorKind, row.startedAt, row.endedAt,
      SideOf(db.metrics, row.recordId, row.runId), SideOf(db.fingerprints, row.recordId, row.runId)))
  }

  function Cells(be: Backend, db: Db, evalId: Uuid, cards: seq<JoinedCard>, runId: string): seq<CardCell> {
    Map((c: JoinedCard) => Cell(be, db, evalId, c, runId), cards)
  }

  function ProjectRun(be: Backend, db: Db, evalId: Uuid, cards: seq<JoinedCard>, row: Masked): ProjectedRun {
    ProjectedRun(row.runId, row.contentHash, row.state, DetailOf(db, row), Cells(be, db, evalId, cards, row.runId))
  }

  function Summaries(be: Backend, hex: Hex, db: Db, evalId: Uuid, cards: seq<JoinedCard>): seq<ProjectedCard> {
    Map((c: JoinedCard) => ProjectedCard(c, Summarise(hex, UsedRuns(be, db, c.versionId, evalId))), cards)
  }

  function ProjectRows(be: Backend, db: Db, evalId: Uuid, cards: seq<JoinedCard>, rows: seq<Keyed>): seq<ProjectedRun> {
    Map((k: Keyed) => ProjectRun(be, db, evalId, cards, k.row), rows)
  }

  function Scoped(cards: seq<JoinedCard>): seq<(CardRef, Uuid)> {
    Map((c: JoinedCard) => (c.card, c.versionId), cards)
  }

  function ScopeFor(recordId: Uuid, member: bool, archived: bool, deleted: bool, cards: seq<JoinedCard>): Scope {
    Scope(recordId, member, archived, deleted, Scoped(cards))
  }

  /** The page of an Eval the reader may see, its Cards joined. */
  function Projection(be: Backend, hex: Hex, leaves: FacetLeaves, db: Db, query: RunQuery, scope: Scope, cards: seq<JoinedCard>)
    : Rendered<RunPage>
  {
    var c := Compile(be, leaves, query, scope);
    if c.Err? then Err(c.error)
    else
      var page := Answer(be, db, Continue(be, c.value, query.cursor), PageSize(query));
      if page.Err? then Err(page.error)
      else
        Ok(RunPage(Summaries(be, hex, db, scope.recordId, cards),
                   ProjectRows(be, db, scope.recordId, cards, page.value.rows), page.value.next))
  }

  datatype ProjectError = CardsUnknown(cards: seq<CardRef>) | QueryUnsupported(why: Unsupported)

  /** An Eval record with a live header. */
  datatype EvalRow = EvalRow(recordId: Uuid, ns: string, open: bool)

  datatype RunInclude = RunInclude(archived: bool, deleted: bool)

  /** What `project` answers: nothing for an Eval that is missing or not visible,
      the Cards that do not join, why there is no page, or the page. */
  function Projected(be: Backend, hex: Hex, leaves: FacetLeaves, db: Db, rows: map<CardRef, CardRow>, callerNs: seq<string>,
                     query: RunQuery, eval: Option<EvalRow>, wanted: RunInclude): Option<Result<RunPage, ProjectError>> {
    if eval.None? || !VisibleTo(eval.value.open, eval.value.ns, callerNs) then None
    else if Unjoined(rows, callerNs, query.cards) != [] then Some(Err(CardsUnknown(Unjoined(rows, callerNs, query.cards))))
    else
      Joining(rows, callerNs, query.cards);
      var cards := JoinAll(rows, query.cards);
      var scope := ScopeFor(eval.value.recordId, eval.value.ns in callerNs, wanted.archived, wanted.deleted, cards);
      var page := Projection(be, hex, leaves, db, query, scope, cards);
      Some(if page.Err? then Err(QueryUnsupported(page.error)) else Ok(page.value))
  }

  lemma Joining(rows: map<CardRef, CardRow>, callerNs: seq<string>, cards: seq<CardRef>)
    ensures Unjoined(rows, callerNs, cards) == [] <==> AllJoin(rows, callerNs, cards)
  {
    hide CardJoins;
    var bad := Unjoined(rows, callerNs, cards);
    forall c ensures c in bad <==> c in cards && !CardJoins(rows, callerNs, c) {
      SelectMember(cards, (c: CardRef) => !CardJoins(rows, callerNs, c), c);
    }
    if bad != [] { assert bad[0] in bad; }
  }

  /** `project` */
  method Project(be: Backend, hex: Hex, leaves: FacetLeaves, db: Db, rows: map<CardRef, CardRow>, callerNs: seq<string>,
                 query: RunQuery, eval: Option<EvalRow>, wanted: RunInclude)
    returns (r: Option<Result<RunPage, ProjectError>>)
    ensures r == Projected(be, hex, leaves, db, rows, callerNs, query, eval, wanted)
  {
    hide Rows, Summarise, UsedRuns, PlanSorts, Render, Keyset, CardJoins;
    if eval.None? || !VisibleTo(eval.value.open, eval.value.ns, callerNs) {
      return None;
    }
    var recordId := eval.value.recordId;
    Joining(rows, callerNs, query.cards);
    var joined := ResolveCards(rows, callerNs, query.cards);
    if joined.Err? {
      return Some(Err(CardsUnknown(joined.error)));
    }
    var cards := joined.value;
    var scope := ScopeFor(recordId, eval.value.ns in callerNs, wanted.archived, wanted.deleted, cards);
    var fetched := Fetch(be, leaves, db, query, scope);
    if fetched.Err? {
      return Some(Err(QueryUnsupported(fetched.error)));
    }
    var summaries: seq<ProjectedCard> := [];
    for i := 0 to |cards|
      invariant |summaries| == i
      invariant forall k :: 0 <= k < i ==> summaries[k] == Summaries(be, hex, db, recordId, cards)[k]
    {
      var used := UsedRuns(be, db, cards[i].versionId, recordId);
      summaries := summaries + [ProjectedCard(cards[i], Summarise(hex, used))];
    }
    assert summaries == Summaries(be, hex, db, recordId, cards);
    r := Some(Ok(RunPage(summaries, ProjectRows(be, db, recordId, cards, fetched.value.rows), fetched.value.next)));
  }

  // ---------------------------------------------------------------- masking

  /** A run of one store and a run of another look alike to the reader. */
  ghost predicate LooksLike(member: bool, a: Db, r: RunRow, b: Db, s: RunRow) {
    && Mask(member, r) == Mask(member, s)
    && (Shown(member, r) ==>
          && SideOf(a.metrics, r.recordId, r.runId) == SideOf(b.metrics, s.recordId, s.runId)
          && SideOf(a.fingerprints, r.recordId, r.runId) == SideOf(b.fingerprints, s.recordId, s.runId))
  }

  ghost predicate Covered(member: bool, recordId: Uuid, a: Db, b: Db) {
    forall r :: r in a.runs && r.recordId == recordId ==> exists s :: s in b.runs && LooksLike(member, a, r, b, s)
  }

  /** Two stores a reader of one Eval cannot tell apart run by run: the shown
      runs are the same, the others have the same ids and content hashes, and
      the Cards' rows are the same. */
  ghost predicate SameToReader(member: bool, recordId: Uuid, a: Db, b: Db) {
    && a.results == b.results && a.used == b.used
    && Covered(member, recordId, a, b) && Covered(member, recordId, b, a)
  }

  /** The scene of one row in two stores. */
  ghost predicate SameScene(s: Scene, t: Scene) {
    && s.be == t.be && s.row == t.row && s.keys == t.keys && s.entry == t.entry
    && s.db.results == t.db.results
    && (s.row.shown ==>
          && SideOf(s.db.metrics, s.row.recordId, s.row.runId) == SideOf(t.db.metrics, s.row.recordId, s.row.runId)
          && SideOf(s.db.fingerprints, s.row.recordId, s.row.runId) == SideOf(t.db.fingerprints, s.row.recordId, s.row.runId))
  }

  lemma {:induction false} SameSelect<T(!new)>(xs: seq<T>, p: T -> bool, q: T -> bool)
    requires forall x :: x in xs ==> p(x) == q(x)
    ensures Select(xs, p) == Select(xs, q)
  {
    if xs != [] { SameSelect(xs[1..], p, q); }
  }

  lemma SameSide<T>(m: map<(Uuid, string), map<string, T>>, recordId: Uuid, runId: string, k: string)
    ensures (recordId, runId) in m && k in m[(recordId, runId)] <==> k in SideOf(m, recordId, runId)
    ensures (recordId, runId) in m && k in m[(recordId, runId)] ==> m[(recordId, runId)][k] == SideOf(m, recordId, runId)[k]
  {
  }

  /** No expression reads more of a row than the reader may see. */
  lemma ExprBlind(s: Scene, t: Scene, e: Expr)
    requires SameScene(s, t)
    ensures EvalExpr(s, e) == EvalExpr(t, e)
  {
    hide Quoting.ReadLiteral, AtPath, Best;
    match e
    case MetricOf(metric) =>
      SameSide(s.db.metrics, s.row.recordId, s.row.runId, metric);
      SameSide(t.db.metrics, s.row.recordId, s.row.runId, metric);
    case FingerprintOf(facet) =>
      SameSide(s.db.fingerprints, s.row.recordId, s.row.runId, facet);
      SameSide(t.db.fingerprints, s.row.recordId, s.row.runId, facet);
    case BestEntry(versionId, metric, _, _) =>
      SameSelect(s.db.results, e => About(e, versionId, s.row, metric), e => About(e, versionId, t.row, metric));
    case _ =>
  }

  /** Nor does any predicate, however deep. */
  lemma {:induction false} PredBlind(s: Scene, t: Scene, p: Pred)
    requires SameScene(s, t)
    ensures EvalPred(s, p) == EvalPred(t, p)
    decreases p
  {
    hide EvalExpr, Quoting.Like, Quoting.ReadJsonPath, LaxExists, JsonContains, Rank, Holds;
    match p
    case PAll(ps) => AllBlind(s, t, ps);
    case PAny(ps) => AllBlind(s, t, ps);
    case PNot(q) => PredBlind(s, t, q);
    case PCompare(e, _, _) => ExprBlind(s, t, e);
    case PIn(e, _) => ExprBlind(s, t, e);
    case PLike(e, _) => ExprBlind(s, t, e);
    case PIsNull(e) => ExprBlind(s, t, e);
    case PNotNull(e) => ExprBlind(s, t, e);
    case PExistsEntry(_, _, cond) =>
      forall e: Entry ensures EvalPred(s.(entry := Some(e)), cond) == EvalPred(t.(entry := Some(e)), cond) {
        PredBlind(s.(entry := Some(e)), t.(entry := Some(e)), cond);
      }
    case _ =>
  }

  lemma {:induction false} AllBlind(s: Scene, t: Scene, ps: seq<Pred>)
    requires SameScene(s, t)
    ensures EvalAll(s, ps) == EvalAll(t, ps) && EvalAny(s, ps) == EvalAny(t, ps)
    decreases ps
  {
    if ps != [] {
      PredBlind(s, t, ps[0]);
      AllBlind(s, t, ps[1..]);
    }
  }

  // ---------------------------------------------------------------- the rows

  lemma ListedBlind(a: Db, r: RunRow, b: Db, s: RunRow, stmt: Stmt)
    requires a.used == b.used && LooksLike(stmt.member, a, r, b, s)
    ensures Listed(a, stmt, r) == Listed(b, stmt, s)
  {
  }

  lemma KeyedBlind(be: Backend, a: Db, r: RunRow, b: Db, s: RunRow, stmt: Stmt)
    requires a.results == b.results && LooksLike(stmt.member, a, r, b, s)
    ensures KeyedRow(be, a, stmt, r) == KeyedRow(be, b, stmt, s)
    ensures SameScene(SceneOf(be, a, KeyedRow(be, a, stmt, r)), SceneOf(be, b, KeyedRow(be, b, stmt, s)))
  {
    hide EvalExpr;
    var row := Mask(stmt.member, r);
    var x, y := Scene(be, a, row, [], None), Scene(be, b, row, [], None);
    forall i | 0 <= i < |stmt.keys| ensures EvalExpr(x, stmt.keys[i]) == EvalExpr(y, stmt.keys[i]) {
      ExprBlind(x, y, stmt.keys[i]);
    }
    assert KeyedRow(be, a, stmt, r).keys == KeyedRow(be, b, stmt, s).keys;
  }

  /** A row of the answer in one store is a row of the answer in the other. */
  lemma RowBlind(be: Backend, a: Db, b: Db, stmt: Stmt, k: Keyed)
    requires a.results == b.results && a.used == b.used && Covered(stmt.member, stmt.recordId, a, b)
    requires k in Rows(be, a, stmt)
    ensures k in Rows(be, b, stmt) && SameScene(SceneOf(be, a, k), SceneOf(be, b, k))
  {
    hide Rows, Scan, EvalPred, LooksLike, Mask, KeyedRow, SameScene;
    RowMember(be, a, stmt, k);
    RowMember(be, b, stmt, k);
    ScanMember(be, a, stmt, k);
    ScanMember(be, b, stmt, k);
    var r :| r in a.runs && Listed(a, stmt, r) && k == KeyedRow(be, a, stmt, r);
    var s :| s in b.runs && LooksLike(stmt.member, a, r, b, s);
    ListedBlind(a, r, b, s, stmt);
    KeyedBlind(be, a, r, b, s, stmt);
    PredBlind(SceneOf(be, a, k), SceneOf(be, b, k), stmt.filter);
    PredBlind(SceneOf(be, a, k), SceneOf(be, b, k), stmt.keyset);
  }

  lemma RowsBlind(be: Backend, a: Db, b: Db, stmt: Stmt)
    requires be.Sound() && WellKeyed(a) && WellKeyed(b) && SameToReader(stmt.member, stmt.recordId, a, b)
    ensures Rows(be, a, stmt) == Rows(be, b, stmt)
  {
    hide Backend.Sound, WellKeyed, Rows, Covered, SameScene;
    RowsSorted(be, a, stmt);
    RowsSorted(be, b, stmt);
    forall k ensures k in Rows(be, a, stmt) <==> k in Rows(be, b, stmt) {
      if k in Rows(be, a, stmt) { RowBlind(be, a, b, stmt, k); }
      if k in Rows(be, b, stmt) { RowBlind(be, b, a, stmt, k); }
    }
    SortedUnique(RowOrder(be, stmt), Rows(be, a, stmt), Rows(be, b, stmt));
  }

  // --------------------------------------------------------------- the Cards

  lemma {:induction false} UsedMember(db: Db, version: Uuid, evalId: Uuid, runs: seq<RunRow>, u: UsedRun)
    ensures u in UsedScan(db, version, evalId, runs) <==>
            exists r :: r in runs && r.recordId == evalId && UsedKey(version, evalId, r.runId) in db.used && u == AsUsed(db, version, r)
  {
    if runs != [] {
      UsedMember(db, version, evalId, runs[1..], u);
      assert forall r :: r in runs <==> r == runs[0] || r in runs[1..];
    }
  }

  lemma {:induction false} UsedApart(be: Backend, db: Db, version: Uuid, evalId: Uuid, runs: seq<RunRow>, u: UsedRun)
    requires be.Sound() && KeyedBy(runs) && runs != [] && runs[0].recordId == evalId
    requires u in UsedScan(db, version, evalId, runs[1..])
    ensures be.collate(u.runId) != be.collate(runs[0].runId)
  {
    hide UsedScan;
    UsedMember(db, version, evalId, runs[1..], u);
    var r :| r in runs[1..] && r.recordId == evalId && UsedKey(version, evalId, r.runId) in db.used && u == AsUsed(db, version, r);
    var k :| 0 <= k < |runs[1..]| && runs[1..][k] == r;
    assert runs[k + 1] == r;
  }

  lemma {:induction false} UsedComparable(be: Backend, db: Db, version: Uuid, evalId: Uuid, runs: seq<RunRow>)
    requires be.Sound() && KeyedBy(runs)
    ensures Comparable(UsedOrder(be), UsedScan(db, version, evalId, runs))
  {
    hide Backend.Sound, AsUsed;
    if runs != [] {
      UsedComparable(be, db, version, evalId, runs[1..]);
      var rest := UsedScan(db, version, evalId, runs[1..]);
      if UsedBy(db, version, evalId)(runs[0]) {
        forall u | u in rest ensures be.collate(u.runId) != be.collate(runs[0].runId) {
          UsedApart(be, db, version, evalId, runs, u);
        }
        UsedId(db, version, runs[0]);
        assert UsedScan(db, version, evalId, runs) == [AsUsed(db, version, runs[0])] + rest;
      }
    }
  }

  lemma UsedId(db: Db, version: Uuid, r: RunRow)
    requires UsedKey(version, r.recordId, r.runId) in db.used
    ensures AsUsed(db, version, r).runId == r.runId
  {
  }

  lemma UsedSorted(be: Backend, db: Db, version: Uuid, evalId: Uuid)
    requires be.Sound() && WellKeyed(db)
    ensures StrictOrder(UsedOrder(be)) && Sorted(UsedOrder(be), UsedRuns(be, db, version, evalId))
  {
    UsedComparable(be, db, version, evalId, db.runs);
    SortSorted(UsedOrder(be), UsedScan(db, version, evalId, db.runs));
  }

  lemma UsedRunBlind(be: Backend, a: Db, b: Db, member: bool, version: Uuid, evalId: Uuid, u: UsedRun)
    requires a.used == b.used && Covered(member, evalId, a, b) && u in UsedRuns(be, a, version, evalId)
    ensures u in UsedRuns(be, b, version, evalId)
  {
    hide UsedScan;
    SortMember(UsedOrder(be), UsedScan(a, version, evalId, a.runs), u);
    SortMember(UsedOrder(be), UsedScan(b, version, evalId, b.runs), u);
    UsedMember(a, version, evalId, a.runs, u);
    UsedMember(b, version, evalId, b.runs, u);
    var r :| r in a.runs && r.recordId == evalId && UsedKey(version, evalId, r.runId) in a.used && u == AsUsed(a, version, r);
    var s :| s in b.runs && LooksLike(member, a, r, b, s);
  }

  lemma UsedBlind(be: Backend, a: Db, b: Db, member: bool, version: Uuid, evalId: Uuid)
    requires be.Sound() && WellKeyed(a) && WellKeyed(b) && SameToReader(member, evalId, a, b)
    ensures UsedRuns(be, a, version, evalId) == UsedRuns(be, b, version, evalId)
  {
    hide Backend.Sound, WellKeyed, UsedRuns, Covered, UsedOrder;
    UsedSorted(be, a, version, evalId);
    UsedSorted(be, b, version, evalId);
    forall u ensures u in UsedRuns(be, a, version, evalId) <==> u in UsedRuns(be, b, version, evalId) {
      if u in UsedRuns(be, a, version, evalId) { UsedRunBlind(be, a, b, member, version, evalId, u); }
      if u in UsedRuns(be, b, version, evalId) { UsedRunBlind(be, b, a, member, version, evalId, u); }
    }
    SortedUnique(UsedOrder(be), UsedRuns(be, a, version, evalId), UsedRuns(be, b, version, evalId));
  }

  lemma CellsBlind(be: Backend, a: Db, b: Db, member: bool, evalId: Uuid, cards: seq<JoinedCard>, runId: string)
    requires be.Sound() && WellKeyed(a) && WellKeyed(b) && SameToReader(member, evalId, a, b)
    ensures Cells(be, a, evalId, cards, runId) == Cells(be, b, evalId, cards, runId)
  {
    hide Backend.Sound, WellKeyed, UsedRuns, Covered, VerdictsFor;
    forall c: JoinedCard ensures Cell(be, a, evalId, c, runId) == Cell(be, b, evalId, c, runId) {
      UsedBlind(be, a, b, member, c.versionId, evalId);
    }
  }

  lemma SummariesBlind(be: Backend, hex: Hex, a: Db, b: Db, member: bool, evalId: Uuid, cards: seq<JoinedCard>)
    requires be.Sound() && WellKeyed(a) && WellKeyed(b) && SameToReader(member, evalId, a, b)
    ensures Summaries(be, hex, a, evalId, cards) == Summaries(be, hex, b, evalId, cards)
  {
    hide Backend.Sound, WellKeyed, UsedRuns, Covered, Summarise;
    forall c: JoinedCard ensures UsedRuns(be, a, c.versionId, evalId) == UsedRuns(be, b, c.versionId, evalId) {
      UsedBlind(be, a, b, member, c.versionId, evalId);
    }
  }

  // ---------------------------------------------------------------- the page

  lemma ContinueKeepsScope(be: Backend, leaves: FacetLeaves, query: RunQuery, scope: Scope)
    requires Compile(be, leaves, query, scope).Ok?
    requires Continue(be, Compile(be, leaves, query, scope).value, query.cursor).Ok?
    ensures var stmt := Continue(be, Compile(be, leaves, query, scope).value, query.cursor).value;
            stmt.member == scope.member && stmt.recordId == scope.recordId
  {
    hide PlanSorts, Render, Keyset;
  }

  lemma PageRows(be: Backend, rows: seq<Keyed>, n: nat, k: Keyed)
    requires n >= 1 && k in PageOf(be, rows, n).rows
    ensures k in rows
  {
  }

  lemma ProjectedBlind(be: Backend, a: Db, b: Db, stmt: Stmt, cards: seq<JoinedCard>, rows: seq<Keyed>)
    requires be.Sound() && WellKeyed(a) && WellKeyed(b) && SameToReader(stmt.member, stmt.recordId, a, b)
    requires forall k :: k in rows ==> k in Rows(be, a, stmt)
    ensures ProjectRows(be, a, stmt.recordId, cards, rows) == ProjectRows(be, b, stmt.recordId, cards, rows)
  {
    hide Backend.Sound, WellKeyed, Covered, Cells, Rows;
    forall i | 0 <= i < |rows|
      ensures ProjectRun(be, a, stmt.recordId, cards, rows[i].row) == ProjectRun(be, b, stmt.recordId, cards, rows[i].row)
    {
      assert rows[i] in rows;
      RowBlind(be, a, b, stmt, rows[i]);
      CellsBlind(be, a, b, stmt.member, stmt.recordId, cards, rows[i].row.runId);
    }
  }

  /** Masking is total: stores the reader cannot tell apart run by run give the
      same page, rows, order, cursor, Cards and cells, whatever is asked. */
  lemma MaskingIsTotal(be: Backend, hex: Hex, leaves: FacetLeaves, a: Db, b: Db, query: RunQuery, scope: Scope, cards: seq<JoinedCard>)
    requires be.Sound() && WellKeyed(a) && WellKeyed(b) && SameToReader(scope.member, scope.recordId, a, b)
    ensures Projection(be, hex, leaves, a, query, scope, cards) == Projection(be, hex, leaves, b, query, scope, cards)
  {
    hide Backend.Sound, WellKeyed, SameToReader, Compile, Continue, Rows, ProjectRows, Summaries, PageOf, Castable;
    var c := Compile(be, leaves, query, scope);
    if c.Ok? {
      var next := Continue(be, c.value, query.cursor);
      if next.Ok? {
        var stmt := next.value;
        ContinueKeepsScope(be, leaves, query, scope);
        RowsBlind(be, a, b, stmt);
        SummariesBlind(be, hex, a, b, scope.member, scope.recordId, cards);
        var page := PageOf(be, Rows(be, a, stmt), PageSize(query));
        forall k | k in page.rows ensures k in Rows(be, a, stmt) {
          PageRows(be, Rows(be, a, stmt), PageSize(query), k);
        }
        ProjectedBlind(be, a, b, stmt, cards, page.rows);
      }
    }
  }

  /** One run the reader may not see, replaced by another such run of the same
      id and content hash, side rows and all. */
  ghost predicate SwapsHidden(member: bool, a: Db, b: Db, i: nat, r: RunRow) {
    && i < |a.runs| && b.runs == a.runs[i := r] && a.results == b.results && a.used == b.used
    && r.recordId == a.runs[i].recordId && r.runId == a.runs[i].runId && r.contentHash == a.runs[i].contentHash
    && !Shown(member, a.runs[i]) && !Shown(member, r)
    && (forall key :: key != (r.recordId, r.runId) ==>
          && SideOf(a.metrics, key.0, key.1) == SideOf(b.metrics, key.0, key.1)
          && SideOf(a.fingerprints, key.0, key.1) == SideOf(b.fingerprints, key.0, key.1))
  }

  /** So a body, a status, a metric, a fingerprint of a run not shown, or
      whether it was archived or deleted, never shows. */
  lemma HiddenRunsDoNotShow(be: Backend, hex: Hex, leaves: FacetLeaves, a: Db, b: Db, i: nat, r: RunRow,
                            query: RunQuery, scope: Scope, cards: seq<JoinedCard>)
    requires be.Sound() && WellKeyed(a) && SwapsHidden(scope.member, a, b, i, r)
    ensures Projection(be, hex, leaves, a, query, scope, cards) == Projection(be, hex, leaves, b, query, scope, cards)
  {
    hide Backend.Sound, Projection;
    HiddenLookAlike(scope.member, a, b, i, r, scope.recordId);
    MaskingIsTotal(be, hex, leaves, a, b, query, scope, cards);
  }

  lemma HiddenLookAlike(member: bool, a: Db, b: Db, i: nat, r: RunRow, recordId: Uuid)
    requires WellKeyed(a) && SwapsHidden(member, a, b, i, r)
    ensures WellKeyed(b) && SameToReader(member, recordId, a, b)
  {
    forall k | 0 <= k < |a.runs|
      ensures LooksLike(member, a, a.runs[k], b, b.runs[k]) && LooksLike(member, b, b.runs[k], a, a.runs[k])
    {
      if k != i {
        assert (a.runs[k].recordId, a.runs[k].runId) != (r.recordId, r.runId);
      }
    }
    forall x | x in a.runs ensures exists y :: y in b.runs && LooksLike(member, a, x, b, y) {
      var k :| 0 <= k < |a.runs| && a.runs[k] == x;
      assert b.runs[k] in b.runs;
    }
    forall x | x in b.runs ensures exists y :: y in a.runs && LooksLike(member, b, x, a, y) {
      var k :| 0 <= k < |b.runs| && b.runs[k] == x;
      assert a.runs[k] in a.runs;
    }
  }
}
