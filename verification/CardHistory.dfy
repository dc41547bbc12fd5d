/** The recorded used sets and judgements of all Cards, while Cards are posted,
    edges added and runs written, archived and deleted. */
module CardHistory {
  import opened Prelude
  import opened Json
  import opened Errors
  import opened UsedSet
  import opened CardStore
  import opened RunTables
  import R = RunHistory
  import Sql

  /** A stored `core/uses_eval` edge that resolved to a version of an Eval. */
  datatype StoredEdge = StoredEdge(evalId: Uuid, attrs: Option<Json>)

  datatype Hub = Hub(
    evals: map<Uuid, Runs>,
    used: Recorded,
    results: seq<Entry>,
    /** By Card version. */
    edges: map<Uuid, seq<StoredEdge>>)

  function RowsIn(evals: map<Uuid, Runs>): Rows {
    map e | e in evals :: evals[e].rows
  }

  function StoredEdges(rels: seq<Rel>, n: nat): seq<StoredEdge>
    requires n <= |rels|
  {
    if n == 0 then []
    else
      StoredEdges(rels, n - 1)
      + if IntoEval(rels[n - 1]) then [StoredEdge(rels[n - 1].resolved.value.recordId, rels[n - 1].attrs)] else []
  }

  function StoredUse(e: StoredEdge): UsesEval {
    UsesEval(e.evalId, RunsOf(e.attrs), None)
  }

  /** Every edge of the version into the Eval, the new one last and reported. */
  function UsesWith(edges: seq<StoredEdge>, evalId: Uuid, attrs: Option<Json>): seq<UsesEval> {
    Map((e: StoredEdge) => StoredUse(e), Select(edges, (e: StoredEdge) => e.evalId == evalId))
    + [UsesEval(evalId, RunsOf(attrs), Some("/attrs/runs"))]
  }

  ghost predicate EdgeAccepted(rows: Rows, edges: seq<StoredEdge>, evalId: Uuid, attrs: Option<Json>) {
    forall e :: !FixEntry(rows, UsesWith(edges, evalId, attrs), e)
  }

  // ------------------------------------------------------------- operations

  datatype Op =
    | NewEval(evalId: Uuid)
    | RunOp(evalId: Uuid, op: R.Op)
    | PostOp(version: Uuid, rels: seq<Rel>, visible: set<Uuid>, body: Json)
    | EdgeOp(version: Uuid, evalId: Uuid, attrs: Option<Json>, seen: bool)

  ghost function PostCard(hub: Hub, version: Uuid, rels0: seq<Rel>, visible: set<Uuid>, body: Json): Hub {
    var rels := Demote(rels0, visible);
    var rows := RowsIn(hub.evals);
    if !CardAccepted(rows, rels, body) then hub
    else
      var runs := CardRunsOf(rows, version, rels, body);
      hub.(used := Extended(hub.used, version, runs.used),
           results := hub.results + runs.results,
           edges := hub.edges[version := StoredEdges(rels, |rels|)])
  }

  /** `add` of a `core/uses_eval` edge that resolved to a version of an Eval; one
      no longer visible under the lock is stored as text and adds nothing. */
  ghost function AddEdge(hub: Hub, version: Uuid, evalId: Uuid, attrs: Option<Json>, visible: bool): Hub
    requires version in hub.edges
  {
    var edges := hub.edges[version];
    if !visible || !EdgeAccepted(RowsIn(hub.evals), edges, evalId, attrs) then hub
    else
      hub.(used := Extended(hub.used, version, UsedSets(RowsIn(hub.evals), UsesWith(edges, evalId, attrs))),
           edges := hub.edges[version := edges + [StoredEdge(evalId, attrs)]])
  }

  ghost function Step(host: Host, hub: Hub, op: Op): Hub {
    match op
    case NewEval(e) => if e in hub.evals then hub else hub.(evals := hub.evals[e := R.NoRuns(e)])
    case RunOp(e, run) => if e in hub.evals then hub.(evals := hub.evals[e := R.Step(host, hub.evals[e], run)]) else hub
    case PostOp(v, rels, visible, body) => if v in hub.edges then hub else PostCard(hub, v, rels, visible, body)
    case EdgeOp(v, e, attrs, visible) => if v in hub.edges then AddEdge(hub, v, e, attrs, visible) else hub
  }

  ghost function After(host: Host, hub: Hub, ops: seq<Op>): Hub
    decreases |ops|
  {
    if ops == [] then hub else After(host, Step(host, hub, ops[0]), ops[1..])
  }

  // -------------------------------------------------------------- invariant

  ghost predicate UsedHaveRows(hub: Hub) {
    forall key :: key in hub.used ==> key.evalId in hub.evals && key.runId in hub.evals[key.evalId].rows
  }

  ghost predicate JudgedAreUsed(hub: Hub) {
    forall i :: 0 <= i < |hub.results| ==>
      Sql.UsedKey(hub.results[i].versionId, hub.results[i].evalId, hub.results[i].runId) in hub.used
  }

  /** Every recorded used run has a row, archived and deleted ones included, and
      every stored judgement lies inside its Card version's used set. */
  ghost predicate Good(hub: Hub) {
    UsedHaveRows(hub) && JudgedAreUsed(hub)
  }

  /** Nothing recorded is lost or changed: used sets only grow, hashes stay,
      judgements stay. */
  ghost predicate Grows(before: Hub, after: Hub) {
    && (forall key :: key in before.used ==> key in after.used && after.used[key] == before.used[key])
    && before.results <= after.results
  }

  lemma NewUsed(hub: Hub, uses: seq<UsesEval>, version: Uuid, key: Key)
    requires Adds(version, UsedSets(RowsIn(hub.evals), uses), key)
    ensures key.evalId in hub.evals && key.runId in hub.evals[key.evalId].rows
    ensures UsedSets(RowsIn(hub.evals), uses)[key.evalId][key.runId] == hub.evals[key.evalId].rows[key.runId].contentHash
  {
  }

  lemma ExtendedGood(hub: Hub, uses: seq<UsesEval>, version: Uuid)
    requires UsedHaveRows(hub)
    ensures var after := hub.(used := Extended(hub.used, version, UsedSets(RowsIn(hub.evals), uses)));
            UsedHaveRows(after) && Grows(hub, after)
  {
    hide UsedSets, Extended;
    var sets := UsedSets(RowsIn(hub.evals), uses);
    ExtendedExact(hub.used, version, sets, Extended(hub.used, version, sets));
    forall key | key in Extended(hub.used, version, sets) && key !in hub.used
      ensures key.evalId in hub.evals && key.runId in hub.evals[key.evalId].rows
    {
      NewUsed(hub, uses, version, key);
    }
  }

  lemma {:induction false} EntriesJudge(rows: Rows, version: Uuid, rels: seq<Rel>, items: seq<Json>, n: nat, used: map<Uuid, UsedRuns>)
    requires n <= |items|
    requires forall x :: x in RefsOf(EvalNames(rels), items, n) ==> Inside(used, x)
    ensures forall e :: e in EntriesOf(version, EvalNames(rels), items, n) ==>
              Adds(version, used, Sql.UsedKey(e.versionId, e.evalId, e.runId))
  {
    hide EvalNames;
    if n > 0 {
      var evals := EvalNames(rels);
      forall x | x in RefsOf(evals, items, n - 1) ensures x in RefsOf(evals, items, n) {}
      EntriesJudge(rows, version, rels, items, n - 1, used);
      var names := ResultNames(items[n - 1]);
      if names.Some? {
        var ref := ResultRef(n - 1, Lookup(evals, names.value.0), names.value.1);
        assert ref in RefsOf(evals, items, n);
        assert Inside(used, ref);
      }
    }
  }

  lemma PostGood(hub: Hub, version: Uuid, rels0: seq<Rel>, visible: set<Uuid>, body: Json)
    requires Good(hub)
    ensures Good(PostCard(hub, version, rels0, visible, body)) && Grows(hub, PostCard(hub, version, rels0, visible, body))
  {
    hide UsedSets, Extended, EntriesOf, RefsOf, EdgesInto, EvalNames, FixEntry, Inside, Demote, StoredEdges, RowsIn;
    var rels := Demote(rels0, visible);
    var rows := RowsIn(hub.evals);
    if CardAccepted(rows, rels, body) {
      var uses := EdgesInto(rels);
      var sets := UsedSets(rows, uses);
      var items := ResultItems(body);
      ExtendedGood(hub, uses, version);
      ExtendedExact(hub.used, version, sets, Extended(hub.used, version, sets));
      EntriesJudge(rows, version, rels, items, |items|, sets);
      var entries := EntriesOf(version, EvalNames(rels), items, |items|);
      var after := PostCard(hub, version, rels0, visible, body);
      forall i | 0 <= i < |after.results|
        ensures Sql.UsedKey(after.results[i].versionId, after.results[i].evalId, after.results[i].runId) in after.used
      {
        if i >= |hub.results| { assert after.results[i] in entries; }
      }
    }
  }

  lemma EdgeGood(hub: Hub, version: Uuid, evalId: Uuid, attrs: Option<Json>, visible: bool)
    requires Good(hub) && version in hub.edges
    ensures Good(AddEdge(hub, version, evalId, attrs, visible)) && Grows(hub, AddEdge(hub, version, evalId, attrs, visible))
  {
    hide UsedSets, Extended, UsesWith, FixEntry, RowsIn;
    ExtendedGood(hub, UsesWith(hub.edges[version], evalId, attrs), version);
  }

  lemma RunGood(host: Host, hub: Hub, evalId: Uuid, op: R.Op)
    requires Good(hub) && evalId in hub.evals
    ensures Good(Step(host, hub, RunOp(evalId, op))) && Grows(hub, Step(host, hub, RunOp(evalId, op)))
  {
    hide R.Step;
    R.RowsStay(host, hub.evals[evalId], op);
  }

  lemma StepGood(host: Host, hub: Hub, op: Op)
    requires Good(hub)
    ensures Good(Step(host, hub, op)) && Grows(hub, Step(host, hub, op))
  {
    hide PostCard, AddEdge, R.Step;
    match op
    case NewEval(_) =>
    case RunOp(e, run) => if e in hub.evals { RunGood(host, hub, e, run); }
    case PostOp(v, rels, visible, body) => PostGood(hub, v, rels, visible, body);
    case EdgeOp(v, e, attrs, visible) => if v in hub.edges { EdgeGood(hub, v, e, attrs, visible); }
  }

  /** Over every history the invariant holds, and what was recorded at any time
      is recorded ever after, under the same hash. */
  lemma {:induction false} HistoryGood(host: Host, hub: Hub, ops: seq<Op>)
    requires Good(hub)
    ensures Good(After(host, hub, ops)) && Grows(hub, After(host, hub, ops))
    decreases |ops|
  {
    hide Good, Step;
    if ops != [] {
      StepGood(host, hub, ops[0]);
      HistoryGood(host, Step(host, hub, ops[0]), ops[1..]);
    }
  }

  lemma EmptyGood()
    ensures Good(Hub(map[], map[], [], map[]))
  {
  }

  /** A run newly recorded carries the content hash its row has. */
  lemma RecordedIsCurrent(host: Host, hub: Hub, op: Op, key: Key)
    requires key in Step(host, hub, op).used && key !in hub.used
    ensures var now := Step(host, hub, op);
            key.evalId in now.evals && key.runId in now.evals[key.evalId].rows
            && now.used[key] == now.evals[key.evalId].rows[key.runId].contentHash
  {
    hide UsedSets, Extended, UsesWith, FixEntry, EdgesInto, CardAccepted, EdgeAccepted, Demote, R.Step, EntriesOf;
    var rows := RowsIn(hub.evals);
    var uses, version := if op.PostOp? then EdgesInto(Demote(op.rels, op.visible))
                         else UsesWith(hub.edges[op.version], op.evalId, op.attrs), op.version;
    ExtendedExact(hub.used, version, UsedSets(rows, uses), Extended(hub.used, version, UsedSets(rows, uses)));
    NewUsed(hub, uses, version, key);
  }

  // ------------------------------------------------------------------- class

  method KeepEdges(rels: seq<Rel>) returns (kept: seq<StoredEdge>)
    ensures kept == StoredEdges(rels, |rels|)
  {
    kept := [];
    for i := 0 to |rels|
      invariant kept == StoredEdges(rels, i)
    {
      if IntoEval(rels[i]) {
        kept := kept + [StoredEdge(rels[i].resolved.value.recordId, rels[i].attrs)];
      }
    }
  }

  /** The Card side of the store. */
  class Cards {
    var evals: map<Uuid, Runs>
    var used: Recorded
    var results: seq<Entry>
    var edges: map<Uuid, seq<StoredEdge>>

    ghost function State(): Hub
      reads this
    {
      Hub(evals, used, results, edges)
    }

    constructor ()
      ensures State() == Hub(map[], map[], [], map[])
    {
      evals, used, results, edges := map[], map[], [], map[];
    }

    method AddEval(host: Host, evalId: Uuid)
      modifies this`evals
      ensures State() == Step(host, old(State()), NewEval(evalId))
    {
      if evalId !in evals {
        evals := evals[evalId := R.NoRuns(evalId)];
      }
    }

    /** A write to the runs of an Eval, as `RunStore.EvalRuns` makes it. */
    method WriteRuns(host: Host, evalId: Uuid, op: R.Op)
      modifies this`evals
      ensures State() == Step(host, old(State()), RunOp(evalId, op))
    {
      if evalId in evals {
        evals := evals[evalId := R.Step(host, evals[evalId], op)];
      }
    }

    /** Step 5b and the rows of step 8. */
    method Post(host: Host, version: Uuid, rels0: seq<Rel>, visible: set<Uuid>, body: Json) returns (r: Result<CardRuns, seq<ErrorEntry>>)
      requires version !in edges
      modifies this`used, this`results, this`edges
      ensures State() == Step(host, old(State()), PostOp(version, rels0, visible, body))
      ensures r.Ok? <==> CardAccepted(RowsIn(evals), Demote(rels0, visible), body)
      ensures r.Err? ==> forall e :: e in r.error <==> CardRefusal(RowsIn(evals), Demote(rels0, visible), body, e)
    {
      hide CardRefusal, UsedSets, EdgesInto, CardAccepted, EntriesOf, EvalNames, Extended, Demote, R.Step;
      var rels;
      rels, r := FixCardRuns(RowsIn(evals), version, rels0, visible, body);
      if r.Err? {
        return;
      }
      results := results + r.value.results;
      used := UsedSet.Insert(used, version, r.value.used);
      var kept := KeepEdges(rels);
      edges := edges[version := kept];
    }

    /** `extend_used_set` and the edge it is for. */
    method Add(host: Host, version: Uuid, evalId: Uuid, attrs: Option<Json>, visible: bool) returns (r: Result<bool, seq<ErrorEntry>>)
      requires version in edges
      modifies this`used, this`edges
      ensures State() == Step(host, old(State()), EdgeOp(version, evalId, attrs, visible))
      ensures r.Err? <==> visible && !EdgeAccepted(RowsIn(evals), old(edges)[version], evalId, attrs)
      ensures r.Ok? ==> r.value == visible
      ensures r.Err? ==>
                forall e :: e in r.error <==> FixEntry(RowsIn(evals), UsesWith(old(edges)[version], evalId, attrs), e)
    {
      if !visible {
        return Ok(false);
      }
      var uses := UsesWith(edges[version], evalId, attrs);
      var sets, errors := Fix(RowsIn(evals), uses, []);
      if errors != [] {
        assert errors[0] in errors;
        SortedEntries(errors);
        return Err(SortEntries(errors));
      }
      used := UsedSet.Insert(used, version, sets);
      edges := edges[version := edges[version] + [StoredEdge(evalId, attrs)]];
      r := Ok(true);
    }
  }
}
