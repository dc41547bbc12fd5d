/** The used set of a Card version (`evalhub-store/src/used_set.rs`): which runs
    of an Eval it used, fixed when it is posted or gains an edge. */
module UsedSet {
  import opened Prelude
  import opened Json
  import opened Text
  import opened Errors
  import Sql

  type RunRow = Sql.RunRow
  type Uuid = int

  /** A `core/uses_eval` edge that resolved to a version of an Eval: its
      `attrs.runs`, a non-string element kept as none, and where to report
      them; an edge already stored is not reported. */
  datatype UsesEval = UsesEval(evalId: Uuid, runs: Option<seq<Option<string>>>, reportAt: Option<string>)

  /** The run rows by Eval record. */
  type Rows = map<Uuid, map<string, RunRow>>

  type UsedRuns = map<string, Digest>

  function RowsOf(rows: Rows, evalId: Uuid): map<string, RunRow> {
    if evalId in rows then rows[evalId] else map[]
  }

  function StringOf(j: Json): Option<string> {
    if j.JStr? then Some(j.s) else None
  }

  /** `UsesEval::runs_of` */
  function RunsOf(attrs: Option<Json>): Option<seq<Option<string>>> {
    if attrs.None? || attrs.value.Get("runs").None? || !attrs.value.Get("runs").value.JArr? then None
    else Some(Map((j: Json) => StringOf(j), attrs.value.Get("runs").value.items))
  }

  // ------------------------------------------------------------------ rule

  /** Some edge into the Eval names its runs. */
  predicate Explicit(uses: seq<UsesEval>, evalId: Uuid) {
    exists u :: u in uses && u.evalId == evalId && u.runs.Some?
  }

  predicate NamesRun(u: UsesEval, evalId: Uuid, id: string) {
    u.evalId == evalId && u.runs.Some? && Some(id) in u.runs.value
  }

  predicate Named(uses: seq<UsesEval>, evalId: Uuid, id: string) {
    exists u :: u in uses && NamesRun(u, evalId, id)
  }

  predicate IsLive(row: RunRow) {
    !row.archived && !row.tombstoned
  }

  predicate Uses(rows: Rows, uses: seq<UsesEval>, evalId: Uuid, id: string) {
    id in RowsOf(rows, evalId)
    && if Explicit(uses, evalId) then Named(uses, evalId, id) else IsLive(RowsOf(rows, evalId)[id])
  }

  /** The union of the named runs if any edge names runs, else every live run;
      with the hashes the rows have now. */
  function UsedSetOf(rows: Rows, uses: seq<UsesEval>, evalId: Uuid): UsedRuns {
    var table := RowsOf(rows, evalId);
    map id | id in table && Uses(rows, uses, evalId, id) :: table[id].contentHash
  }

  function EvalsOf(uses: seq<UsesEval>): set<Uuid> {
    set u | u in uses :: u.evalId
  }

  function UsedSets(rows: Rows, uses: seq<UsesEval>): map<Uuid, UsedRuns> {
    map e | e in EvalsOf(uses) :: UsedSetOf(rows, uses, e)
  }

  // ---------------------------------------------------------------- refusals

  predicate Unknown(rows: Rows, u: UsesEval, k: nat)
    requires u.runs.Some? && k < |u.runs.value|
  {
    var run := u.runs.value[k];
    run.None? || run.value !in RowsOf(rows, u.evalId)
  }

  /** The entry of an `attrs.runs` element that has no row. */
  predicate UnknownEntry(rows: Rows, u: UsesEval, e: ErrorEntry) {
    u.runs.Some? && u.reportAt.Some?
    && exists k :: 0 <= k < |u.runs.value| && Unknown(rows, u, k) && e == ErrorEntry(u.reportAt.value + "/" + Decimal(k), RunUnknown)
  }

  ghost predicate FixEntry(rows: Rows, uses: seq<UsesEval>, e: ErrorEntry) {
    exists u :: u in uses && UnknownEntry(rows, u, e)
  }

  // --------------------------------------------------------------------- fix

  function EdgesOf(uses: seq<UsesEval>, evalId: Uuid): (r: seq<UsesEval>) {
    Select(uses, (u: UsesEval) => u.evalId == evalId)
  }

  lemma EdgeMember(uses: seq<UsesEval>, evalId: Uuid, u: UsesEval)
    ensures u in EdgesOf(uses, evalId) <==> u in uses && u.evalId == evalId
  {
    SelectMember(uses, (u: UsesEval) => u.evalId == evalId, u);
  }

  method ReportUnknown(rows: Rows, u: UsesEval, found: UsedRuns, errors0: seq<ErrorEntry>) returns (errors: seq<ErrorEntry>)
    requires forall id :: Some(id) in (if u.runs.Some? then u.runs.value else []) ==> (id in found <==> id in RowsOf(rows, u.evalId))
    ensures forall e :: e in errors <==> e in errors0 || UnknownEntry(rows, u, e)
  {
    errors := errors0;
    if u.runs.None? || u.reportAt.None? {
      return;
    }
    var runs, path := u.runs.value, u.reportAt.value;
    for k := 0 to |runs|
      invariant forall e :: e in errors <==>
                  e in errors0
                  || exists j :: 0 <= j < k && Unknown(rows, u, j) && e == ErrorEntry(path + "/" + Decimal(j), RunUnknown)
    {
      assert runs[k] in runs;
      if runs[k].None? || runs[k].value !in found {
        assert Unknown(rows, u, k);
        errors := errors + [ErrorEntry(path + "/" + Decimal(k), RunUnknown)];
      }
    }
  }

  /** The ids named by the edges of one Eval. */
  method NamedRuns(edges: seq<UsesEval>, evalId: Uuid) returns (named: set<string>)
    requires forall u :: u in edges ==> u.evalId == evalId
    ensures forall id :: id in named <==> Named(edges, evalId, id)
  {
    named := {};
    for i := 0 to |edges|
      invariant forall id :: id in named <==> exists j :: 0 <= j < i && NamesRun(edges[j], evalId, id)
    {
      assert edges[i] in edges;
      if edges[i].runs.Some? {
        var strings := set r | r in edges[i].runs.value && r.Some? :: r.value;
        forall id ensures id in strings <==> NamesRun(edges[i], evalId, id) {
          if Some(id) in edges[i].runs.value { assert Some(id).value in strings; }
        }
        named := named + strings;
      }
    }
  }

  lemma SameRule(rows: Rows, uses: seq<UsesEval>, evalId: Uuid)
    ensures Explicit(EdgesOf(uses, evalId), evalId) <==> Explicit(uses, evalId)
    ensures forall id :: Named(EdgesOf(uses, evalId), evalId, id) <==> Named(uses, evalId, id)
  {
    forall u ensures u in EdgesOf(uses, evalId) <==> u in uses && u.evalId == evalId { EdgeMember(uses, evalId, u); }
  }

  /** One Eval's used set, and the elements of its edges that have no row. */
  method FixOne(rows: Rows, uses: seq<UsesEval>, evalId: Uuid, errors0: seq<ErrorEntry>)
    returns (used: UsedRuns, errors: seq<ErrorEntry>)
    ensures used == UsedSetOf(rows, uses, evalId)
    ensures forall e :: e in errors <==> e in errors0 || FixEntry(rows, EdgesOf(uses, evalId), e)
  {
    hide UnknownEntry, NamesRun;
    var edges := EdgesOf(uses, evalId);
    var table := RowsOf(rows, evalId);
    forall u | u in edges ensures u.evalId == evalId { EdgeMember(uses, evalId, u); }
    SameRule(rows, uses, evalId);
    errors := errors0;
    if forall u :: u in edges ==> u.runs.None? {
      used := map id | id in table && IsLive(table[id]) :: table[id].contentHash;
      assert !Explicit(uses, evalId);
      NothingNamed(rows, edges);
    } else {
      var named := NamedRuns(edges, evalId);
      used := map id | id in table && id in named :: table[id].contentHash;
      for i := 0 to |edges|
        invariant forall e :: e in errors <==> e in errors0 || exists j :: 0 <= j < i && UnknownEntry(rows, edges[j], e)
      {
        assert edges[i] in edges;
        NamedHere(edges, evalId, i);
        errors := ReportUnknown(rows, edges[i], used, errors);
      }
    }
  }

  lemma NamedHere(edges: seq<UsesEval>, evalId: Uuid, i: nat)
    requires i < |edges| && edges[i].evalId == evalId
    ensures forall id :: Some(id) in (if edges[i].runs.Some? then edges[i].runs.value else []) ==> Named(edges, evalId, id)
  {
    assert edges[i] in edges;
  }

  lemma NothingNamed(rows: Rows, edges: seq<UsesEval>)
    requires forall u :: u in edges ==> u.runs.None?
    ensures forall e :: !FixEntry(rows, edges, e)
  {
  }

  /** `fix`: the used set of every Eval among the edges. */
  method Fix(rows: Rows, uses: seq<UsesEval>, errors0: seq<ErrorEntry>)
    returns (used: map<Uuid, UsedRuns>, errors: seq<ErrorEntry>)
    ensures used == UsedSets(rows, uses)
    ensures forall e :: e in errors <==> e in errors0 || FixEntry(rows, uses, e)
  {
    hide UsedSetOf, UnknownEntry;
    used, errors := map[], errors0;
    var todo := EvalsOf(uses);
    while todo != {}
      invariant todo <= EvalsOf(uses)
      invariant used == map e | e in EvalsOf(uses) && e !in todo :: UsedSetOf(rows, uses, e)
      invariant forall e :: e in errors <==>
                  e in errors0 || exists u :: u in uses && u.evalId !in todo && UnknownEntry(rows, u, e)
      decreases |todo|
    {
      var evalId := Pick(todo);
      var set_;
      forall u ensures u in EdgesOf(uses, evalId) <==> u in uses && u.evalId == evalId { EdgeMember(uses, evalId, u); }
      set_, errors := FixOne(rows, uses, evalId, errors);
      used := used[evalId := set_];
      todo := todo - {evalId};
    }
    assert used.Keys == EvalsOf(uses);
    forall u | u in uses ensures u.evalId in EvalsOf(uses) {}
  }

  // ------------------------------------------------------------- run results

  /** A `run_results[]` element: its position, the Eval it resolved to, its run. */
  datatype ResultRef = ResultRef(index: nat, evalId: Option<Uuid>, runId: string)

  predicate Inside(used: map<Uuid, UsedRuns>, item: ResultRef) {
    item.evalId.Some? && item.evalId.value in used && item.runId in used[item.evalId.value]
  }

  /** Outside its used set: no run of that Eval, or one the Card did not use. */
  function ResultError(rows: Rows, item: ResultRef): ErrorEntry {
    ErrorEntry("/run_results/" + Decimal(item.index) + "/run_id",
               if item.evalId.Some? && item.runId in RowsOf(rows, item.evalId.value) then RunNotInUsedSet else RunUnknown)
  }

  ghost predicate ResultEntry(rows: Rows, used: map<Uuid, UsedRuns>, items: seq<ResultRef>, e: ErrorEntry) {
    exists item :: item in items && !Inside(used, item) && e == ResultError(rows, item)
  }

  /** The elements that resolved to no Eval are refused at once; the others
      outside their used set are kept for a look at the rows. */
  method SortOut(rows: Rows, items: seq<ResultRef>, used: map<Uuid, UsedRuns>, errors0: seq<ErrorEntry>)
    returns (outside: seq<ResultRef>, errors: seq<ErrorEntry>)
    ensures forall e :: e in errors <==>
              e in errors0 || exists x :: x in items && x.evalId.None? && e == ResultError(rows, x)
    ensures forall x :: x in outside <==> x.evalId.Some? && !Inside(used, x) && x in items
  {
    hide Decimal;
    outside, errors := [], errors0;
    for i := 0 to |items|
      invariant forall e :: e in errors <==>
                  e in errors0 || exists x :: x in items[..i] && x.evalId.None? && e == ResultError(rows, x)
      invariant forall x :: x in outside <==> x.evalId.Some? && !Inside(used, x) && x in items[..i]
    {
      var item := items[i];
      assert items[..i + 1] == items[..i] + [item];
      if item.evalId.None? {
        errors := errors + [ErrorEntry("/run_results/" + Decimal(item.index) + "/run_id", RunUnknown)];
      } else if !(item.evalId.value in used && item.runId in used[item.evalId.value]) {
        outside := outside + [item];
      }
    }
    assert items[..|items|] == items;
  }

  /** `check_run_results`: the elements outside are looked up record by record. */
  method CheckRunResults(rows: Rows, items: seq<ResultRef>, used: map<Uuid, UsedRuns>, errors0: seq<ErrorEntry>)
    returns (errors: seq<ErrorEntry>)
    ensures forall e :: e in errors <==> e in errors0 || ResultEntry(rows, used, items, e)
  {
    hide ResultError;
    var outside;
    outside, errors := SortOut(rows, items, used, errors0);
    ghost var nowhere := errors;
    var todo: set<Uuid> := set x | x in outside && x.evalId.Some? :: x.evalId.value;
    ghost var all := todo;
    assert forall x :: x in outside ==> x.evalId.value in all;
    while todo != {}
      invariant todo <= all
      invariant forall e :: e in errors <==>
                  e in nowhere
                  || exists x :: x in outside && x.evalId.value !in todo && e == ResultError(rows, x)
      decreases |todo|
    {
      var evalId := Pick(todo);
      errors := ReportOutside(rows, outside, evalId, errors);
      todo := todo - {evalId};
    }
  }

  method ReportOutside(rows: Rows, outside: seq<ResultRef>, evalId: Uuid, errors0: seq<ErrorEntry>) returns (errors: seq<ErrorEntry>)
    ensures forall e :: e in errors <==>
              e in errors0 || exists x :: x in outside && x.evalId == Some(evalId) && e == ResultError(rows, x)
  {
    hide Decimal;
    var table := RowsOf(rows, evalId);
    errors := errors0;
    for i := 0 to |outside|
      invariant forall e :: e in errors <==>
                  e in errors0 || exists j :: 0 <= j < i && outside[j].evalId == Some(evalId) && e == ResultError(rows, outside[j])
    {
      if outside[i].evalId == Some(evalId) {
        errors := errors + [ErrorEntry("/run_results/" + Decimal(outside[i].index) + "/run_id",
                                       if outside[i].runId in table then RunNotInUsedSet else RunUnknown)];
      }
    }
  }

  // ---------------------------------------------------------------- recorded

  type Key = Sql.UsedKey

  /** `card_eval_runs` */
  type Recorded = map<Key, Digest>

  predicate Adds(version: Uuid, used: map<Uuid, UsedRuns>, key: Key) {
    key.versionId == version && key.evalId in used && key.runId in used[key.evalId]
  }

  function NewKeys(version: Uuid, used: map<Uuid, UsedRuns>): (r: set<Key>)
    ensures forall key: Key :: key in r <==> Adds(version, used, key)
  {
    var r := set e, id | e in used && id in used[e] :: Sql.UsedKey(version, e, id);
    assert forall e, id :: e in used && id in used[e] ==> Sql.UsedKey(version, e, id) in r;
    r
  }

  /** `ON CONFLICT DO NOTHING`: what is recorded stays as it was recorded. */
  function Extended(before: Recorded, version: Uuid, used: map<Uuid, UsedRuns>): Recorded {
    (map key | key in NewKeys(version, used) :: used[key.evalId][key.runId]) + before
  }

  ghost predicate IsExtended(before: Recorded, version: Uuid, used: map<Uuid, UsedRuns>, after: Recorded) {
    && (forall key: Key :: key in after <==> key in before || Adds(version, used, key))
    && (forall key: Key :: key in before ==> after[key] == before[key])
    && (forall key: Key :: key !in before && Adds(version, used, key) ==> after[key] == used[key.evalId][key.runId])
  }

  lemma ExtendedExact(before: Recorded, version: Uuid, used: map<Uuid, UsedRuns>, after: Recorded)
    ensures after == Extended(before, version, used) <==> IsExtended(before, version, used, after)
  {
    hide NewKeys;
    var x := Extended(before, version, used);
    assert IsExtended(before, version, used, x);
    if IsExtended(before, version, used, after) {
      forall key: Key ensures key in after <==> key in x {}
      forall key: Key | key in after ensures after[key] == x[key] {}
    }
  }

  lemma ExtendedMore(before: Recorded, version: Uuid, used: map<Uuid, UsedRuns>, done: map<Uuid, UsedRuns>,
                     evalId: Uuid, now: Recorded)
    requires evalId in used && evalId !in done && IsExtended(before, version, done, now)
    ensures IsExtended(before, version, done[evalId := used[evalId]], Extended(now, version, map[evalId := used[evalId]]))
  {
    hide NewKeys;
    var one := map[evalId := used[evalId]];
    var more := done[evalId := used[evalId]];
    ExtendedExact(now, version, one, Extended(now, version, one));
    forall key: Key ensures Adds(version, more, key) <==> Adds(version, done, key) || Adds(version, one, key) {}
  }

  /** `insert`: one Eval's rows at a time. */
  method Insert(recorded: Recorded, version: Uuid, used: map<Uuid, UsedRuns>) returns (after: Recorded)
    ensures after == Extended(recorded, version, used)
  {
    hide Extended, IsExtended;
    after := recorded;
    var todo := used.Keys;
    ghost var done: map<Uuid, UsedRuns> := map[];
    ExtendedNothing(recorded, version);
    while todo != {}
      invariant todo <= used.Keys && done.Keys == used.Keys - todo
      invariant forall e :: e in done ==> done[e] == used[e]
      invariant IsExtended(recorded, version, done, after)
      decreases |todo|
    {
      var evalId := Pick(todo);
      ExtendedMore(recorded, version, used, done, evalId, after);
      after := Extended(after, version, map[evalId := used[evalId]]);
      done := done[evalId := used[evalId]];
      todo := todo - {evalId};
    }
    ExtendedByAll(recorded, version, done, used, after);
    ExtendedExact(recorded, version, used, after);
  }

  lemma ExtendedByAll(before: Recorded, version: Uuid, done: map<Uuid, UsedRuns>, used: map<Uuid, UsedRuns>, after: Recorded)
    requires done.Keys == used.Keys && forall e :: e in done ==> done[e] == used[e]
    requires IsExtended(before, version, done, after)
    ensures IsExtended(before, version, used, after)
  {
    forall key: Key ensures Adds(version, done, key) <==> Adds(version, used, key) {}
  }

  lemma ExtendedNothing(before: Recorded, version: Uuid)
    ensures IsExtended(before, version, map[], before)
  {
  }

  // --------------------------------------------------------------- the rule

  /** Naming runs on a later edge may lose runs: the rule, applied afresh after
      one more edge, keeps every used run exactly when an earlier edge already
      named runs, or the new one names none, or it names every live run. */
  lemma RecomputedKeeps(rows: Rows, uses: seq<UsesEval>, u: UsesEval)
    requires exists v :: v in uses && v.evalId == u.evalId
    ensures (forall id :: Uses(rows, uses, u.evalId, id) ==> Uses(rows, uses + [u], u.evalId, id))
       <==> Explicit(uses, u.evalId) || u.runs.None?
            || (forall id :: id in RowsOf(rows, u.evalId) && IsLive(RowsOf(rows, u.evalId)[id]) ==> Some(id) in u.runs.value)
  {
    var all := uses + [u];
    assert forall v :: v in all <==> v in uses || v == u;
    forall id ensures Named(all, u.evalId, id) <==> Named(uses, u.evalId, id) || NamesRun(u, u.evalId, id) {
      if NamesRun(u, u.evalId, id) { assert u in all; }
    }
    assert u.runs.Some? ==> u in all && Explicit(all, u.evalId);
    if !Explicit(uses, u.evalId) && u.runs.Some? {
      forall id ensures !Named(uses, u.evalId, id) {}
      forall id ensures Uses(rows, all, u.evalId, id) <==> id in RowsOf(rows, u.evalId) && Some(id) in u.runs.value {}
    }
  }

  /** Two live runs. A bare edge uses both; one more edge that names the first
      would, by the rule alone, leave the second out. */
  lemma RecomputedLoses(evalId: Uuid, a: RunRow, b: RunRow)
    requires IsLive(a) && IsLive(b)
    ensures var rows := map[evalId := map["a" := a, "b" := b]];
            var bare, naming := UsesEval(evalId, None, None), UsesEval(evalId, Some([Some("a")]), None);
            Uses(rows, [bare], evalId, "b") && !Uses(rows, [bare, naming], evalId, "b")
  {
    var bare, naming := UsesEval(evalId, None, None), UsesEval(evalId, Some([Some("a")]), None);
    assert naming in [bare, naming];
    assert !Explicit([bare], evalId);
    assert Explicit([bare, naming], evalId);
  }
}
