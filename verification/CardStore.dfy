/** Cards over the runs of Evals (`evalhub-store/src/records.rs`, step 5b of the
    ingest; `relations.rs`, `add`): what a Card may name, and what stays true of
    the recorded used sets over whole histories. */
module CardStore {
  import opened Prelude
  import opened Json
  import opened Text
  import opened Errors
  import opened UsedSet
  import opened RunTables
  import opened RunHistory
  import Sql

  type Entry = Sql.Entry
  type Key = Sql.UsedKey

  const USES_EVAL := "core/uses_eval"

  // -------------------------------------------------------------- relations

  datatype Resolved = Resolved(versionId: Uuid, recordId: Uuid, isEval: bool)

  /** A relation of the Card being posted: its hub target's `{ns}/{name}` if it
      has one, and what that resolved to. */
  datatype Rel = Rel(kind: string, target: Option<string>, attrs: Option<Json>, resolved: Option<Resolved>)

  predicate IntoEval(r: Rel) {
    r.kind == USES_EVAL && r.resolved.Some? && r.resolved.value.isEval
  }

  /** The Evals to lock. */
  function Candidates(rels: seq<Rel>): set<Uuid> {
    set r | r in rels && IntoEval(r) :: r.resolved.value.recordId
  }

  function Demoted(r: Rel, candidates: set<Uuid>, visible: set<Uuid>): Rel {
    if r.resolved.Some? && r.resolved.value.recordId in candidates && r.resolved.value.recordId !in visible
    then r.(resolved := None) else r
  }

  /** An edge into an Eval that turned private before the lock did not resolve. */
  function Demote(rels: seq<Rel>, visible: set<Uuid>): seq<Rel> {
    Map((r: Rel) => Demoted(r, Candidates(rels), visible), rels)
  }

  function UsesOf(rels: seq<Rel>, n: nat): seq<UsesEval>
    requires n <= |rels|
  {
    if n == 0 then []
    else
      var r := rels[n - 1];
      UsesOf(rels, n - 1)
      + if r.target.Some? && IntoEval(r)
        then [UsesEval(r.resolved.value.recordId, RunsOf(r.attrs), Some("/relations/" + Decimal(n - 1) + "/attrs/runs"))] else []
  }

  /** The Eval records by the name the Card gives them. */
  function EvalsNamed(rels: seq<Rel>, n: nat): map<string, Uuid>
    requires n <= |rels|
  {
    if n == 0 then map[]
    else
      var r := rels[n - 1];
      if r.target.Some? && IntoEval(r)
      then EvalsNamed(rels, n - 1)[r.target.value := r.resolved.value.recordId] else EvalsNamed(rels, n - 1)
  }

  /** The edges into Evals, in order. */
  function EdgesInto(rels: seq<Rel>): seq<UsesEval> {
    UsesOf(rels, |rels|)
  }

  function EvalNames(rels: seq<Rel>): map<string, Uuid> {
    EvalsNamed(rels, |rels|)
  }

  // ------------------------------------------------------------ run results

  function ResultItems(body: Json): seq<Json> {
    if body.Get("run_results").Some? && body.Get("run_results").value.JArr?
    then body.Get("run_results").value.items else []
  }

  /** The Eval, run and metric of an element, all strings. */
  function ResultNames(item: Json): Option<(string, string, string)> {
    var eval, runId, metric := item.GetStr("eval"), item.GetStr("run_id"), item.GetStr("metric");
    if eval.Some? && runId.Some? && metric.Some? then Some((eval.value, runId.value, metric.value)) else None
  }

  function Lookup(evals: map<string, Uuid>, name: string): Option<Uuid> {
    if name in evals then Some(evals[name]) else None
  }

  function RefsOf(evals: map<string, Uuid>, items: seq<Json>, n: nat): seq<ResultRef>
    requires n <= |items|
  {
    if n == 0 then []
    else
      var names := ResultNames(items[n - 1]);
      RefsOf(evals, items, n - 1)
      + if names.Some? then [ResultRef(n - 1, Lookup(evals, names.value.0), names.value.1)] else []
  }

  function EntryOf(version: Uuid, i: nat, evalId: Uuid, item: Json): Entry
    requires ResultNames(item).Some?
  {
    var names := ResultNames(item).value;
    var value, judge := item.Get("value"), item.Get("by");
    Sql.Entry(version, i, evalId, names.1, names.2,
              if value.Some? && value.value.JNum? then Some(value.value.n) else None,
              item.GetStr("label"),
              if judge.Some? && !judge.value.JNull? then judge else None)
  }

  function EntriesOf(version: Uuid, evals: map<string, Uuid>, items: seq<Json>, n: nat): seq<Entry>
    requires n <= |items|
  {
    if n == 0 then []
    else
      var names := ResultNames(items[n - 1]);
      EntriesOf(version, evals, items, n - 1)
      + if names.Some? && names.value.0 in evals
        then [EntryOf(version, n - 1, evals[names.value.0], items[n - 1])] else []
  }

  // ------------------------------------------------------------------ ingest

  datatype CardRuns = CardRuns(used: map<Uuid, UsedRuns>, results: seq<Entry>)

  /** Every run an edge names has a row, and every judged run is used. */
  ghost predicate CardAccepted(rows: Rows, rels: seq<Rel>, body: Json) {
    var uses := EdgesInto(rels);
    var items := ResultItems(body);
    && (forall e :: !FixEntry(rows, uses, e))
    && (forall x :: x in RefsOf(EvalNames(rels), items, |items|) ==> Inside(UsedSets(rows, uses), x))
  }

  /** The entries of a refusal: named runs that have no row, and judged runs that
      are not used. */
  ghost predicate CardRefusal(rows: Rows, rels: seq<Rel>, body: Json, e: ErrorEntry) {
    var uses := EdgesInto(rels);
    var items := ResultItems(body);
    FixEntry(rows, uses, e) || ResultEntry(rows, UsedSets(rows, uses), RefsOf(EvalNames(rels), items, |items|), e)
  }

  function CardRunsOf(rows: Rows, version: Uuid, rels: seq<Rel>, body: Json): CardRuns {
    var items := ResultItems(body);
    CardRuns(UsedSets(rows, EdgesInto(rels)), EntriesOf(version, EvalNames(rels), items, |items|))
  }

  method GatherUses(rels: seq<Rel>) returns (uses: seq<UsesEval>, evals: map<string, Uuid>)
    ensures uses == EdgesInto(rels)
    ensures evals == EvalNames(rels)
  {
    uses, evals := [], map[];
    for j := 0 to |rels|
      invariant uses == UsesOf(rels, j) && evals == EvalsNamed(rels, j)
    {
      var r := rels[j];
      if r.target.Some? && IntoEval(r) {
        evals := evals[r.target.value := r.resolved.value.recordId];
        uses := uses + [UsesEval(r.resolved.value.recordId, RunsOf(r.attrs), Some("/relations/" + Decimal(j) + "/attrs/runs"))];
      }
    }
  }

  method GatherResults(version: Uuid, evals: map<string, Uuid>, items: seq<Json>) returns (refs: seq<ResultRef>, entries: seq<Entry>)
    ensures refs == RefsOf(evals, items, |items|) && entries == EntriesOf(version, evals, items, |items|)
  {
    hide EntryOf;
    refs, entries := [], [];
    for i := 0 to |items|
      invariant refs == RefsOf(evals, items, i) && entries == EntriesOf(version, evals, items, i)
    {
      var names := ResultNames(items[i]);
      if names.Some? {
        var evalId := Lookup(evals, names.value.0);
        refs := refs + [ResultRef(i, evalId, names.value.1)];
        if evalId.Some? {
          entries := entries + [EntryOf(version, i, evalId.value, items[i])];
        }
      }
    }
  }

  /** `fix_card_runs`: the used sets of the edges that still resolve under the
      lock, and the judgements inside them; or every refusal. */
  method FixCardRuns(rows: Rows, version: Uuid, rels0: seq<Rel>, visible: set<Uuid>, body: Json)
    returns (rels: seq<Rel>, r: Result<CardRuns, seq<ErrorEntry>>)
    ensures rels == Demote(rels0, visible)
    ensures r.Ok? <==> CardAccepted(rows, rels, body)
    ensures r.Ok? ==> r.value == CardRunsOf(rows, version, rels, body)
    ensures r.Err? ==> forall e :: e in r.error <==> CardRefusal(rows, rels, body, e)
  {
    hide SortEntries, UsedSets, FixEntry, EdgesInto, EvalNames, RefsOf, EntriesOf, Inside, ResultError, Demoted;
    rels := Demote(rels0, visible);
    var items := ResultItems(body);
    var uses, evals := GatherUses(rels);
    var used, errors := Fix(rows, uses, []);
    var refs, entries := GatherResults(version, evals, items);
    errors := CheckRunResults(rows, refs, used, errors);
    NoErrors(rows, uses, used, refs, errors);
    SortedEntries(errors);
    if errors != [] {
      return rels, Err(SortEntries(errors));
    }
    r := Ok(CardRuns(used, entries));
  }

  lemma NoErrors(rows: Rows, uses: seq<UsesEval>, used: map<Uuid, UsedRuns>, refs: seq<ResultRef>, errors: seq<ErrorEntry>)
    requires forall e :: e in errors <==> FixEntry(rows, uses, e) || ResultEntry(rows, used, refs, e)
    ensures errors == [] <==> (forall e :: !FixEntry(rows, uses, e)) && (forall x :: x in refs ==> Inside(used, x))
  {
    hide FixEntry, Inside, ResultError;
    if errors != [] { assert errors[0] in errors; }
    forall x | x in refs && !Inside(used, x) ensures errors != [] {
      assert ResultEntry(rows, used, refs, ResultError(rows, x));
    }
  }
}
