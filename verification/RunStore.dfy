/** The run store of one Eval (`evalhub-store/src/runs.rs`): rows and side rows
    written in place under the record lock. */
module RunStore {
  import opened Prelude
  import opened Json
  import opened Text
  import opened Errors
  import opened RunHash
  import opened RunRules
  import opened RunTables
  import opened RunHistory
  import Sql

  predicate IndexLess(a: Rejection, b: Rejection) {
    a.index < b.index
  }

  function SortedErrors(r: Rejection): Rejection {
    Rejection(r.index, r.runId, SortEntries(r.errors))
  }

  function AllSorted(rejections: seq<Rejection>): seq<Rejection> {
    Map((r: Rejection) => SortedErrors(r), Prelude.Sort(IndexLess, rejections))
  }

  ghost predicate DistinctIndexes(rejections: seq<Rejection>) {
    forall i, j :: 0 <= i < j < |rejections| ==> rejections[i].index != rejections[j].index
  }

  /** The first `n` elements' errors short of missing attachments. */
  function EarlyErrors(host: Host, header: Json, st: Runs, inputs: seq<Input>, i: nat): seq<ErrorEntry>
    requires i < |inputs|
  {
    RepeatErrors(inputs, i) + OwnErrors(host, header, st, inputs[i])
  }

  function IdsOf(inputs: seq<Input>): (r: seq<string>)
    ensures |r| == |inputs| && forall i :: 0 <= i < |r| ==> r[i] == inputs[i].runId
  {
    Map((x: Input) => x.runId, inputs)
  }

  /** The list holds exactly the elements that have errors, in any order. */
  ghost predicate Reports(ids: seq<string>, errors: seq<seq<ErrorEntry>>, list: seq<Rejection>)
    requires |errors| == |ids|
  {
    && DistinctIndexes(list)
    && forall r :: r in list <==>
         r.index < |ids| && errors[r.index] != [] && r == Rejection(r.index, ids[r.index], errors[r.index])
  }

  lemma ReportsMore(ids: seq<string>, errors: seq<seq<ErrorEntry>>, list: seq<Rejection>, i: nat, found: seq<ErrorEntry>)
    requires |errors| == |ids| && i < |ids| && errors[i] == [] && Reports(ids, errors, list)
    ensures Reports(ids, errors[i := found], if found == [] then list else list + [Rejection(i, ids[i], found)])
  {
    var last := Rejection(i, ids[i], found);
    if found == [] {
      assert errors[i := found] == errors;
    } else {
      forall k | 0 <= k < |list| ensures list[k].index != i { assert list[k] in list; }
      assert forall r :: r in list + [last] <==> r in list || r == last;
    }
  }

  /** The early errors of the first `n` elements. */
  function EarlyList(host: Host, header: Json, st: Runs, inputs: seq<Input>, n: nat): (r: seq<seq<ErrorEntry>>)
    requires n <= |inputs|
    ensures |r| == |inputs|
  {
    seq(|inputs|, i requires 0 <= i < |inputs| => if i < n then EarlyErrors(host, header, st, inputs, i) else [])
  }

  /** The early errors of all, and of the first `n` what is missing too. */
  function LateList(host: Host, header: Json, st: Runs, ready: set<string>, inputs: seq<Input>, n: nat): (r: seq<seq<ErrorEntry>>)
    requires n <= |inputs|
    ensures |r| == |inputs|
  {
    seq(|inputs|, i requires 0 <= i < |inputs| =>
      if i < n then Problems(host, header, st, ready, inputs, i) else EarlyErrors(host, header, st, inputs, i))
  }

  ghost predicate RejectsEarly(host: Host, header: Json, st: Runs, inputs: seq<Input>, n: nat, list: seq<Rejection>)
    requires n <= |inputs|
  {
    Reports(IdsOf(inputs), EarlyList(host, header, st, inputs, n), list)
  }

  ghost predicate Rejects(host: Host, header: Json, st: Runs, ready: set<string>, inputs: seq<Input>, n: nat, list: seq<Rejection>)
    requires n <= |inputs|
  {
    Reports(IdsOf(inputs), LateList(host, header, st, ready, inputs, n), list)
  }

  lemma {:induction false} SortedErrorsMember(list: seq<Rejection>, r: Rejection)
    ensures r in AllSorted(list) <==> exists q :: q in list && r == SortedErrors(q)
  {
    var sorted := Prelude.Sort(IndexLess, list);
    forall q ensures q in sorted <==> q in list { SortMember(IndexLess, list, q); }
    if q :| q in list && r == SortedErrors(q) {
      var i :| 0 <= i < |sorted| && sorted[i] == q;
      assert AllSorted(list)[i] == r;
    }
  }

  /** Sorted by index and then each by its entries, the list is the report. */
  lemma {:induction false} SortedIsReport(host: Host, header: Json, st: Runs, ready: set<string>, inputs: seq<Input>, list: seq<Rejection>)
    requires Rejects(host, header, st, ready, inputs, |inputs|, list)
    ensures AllSorted(list) == Rejections(host, header, st, ready, inputs, |inputs|)
  {
    hide Problems, SortEntries, EarlyErrors, Rejections;
    var report := Rejections(host, header, st, ready, inputs, |inputs|);
    RejectionsExact(host, header, st, ready, inputs, |inputs|);
    RejectionsAscend(host, header, st, ready, inputs, |inputs|);
    SortSorted(IndexLess, list);
    forall r ensures r in AllSorted(list) <==> r in report {
      SortedErrorsMember(list, r);
      if r in report {
        var q := Rejection(r.index, r.runId, Problems(host, header, st, ready, inputs, r.index));
        SortedNone(q.errors);
        assert q in list;
      }
      if q :| q in list && r == SortedErrors(q) {
        SortedNone(q.errors);
      }
    }
    SortedUnique(IndexLess, AllSorted(list), report);
  }

  class EvalRuns {
    const recordId: Uuid
    var header: Option<Json>
    var rows: map<string, RunRow>
    var metrics: map<string, map<string, int>>
    var attachments: map<string, map<string, string>>
    var fingerprints: map<string, map<string, string>>
    var runsHash: Option<Digest>

    function State(): Runs
      reads this
    {
      Runs(recordId, header, rows, metrics, attachments, fingerprints, runsHash)
    }

    constructor (id: Uuid)
      ensures State() == NoRuns(id)
    {
      recordId, header := id, None;
      rows, metrics, attachments, fingerprints, runsHash := map[], map[], map[], map[], None;
    }

    /** A header post, or the tombstone of the last live one. */
    method SetHeader(latest: Option<Json>)
      modifies this`header
      ensures State() == old(State()).(header := latest)
    {
      header := latest;
    }

    method Upsert(c: Checked)
      modifies this`rows, this`metrics, this`attachments, this`fingerprints
      ensures State() == Upserted(old(State()), c)
    {
      var archived, tombstoned := false, false;
      if c.runId in rows {
        archived, tombstoned := rows[c.runId].archived, rows[c.runId].tombstoned;
      }
      rows := rows[c.runId := Sql.RunRow(recordId, c.runId, c.contentHash, c.status, c.errorKind,
                                         c.startedAt, c.endedAt, Some(c.body), archived, tombstoned)];
      metrics := metrics[c.runId := c.metrics];
      var files: map<string, string> := map[];
      for i := 0 to |c.attachments|
        invariant files == PathMap(c.attachments[..i])
      {
        assert c.attachments[..i + 1][..i] == c.attachments[..i];
        files := files[c.attachments[i].0 := c.attachments[i].1];
      }
      assert c.attachments[..|c.attachments|] == c.attachments;
      attachments := attachments[c.runId := files];
      fingerprints := fingerprints[c.runId := c.fingerprints];
    }

    /** The rows come in whatever order the table yields them. */
    method RecomputeRunsHash(host: Host) returns (digest: Digest)
      modifies this`runsHash
      ensures digest == Formula(host, rows)
      ensures State() == old(State()).(runsHash := Some(digest))
    {
      hide Formula, RunsHash;
      var todo := rows.Keys;
      var ids: seq<string> := [];
      var pairs: seq<(string, Digest)> := [];
      while todo != {}
        invariant todo <= rows.Keys
        invariant Distinct(ids) && forall id :: id in ids <==> id in rows && id !in todo
        invariant pairs == PairsIn(rows, ids)
        decreases |todo|
      {
        var id := Pick(todo);
        todo := todo - {id};
        assert id !in ids;
        ids, pairs := ids + [id], pairs + [(id, rows[id].contentHash)];
        assert pairs == PairsIn(rows, ids);
      }
      FormulaAnyOrder(host, rows, ids);
      digest := RunsHash(host.hex, pairs);
      runsHash := Some(digest);
    }

    /** Steps a to e of every element. */
    method CheckElement(host: Host, live: Json, input: Input, repeated: bool)
      returns (body: Json, files: seq<(string, string)>, errors: seq<ErrorEntry>)
      ensures body == Filled(live, input) && files == AttachmentsOf(body)
      ensures errors == (if repeated then [ErrorEntry("/run_id", BatchDuplicateRunId)] else [])
                        + OwnErrors(host, live, State(), input)
    {
      hide SortEntries, SemanticErrors, DecodeErrors, AttachmentsOf, Materialised;
      errors := if repeated then [ErrorEntry("/run_id", BatchDuplicateRunId)] else [];
      ghost var first := errors;
      body := Materialise(input.body, live);
      var structural := if body.JObj? then host.schemaErrors(body) else [ErrorEntry("", Schema)];
      var semantic := RunSemantic(input.runId, body);
      var found := SortEntries(structural + semantic);
      errors := errors + found;
      files, errors := DecodeAttachments(body, errors);
      ghost var decode := DecodeErrors(Items(body, "attachments"), |Items(body, "attachments")|);
      Regroup(first, found, decode);
      Regroup(first, found + decode, DeletedErrors(State(), input.runId));
      if input.runId in rows && rows[input.runId].tombstoned {
        errors := errors + [ErrorEntry("/run_id", RunDeleted)];
      }
    }

    /** One slot of the checked list. */
    method CheckAt(host: Host, live: Json, inputs: seq<Input>, i: nat, seen: set<string>)
      returns (slot: Option<Checked>, errors: seq<ErrorEntry>)
      requires i < |inputs| && SeenIs(seen, inputs, i)
      ensures errors == EarlyErrors(host, live, State(), inputs, i)
      ensures SlotIs(host, live, State(), inputs, i, slot)
    {
      hide OwnErrors, AttachmentsOf, Materialised, Prepare;
      var input := inputs[i];
      var body, files;
      body, files, errors := CheckElement(host, live, input, input.runId in seen && input.runId != "");
      slot := if errors == [] then Some(Prepare(host, input.runId, body, files)) else None;
    }

    method CheckInputs(host: Host, live: Json, inputs: seq<Input>)
      returns (checked: seq<Option<Checked>>, rejections: seq<Rejection>)
      ensures |checked| == |inputs|
      ensures forall i :: 0 <= i < |inputs| ==> SlotIs(host, live, State(), inputs, i, checked[i])
      ensures RejectsEarly(host, live, State(), inputs, |inputs|, rejections)
    {
      hide EarlyErrors, RejectsEarly, SlotIs;
      var seen: set<string> := {};
      checked, rejections := [], [];
      NothingRejected(host, live, State(), inputs);
      for i := 0 to |inputs|
        invariant SeenIs(seen, inputs, i)
        invariant |checked| == i
        invariant forall k :: 0 <= k < i ==> SlotIs(host, live, State(), inputs, k, checked[k])
        invariant RejectsEarly(host, live, State(), inputs, i, rejections)
      {
        var slot, errors := CheckAt(host, live, inputs, i, seen);
        seen := seen + {inputs[i].runId};
        checked := checked + [slot];
        RejectsNext(host, live, State(), inputs, i, rejections);
        if errors != [] {
          rejections := rejections + [Rejection(i, inputs[i].runId, errors)];
        }
      }
    }

    method FindMissing(ready: set<string>, c: Checked) returns (errors: seq<ErrorEntry>)
      ensures errors == Missing(ready, c)
    {
      errors := [];
      for i := 0 to |c.attachments|
        invariant errors == MissingErrors(ready, c.attachments, i)
      {
        if c.attachments[i].1 !in ready {
          errors := errors + [ErrorEntry("/attachments/" + Decimal(i) + "/sha256", AttachmentMissing)];
        }
      }
    }

    /** Step f: the attachments of every element that passed. */
    method CheckAttachments(host: Host, live: Json, ready: set<string>, inputs: seq<Input>,
                            checked: seq<Option<Checked>>, early: seq<Rejection>)
      returns (rejections: seq<Rejection>)
      requires |checked| == |inputs|
      requires forall i :: 0 <= i < |inputs| ==> SlotIs(host, live, State(), inputs, i, checked[i])
      requires RejectsEarly(host, live, State(), inputs, |inputs|, early)
      ensures Rejects(host, live, State(), ready, inputs, |inputs|, rejections)
    {
      hide EarlyErrors, RejectsEarly, Rejects, Problems, Missing, CheckedOf;
      rejections := early;
      EarlyIsStart(host, live, State(), ready, inputs, early);
      for i := 0 to |inputs|
        invariant Rejects(host, live, State(), ready, inputs, i, rejections)
      {
        RejectsStep(host, live, State(), ready, inputs, i, rejections);
        if checked[i].Some? {
          var errors := FindMissing(ready, checked[i].value);
          LateProblems(host, live, State(), ready, inputs, i);
          if errors != [] {
            rejections := rejections + [Rejection(i, inputs[i].runId, errors)];
          }
        }
      }
    }

    /** Steps 2 to 6: every element is checked before any is written. */
    method WriteRuns(host: Host, ready: set<string>, inputs: seq<Input>) returns (r: WriteResult)
      modifies this`rows, this`metrics, this`attachments, this`fingerprints, this`runsHash
      ensures (r, State()) == Write(host, old(State()), ready, inputs)
    {
      hide EarlyErrors, RejectsEarly, Rejects, Problems, Rejections, CheckedOf, Formula, Upserted, OwnErrors;
      if header.None? {
        return RecordNotFound;
      }
      var live := header.value;
      ghost var was := State();
      var existing := rows;
      var checked, rejections := CheckInputs(host, live, inputs);
      rejections := CheckAttachments(host, live, ready, inputs, checked, rejections);
      SortedIsReport(host, live, was, ready, inputs, rejections);
      if rejections != [] {
        SomeRejected(host, live, was, ready, inputs, rejections);
        return Rejected(AllSorted(rejections));
      }
      assert AllSorted([]) == [];
      var written: seq<RunWritten> := [];
      for i := 0 to |checked|
        invariant State() == Applied(host, live, was, inputs, i)
        invariant written == WrittenList(host, live, was, inputs, i)
      {
        NoneRejected(host, live, was, ready, inputs, i);
        var c := checked[i].value;
        var change := ChangeOf(existing, c);
        if !change.Unchanged? {
          Upsert(c);
        }
        written := written + [RunWritten(c.runId, change, c.contentHash, c.status, c.runId in existing && existing[c.runId].archived)];
        AppliedNext(host, live, was, inputs, i);
        assert written == WrittenList(host, live, was, inputs, i + 1);
      }
      var digest;
      if AnyChanged(written) {
        digest := RecomputeRunsHash(host);
      } else {
        digest := if runsHash.Some? then runsHash.value else RunsHash(host.hex, []);
      }
      r := Written(written, digest);
    }

    method Put(host: Host, ready: set<string>, runId: string, body: Json) returns (r: WriteResult)
      modifies this`rows, this`metrics, this`attachments, this`fingerprints, this`runsHash
      ensures (r, State()) == RunTables.Put(host, old(State()), ready, runId, body)
    {
      r := WriteRuns(host, ready, [Input(runId, body)]);
    }

    method PutBatch(host: Host, ready: set<string>, bodies: seq<Json>) returns (r: WriteResult)
      modifies this`rows, this`metrics, this`attachments, this`fingerprints, this`runsHash
      ensures (r, State()) == RunTables.PutBatch(host, old(State()), ready, bodies)
    {
      r := WriteRuns(host, ready, InputsOf(bodies));
    }

    method SetArchived(runId: string, archived: bool) returns (r: EditResult)
      modifies this`rows
      ensures (r, State()) == Archive(old(State()), runId, archived)
    {
      if header.None? {
        return NoRecord;
      }
      if runId !in rows {
        return NoRun;
      }
      var current := rows[runId];
      if current.tombstoned {
        return IsDeleted;
      }
      if current.archived == archived {
        assert rows[runId := current] == rows;
        return Edited(current);
      }
      rows := rows[runId := current.(archived := archived)];
      r := Edited(rows[runId]);
    }

    method Tombstone(runId: string) returns (r: EditResult)
      modifies this`rows, this`attachments
      ensures (r, State()) == Delete(old(State()), runId)
    {
      if header.None? {
        return NoRecord;
      }
      if runId !in rows {
        return NoRun;
      }
      var current := rows[runId];
      if current.tombstoned {
        return IsDeleted;
      }
      rows := rows[runId := current.(tombstoned := true, body := None)];
      attachments := attachments - {runId};
      r := Edited(rows[runId]);
    }
  }

  lemma EarlyIsStart(host: Host, header: Json, st: Runs, ready: set<string>, inputs: seq<Input>, list: seq<Rejection>)
    requires RejectsEarly(host, header, st, inputs, |inputs|, list)
    ensures Rejects(host, header, st, ready, inputs, 0, list)
  {
    hide EarlyErrors, Problems, Reports;
    assert LateList(host, header, st, ready, inputs, 0) == EarlyList(host, header, st, inputs, |inputs|);
  }

  /** An element with early errors keeps them; another has at most missing ones. */
  lemma LateProblems(host: Host, header: Json, st: Runs, ready: set<string>, inputs: seq<Input>, i: nat)
    requires i < |inputs|
    ensures var early := EarlyErrors(host, header, st, inputs, i);
            Problems(host, header, st, ready, inputs, i)
              == if early != [] then early else Missing(ready, CheckedOf(host, header, inputs[i]))
  {
    hide OwnErrors, Missing, CheckedOf;
  }

  lemma RejectsStep(host: Host, header: Json, st: Runs, ready: set<string>, inputs: seq<Input>, i: nat, list: seq<Rejection>)
    requires i < |inputs| && Rejects(host, header, st, ready, inputs, i, list)
    ensures var problems := Problems(host, header, st, ready, inputs, i);
            Rejects(host, header, st, ready, inputs, i + 1,
                    if EarlyErrors(host, header, st, inputs, i) == [] && problems != []
                    then list + [Rejection(i, inputs[i].runId, problems)] else list)
  {
    hide EarlyErrors, Problems, Missing, CheckedOf, Reports;
    LateProblems(host, header, st, ready, inputs, i);
    var now := LateList(host, header, st, ready, inputs, i);
    assert LateList(host, header, st, ready, inputs, i + 1) == now[i := Problems(host, header, st, ready, inputs, i)];
    if EarlyErrors(host, header, st, inputs, i) == [] {
      ReportsMore(IdsOf(inputs), now, list, i, Problems(host, header, st, ready, inputs, i));
    } else {
      assert LateList(host, header, st, ready, inputs, i + 1) == now;
    }
  }

  lemma SomeRejected(host: Host, header: Json, st: Runs, ready: set<string>, inputs: seq<Input>, list: seq<Rejection>)
    requires list != []
    ensures AllSorted(list) != []
  {
    SortedErrorsMember(list, SortedErrors(list[0]));
    assert list[0] in list;
  }

  lemma {:induction false} NoneRejected(host: Host, header: Json, st: Runs, ready: set<string>, inputs: seq<Input>, i: nat)
    requires Rejections(host, header, st, ready, inputs, |inputs|) == [] && i < |inputs|
    ensures EarlyErrors(host, header, st, inputs, i) == []
  {
    hide EarlyErrors, Problems, Rejections, Missing, CheckedOf;
    RejectionsExact(host, header, st, ready, inputs, |inputs|);
    LateProblems(host, header, st, ready, inputs, i);
  }

  ghost predicate SeenIs(seen: set<string>, inputs: seq<Input>, i: nat)
    requires i <= |inputs|
  {
    forall id :: id in seen <==> exists j :: 0 <= j < i && inputs[j].runId == id
  }

  /** An element that passed is prepared; any other slot is empty. */
  ghost predicate SlotIs(host: Host, header: Json, st: Runs, inputs: seq<Input>, i: nat, slot: Option<Checked>)
    requires i < |inputs|
  {
    slot == if EarlyErrors(host, header, st, inputs, i) == [] then Some(CheckedOf(host, header, inputs[i])) else None
  }

  lemma NothingRejected(host: Host, header: Json, st: Runs, inputs: seq<Input>)
    ensures RejectsEarly(host, header, st, inputs, 0, [])
  {
  }

  lemma RejectsNext(host: Host, header: Json, st: Runs, inputs: seq<Input>, i: nat, list: seq<Rejection>)
    requires i < |inputs| && RejectsEarly(host, header, st, inputs, i, list)
    ensures var errors := EarlyErrors(host, header, st, inputs, i);
            RejectsEarly(host, header, st, inputs, i + 1,
                         if errors == [] then list else list + [Rejection(i, inputs[i].runId, errors)])
  {
    hide EarlyErrors, Reports;
    var now := EarlyList(host, header, st, inputs, i);
    assert EarlyList(host, header, st, inputs, i + 1) == now[i := EarlyErrors(host, header, st, inputs, i)];
    ReportsMore(IdsOf(inputs), now, list, i, EarlyErrors(host, header, st, inputs, i));
  }
}
