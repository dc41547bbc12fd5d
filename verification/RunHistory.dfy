/** What every write, archive, delete and header post keeps of the run tables,
    over whole histories; and a batch as the puts of its elements. */
module RunHistory {
  import opened Prelude
  import opened Json
  import opened Text
  import opened Errors
  import opened RunHash
  import opened RunRules
  import opened RunTables

  // -------------------------------------------------------------- invariant

  function Side<T>(m: map<string, map<string, T>>, id: string): map<string, T> {
    if id in m then m[id] else map[]
  }

  ghost predicate DistinctPaths(attachments: seq<(string, string)>) {
    forall i, j :: 0 <= i < j < |attachments| ==> attachments[i].0 != attachments[j].0
  }

  /** A stored body, with the columns and side rows it must come with. */
  ghost predicate Holds(host: Host, st: Runs, id: string, row: RunRow, body: Json) {
    && body.JObj? && body.GetStr("run_id") == Some(id)
    && row.contentHash == Sha256(body) == RunContentHash(id, body)
    && row.status == (if body.GetStr("status").Some? then body.GetStr("status").value else "")
    && row.errorKind == (if body.Get("error").Some? then body.Get("error").value.GetStr("kind") else None)
    && row.startedAt == TimeOf(host, body, "started_at") && row.endedAt == TimeOf(host, body, "ended_at")
    && Side(st.metrics, id) == MetricsOf(body)
    && Side(st.attachments, id) == PathMap(AttachmentsOf(body)) && DistinctPaths(AttachmentsOf(body))
    && Side(st.fingerprints, id) == FingerprintsOf(host, body)
  }

  ghost predicate RowGood(host: Host, st: Runs, id: string)
    requires id in st.rows
  {
    var row := st.rows[id];
    && row.recordId == st.recordId && row.runId == id
    && if row.tombstoned then row.body.None? && Side(st.attachments, id) == map[]
       else row.body.Some? && Holds(host, st, id, row, row.body.value)
  }

  ghost predicate RowsGood(host: Host, st: Runs) {
    && (forall id :: id in st.rows ==> RowGood(host, st, id))
    && st.metrics.Keys <= st.rows.Keys && st.attachments.Keys <= st.rows.Keys && st.fingerprints.Keys <= st.rows.Keys
  }

  /** Every live row is what its stored body makes it, every deleted row has
      lost its body and its attachments, and `runs_hash` is the formula over
      all rows. */
  ghost predicate Good(host: Host, st: Runs) {
    RowsGood(host, st) && CurrentHash(host, st) == Formula(host, st.rows)
  }

  // ------------------------------------------------------- one element

  ghost predicate HasPath(items: seq<Json>, n: nat, path: string)
    requires n <= |items|
  {
    exists i :: 0 <= i < n && PathAt(items, i) == Some(path)
  }

  ghost predicate FromPaths(items: seq<Json>, n: nat, attachments: seq<(string, string)>)
    requires n <= |items|
  {
    forall k :: 0 <= k < |attachments| ==> HasPath(items, n, attachments[k].0)
  }

  lemma {:induction false} DecodedPaths(items: seq<Json>, n: nat)
    requires n <= |items| && PathsGood(items, n)
    ensures DistinctPaths(Decoded(items, n)) && FromPaths(items, n, Decoded(items, n))
  {
    hide DecodeSha, BadPath;
    if n > 0 {
      DecodedPaths(items, n - 1);
      var front, all := Decoded(items, n - 1), Decoded(items, n);
      forall k | 0 <= k < |front| ensures Some(front[k].0) != PathAt(items, n - 1) {
        assert HasPath(items, n - 1, front[k].0);
      }
      forall k | 0 <= k < |all| ensures HasPath(items, n, all[k].0) {
        if k < |front| {
          assert HasPath(items, n - 1, front[k].0);
        } else {
          assert PathAt(items, n - 1) == Some(all[k].0);
        }
      }
    }
  }

  /** An element without an error is stored as what it is hashed as, under its
      own id, with side rows that have no key twice. */
  lemma CheckedGood(host: Host, header: Json, st: Runs, input: Input)
    requires OwnErrors(host, header, st, input) == []
    ensures var c := CheckedOf(host, header, input);
            && c.runId == input.runId != "" && c.body.JObj? && c.body.GetStr("run_id") == Some(c.runId)
            && c.contentHash == Sha256(c.body) == RunContentHash(c.runId, c.body)
            && c.attachments == AttachmentsOf(c.body) && DistinctPaths(c.attachments)
    ensures !(input.runId in st.rows && st.rows[input.runId].tombstoned)
  {
    hide SortEntries, WellFormedRun, PathErrors, RefsErrors, KeysErrors, StatusErrors, Decoded, PathsGood;
    var body := Filled(header, input);
    var c := CheckedOf(host, header, input);
    assert RunErrors(host, input.runId, body) == [];
    assert SemanticErrors(input.runId, body) == [];
    var items := Items(body, "attachments");
    assert PathErrors(items, |items|) == [];
    PathErrorsExact(items, |items|);
    DecodedPaths(items, |items|);
    assert c.body.Get("attachments") == body.Get("attachments");
    assert WithRunId(c.runId, c.body).fields == c.body.fields;
  }

  // ----------------------------------------------------------- the write

  ghost predicate NoneRefused(host: Host, header: Json, st: Runs, ready: set<string>, inputs: seq<Input>, n: nat)
    requires n <= |inputs|
  {
    forall i :: 0 <= i < n ==> Problems(host, header, st, ready, inputs, i) == []
  }

  /** The rejection of an element that has a problem. */
  ghost predicate IsRejection(host: Host, header: Json, st: Runs, ready: set<string>, inputs: seq<Input>, n: nat, r: Rejection)
    requires n <= |inputs|
  {
    && r.index < n && r.errors != []
    && r == Rejection(r.index, inputs[r.index].runId, SortEntries(Problems(host, header, st, ready, inputs, r.index)))
  }

  lemma {:induction false} RejectionMember(host: Host, header: Json, st: Runs, ready: set<string>, inputs: seq<Input>, n: nat, r: Rejection)
    requires n <= |inputs|
    ensures r in Rejections(host, header, st, ready, inputs, n) <==> IsRejection(host, header, st, ready, inputs, n, r)
  {
    hide Problems, SortEntries;
    if n > 0 {
      RejectionMember(host, header, st, ready, inputs, n - 1, r);
      SortedNone(Problems(host, header, st, ready, inputs, n - 1));
    }
  }

  lemma {:induction false} RejectionsNone(host: Host, header: Json, st: Runs, ready: set<string>, inputs: seq<Input>, n: nat)
    requires n <= |inputs|
    ensures Rejections(host, header, st, ready, inputs, n) == [] <==> NoneRefused(host, header, st, ready, inputs, n)
  {
    hide Problems, SortEntries;
    if n > 0 { RejectionsNone(host, header, st, ready, inputs, n - 1); }
  }

  /** A write is refused exactly when some element has a problem, and it lists
      every such element. */
  lemma {:induction false} RejectionsExact(host: Host, header: Json, st: Runs, ready: set<string>, inputs: seq<Input>, n: nat)
    requires n <= |inputs|
    ensures Rejections(host, header, st, ready, inputs, n) == [] <==> NoneRefused(host, header, st, ready, inputs, n)
    ensures forall r :: r in Rejections(host, header, st, ready, inputs, n) <==>
              IsRejection(host, header, st, ready, inputs, n, r)
  {
    hide Rejections, IsRejection, NoneRefused;
    RejectionsNone(host, header, st, ready, inputs, n);
    forall r
      ensures r in Rejections(host, header, st, ready, inputs, n) <==> IsRejection(host, header, st, ready, inputs, n, r)
    {
      RejectionMember(host, header, st, ready, inputs, n, r);
    }
  }

  lemma SortedNone(errors: seq<ErrorEntry>)
    ensures SortEntries(errors) == [] <==> errors == []
  {
  }

  lemma {:induction false} RejectionsAscend(host: Host, header: Json, st: Runs, ready: set<string>, inputs: seq<Input>, n: nat)
    requires n <= |inputs|
    ensures forall k :: 0 <= k < |Rejections(host, header, st, ready, inputs, n)| ==>
              Rejections(host, header, st, ready, inputs, n)[k].index < n
    ensures forall i, j :: 0 <= i < j < |Rejections(host, header, st, ready, inputs, n)| ==>
              Rejections(host, header, st, ready, inputs, n)[i].index < Rejections(host, header, st, ready, inputs, n)[j].index
  {
    hide Problems, SortEntries;
    if n > 0 { RejectionsAscend(host, header, st, ready, inputs, n - 1); }
  }

  lemma ProblemFree(host: Host, header: Json, st: Runs, ready: set<string>, inputs: seq<Input>, i: nat)
    requires i < |inputs| && Problems(host, header, st, ready, inputs, i) == []
    ensures OwnErrors(host, header, st, inputs[i]) == [] && !Repeats(inputs, i)
  {
    hide OwnErrors, Missing;
  }

  /** The row and the side rows of one id are the same. */
  ghost predicate SameAt(st: Runs, t: Runs, id: string) {
    && t.recordId == st.recordId
    && (id in t.rows <==> id in st.rows) && (id in st.rows ==> t.rows[id] == st.rows[id])
    && Side(t.metrics, id) == Side(st.metrics, id) && Side(t.attachments, id) == Side(st.attachments, id)
    && Side(t.fingerprints, id) == Side(st.fingerprints, id)
  }

  lemma UpsertElsewhere(st: Runs, c: Checked, id: string)
    requires c.runId != id
    ensures SameAt(st, Upserted(st, c), id)
  {
    hide PathMap;
  }

  lemma CheckedId(host: Host, header: Json, input: Input)
    ensures CheckedOf(host, header, input).runId == input.runId
  {
  }

  lemma RowAside(host: Host, st: Runs, t: Runs, id: string)
    requires SameAt(st, t, id) && id in st.rows && RowGood(host, st, id)
    ensures RowGood(host, t, id)
  {
    hide AttachmentsOf, MetricsOf, FingerprintsOf, PathMap, RunContentHash, DistinctPaths, TimeOf;
  }

  lemma UpsertedRow(host: Host, st: Runs, s: Runs, header: Json, input: Input)
    requires OwnErrors(host, header, st, input) == []
    requires input.runId in s.rows ==> !s.rows[input.runId].tombstoned
    ensures RowGood(host, Upserted(s, CheckedOf(host, header, input)), input.runId)
  {
    hide OwnErrors, AttachmentsOf, MetricsOf, FingerprintsOf, PathMap, RunContentHash, DistinctPaths, Filled, TimeOf;
    CheckedGood(host, header, st, input);
  }

  lemma UpsertGood(host: Host, st: Runs, s: Runs, header: Json, input: Input)
    requires RowsGood(host, s) && OwnErrors(host, header, st, input) == []
    requires input.runId in s.rows ==> !s.rows[input.runId].tombstoned
    ensures RowsGood(host, Upserted(s, CheckedOf(host, header, input)))
  {
    hide OwnErrors, CheckedOf, RowGood, PathMap;
    var c := CheckedOf(host, header, input);
    CheckedId(host, header, input);
    UpsertedRow(host, st, s, header, input);
    var t := Upserted(s, c);
    forall id | id in t.rows ensures RowGood(host, t, id) {
      if id != input.runId {
        UpsertElsewhere(s, c, id);
        RowAside(host, s, t, id);
      }
    }
  }

  /** The first `n` writes leave every other id alone. */
  lemma {:induction false} AppliedElsewhere(host: Host, header: Json, st: Runs, inputs: seq<Input>, n: nat, id: string)
    requires n <= |inputs| && forall j :: 0 <= j < n ==> inputs[j].runId != id
    ensures SameAt(st, Applied(host, header, st, inputs, n), id)
  {
    hide CheckedOf, Upserted, ChangeOf;
    if n > 0 {
      AppliedElsewhere(host, header, st, inputs, n - 1, id);
      CheckedId(host, header, inputs[n - 1]);
      UpsertElsewhere(Applied(host, header, st, inputs, n - 1), CheckedOf(host, header, inputs[n - 1]), id);
    }
  }

  lemma {:induction false} AppliedGood(host: Host, header: Json, st: Runs, ready: set<string>, inputs: seq<Input>, n: nat)
    requires n <= |inputs| && RowsGood(host, st) && NoneRefused(host, header, st, ready, inputs, n)
    ensures RowsGood(host, Applied(host, header, st, inputs, n))
  {
    hide RowsGood, Problems, OwnErrors, CheckedOf, Upserted;
    if n > 0 {
      AppliedGood(host, header, st, ready, inputs, n - 1);
      var input := inputs[n - 1];
      ProblemFree(host, header, st, ready, inputs, n - 1);
      CheckedGood(host, header, st, input);
      AppliedElsewhere(host, header, st, inputs, n - 1, input.runId);
      UpsertGood(host, st, Applied(host, header, st, inputs, n - 1), header, input);
    }
  }

  lemma {:induction false} AppliedUnchanged(host: Host, header: Json, st: Runs, inputs: seq<Input>, n: nat)
    requires n <= |inputs|
    requires forall i :: 0 <= i < n ==> ChangeOf(st.rows, CheckedOf(host, header, inputs[i])).Unchanged?
    ensures Applied(host, header, st, inputs, n) == st
  {
    if n > 0 { AppliedUnchanged(host, header, st, inputs, n - 1); }
  }

  lemma {:induction false} AppliedKeeps(host: Host, header: Json, st: Runs, inputs: seq<Input>, n: nat)
    requires n <= |inputs|
    ensures var s := Applied(host, header, st, inputs, n);
            s.recordId == st.recordId && s.header == st.header && s.runsHash == st.runsHash
  {
    hide CheckedOf;
    if n > 0 { AppliedKeeps(host, header, st, inputs, n - 1); }
  }

  lemma WriteGood(host: Host, st: Runs, ready: set<string>, inputs: seq<Input>)
    requires Good(host, st)
    ensures Good(host, Write(host, st, ready, inputs).1)
  {
    hide RowsGood, Rejections, Applied, Formula, Problems, CheckedOf;
    if st.header.Some? {
      var header := st.header.value;
      RejectionsExact(host, header, st, ready, inputs, |inputs|);
      if NoneRefused(host, header, st, ready, inputs, |inputs|) {
        AppliedGood(host, header, st, ready, inputs, |inputs|);
        var after := Applied(host, header, st, inputs, |inputs|);
        var written := WrittenList(host, header, st, inputs, |inputs|);
        if AnyChanged(written) {
          HashAside(host, after, Some(Formula(host, after.rows)));
        } else {
          forall i | 0 <= i < |inputs| ensures ChangeOf(st.rows, CheckedOf(host, header, inputs[i])).Unchanged? {
            assert written[i].change.Unchanged?;
          }
          AppliedUnchanged(host, header, st, inputs, |inputs|);
        }
      }
    }
  }

  lemma HashAside(host: Host, st: Runs, h: Option<Digest>)
    requires RowsGood(host, st)
    ensures RowsGood(host, st.(runsHash := h))
  {
    hide RowGood;
    var t := st.(runsHash := h);
    forall id | id in t.rows ensures RowGood(host, t, id) { RowAside(host, st, t, id); }
  }

  // --------------------------------------------------------- any order

  lemma {:induction false} Once<T>(xs: seq<T>, x: T)
    requires Distinct(xs)
    ensures multiset(xs)[x] == if x in xs then 1 else 0
  {
    if xs != [] {
      Once(xs[1..], x);
      assert xs == [xs[0]] + xs[1..];
      if x == xs[0] { assert x !in xs[1..]; }
    }
  }

  lemma SameMembers<T(!new)>(xs: seq<T>, ys: seq<T>)
    requires Distinct(xs) && Distinct(ys) && forall x :: x in xs <==> x in ys
    ensures multiset(xs) == multiset(ys)
  {
    forall x ensures multiset(xs)[x] == multiset(ys)[x] {
      Once(xs, x);
      Once(ys, x);
    }
  }

  ghost predicate Enumerates(ids: seq<string>, keys: set<string>) {
    Distinct(ids) && forall id :: id in ids <==> id in keys
  }

  lemma {:induction false} AscendingEnumerates(keys: set<string>)
    ensures Enumerates(Ascending(keys), keys)
  {
    AscendingSorted(keys);
    StrOrder();
  }

  lemma PairsSame(host: Host, rows: map<string, RunRow>, ids: seq<string>, p: Pair)
    requires Enumerates(ids, rows.Keys)
    ensures p in Spelled(host.hex, PairsIn(rows, ids)) <==> p.0 in rows && p.1 == host.hex(rows[p.0].contentHash)
  {
    var pairs := Spelled(host.hex, PairsIn(rows, ids));
    if p.0 in rows && p.1 == host.hex(rows[p.0].contentHash) {
      var i :| 0 <= i < |ids| && ids[i] == p.0;
      assert pairs[i] == p;
    }
    if p in pairs {
      var i :| 0 <= i < |pairs| && pairs[i] == p;
      assert ids[i] in ids;
    }
  }

  lemma PairsDistinct(host: Host, rows: map<string, RunRow>, ids: seq<string>)
    requires Enumerates(ids, rows.Keys)
    ensures Distinct(Spelled(host.hex, PairsIn(rows, ids)))
  {
  }

  /** The rows may be read in any order. */
  lemma FormulaAnyOrder(host: Host, rows: map<string, RunRow>, ids: seq<string>)
    requires Enumerates(ids, rows.Keys)
    ensures RunsHash(host.hex, PairsIn(rows, ids)) == Formula(host, rows)
  {
    hide RunsHash, Spelled, PairsIn, Enumerates;
    AscendingEnumerates(rows.Keys);
    var other := Ascending(rows.Keys);
    EnumeratesKeys(ids, rows.Keys);
    EnumeratesKeys(other, rows.Keys);
    PairsDistinct(host, rows, ids);
    PairsDistinct(host, rows, other);
    forall p ensures p in Spelled(host.hex, PairsIn(rows, ids)) <==> p in Spelled(host.hex, PairsIn(rows, other)) {
      PairsSame(host, rows, ids, p);
      PairsSame(host, rows, other, p);
    }
    SameMembers(Spelled(host.hex, PairsIn(rows, ids)), Spelled(host.hex, PairsIn(rows, other)));
    RunsHashExact(host.hex, PairsIn(rows, ids), PairsIn(rows, other));
  }

  lemma EnumeratesKeys(ids: seq<string>, keys: set<string>)
    requires Enumerates(ids, keys)
    ensures forall id :: id in ids ==> id in keys
  {
  }

  lemma PairOf(host: Host, a: map<string, RunRow>, b: map<string, RunRow>, xs: seq<string>, ys: seq<string>, id: string)
    requires Faithful(host.hex) && Enumerates(xs, a.Keys) && Enumerates(ys, b.Keys) && id in a
    requires multiset(Spelled(host.hex, PairsIn(a, xs))) == multiset(Spelled(host.hex, PairsIn(b, ys)))
    ensures id in b && a[id].contentHash == b[id].contentHash
  {
    hide Spelled, PairsIn, Enumerates;
    EnumeratesKeys(xs, a.Keys);
    EnumeratesKeys(ys, b.Keys);
    var p := (id, host.hex(a[id].contentHash));
    PairsSame(host, a, xs, p);
    PairsSame(host, b, ys, p);
    assert p in multiset(Spelled(host.hex, PairsIn(a, xs)));
  }

  /** The same ids under the same content hashes. */
  ghost predicate SameHashes(a: map<string, RunRow>, b: map<string, RunRow>) {
    b.Keys == a.Keys && forall id :: id in a ==> b[id].contentHash == a[id].contentHash
  }

  lemma SameHashesSameDigest(host: Host, a: map<string, RunRow>, b: map<string, RunRow>)
    requires SameHashes(a, b)
    ensures Formula(host, b) == Formula(host, a)
  {
    hide RunsHash;
    var ids := Ascending(a.Keys);
    forall i | 0 <= i < |ids| ensures PairsIn(a, ids)[i] == PairsIn(b, ids)[i] {
      assert ids[i] in ids;
    }
    assert PairsIn(a, ids) == PairsIn(b, ids);
  }

  lemma DigestTellsUnder(host: Host, a: map<string, RunRow>, b: map<string, RunRow>, xs: seq<string>, ys: seq<string>)
    requires Faithful(host.hex) && Enumerates(xs, a.Keys) && Enumerates(ys, b.Keys)
    requires RunsHash(host.hex, PairsIn(a, xs)) == RunsHash(host.hex, PairsIn(b, ys))
    ensures SameHashes(a, b)
  {
    hide RunsHash, Spelled, PairsIn, Faithful;
    RunsHashExact(host.hex, PairsIn(a, xs), PairsIn(b, ys));
    forall id | id in a ensures id in b && b[id].contentHash == a[id].contentHash { PairOf(host, a, b, xs, ys, id); }
    forall id | id in b ensures id in a { PairOf(host, b, a, ys, xs, id); }
  }

  lemma DigestTellsHashes(host: Host, a: map<string, RunRow>, b: map<string, RunRow>)
    requires Faithful(host.hex) && Formula(host, a) == Formula(host, b)
    ensures SameHashes(a, b)
  {
    hide RunsHash, PairsIn, Enumerates, Faithful, SameHashes;
    AscendingEnumerates(a.Keys);
    AscendingEnumerates(b.Keys);
    DigestTellsUnder(host, a, b, Ascending(a.Keys), Ascending(b.Keys));
  }

  /** Equal digests say that the same ids have the same content hashes. */
  lemma FormulaTells(host: Host, a: map<string, RunRow>, b: map<string, RunRow>)
    requires Faithful(host.hex)
    ensures Formula(host, a) == Formula(host, b) <==> SameHashes(a, b)
  {
    hide Formula, SameHashes, Faithful;
    if SameHashes(a, b) { SameHashesSameDigest(host, a, b); }
    if Formula(host, a) == Formula(host, b) { DigestTellsHashes(host, a, b); }
  }

  // -------------------------------------------------------------- histories

  datatype Op =
    | PutOp(ready: set<string>, runId: string, body: Json)
    | BatchOp(ready: set<string>, bodies: seq<Json>)
    | ArchiveOp(runId: string, archived: bool)
    | DeleteOp(runId: string)
    | HeaderOp(header: Option<Json>)

  function Step(host: Host, st: Runs, op: Op): Runs {
    match op
    case PutOp(ready, runId, body) => Put(host, st, ready, runId, body).1
    case BatchOp(ready, bodies) => PutBatch(host, st, ready, bodies).1
    case ArchiveOp(runId, archived) => Archive(st, runId, archived).1
    case DeleteOp(runId) => Delete(st, runId).1
    case HeaderOp(header) => st.(header := header)
  }

  function After(host: Host, st: Runs, ops: seq<Op>): Runs
    decreases |ops|
  {
    if ops == [] then st else After(host, Step(host, st, ops[0]), ops[1..])
  }

  function NoRuns(recordId: Uuid): Runs {
    Runs(recordId, None, map[], map[], map[], map[], None)
  }

  /** Archiving, unarchiving, deleting and posting a header change no hash. */
  lemma EditsChangeNoHash(host: Host, st: Runs, op: Op)
    requires op.ArchiveOp? || op.DeleteOp? || op.HeaderOp?
    ensures var t := Step(host, st, op);
            SameHashes(st.rows, t.rows) && t.runsHash == st.runsHash && Formula(host, t.rows) == Formula(host, st.rows)
  {
    hide Formula, Write;
    SameHashesSameDigest(host, st.rows, Step(host, st, op).rows);
  }

  lemma EditedRow(host: Host, st: Runs, op: Op, id: string)
    requires id in st.rows && RowGood(host, st, id) && (op.ArchiveOp? || op.DeleteOp?) && op.runId == id
    ensures RowGood(host, Step(host, st, op), id)
  {
    hide AttachmentsOf, MetricsOf, FingerprintsOf, PathMap, RunContentHash, DistinctPaths, TimeOf;
  }

  lemma ArchiveAside(st: Runs, runId: string, archived: bool, id: string)
    requires runId != id
    ensures SameAt(st, Archive(st, runId, archived).1, id)
  {
  }

  lemma DeleteAside(st: Runs, runId: string, id: string)
    requires runId != id
    ensures SameAt(st, Delete(st, runId).1, id)
  {
  }

  lemma EditAside(host: Host, st: Runs, op: Op, id: string)
    requires op.HeaderOp? || ((op.ArchiveOp? || op.DeleteOp?) && op.runId != id)
    ensures SameAt(st, Step(host, st, op), id)
  {
    hide Write, Archive, Delete;
    if op.ArchiveOp? {
      ArchiveAside(st, op.runId, op.archived, id);
    } else if op.DeleteOp? {
      DeleteAside(st, op.runId, id);
    }
  }

  lemma EditGood(host: Host, st: Runs, op: Op)
    requires RowsGood(host, st) && (op.ArchiveOp? || op.DeleteOp? || op.HeaderOp?)
    ensures RowsGood(host, Step(host, st, op))
  {
    hide RowGood, SameAt;
    var t := Step(host, st, op);
    forall id | id in t.rows ensures RowGood(host, t, id) {
      if op.HeaderOp? || op.runId != id {
        EditAside(host, st, op, id);
        RowAside(host, st, t, id);
      } else {
        EditedRow(host, st, op, id);
      }
    }
  }

  lemma StepGood(host: Host, st: Runs, op: Op)
    requires Good(host, st)
    ensures Good(host, Step(host, st, op))
  {
    hide RowsGood, Formula, Write;
    match op
    case PutOp(ready, runId, body) => WriteGood(host, st, ready, [Input(runId, body)]);
    case BatchOp(ready, bodies) => WriteGood(host, st, ready, InputsOf(bodies));
    case _ =>
      EditGood(host, st, op);
      EditsChangeNoHash(host, st, op);
  }

  /** The invariant holds after every sequence of writes. */
  lemma {:induction false} HistoryGood(host: Host, st: Runs, ops: seq<Op>)
    requires Good(host, st)
    ensures Good(host, After(host, st, ops))
    decreases |ops|
  {
    hide Good, Step;
    if ops != [] {
      StepGood(host, st, ops[0]);
      HistoryGood(host, Step(host, st, ops[0]), ops[1..]);
    }
  }

  lemma NoRunsGood(host: Host, recordId: Uuid)
    ensures Good(host, NoRuns(recordId))
  {
    assert PairsIn(map[], Ascending({})) == [];
  }

  lemma {:induction false} AppliedGrows(host: Host, header: Json, st: Runs, inputs: seq<Input>, n: nat)
    requires n <= |inputs|
    ensures st.rows.Keys <= Applied(host, header, st, inputs, n).rows.Keys
  {
    hide CheckedOf, ChangeOf, PathMap;
    if n > 0 { AppliedGrows(host, header, st, inputs, n - 1); }
  }

  /** A run row is never removed. */
  lemma RowsStay(host: Host, st: Runs, op: Op)
    ensures st.rows.Keys <= Step(host, st, op).rows.Keys
  {
    hide Applied, Rejections, Formula, CheckedOf;
    if st.header.Some? {
      match op
      case PutOp(_, runId, body) => AppliedGrows(host, st.header.value, st, [Input(runId, body)], 1);
      case BatchOp(_, bodies) => AppliedGrows(host, st.header.value, st, InputsOf(bodies), |bodies|);
      case _ =>
    }
  }

  // ----------------------------------------------------------- deleted rows

  ghost predicate Deleted(st: Runs, id: string) {
    id in st.rows && st.rows[id].tombstoned
  }

  lemma WriteLeavesDeleted(host: Host, st: Runs, ready: set<string>, inputs: seq<Input>, id: string)
    requires Deleted(st, id)
    ensures SameAt(st, Write(host, st, ready, inputs).1, id)
  {
    hide Rejections, Applied, Formula, Problems, CheckedOf, OwnErrors;
    if st.header.Some? {
      var header := st.header.value;
      RejectionsExact(host, header, st, ready, inputs, |inputs|);
      if NoneRefused(host, header, st, ready, inputs, |inputs|) {
        forall j | 0 <= j < |inputs| ensures inputs[j].runId != id {
          ProblemFree(host, header, st, ready, inputs, j);
          CheckedGood(host, header, st, inputs[j]);
        }
        AppliedElsewhere(host, header, st, inputs, |inputs|, id);
      }
    }
  }

  lemma StepLeavesDeleted(host: Host, st: Runs, op: Op, id: string)
    requires Deleted(st, id)
    ensures SameAt(st, Step(host, st, op), id)
  {
    hide Write;
    match op
    case PutOp(ready, runId, body) => WriteLeavesDeleted(host, st, ready, [Input(runId, body)], id);
    case BatchOp(ready, bodies) => WriteLeavesDeleted(host, st, ready, InputsOf(bodies), id);
    case _ =>
  }

  /** A deleted run is frozen for ever: its row and side rows survive every
      later history as they are. */
  lemma {:induction false} DeletedForGood(host: Host, st: Runs, ops: seq<Op>, id: string)
    requires Deleted(st, id)
    ensures SameAt(st, After(host, st, ops), id)
    decreases |ops|
  {
    hide Step;
    if ops != [] {
      StepLeavesDeleted(host, st, ops[0], id);
      DeletedForGood(host, Step(host, st, ops[0]), ops[1..], id);
    }
  }

  // ------------------------------------------------------ a batch is its puts

  /** Why a put of this element alone is refused. */
  function Alone(host: Host, header: Json, st: Runs, ready: set<string>, input: Input): seq<ErrorEntry> {
    var errors := OwnErrors(host, header, st, input);
    if errors != [] then errors else Missing(ready, CheckedOf(host, header, input))
  }

  /** No id but the empty one comes twice. */
  ghost predicate NoRepeats(inputs: seq<Input>) {
    forall i, j :: 0 <= i < j < |inputs| && inputs[i].runId == inputs[j].runId ==> inputs[i].runId == ""
  }

  lemma AloneInBatch(host: Host, header: Json, st: Runs, ready: set<string>, inputs: seq<Input>, i: nat)
    requires NoRepeats(inputs) && i < |inputs|
    ensures Problems(host, header, st, ready, inputs, i) == Alone(host, header, st, ready, inputs[i])
  {
    hide OwnErrors, Missing, CheckedOf;
    assert !Repeats(inputs, i);
    assert [] + OwnErrors(host, header, st, inputs[i]) == OwnErrors(host, header, st, inputs[i]);
  }

  /** A put writes its element exactly when nothing is wrong with it alone. */
  lemma PutExact(host: Host, st: Runs, ready: set<string>, input: Input)
    requires st.header.Some?
    ensures var problems := Alone(host, st.header.value, st, ready, input);
            var (r, t) := Put(host, st, ready, input.runId, input.body);
            if problems != [] then r == Rejected([Rejection(0, input.runId, SortEntries(problems))]) && t == st
            else
              var c := CheckedOf(host, st.header.value, input);
              && r.Written? && r.runs == [WrittenAs(st.rows, c)]
              && t == if ChangeOf(st.rows, c).Unchanged? then st
                      else Upserted(st, c).(runsHash := Some(Formula(host, Upserted(st, c).rows)))
  {
    hide Alone, Problems, SortEntries, CheckedOf, Upserted, Formula, ChangeOf, OwnErrors;
    var header, inputs := st.header.value, [Input(input.runId, input.body)];
    assert inputs[0] == input;
    AloneInBatch(host, header, st, ready, inputs, 0);
    assert Rejections(host, header, st, ready, inputs, 0) == [];
    assert Applied(host, header, st, inputs, 0) == st;
    var written := WrittenList(host, header, st, inputs, 1);
    assert written == [WrittenAs(st.rows, CheckedOf(host, header, input))];
    assert AnyChanged(written) <==> !written[0].change.Unchanged?;
  }

  /** The first `n` elements put one after the other. */
  function PutInTurn(host: Host, st: Runs, ready: set<string>, inputs: seq<Input>, n: nat): Runs
    requires n <= |inputs|
  {
    if n == 0 then st
    else
      var before := PutInTurn(host, st, ready, inputs, n - 1);
      Put(host, before, ready, inputs[n - 1].runId, inputs[n - 1].body).1
  }

  /** The rows and the digest after `n` elements of a batch. */
  function Batched(host: Host, header: Json, st: Runs, inputs: seq<Input>, n: nat): Runs
    requires n <= |inputs|
  {
    var after := Applied(host, header, st, inputs, n);
    if AnyChanged(WrittenList(host, header, st, inputs, n)) then after.(runsHash := Some(Formula(host, after.rows))) else after
  }

  lemma SameAloneAt(host: Host, header: Json, st: Runs, t: Runs, ready: set<string>, input: Input)
    requires SameAt(st, t, input.runId)
    ensures Alone(host, header, t, ready, input) == Alone(host, header, st, ready, input)
    ensures ChangeOf(t.rows, CheckedOf(host, header, input)) == ChangeOf(st.rows, CheckedOf(host, header, input))
    ensures WrittenAs(t.rows, CheckedOf(host, header, input)) == WrittenAs(st.rows, CheckedOf(host, header, input))
  {
    hide RunErrors, DecodeErrors, Missing;
    CheckedId(host, header, input);
  }

  lemma AnyChangedSnoc(host: Host, header: Json, st: Runs, inputs: seq<Input>, n: nat)
    requires 0 < n <= |inputs|
    ensures AnyChanged(WrittenList(host, header, st, inputs, n)) <==>
            AnyChanged(WrittenList(host, header, st, inputs, n - 1))
            || !ChangeOf(st.rows, CheckedOf(host, header, inputs[n - 1])).Unchanged?
  {
    hide CheckedOf, ChangeOf;
    var before, now := WrittenList(host, header, st, inputs, n - 1), WrittenList(host, header, st, inputs, n);
    assert forall i :: 0 <= i < n - 1 ==> now[i] == before[i];
    assert now[n - 1].change == ChangeOf(st.rows, CheckedOf(host, header, inputs[n - 1]));
  }

  /** Put in turn, each element is accepted, reported as the batch reports it,
      and leaves what the batch leaves. */
  lemma {:induction false} PutsFollow(host: Host, header: Json, st: Runs, ready: set<string>, inputs: seq<Input>, n: nat)
    requires n <= |inputs| && st.header == Some(header) && NoRepeats(inputs)
    requires forall i :: 0 <= i < |inputs| ==> Alone(host, header, st, ready, inputs[i]) == []
    ensures PutInTurn(host, st, ready, inputs, n) == Batched(host, header, st, inputs, n)
    ensures n < |inputs| ==>
              var s := PutInTurn(host, st, ready, inputs, n);
              var r := Put(host, s, ready, inputs[n].runId, inputs[n].body).0;
              r.Written? && r.runs == [WrittenAs(st.rows, CheckedOf(host, header, inputs[n]))]
  {
    hide Put, Alone, Applied, Formula, CheckedOf, OwnErrors, WrittenList, AnyChanged, ChangeOf, Upserted;
    AppliedKeeps(host, header, st, inputs, n);
    if n > 0 {
      PutsFollow(host, header, st, ready, inputs, n - 1);
      AppliedKeeps(host, header, st, inputs, n - 1);
      NextPut(host, header, st, ready, inputs, n - 1);
      AnyChangedSnoc(host, header, st, inputs, n);
      AppliedNext(host, header, st, inputs, n - 1);
    } else {
      NoneWritten(host, header, st, inputs);
    }
    if n < |inputs| { NextPut(host, header, st, ready, inputs, n); }
  }

  lemma NoneWritten(host: Host, header: Json, st: Runs, inputs: seq<Input>)
    ensures Batched(host, header, st, inputs, 0) == st
  {
  }

  lemma AppliedNext(host: Host, header: Json, st: Runs, inputs: seq<Input>, n: nat)
    requires n < |inputs|
    ensures var c := CheckedOf(host, header, inputs[n]);
            Applied(host, header, st, inputs, n + 1) ==
              if ChangeOf(st.rows, c).Unchanged? then Applied(host, header, st, inputs, n)
              else Upserted(Applied(host, header, st, inputs, n), c)
  {
  }

  /** What the next put does to the state the batch has reached. */
  lemma {:induction false} NextPut(host: Host, header: Json, st: Runs, ready: set<string>, inputs: seq<Input>, n: nat)
    requires n < |inputs| && st.header == Some(header) && NoRepeats(inputs)
    requires forall i :: 0 <= i < |inputs| ==> Alone(host, header, st, ready, inputs[i]) == []
    ensures var s := Batched(host, header, st, inputs, n);
            var c := CheckedOf(host, header, inputs[n]);
            var (r, t) := Put(host, s, ready, inputs[n].runId, inputs[n].body);
            var next := Upserted(Applied(host, header, st, inputs, n), c);
            && r.Written? && r.runs == [WrittenAs(st.rows, c)]
            && t == if ChangeOf(st.rows, c).Unchanged? then s else next.(runsHash := Some(Formula(host, next.rows)))
  {
    hide Put, Alone, Applied, Formula, CheckedOf, OwnErrors, WrittenList, AnyChanged, ChangeOf, WrittenAs;
    var s := Batched(host, header, st, inputs, n);
    AppliedKeeps(host, header, st, inputs, n);
    forall j | 0 <= j < n ensures inputs[j].runId != inputs[n].runId {
      AcceptedId(host, header, st, ready, inputs[n]);
    }
    AppliedElsewhere(host, header, st, inputs, n, inputs[n].runId);
    SameAloneAt(host, header, st, s, ready, inputs[n]);
    PutExact(host, s, ready, inputs[n]);
  }

  lemma AcceptedId(host: Host, header: Json, st: Runs, ready: set<string>, input: Input)
    requires Alone(host, header, st, ready, input) == []
    ensures input.runId != ""
  {
    hide OwnErrors, CheckedOf, Missing;
    CheckedGood(host, header, st, input);
  }

  ghost predicate AllAccepted(host: Host, st: Runs, ready: set<string>, inputs: seq<Input>) {
    forall i :: 0 <= i < |inputs| ==> Put(host, st, ready, inputs[i].runId, inputs[i].body).0.Written?
  }

  /** A batch without repeats succeeds exactly when each element's put would,
      and then leaves what the puts leave one after the other, reporting what
      each of them reports; otherwise it changes nothing. */
  lemma {:induction false} BatchIsPuts(host: Host, st: Runs, ready: set<string>, inputs: seq<Input>)
    requires st.header.Some? && NoRepeats(inputs)
    ensures var (r, t) := Write(host, st, ready, inputs);
            && (r.Written? <==> AllAccepted(host, st, ready, inputs))
            && (r.Written? ==> t == PutInTurn(host, st, ready, inputs, |inputs|))
            && (r.Written? ==> |r.runs| == |inputs| && forall i :: 0 <= i < |inputs| ==>
                  Put(host, PutInTurn(host, st, ready, inputs, i), ready, inputs[i].runId, inputs[i].body).0.Written?
                  && Put(host, PutInTurn(host, st, ready, inputs, i), ready, inputs[i].runId, inputs[i].body).0.runs == [r.runs[i]])
            && (!r.Written? ==> r.Rejected? && t == st)
  {
    hide Put, Alone, Applied, Formula, CheckedOf, OwnErrors, AnyChanged, Problems, Rejections, ChangeOf, PutInTurn;
    var header := st.header.value;
    RejectionsExact(host, header, st, ready, inputs, |inputs|);
    forall i | 0 <= i < |inputs|
      ensures Problems(host, header, st, ready, inputs, i) == [] <==> Alone(host, header, st, ready, inputs[i]) == []
      ensures Alone(host, header, st, ready, inputs[i]) == [] <==> Put(host, st, ready, inputs[i].runId, inputs[i].body).0.Written?
    {
      AloneInBatch(host, header, st, ready, inputs, i);
      PutExact(host, st, ready, inputs[i]);
    }
    if AllAccepted(host, st, ready, inputs) {
      PutsFollow(host, header, st, ready, inputs, |inputs|);
      forall i | 0 <= i < |inputs| { PutsFollow(host, header, st, ready, inputs, i); }
    }
  }

  /** A refused batch lists, in order, the elements whose put would be refused,
      each with the errors its put reports. */
  lemma BatchRefusals(host: Host, st: Runs, ready: set<string>, inputs: seq<Input>)
    requires st.header.Some? && NoRepeats(inputs) && Write(host, st, ready, inputs).0.Rejected?
    ensures var list := Write(host, st, ready, inputs).0.rejections;
            && (forall i, j :: 0 <= i < j < |list| ==> list[i].index < list[j].index)
            && (forall r :: r in list <==>
                  r.index < |inputs|
                  && Put(host, st, ready, inputs[r.index].runId, inputs[r.index].body).0 == Rejected([r.(index := 0)]))
  {
    hide Put, Alone, OwnErrors, Problems, Rejections, SortEntries;
    var header := st.header.value;
    RejectionsExact(host, header, st, ready, inputs, |inputs|);
    RejectionsAscend(host, header, st, ready, inputs, |inputs|);
    forall i | 0 <= i < |inputs|
      ensures var problems := Problems(host, header, st, ready, inputs, i);
              Put(host, st, ready, inputs[i].runId, inputs[i].body).0.Rejected? <==> problems != []
      ensures var problems := Problems(host, header, st, ready, inputs, i);
              problems != [] ==> Put(host, st, ready, inputs[i].runId, inputs[i].body).0
                                 == Rejected([Rejection(0, inputs[i].runId, SortEntries(problems))])
    {
      AloneInBatch(host, header, st, ready, inputs, i);
      PutExact(host, st, ready, inputs[i]);
      SortedNone(Problems(host, header, st, ready, inputs, i));
    }
    forall i | 0 <= i < |inputs| { SortedNone(Problems(host, header, st, ready, inputs, i)); }
  }

  // -------------------------------------------------------------- repetition

  lemma {:induction false} StillReady(ready: set<string>, again: set<string>, attachments: seq<(string, string)>, n: nat)
    requires n <= |attachments| && ready <= again && MissingErrors(ready, attachments, n) == []
    ensures MissingErrors(again, attachments, n) == []
  {
    if n > 0 { StillReady(ready, again, attachments, n - 1); }
  }

  ghost predicate StoredAs(st: Runs, c: Checked) {
    c.runId in st.rows && st.rows[c.runId].contentHash == c.contentHash && !st.rows[c.runId].tombstoned
  }

  lemma NoneRefusedDistinct(host: Host, header: Json, st: Runs, ready: set<string>, inputs: seq<Input>, i: nat, j: nat)
    requires NoneRefused(host, header, st, ready, inputs, |inputs|) && i < j < |inputs|
    ensures inputs[i].runId != inputs[j].runId
  {
    hide Problems, OwnErrors, CheckedOf;
    ProblemFree(host, header, st, ready, inputs, j);
    CheckedGood(host, header, st, inputs[j]);
  }

  lemma {:induction false} AppliedStored(host: Host, header: Json, st: Runs, ready: set<string>, inputs: seq<Input>, n: nat, i: nat)
    requires i < n <= |inputs| && NoneRefused(host, header, st, ready, inputs, |inputs|)
    ensures StoredAs(Applied(host, header, st, inputs, n), CheckedOf(host, header, inputs[i]))
  {
    hide Problems, OwnErrors, CheckedOf, NoneRefused, Applied, PathMap;
    var c := CheckedOf(host, header, inputs[i]);
    CheckedId(host, header, inputs[i]);
    AppliedNext(host, header, st, inputs, n - 1);
    if i < n - 1 {
      AppliedStored(host, header, st, ready, inputs, n - 1, i);
      NoneRefusedDistinct(host, header, st, ready, inputs, i, n - 1);
      CheckedId(host, header, inputs[n - 1]);
      UpsertElsewhere(Applied(host, header, st, inputs, n - 1), CheckedOf(host, header, inputs[n - 1]), c.runId);
    } else {
      forall j | 0 <= j < i ensures inputs[j].runId != c.runId {
        NoneRefusedDistinct(host, header, st, ready, inputs, j, i);
      }
      AppliedElsewhere(host, header, st, inputs, i, c.runId);
      AcceptedHere(host, header, st, ready, inputs, i);
    }
  }

  lemma AcceptedHere(host: Host, header: Json, st: Runs, ready: set<string>, inputs: seq<Input>, i: nat)
    requires i < |inputs| && NoneRefused(host, header, st, ready, inputs, |inputs|)
    ensures OwnErrors(host, header, st, inputs[i]) == [] && Missing(ready, CheckedOf(host, header, inputs[i])) == []
    ensures !Deleted(st, inputs[i].runId)
  {
    hide OwnErrors, CheckedOf, Missing;
    ProblemFree(host, header, st, ready, inputs, i);
    CheckedGood(host, header, st, inputs[i]);
  }

  lemma OwnErrorsAgain(host: Host, header: Json, st: Runs, t: Runs, input: Input)
    requires !Deleted(st, input.runId) && !Deleted(t, input.runId)
    ensures OwnErrors(host, header, t, input) == OwnErrors(host, header, st, input)
  {
  }

  lemma NoProblemAgain(host: Host, header: Json, st: Runs, t: Runs, ready: set<string>, again: set<string>, inputs: seq<Input>, i: nat)
    requires i < |inputs| && NoneRefused(host, header, st, ready, inputs, |inputs|) && ready <= again
    requires !Deleted(t, inputs[i].runId)
    ensures Problems(host, header, t, again, inputs, i) == []
  {
    hide OwnErrors, CheckedOf, NoneRefused;
    AcceptedHere(host, header, st, ready, inputs, i);
    OwnErrorsAgain(host, header, st, t, inputs[i]);
    var c := CheckedOf(host, header, inputs[i]);
    StillReady(ready, again, c.attachments, |c.attachments|);
    assert !Repeats(inputs, i) by { ProblemFreeAt(host, header, st, ready, inputs, i); }
  }

  lemma ProblemFreeAt(host: Host, header: Json, st: Runs, ready: set<string>, inputs: seq<Input>, i: nat)
    requires i < |inputs| && NoneRefused(host, header, st, ready, inputs, |inputs|)
    ensures !Repeats(inputs, i)
  {
    hide Problems;
    ProblemFree(host, header, st, ready, inputs, i);
  }

  /** An accepted batch sent again, under the same header and with its
      attachments still there, changes nothing and reports nothing changed. */
  lemma RepeatedBatch(host: Host, st: Runs, ready: set<string>, again: set<string>, inputs: seq<Input>)
    requires Write(host, st, ready, inputs).0.Written? && ready <= again
    ensures var t := Write(host, st, ready, inputs).1;
            var (r, u) := Write(host, t, again, inputs);
            && u == t && r.Written? && |r.runs| == |inputs|
            && (forall i :: 0 <= i < |inputs| ==> r.runs[i].change.Unchanged?)
            && r.runsHash == Write(host, st, ready, inputs).0.runsHash
  {
    hide Problems, OwnErrors, CheckedOf, Applied, Rejections, Formula, NoneRefused;
    var header := st.header.value;
    var t := Write(host, st, ready, inputs).1;
    RejectionsExact(host, header, st, ready, inputs, |inputs|);
    AppliedKeeps(host, header, st, inputs, |inputs|);
    forall i | 0 <= i < |inputs|
      ensures Problems(host, header, t, again, inputs, i) == []
      ensures ChangeOf(t.rows, CheckedOf(host, header, inputs[i])).Unchanged?
    {
      AppliedStored(host, header, st, ready, inputs, |inputs|, i);
      CheckedId(host, header, inputs[i]);
      NoProblemAgain(host, header, st, t, ready, again, inputs, i);
    }
    RefusesNone(host, header, t, again, inputs);
    RejectionsExact(host, header, t, again, inputs, |inputs|);
    AppliedUnchanged(host, header, t, inputs, |inputs|);
  }

  lemma RefusesNone(host: Host, header: Json, st: Runs, ready: set<string>, inputs: seq<Input>)
    requires forall i :: 0 <= i < |inputs| ==> Problems(host, header, st, ready, inputs, i) == []
    ensures NoneRefused(host, header, st, ready, inputs, |inputs|)
  {
  }
}
