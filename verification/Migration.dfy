/** The 0.1 to 0.2 data migration (`evalhub-store/src/data_migrations.rs`,
    `runs_split`): runs leave the bodies of an Eval's versions for rows of their
    own, and the Cards' used sets are rebuilt from the versions they point at. */
module Migration {
  import opened Prelude
  import opened Json
  import opened Text
  import opened Validate
  import opened RunHash
  import opened RunRules
  import opened RunTables
  import H = RunHistory
  import C = CardHistory
  import Sql
  import U = UsedSet

  /** A version of the Eval; a tombstoned one has no body. */
  datatype Version = Version(id: Uuid, seqNo: nat, body: Option<Json>, contentHash: Digest)

  /** A 1.0 body as `split_v1` takes it apart: the 2.0 header, and the runs by id. */
  datatype Parts = Parts(header: Json, runs: map<string, Json>)

  type Split = Json -> Parts

  /** A live 1.0 version, split. */
  datatype Source = Source(id: Uuid, seqNo: nat, parts: Parts)

  datatype CardEdge = CardEdge(card: Uuid, to: Uuid, attrs: Option<Json>)

  const SCHEMA_1_0 := "evalhub.eval/1.0"

  predicate DeclaresV1(body: Json) {
    body.GetStr("schema") == Some(SCHEMA_1_0)
  }

  predicate IsSource(v: Version) {
    v.body.Some? && DeclaresV1(v.body.value)
  }

  // ---------------------------------------------------------------- problems

  predicate RunIdGood(element: Json) {
    element.GetStr("run_id").Some? && IsValidRunId(element.GetStr("run_id").value)
  }

  function RunIdProblems(body: Json): nat {
    BadElements(Items(body, "runs"), |Items(body, "runs")|)
  }

  function BadElements(items: seq<Json>, n: nat): nat
    requires n <= |items|
  {
    if n == 0 then 0 else BadElements(items, n - 1) + if RunIdGood(items[n - 1]) then 0 else 1
  }

  /** `check_run_ids`: one problem for every element. */
  method CheckRunIds(body: Json, problems0: nat) returns (problems: nat)
    ensures problems == problems0 + RunIdProblems(body)
  {
    var items := Items(body, "runs");
    problems := problems0;
    for i := 0 to |items|
      invariant problems == problems0 + BadElements(items, i)
    {
      var id := items[i].GetStr("run_id");
      if id.None? || !IsValidRunId(id.value) {
        problems := problems + 1;
      }
    }
  }

  lemma {:induction false} NoBadElements(items: seq<Json>, n: nat)
    requires n <= |items|
    ensures BadElements(items, n) == 0 <==> forall i :: 0 <= i < n ==> RunIdGood(items[i])
  {
    if n > 0 { NoBadElements(items, n - 1); }
  }

  // ----------------------------------------------------------------- sources

  function Sources(split: Split, versions: seq<Version>, n: nat): seq<Source>
    requires n <= |versions|
  {
    if n == 0 then []
    else
      var v := versions[n - 1];
      Sources(split, versions, n - 1) + if IsSource(v) then [Source(v.id, v.seqNo, split(v.body.value))] else []
  }

  function IdProblems(versions: seq<Version>, n: nat): nat
    requires n <= |versions|
  {
    if n == 0 then 0
    else IdProblems(versions, n - 1) + if IsSource(versions[n - 1]) then RunIdProblems(versions[n - 1].body.value) else 0
  }

  /** The live versions: what an edge may point at. */
  function LiveIds(versions: seq<Version>, n: nat): set<Uuid>
    requires n <= |versions|
  {
    if n == 0 then {} else LiveIds(versions, n - 1) + if versions[n - 1].body.Some? then {versions[n - 1].id} else {}
  }

  method Collect(split: Split, versions: seq<Version>, problems0: nat)
    returns (sources: seq<Source>, live: set<Uuid>, problems: nat)
    ensures sources == Sources(split, versions, |versions|) && live == LiveIds(versions, |versions|)
    ensures problems == problems0 + IdProblems(versions, |versions|)
  {
    hide RunIdProblems;
    sources, live, problems := [], {}, problems0;
    for i := 0 to |versions|
      invariant sources == Sources(split, versions, i) && live == LiveIds(versions, i)
      invariant problems == problems0 + IdProblems(versions, i)
    {
      var v := versions[i];
      if v.body.Some? {
        live := live + {v.id};
        if DeclaresV1(v.body.value) {
          problems := CheckRunIds(v.body.value, problems);
          sources := sources + [Source(v.id, v.seqNo, split(v.body.value))];
        }
      }
    }
  }

  // ----------------------------------------------------------------- winners

  /** The runs of the first `n` sources, later ones over earlier ones. */
  function Winners(sources: seq<Source>, n: nat): map<string, Json>
    requires n <= |sources|
  {
    if n == 0 then map[] else Winners(sources, n - 1) + sources[n - 1].parts.runs
  }

  method PickWinners(sources: seq<Source>) returns (winners: map<string, Json>)
    ensures winners == Winners(sources, |sources|)
  {
    winners := map[];
    for i := 0 to |sources|
      invariant winners == Winners(sources, i)
    {
      winners := winners + sources[i].parts.runs;
    }
  }

  /** Source `i` holds the id, and none of a higher sequence number does. */
  ghost predicate Highest(sources: seq<Source>, id: string, i: nat) {
    && i < |sources| && id in sources[i].parts.runs
    && forall j :: 0 <= j < |sources| && sources[j].seqNo > sources[i].seqNo ==> id !in sources[j].parts.runs
  }

  /** The same by place in the list. */
  ghost predicate Last(sources: seq<Source>, id: string, i: nat) {
    && i < |sources| && id in sources[i].parts.runs
    && forall j :: i < j < |sources| ==> id !in sources[j].parts.runs
  }

  ghost predicate SeqSorted(sources: seq<Source>) {
    forall i, j :: 0 <= i < j < |sources| ==> sources[i].seqNo < sources[j].seqNo
  }

  /** `ORDER BY seq`; no two versions of a record share one. */
  ghost predicate BySeq(versions: seq<Version>) {
    forall i, j :: 0 <= i < j < |versions| ==> versions[i].seqNo < versions[j].seqNo
  }

  lemma {:induction false} SourcesBySeq(split: Split, versions: seq<Version>, n: nat)
    requires n <= |versions| && BySeq(versions)
    ensures SeqSorted(Sources(split, versions, n))
    ensures forall s :: s in Sources(split, versions, n) ==> n > 0 && s.seqNo <= versions[n - 1].seqNo
  {
    if n > 0 { SourcesBySeq(split, versions, n - 1); }
  }

  function SourceOf(split: Split, v: Version): Source
    requires IsSource(v)
  {
    Source(v.id, v.seqNo, split(v.body.value))
  }

  lemma {:induction false} SourceMember(split: Split, versions: seq<Version>, n: nat, s: Source)
    requires n <= |versions|
    ensures s in Sources(split, versions, n) <==> exists k :: 0 <= k < n && IsSource(versions[k]) && s == SourceOf(split, versions[k])
  {
    hide IsSource;
    if n > 0 {
      SourceMember(split, versions, n - 1, s);
      if IsSource(versions[n - 1]) && s == SourceOf(split, versions[n - 1]) {
        var all := Sources(split, versions, n);
        assert all[|all| - 1] == s;
      }
    }
  }

  lemma LastIsHighest(sources: seq<Source>, id: string, i: nat)
    requires SeqSorted(sources) && i < |sources|
    ensures Last(sources, id, i) <==> Highest(sources, id, i)
  {
    forall j | 0 <= j < |sources| ensures sources[j].seqNo > sources[i].seqNo <==> j > i {}
  }

  lemma {:induction false} WinnerAt(sources: seq<Source>, n: nat, id: string, i: nat)
    requires i < n <= |sources| && id in sources[i].parts.runs
    requires forall j :: i < j < n ==> id !in sources[j].parts.runs
    ensures id in Winners(sources, n) && Winners(sources, n)[id] == sources[i].parts.runs[id]
  {
    if i < n - 1 { WinnerAt(sources, n - 1, id, i); }
  }

  lemma {:induction false} WinnerFrom(sources: seq<Source>, n: nat, id: string) returns (i: nat)
    requires n <= |sources| && id in Winners(sources, n)
    ensures i < n && id in sources[i].parts.runs && forall j :: i < j < n ==> id !in sources[j].parts.runs
  {
    i := n - 1;
    if id !in sources[n - 1].parts.runs { i := WinnerFrom(sources, n - 1, id); }
  }

  lemma {:induction false} WinnerIsLast(sources: seq<Source>, id: string, i: nat)
    requires Last(sources, id, i)
    ensures id in Winners(sources, |sources|) && Winners(sources, |sources|)[id] == sources[i].parts.runs[id]
  {
    WinnerAt(sources, |sources|, id, i);
  }

  /** The run of that id in this live 1.0 version, which none of a higher sequence
      number holds. */
  ghost predicate HeldHighest(split: Split, versions: seq<Version>, id: string, v: Version) {
    && v in versions && IsSource(v) && id in split(v.body.value).runs
    && forall w :: w in versions && IsSource(w) && w.seqNo > v.seqNo ==> id !in split(w.body.value).runs
  }

  lemma {:induction false} SourcesAre(split: Split, versions: seq<Version>)
    ensures forall s :: s in Sources(split, versions, |versions|) <==>
              exists v :: v in versions && IsSource(v) && s == SourceOf(split, v)
  {
    hide Sources, IsSource;
    forall s
      ensures s in Sources(split, versions, |versions|) <==> exists v :: v in versions && IsSource(v) && s == SourceOf(split, v)
    {
      SourceMember(split, versions, |versions|, s);
      if v :| v in versions && IsSource(v) && s == SourceOf(split, v) {
        var k :| 0 <= k < |versions| && versions[k] == v;
      }
    }
  }

  lemma {:induction false} HeldWins(split: Split, versions: seq<Version>, id: string, v: Version)
    requires BySeq(versions) && HeldHighest(split, versions, id, v)
    ensures var sources := Sources(split, versions, |versions|);
            id in Winners(sources, |sources|) && Winners(sources, |sources|)[id] == split(v.body.value).runs[id]
  {
    hide Sources, Winners;
    var sources := Sources(split, versions, |versions|);
    SourcesBySeq(split, versions, |versions|);
    SourcesAre(split, versions);
    assert SourceOf(split, v) in sources;
    var i :| 0 <= i < |sources| && sources[i] == SourceOf(split, v);
    forall j | 0 <= j < |sources| && sources[j].seqNo > sources[i].seqNo ensures id !in sources[j].parts.runs {
      assert sources[j] in sources;
    }
    LastIsHighest(sources, id, i);
    WinnerIsLast(sources, id, i);
  }

  lemma {:induction false} WinnerIsHeld(split: Split, versions: seq<Version>, id: string) returns (v: Version)
    requires var sources := Sources(split, versions, |versions|);
             BySeq(versions) && id in Winners(sources, |sources|)
    ensures HeldHighest(split, versions, id, v)
  {
    hide Sources, Winners;
    var sources := Sources(split, versions, |versions|);
    SourcesBySeq(split, versions, |versions|);
    SourcesAre(split, versions);
    var i := WinnerFrom(sources, |sources|, id);
    LastIsHighest(sources, id, i);
    assert sources[i] in sources;
    v :| v in versions && IsSource(v) && sources[i] == SourceOf(split, v);
    forall w | w in versions && IsSource(w) && w.seqNo > v.seqNo ensures w.body.Some? && id !in split(w.body.value).runs {
      assert SourceOf(split, w) in sources;
      var j :| 0 <= j < |sources| && sources[j] == SourceOf(split, w);
    }
  }

  /** The winner of an id is its run in the live 1.0 version of the highest
      sequence number that holds it; and there is a winner only of such an id. */
  lemma {:induction false} WinnerIsHighest(split: Split, versions: seq<Version>, id: string)
    requires BySeq(versions)
    ensures var sources := Sources(split, versions, |versions|);
            var winners := Winners(sources, |sources|);
            && (forall v :: HeldHighest(split, versions, id, v) ==> id in winners && winners[id] == split(v.body.value).runs[id])
            && (id in winners <==> exists v :: HeldHighest(split, versions, id, v))
  {
    hide Sources, Winners, BySeq;
    var sources := Sources(split, versions, |versions|);
    forall v | HeldHighest(split, versions, id, v)
      ensures v.body.Some? && id in split(v.body.value).runs
      ensures id in Winners(sources, |sources|) && Winners(sources, |sources|)[id] == split(v.body.value).runs[id]
    {
      HeldWins(split, versions, id, v);
    }
    if id in Winners(sources, |sources|) {
      var v := WinnerIsHeld(split, versions, id);
    }
  }

  // --------------------------------------------------------------- run rows

  predicate FilesGood(run: Json) {
    DecodeErrors(Items(run, "attachments"), |Items(run, "attachments")|) == []
  }

  ghost predicate AllFilesGood(winners: map<string, Json>) {
    forall id :: id in winners ==> FilesGood(winners[id])
  }

  function Converted(host: Host, id: string, run: Json): Checked {
    Prepare(host, id, run, AttachmentsOf(run))
  }

  /** The paths of a run's attachments are its keys, and must not repeat. */
  ghost predicate PathsDistinct(run: Json) {
    H.DistinctPaths(AttachmentsOf(run))
  }

  /** A winner the database refuses: its digests can be read, its paths repeat. */
  ghost predicate Breaks(winners: map<string, Json>) {
    exists id :: id in winners && FilesGood(winners[id]) && !PathsDistinct(winners[id])
  }

  /** A run and its side rows, stored as prepared; an overwritten row keeps its
      marks. */
  ghost predicate Stores(before: Runs, st: Runs, c: Checked) {
    && c.runId in st.rows && st.rows[c.runId] == RowOf(before, c)
    && H.Side(st.metrics, c.runId) == c.metrics
    && H.Side(st.fingerprints, c.runId) == c.fingerprints
    && H.Side(st.attachments, c.runId) == PathMap(c.attachments)
  }

  /** No table has rows of other runs than it had and these. */
  ghost predicate Adds(before: Runs, ids: set<string>, after: Runs) {
    && after.recordId == before.recordId && after.header == before.header
    && after.rows.Keys == before.rows.Keys + ids && after.metrics.Keys == before.metrics.Keys + ids
    && after.attachments.Keys == before.attachments.Keys + ids && after.fingerprints.Keys == before.fingerprints.Keys + ids
  }

  /** The tables hold each winner as it was converted, and what else they held. */
  ghost predicate Wrote(host: Host, before: Runs, winners: map<string, Json>, after: Runs) {
    && Adds(before, winners.Keys, after)
    && (forall id :: id in winners ==> Stores(before, after, Converted(host, id, winners[id])))
    && (forall id :: id !in winners ==> H.SameAt(before, after, id))
  }

  lemma UpsertStores(before: Runs, st: Runs, c: Checked)
    requires H.SameAt(before, st, c.runId)
    ensures Stores(before, Upserted(st, c), c)
  {
    hide PathMap;
  }

  lemma StoresAside(before: Runs, st: Runs, c: Checked, d: Checked)
    requires Stores(before, st, d) && d.runId != c.runId
    ensures Stores(before, Upserted(st, c), d)
  {
    hide PathMap;
    H.UpsertElsewhere(st, c, d.runId);
  }

  lemma UpsertAside(st: Runs, c: Checked)
    ensures var t := Upserted(st, c);
            Adds(st, {c.runId}, t) && t.runsHash == st.runsHash
  {
    hide PathMap;
  }

  lemma SameTwice(a: Runs, b: Runs, c: Runs, id: string)
    requires H.SameAt(a, b, id) && H.SameAt(b, c, id)
    ensures H.SameAt(a, c, id)
  {
    hide H.Side;
  }

  lemma ConvertedId(host: Host, id: string, run: Json)
    ensures Converted(host, id, run).runId == id
  {
  }

  lemma WroteStores(host: Host, before: Runs, winners: map<string, Json>, after: Runs, c: Checked, other: string)
    requires Wrote(host, before, winners, after) && other in winners && c.runId != other
    ensures Stores(before, Upserted(after, c), Converted(host, other, winners[other]))
  {
    hide Stores, Converted, Upserted, H.SameAt, Adds;
    ConvertedId(host, other, winners[other]);
    StoresAside(before, after, c, Converted(host, other, winners[other]));
  }

  lemma WroteAside(host: Host, before: Runs, winners: map<string, Json>, after: Runs, c: Checked, other: string)
    requires Wrote(host, before, winners, after) && other !in winners && other != c.runId
    ensures H.SameAt(before, Upserted(after, c), other)
  {
    hide Stores, Converted, Upserted, H.SameAt, Adds;
    H.UpsertElsewhere(after, c, other);
    SameTwice(before, after, Upserted(after, c), other);
  }

  lemma MoreKeys(winners: map<string, Json>, id: string, run: Json)
    ensures winners[id := run].Keys == winners.Keys + {id}
    ensures forall other :: other in winners[id := run] ==> winners[id := run][other] == if other == id then run else winners[other]
  {
  }

  lemma AddsMore(before: Runs, ids: set<string>, after: Runs, id: string, more: Runs)
    requires Adds(before, ids, after) && Adds(after, {id}, more)
    ensures Adds(before, ids + {id}, more)
  {
    Together(before.rows.Keys, ids, {id});
    Together(before.metrics.Keys, ids, {id});
    Together(before.attachments.Keys, ids, {id});
    Together(before.fingerprints.Keys, ids, {id});
  }

  lemma Together<T>(a: set<T>, b: set<T>, c: set<T>)
    ensures a + b + c == a + (b + c)
  {
  }

  lemma WroteOne(host: Host, before: Runs, winners: map<string, Json>, after: Runs, id: string, run: Json)
    requires Wrote(host, before, winners, after) && id !in winners
    ensures Wrote(host, before, winners[id := run], Upserted(after, Converted(host, id, run)))
  {
    hide Stores, Converted, Upserted, H.SameAt, Adds;
    var c := Converted(host, id, run);
    var more := winners[id := run];
    var t := Upserted(after, c);
    ConvertedId(host, id, run);
    UpsertAside(after, c);
    AddsMore(before, winners.Keys, after, id, t);
    MoreKeys(winners, id, run);
    UpsertStores(before, after, c);
    forall other | other in winners ensures Stores(before, t, Converted(host, other, winners[other])) {
      WroteStores(host, before, winners, after, c, other);
    }
    forall other | other !in winners && other != id ensures H.SameAt(before, t, other) {
      WroteAside(host, before, winners, after, c, other);
    }
  }

  lemma GoodMore(winners: map<string, Json>, id: string, run: Json)
    requires id !in winners
    ensures AllFilesGood(winners[id := run]) <==> AllFilesGood(winners) && FilesGood(run)
    ensures Breaks(winners[id := run]) <==> Breaks(winners) || (FilesGood(run) && !PathsDistinct(run))
  {
    hide FilesGood, PathsDistinct;
    var more := winners[id := run];
    assert more[id] == run && id in more;
    forall other | other in winners ensures other in more && more[other] == winners[other] {}
    if Breaks(winners) {
      var other :| other in winners && FilesGood(winners[other]) && !PathsDistinct(winners[other]);
      assert other in more && more[other] == winners[other];
    }
  }

  /** Steps 1 to 3: an undecodable digest is a problem, and its run is not
      written; a repeated path fails the statement, and with it the migration. */
  method WriteWinners(host: Host, st: Runs, winners: map<string, Json>, problems0: nat)
    returns (after: Runs, problems: nat, broken: bool)
    ensures problems >= problems0
    ensures broken <==> Breaks(winners)
    ensures !broken ==> (problems == problems0 <==> AllFilesGood(winners))
    ensures !broken && problems == problems0 ==> Wrote(host, st, winners, after) && after.runsHash == st.runsHash
  {
    hide Wrote, FilesGood, AllFilesGood, Breaks, PathsDistinct, Converted, Upserted, Prepare;
    after, problems, broken := st, problems0, false;
    var todo := winners.Keys;
    ghost var done: map<string, Json> := map[];
    WroteNothing(host, st);
    NoFiles();
    while todo != {}
      invariant todo <= winners.Keys && done.Keys == winners.Keys - todo
      invariant forall id :: id in done ==> done[id] == winners[id]
      invariant problems >= problems0 && !Breaks(done)
      invariant problems == problems0 <==> AllFilesGood(done)
      invariant problems == problems0 ==> Wrote(host, st, done, after)
      invariant after.runsHash == st.runsHash
      decreases |todo|
    {
      var id := Pick(todo);
      todo := todo - {id};
      var run := winners[id];
      var files, errors := DecodeAttachments(run, []);
      GoodWithout(run, errors);
      if errors != [] {
        problems := problems + 1;
      } else {
        if !Unrepeated(files) {
          BreaksHere(winners, id);
          return after, problems, true;
        }
        UpsertAside(after, Prepare(host, id, run, files));
        ConvertedIs(host, id, run, files);
        if problems == problems0 { WroteOne(host, st, done, after, id, run); }
        after := Upserted(after, Prepare(host, id, run, files));
      }
      UnrepeatedIs(run, files);
      GoodMore(done, id, run);
      done := done[id := run];
    }
    SameRuns(done, winners);
  }

  predicate Unrepeated(files: seq<(string, string)>) {
    forall i, j :: 0 <= i < j < |files| ==> files[i].0 != files[j].0
  }

  lemma UnrepeatedIs(run: Json, files: seq<(string, string)>)
    requires files == AttachmentsOf(run)
    ensures Unrepeated(files) <==> PathsDistinct(run)
  {
    hide AttachmentsOf;
  }

  lemma BreaksHere(winners: map<string, Json>, id: string)
    requires id in winners && FilesGood(winners[id]) && !Unrepeated(AttachmentsOf(winners[id]))
    ensures Breaks(winners)
  {
    hide FilesGood, AttachmentsOf;
    UnrepeatedIs(winners[id], AttachmentsOf(winners[id]));
  }

  lemma SameRuns(a: map<string, Json>, b: map<string, Json>)
    requires a.Keys == b.Keys && forall id :: id in a ==> a[id] == b[id]
    ensures a == b
  {
  }

  lemma ConvertedIs(host: Host, id: string, run: Json, files: seq<(string, string)>)
    requires files == AttachmentsOf(run)
    ensures Converted(host, id, run) == Prepare(host, id, run, files)
  {
  }

  lemma GoodWithout(run: Json, errors: seq<Errors.ErrorEntry>)
    requires errors == [] + DecodeErrors(Items(run, "attachments"), |Items(run, "attachments")|)
    ensures errors == [] <==> FilesGood(run)
  {
  }

  lemma NoFiles()
    ensures AllFilesGood(map[]) && !Breaks(map[])
  {
  }

  lemma WroteNothing(host: Host, st: Runs)
    ensures Wrote(host, st, map[], st)
  {
  }

  // ------------------------------------------------------------------- Cards

  function RunHashes(source: Source): map<string, Digest> {
    map id | id in source.parts.runs :: RunContentHash(id, source.parts.runs[id])
  }

  /** The runs of the pointed-at sources, each as its own version converts it;
      later sources over earlier ones. */
  function Pointed(sources: seq<Source>, to: set<Uuid>, n: nat): map<string, Digest>
    requires n <= |sources|
  {
    if n == 0 then map[]
    else if sources[n - 1].id in to then Pointed(sources, to, n - 1) + RunHashes(sources[n - 1])
    else Pointed(sources, to, n - 1)
  }

  function LiveEdges(edges: seq<CardEdge>, card: Uuid, live: set<Uuid>): seq<CardEdge> {
    Select(edges, (e: CardEdge) => e.card == card && e.to in live)
  }

  predicate NamesRuns(e: CardEdge) {
    U.RunsOf(e.attrs).Some?
  }

  predicate Names(edges: seq<CardEdge>, id: string) {
    exists e :: e in edges && NamesRuns(e) && Some(id) in U.RunsOf(e.attrs).value
  }

  predicate AnyNames(edges: seq<CardEdge>) {
    exists e :: e in edges && NamesRuns(e)
  }

  /** What is rebuilt for one Card version. */
  datatype Rebuilt = Rebuilt(used: U.UsedRuns, unmatched: seq<string>)

  function UsedNamed(ids: seq<string>, n: nat, pointed: map<string, Digest>, rows: map<string, Digest>): U.UsedRuns
    requires n <= |ids|
  {
    if n == 0 then map[]
    else
      var before, id := UsedNamed(ids, n - 1, pointed, rows), ids[n - 1];
      if id in pointed then before[id := pointed[id]] else if id in rows then before[id := rows[id]] else before
  }

  function Unmatched(ids: seq<string>, n: nat, pointed: map<string, Digest>, rows: map<string, Digest>): seq<string>
    requires n <= |ids|
  {
    if n == 0 then []
    else Unmatched(ids, n - 1, pointed, rows) + if ids[n - 1] in pointed || ids[n - 1] in rows then [] else [ids[n - 1]]
  }

  ghost predicate IsRebuilt(edges: seq<CardEdge>, pointed: map<string, Digest>, rows: map<string, Digest>, r: Rebuilt) {
    if !AnyNames(edges) then r == Rebuilt(pointed, [])
    else
      && (forall id :: id in r.used <==> Names(edges, id) && (id in pointed || id in rows))
      && (forall id :: id in r.used ==> r.used[id] == if id in pointed then pointed[id] else rows[id])
      && (forall id :: id in r.unmatched <==> Names(edges, id) && id !in pointed && id !in rows)
  }

  lemma {:induction false} NamedSplit(ids: seq<string>, n: nat, pointed: map<string, Digest>, rows: map<string, Digest>, id: string)
    requires n <= |ids|
    ensures id in UsedNamed(ids, n, pointed, rows) <==> id in ids[..n] && (id in pointed || id in rows)
    ensures id in UsedNamed(ids, n, pointed, rows) ==>
              UsedNamed(ids, n, pointed, rows)[id] == if id in pointed then pointed[id] else rows[id]
    ensures id in Unmatched(ids, n, pointed, rows) <==> id in ids[..n] && id !in pointed && id !in rows
  {
    if n > 0 {
      NamedSplit(ids, n - 1, pointed, rows, id);
      assert ids[..n] == ids[..n - 1] + [ids[n - 1]];
    }
  }

  method GatherNamed(edges: seq<CardEdge>) returns (explicit: bool, named: set<string>)
    ensures explicit == AnyNames(edges)
    ensures forall id :: id in named <==> Names(edges, id)
  {
    explicit, named := false, {};
    for i := 0 to |edges|
      invariant explicit == AnyNames(edges[..i])
      invariant forall id :: id in named <==> Names(edges[..i], id)
    {
      assert edges[..i + 1] == edges[..i] + [edges[i]];
      var runs := U.RunsOf(edges[i].attrs);
      if runs.Some? {
        explicit := true;
        assert edges[i] in edges[..i + 1] && NamesRuns(edges[i]);
        var strings := set r | r in runs.value && r.Some? :: r.value;
        forall id ensures id in strings <==> Some(id) in runs.value {
          if Some(id) in runs.value { assert Some(id).value in strings; }
        }
        named := named + strings;
      }
    }
    assert edges[..|edges|] == edges;
  }

  method GatherPointed(sources: seq<Source>, to: set<Uuid>) returns (pointed: map<string, Digest>)
    ensures pointed == Pointed(sources, to, |sources|)
  {
    hide RunHashes;
    pointed := map[];
    for i := 0 to |sources|
      invariant pointed == Pointed(sources, to, i)
    {
      if sources[i].id in to {
        pointed := pointed + RunHashes(sources[i]);
      }
    }
  }

  /** One Card version: a named run keeps the hash of the version pointed at, or
      else of the row; one that is neither is reported. */
  method RebuildCard(edges: seq<CardEdge>, pointed: map<string, Digest>, rows: map<string, Digest>) returns (r: Rebuilt)
    ensures IsRebuilt(edges, pointed, rows, r)
  {
    hide Names, AnyNames;
    var explicit, named := GatherNamed(edges);
    if !explicit {
      return Rebuilt(pointed, []);
    }
    var used: U.UsedRuns := map[];
    var unmatched: seq<string> := [];
    var ids := Ascending(named);
    for i := 0 to |ids|
      invariant used == UsedNamed(ids, i, pointed, rows) && unmatched == Unmatched(ids, i, pointed, rows)
    {
      var id := ids[i];
      if id in pointed {
        used := used[id := pointed[id]];
      } else if id in rows {
        used := used[id := rows[id]];
      } else {
        unmatched := unmatched + [id];
      }
    }
    NamedRebuilt(edges, ids, pointed, rows);
    r := Rebuilt(used, unmatched);
  }

  lemma {:induction false} NamedRebuilt(edges: seq<CardEdge>, ids: seq<string>, pointed: map<string, Digest>, rows: map<string, Digest>)
    requires AnyNames(edges) && forall id :: id in ids <==> Names(edges, id)
    ensures IsRebuilt(edges, pointed, rows, Rebuilt(UsedNamed(ids, |ids|, pointed, rows), Unmatched(ids, |ids|, pointed, rows)))
  {
    hide Names, AnyNames, UsedNamed, Unmatched;
    assert ids[..|ids|] == ids;
    var used, unmatched := UsedNamed(ids, |ids|, pointed, rows), Unmatched(ids, |ids|, pointed, rows);
    forall id ensures id in used <==> id in ids && (id in pointed || id in rows) { NamedSplit(ids, |ids|, pointed, rows, id); }
    forall id | id in used ensures used[id] == if id in pointed then pointed[id] else rows[id] {
      NamedSplit(ids, |ids|, pointed, rows, id);
    }
    forall id ensures id in unmatched <==> id in ids && id !in pointed && id !in rows { NamedSplit(ids, |ids|, pointed, rows, id); }
  }

  // ------------------------------------------------------- what it comes to

  lemma HashOfConverted(host: Host, id: string, run: Json)
    ensures Converted(host, id, run).contentHash == RunContentHash(id, run)
  {
    if run.JObj? {
      assert WithRunId(id, WithRunId(id, run)).fields == WithRunId(id, run).fields;
    }
  }

  function RowHashes(host: Host, winners: map<string, Json>): map<string, Digest> {
    map id | id in winners :: Converted(host, id, winners[id]).contentHash
  }

  /** Source `i` is pointed at and holds the id, and none of a higher sequence
      number that is pointed at does. */
  ghost predicate HighestPointed(sources: seq<Source>, to: set<Uuid>, id: string, i: nat) {
    && i < |sources| && sources[i].id in to && id in sources[i].parts.runs
    && forall j :: 0 <= j < |sources| && sources[j].seqNo > sources[i].seqNo && sources[j].id in to ==> id !in sources[j].parts.runs
  }

  lemma PointedLast(sources: seq<Source>, to: set<Uuid>, id: string, i: nat)
    requires SeqSorted(sources) && i < |sources|
    ensures HighestPointed(sources, to, id, i) <==>
            sources[i].id in to && id in sources[i].parts.runs
            && forall j :: i < j < |sources| && sources[j].id in to ==> id !in sources[j].parts.runs
  {
    forall j | 0 <= j < |sources| ensures sources[j].seqNo > sources[i].seqNo <==> j > i {}
  }

  lemma {:induction false} PointedAt(sources: seq<Source>, to: set<Uuid>, n: nat, id: string, i: nat)
    requires i < n <= |sources| && sources[i].id in to && id in sources[i].parts.runs
    requires forall j :: i < j < n && sources[j].id in to ==> id !in sources[j].parts.runs
    ensures id in Pointed(sources, to, n) && Pointed(sources, to, n)[id] == RunContentHash(id, sources[i].parts.runs[id])
  {
    hide RunContentHash;
    if i < n - 1 { PointedAt(sources, to, n - 1, id, i); }
  }

  lemma {:induction false} PointedFrom(sources: seq<Source>, to: set<Uuid>, n: nat, id: string) returns (i: nat)
    requires n <= |sources| && id in Pointed(sources, to, n)
    ensures i < n && sources[i].id in to && id in sources[i].parts.runs
    ensures forall j :: i < j < n && sources[j].id in to ==> id !in sources[j].parts.runs
  {
    i := n - 1;
    if !(sources[n - 1].id in to && id in sources[n - 1].parts.runs) { i := PointedFrom(sources, to, n - 1, id); }
  }

  /** Every pointed-at run has a winner, so every used run has a row. */
  lemma {:induction false} UsedHaveRows(host: Host, sources: seq<Source>, to: set<Uuid>, edges: seq<CardEdge>, r: Rebuilt, id: string)
    requires IsRebuilt(edges, Pointed(sources, to, |sources|), RowHashes(host, Winners(sources, |sources|)), r)
    requires id in r.used
    ensures id in Winners(sources, |sources|)
  {
    hide Names, AnyNames, Pointed, Winners;
    var winners := Winners(sources, |sources|);
    if id in Pointed(sources, to, |sources|) && id !in winners {
      var i := PointedFrom(sources, to, |sources|, id);
      var w := LastHolder(sources, id, i);
      WinnerAt(sources, |sources|, id, w);
    }
  }

  lemma {:induction false} LastHolder(sources: seq<Source>, id: string, i: nat) returns (w: nat)
    requires i < |sources| && id in sources[i].parts.runs
    ensures i <= w && Last(sources, id, w)
    decreases |sources| - i
  {
    w := i;
    if j :| i < j < |sources| && id in sources[j].parts.runs { w := LastHolder(sources, id, j); }
  }

  /** The ids the Card names split exactly into the used and the reported. */
  lemma NamedAreAccounted(edges: seq<CardEdge>, pointed: map<string, Digest>, rows: map<string, Digest>, r: Rebuilt, id: string)
    requires AnyNames(edges) && IsRebuilt(edges, pointed, rows, r)
    ensures Names(edges, id) <==> id in r.used || id in r.unmatched
    ensures !(id in r.used && id in r.unmatched)
  {
  }

  /** A used run taken from a version pointed at reads as changed exactly when
      the winning version converts it to something else; one taken from its row
      never does. */
  lemma {:induction false} ChangedExactly(host: Host, sources: seq<Source>, to: set<Uuid>, edges: seq<CardEdge>, r: Rebuilt, id: string, w: nat)
    requires IsRebuilt(edges, Pointed(sources, to, |sources|), RowHashes(host, Winners(sources, |sources|)), r)
    requires SeqSorted(sources) && id in r.used && Highest(sources, id, w)
    ensures id in Winners(sources, |sources|)
    ensures r.used[id] != Converted(host, id, Winners(sources, |sources|)[id]).contentHash <==>
            exists p: nat :: HighestPointed(sources, to, id, p)
                             && WithRunId(id, sources[p].parts.runs[id]) != WithRunId(id, sources[w].parts.runs[id])
  {
    hide Names, AnyNames, Pointed, Winners, Converted, WithRunId;
    LastIsHighest(sources, id, w);
    WinnerIsLast(sources, id, w);
    HashOfConverted(host, id, sources[w].parts.runs[id]);
    var pointed := Pointed(sources, to, |sources|);
    if id in pointed {
      var p := PointedFrom(sources, to, |sources|, id);
      PointedAt(sources, to, |sources|, id, p);
      PointedLast(sources, to, id, p);
      forall q: nat | HighestPointed(sources, to, id, q) ensures q == p { PointedLast(sources, to, id, q); }
      assert HighestPointed(sources, to, id, p);
    } else {
      forall q: nat ensures !HighestPointed(sources, to, id, q) {
        if HighestPointed(sources, to, id, q) {
          PointedLast(sources, to, id, q);
          PointedAt(sources, to, |sources|, id, q);
        }
      }
    }
  }

  // -------------------------------------------------------------- one Eval

  datatype Migrated = Migrated(runs: Runs, versions: seq<Version>, cards: map<Uuid, Rebuilt>)

  ghost predicate Refused(split: Split, versions: seq<Version>) {
    var sources := Sources(split, versions, |versions|);
    IdProblems(versions, |versions|) > 0 || !AllFilesGood(Winners(sources, |sources|))
  }

  /** The database refuses one of its winners. */
  ghost predicate Broken(split: Split, versions: seq<Version>) {
    var sources := Sources(split, versions, |versions|);
    IdProblems(versions, |versions|) == 0 && Breaks(Winners(sources, |sources|))
  }

  function Rewrite(split: Split, v: Version): Version {
    if IsSource(v)
    then v.(body := Some(split(v.body.value).header), contentHash := Sha256(split(v.body.value).header)) else v
  }

  function Targets(edges: seq<CardEdge>): set<Uuid> {
    set e | e in edges :: e.to
  }

  function CardsOf(edges: seq<CardEdge>): set<Uuid> {
    set e | e in edges :: e.card
  }

  /** The Cards with an edge into a live version. */
  function LiveCards(edges: seq<CardEdge>, live: set<Uuid>): set<Uuid> {
    set card | card in CardsOf(edges) && LiveEdges(edges, card, live) != []
  }

  ghost predicate CardMigrated(host: Host, split: Split, versions: seq<Version>, edges: seq<CardEdge>, card: Uuid, r: Rebuilt) {
    var sources := Sources(split, versions, |versions|);
    var mine := LiveEdges(edges, card, LiveIds(versions, |versions|));
    IsRebuilt(mine, Pointed(sources, Targets(mine), |sources|), RowHashes(host, Winners(sources, |sources|)), r)
  }

  /** What becomes of an Eval: its runs, its versions and its Cards' used sets. */
  ghost predicate IsMigrated(host: Host, split: Split, st: Runs, versions: seq<Version>, edges: seq<CardEdge>, m: Migrated) {
    var sources := Sources(split, versions, |versions|);
    if sources == [] then m == Migrated(st, versions, map[])
    else
      var winners := Winners(sources, |sources|);
      && Wrote(host, st, winners, m.runs)
      && m.runs.runsHash == (if winners == map[] then st.runsHash else Some(Formula(host, m.runs.rows)))
      && m.versions == Map((v: Version) => Rewrite(split, v), versions)
      && m.cards.Keys == LiveCards(edges, LiveIds(versions, |versions|))
      && forall card :: card in m.cards ==> CardMigrated(host, split, versions, edges, card, m.cards[card])
  }

  method RebuildCards(host: Host, split: Split, versions: seq<Version>, edges: seq<CardEdge>, sources: seq<Source>,
                      live: set<Uuid>, rows: map<string, Digest>)
    returns (cards: map<Uuid, Rebuilt>)
    requires sources == Sources(split, versions, |versions|) && live == LiveIds(versions, |versions|)
    requires rows == RowHashes(host, Winners(sources, |sources|))
    ensures cards.Keys == LiveCards(edges, live)
    ensures forall card :: card in cards ==> CardMigrated(host, split, versions, edges, card, cards[card])
  {
    hide Sources, LiveIds, RowHashes, Winners, IsRebuilt, Pointed, LiveEdges;
    cards := map[];
    var todo := CardsOf(edges);
    while todo != {}
      invariant todo <= CardsOf(edges)
      invariant forall card :: card in cards <==> card in LiveCards(edges, live) && card !in todo
      invariant forall card :: card in cards ==> CardMigrated(host, split, versions, edges, card, cards[card])
      decreases |todo|
    {
      var card := Pick(todo);
      todo := todo - {card};
      var mine := LiveEdges(edges, card, live);
      if mine != [] {
        var pointed := GatherPointed(sources, Targets(mine));
        var r := RebuildCard(mine, pointed, rows);
        cards := cards[card := r];
      }
    }
  }

  method RewriteVersions(split: Split, versions: seq<Version>) returns (after: seq<Version>)
    ensures after == Map((v: Version) => Rewrite(split, v), versions)
  {
    after := [];
    for i := 0 to |versions|
      invariant |after| == i && forall k :: 0 <= k < i ==> after[k] == Rewrite(split, versions[k])
    {
      after := after + [Rewrite(split, versions[i])];
    }
  }

  /** The body of the loop over Evals. Nothing is written once there is a problem. */
  method MigrateEval(host: Host, split: Split, st: Runs, versions: seq<Version>, edges: seq<CardEdge>, problems0: nat)
    returns (m: Migrated, problems: nat, broken: bool)
    ensures problems >= problems0
    ensures broken <==> problems0 == 0 && Broken(split, versions)
    ensures problems0 == 0 && !broken ==> (problems == 0 <==> !Refused(split, versions))
    ensures problems == 0 && !broken ==> IsMigrated(host, split, st, versions, edges, m)
  {
    hide Wrote, AllFilesGood, Breaks, CardMigrated, IdProblems, Formula, LiveCards, Rewrite, Converted;
    m, broken := Migrated(st, versions, map[]), false;
    var sources, live;
    sources, live, problems := Collect(split, versions, problems0);
    if problems != 0 || sources == [] {
      if sources == [] { NoFiles(); }
      return;
    }
    var winners := PickWinners(sources);
    var written;
    written, problems, broken := WriteWinners(host, st, winners, problems);
    if broken || problems != 0 {
      return;
    }
    if winners != map[] {
      HashSet(host, st, winners, written);
      written := written.(runsHash := Some(Formula(host, written.rows)));
    }
    var after := RewriteVersions(split, versions);
    var cards := RebuildCards(host, split, versions, edges, sources, live, RowHashes(host, winners));
    m := Migrated(written, after, cards);
  }

  lemma HashSet(host: Host, st: Runs, winners: map<string, Json>, written: Runs)
    requires Wrote(host, st, winners, written)
    ensures var after := written.(runsHash := Some(Formula(host, written.rows)));
            Wrote(host, st, winners, after)
  {
    hide Converted, Formula, PathMap, RowOf, H.Side;
    var after := written.(runsHash := Some(Formula(host, written.rows)));
    forall c | Stores(st, written, c) ensures Stores(st, after, c) {}
    forall id | H.SameAt(st, written, id) ensures H.SameAt(st, after, id) {}
  }

  // ------------------------------------------------- what the migration keeps

  /** The conversion makes objects of runs. */
  ghost predicate SplitsObjects(split: Split) {
    forall body, id :: id in split(body).runs ==> split(body).runs[id].JObj?
  }

  lemma {:induction false} WinnersAreObjects(split: Split, versions: seq<Version>, n: nat, m: nat)
    requires SplitsObjects(split) && n <= |versions| && m <= |Sources(split, versions, n)|
    ensures forall id :: id in Winners(Sources(split, versions, n), m) ==> Winners(Sources(split, versions, n), m)[id].JObj?
  {
    var sources := Sources(split, versions, n);
    if m > 0 {
      WinnersAreObjects(split, versions, n, m - 1);
      SourceMember(split, versions, n, sources[m - 1]);
      assert sources[m - 1] in sources;
    }
  }

  lemma ConvertedHolds(host: Host, before: Runs, st: Runs, id: string, run: Json)
    requires run.JObj? && PathsDistinct(run) && Stores(before, st, Converted(host, id, run))
    requires st.recordId == before.recordId && (id in before.rows ==> !before.rows[id].tombstoned)
    ensures H.RowGood(host, st, id)
  {
    hide MetricsOf, FingerprintsOf, PathMap, H.DistinctPaths, TimeOf, Decoded;
    var c := Converted(host, id, run);
    assert WithRunId(id, c.body).fields == c.body.fields;
    assert c.body.Get("attachments") == run.Get("attachments");
    assert AttachmentsOf(c.body) == AttachmentsOf(run);
  }

  lemma WroteGood(host: Host, st: Runs, winners: map<string, Json>, after: Runs)
    requires H.RowsGood(host, st) && Wrote(host, st, winners, after)
    requires forall id :: id in winners ==> winners[id].JObj? && PathsDistinct(winners[id])
    requires forall id :: id in winners && id in st.rows ==> !st.rows[id].tombstoned
    ensures H.RowsGood(host, after)
  {
    hide Stores, Converted, H.RowGood, H.SameAt, PathsDistinct;
    forall id | id in after.rows ensures H.RowGood(host, after, id) {
      if id in winners {
        ConvertedHolds(host, st, after, id, winners[id]);
      } else {
        InBefore(st, after, id);
        H.RowAside(host, st, after, id);
      }
    }
  }

  lemma InBefore(st: Runs, after: Runs, id: string)
    requires H.SameAt(st, after, id)
    ensures id in after.rows <==> id in st.rows
  {
    hide H.Side;
  }

  /** Over a good run table that has none of the winners deleted, the migrated
      run table is good. */
  lemma {:induction false} MigratedRunsGood(host: Host, split: Split, st: Runs, versions: seq<Version>, edges: seq<CardEdge>, m: Migrated)
    requires H.Good(host, st) && SplitsObjects(split)
    requires IsMigrated(host, split, st, versions, edges, m) && !Refused(split, versions) && !Broken(split, versions)
    requires forall id :: id in Winners(Sources(split, versions, |versions|), |Sources(split, versions, |versions|)|) && id in st.rows ==>
               !st.rows[id].tombstoned
    ensures H.Good(host, m.runs)
  {
    hide Sources, Winners, H.RowsGood, Formula, CardMigrated, PathsDistinct, FilesGood, RunsHash, Stores, H.SameAt, IdProblems;
    var sources := Sources(split, versions, |versions|);
    if sources != [] {
      var winners := Winners(sources, |sources|);
      WinnersAreObjects(split, versions, |versions|, |sources|);
      WroteGood(host, st, winners, m.runs);
      if winners == map[] { SameRows(st, m.runs); }
    }
  }

  lemma SameRows(a: Runs, b: Runs)
    requires a.rows.Keys == b.rows.Keys && forall id :: H.SameAt(a, b, id)
    ensures a.rows == b.rows
  {
    forall id | id in a.rows ensures a.rows[id] == b.rows[id] { assert H.SameAt(a, b, id); }
  }

  // ------------------------------------------------------------ whole store

  const RUNS_SPLIT := "0003_runs_split"

  /** The run is in the used set rebuilt for this Card version and Eval. */
  predicate RebuiltUse(done: map<Uuid, Migrated>, key: U.Key) {
    && key.evalId in done && key.versionId in done[key.evalId].cards
    && key.runId in done[key.evalId].cards[key.versionId].used
  }

  /** The rebuilt used sets of some Evals, on top of what was recorded. */
  ghost predicate Inserted(before: U.Recorded, done: map<Uuid, Migrated>, after: U.Recorded) {
    && (forall key: U.Key :: key in after <==> key in before || RebuiltUse(done, key))
    && (forall key: U.Key :: key in before ==> after[key] == before[key])
    && (forall key: U.Key :: key !in before && RebuiltUse(done, key) ==>
          after[key] == done[key.evalId].cards[key.versionId].used[key.runId])
  }

  /** The same, of one Eval and some of its Cards. */
  ghost predicate CardsInserted(before: U.Recorded, evalId: Uuid, cards: map<Uuid, Rebuilt>, after: U.Recorded) {
    && (forall key: U.Key :: key in after <==> key in before || CardUse(evalId, cards, key))
    && (forall key: U.Key :: key in before ==> after[key] == before[key])
    && (forall key: U.Key :: key !in before && CardUse(evalId, cards, key) ==> after[key] == cards[key.versionId].used[key.runId])
  }

  predicate CardUse(evalId: Uuid, cards: map<Uuid, Rebuilt>, key: U.Key) {
    key.evalId == evalId && key.versionId in cards && key.runId in cards[key.versionId].used
  }

  lemma CardInserted(before: U.Recorded, evalId: Uuid, cards: map<Uuid, Rebuilt>, now: U.Recorded, card: Uuid, r: Rebuilt)
    requires CardsInserted(before, evalId, cards, now) && card !in cards
    ensures CardsInserted(before, evalId, cards[card := r], U.Extended(now, card, map[evalId := r.used]))
  {
    hide U.NewKeys, U.Extended;
    var one := map[evalId := r.used];
    var after := U.Extended(now, card, one);
    U.ExtendedExact(now, card, one, after);
    forall key: U.Key
      ensures U.Adds(card, one, key) <==> key.versionId == card && key.evalId == evalId && key.runId in r.used
      ensures CardUse(evalId, cards[card := r], key) <==> CardUse(evalId, cards, key) || U.Adds(card, one, key)
    {
    }
  }

  lemma NoCards(before: U.Recorded, evalId: Uuid)
    ensures CardsInserted(before, evalId, map[], before)
  {
  }

  lemma SameCards(before: U.Recorded, evalId: Uuid, a: map<Uuid, Rebuilt>, b: map<Uuid, Rebuilt>, after: U.Recorded)
    requires a.Keys == b.Keys && (forall c :: c in a ==> a[c] == b[c]) && CardsInserted(before, evalId, a, after)
    ensures CardsInserted(before, evalId, b, after)
  {
    forall key: U.Key ensures CardUse(evalId, a, key) <==> CardUse(evalId, b, key) {}
  }

  method InsertCards(used0: U.Recorded, evalId: Uuid, cards: map<Uuid, Rebuilt>) returns (used: U.Recorded)
    ensures CardsInserted(used0, evalId, cards, used)
  {
    hide CardsInserted, U.Extended;
    used := used0;
    var todo := cards.Keys;
    ghost var done: map<Uuid, Rebuilt> := map[];
    NoCards(used0, evalId);
    while todo != {}
      invariant todo <= cards.Keys && done.Keys == cards.Keys - todo
      invariant forall c :: c in done ==> done[c] == cards[c]
      invariant CardsInserted(used0, evalId, done, used)
      decreases |todo|
    {
      var card := Pick(todo);
      CardInserted(used0, evalId, done, used, card, cards[card]);
      used := U.Insert(used, card, map[evalId := cards[card].used]);
      done := done[card := cards[card]];
      todo := todo - {card};
    }
    SameCards(used0, evalId, done, cards, used);
  }

  lemma EvalInserted(before: U.Recorded, done: map<Uuid, Migrated>, now: U.Recorded, evalId: Uuid, m: Migrated, after: U.Recorded)
    requires Inserted(before, done, now) && evalId !in done && CardsInserted(now, evalId, m.cards, after)
    ensures Inserted(before, done[evalId := m], after)
  {
    var more := done[evalId := m];
    forall key: U.Key ensures RebuiltUse(more, key) <==> RebuiltUse(done, key) || CardUse(evalId, m.cards, key) {}
  }

  datatype Outcome = AlreadyApplied | MigrationRefused | MigrationBroken | Applied

  class Database {
    var applied: set<string>
    var runs: map<Uuid, Runs>
    var versions: map<Uuid, seq<Version>>
    var used: U.Recorded

    /** The loop over Evals. */
    method SplitAll(host: Host, split: Split, edges: seq<CardEdge>)
      returns (done: map<Uuid, Migrated>, now: U.Recorded, problems: nat, broken: bool)
      requires versions.Keys == runs.Keys
      ensures broken ==> exists e :: e in runs && Broken(split, versions[e])
      ensures !broken ==> (problems == 0 <==> forall e :: e in runs ==> !Refused(split, versions[e]))
      ensures problems == 0 && !broken ==> forall e :: e in runs ==> !Broken(split, versions[e])
      ensures problems == 0 && !broken ==> done.Keys == runs.Keys && Inserted(used, done, now)
      ensures problems == 0 && !broken ==>
                forall e :: e in done ==> IsMigrated(host, split, runs[e], versions[e], edges, done[e])
    {
      hide IsMigrated, Refused, Broken, Inserted, CardsInserted;
      done, now, problems, broken := map[], used, 0, false;
      NoneInserted(used);
      var todo := runs.Keys;
      while todo != {}
        invariant todo <= runs.Keys
        invariant problems == 0 <==> forall e :: e in runs && e !in todo ==> !Refused(split, versions[e])
        invariant problems == 0 ==> forall e :: e in runs && e !in todo ==> !Broken(split, versions[e])
        invariant problems == 0 ==> done.Keys == runs.Keys - todo && Inserted(used, done, now)
        invariant problems == 0 ==> forall e :: e in done ==> IsMigrated(host, split, runs[e], versions[e], edges, done[e])
        decreases |todo|
      {
        var e := Pick(todo);
        todo := todo - {e};
        var m;
        m, problems, broken := MigrateEval(host, split, runs[e], versions[e], edges, problems);
        if broken {
          return;
        }
        if problems == 0 {
          ghost var before := now;
          now := InsertCards(now, e, m.cards);
          EvalInserted(used, done, before, e, m, now);
          done := done[e := m];
        }
      }
    }

    /** `run_pending`: at most once, and whole or not at all. */
    method RunPending(host: Host, split: Split, edges: seq<CardEdge>) returns (r: Outcome, done: map<Uuid, Migrated>)
      requires versions.Keys == runs.Keys
      modifies this
      ensures r.AlreadyApplied? <==> RUNS_SPLIT in old(applied)
      ensures r.Applied? <==>
              RUNS_SPLIT !in old(applied)
              && forall e :: e in old(runs) ==> !Refused(split, old(versions)[e]) && !Broken(split, old(versions)[e])
      ensures r.MigrationRefused? ==> exists e :: e in old(runs) && Refused(split, old(versions)[e])
      ensures r.MigrationBroken? ==> exists e :: e in old(runs) && Broken(split, old(versions)[e])
      ensures !r.Applied? ==> applied == old(applied) && runs == old(runs) && versions == old(versions) && used == old(used)
      ensures r.Applied? ==>
                && applied == old(applied) + {RUNS_SPLIT}
                && done.Keys == runs.Keys == versions.Keys == old(runs.Keys)
                && Inserted(old(used), done, used)
                && forall e :: e in done ==>
                     && IsMigrated(host, split, old(runs)[e], old(versions)[e], edges, done[e])
                     && runs[e] == done[e].runs && versions[e] == done[e].versions
    {
      hide IsMigrated, Refused, Broken, Inserted;
      done := map[];
      if RUNS_SPLIT in applied {
        return AlreadyApplied, done;
      }
      var now, problems, broken;
      done, now, problems, broken := SplitAll(host, split, edges);
      if broken {
        return MigrationBroken, done;
      }
      if problems != 0 {
        return MigrationRefused, done;
      }
      applied := applied + {RUNS_SPLIT};
      runs := map e | e in done :: done[e].runs;
      versions := map e | e in done :: done[e].versions;
      used := now;
      r := Applied;
    }
  }

  lemma NoneInserted(before: U.Recorded)
    ensures Inserted(before, map[], before)
  {
  }

  /** A rebuilt use is of a run its Eval has. */
  lemma RebuiltHasRow(host: Host, split: Split, st: Runs, versions: seq<Version>, edges: seq<CardEdge>, m: Migrated, card: Uuid, id: string)
    requires IsMigrated(host, split, st, versions, edges, m) && card in m.cards && id in m.cards[card].used
    ensures id in m.runs.rows
  {
    hide Sources, Winners, Pointed, Stores, H.SameAt, IsRebuilt, Formula, RowHashes, LiveIds, LiveEdges;
    var sources := Sources(split, versions, |versions|);
    var mine := LiveEdges(edges, card, LiveIds(versions, |versions|));
    assert CardMigrated(host, split, versions, edges, card, m.cards[card]);
    UsedHaveRows(host, sources, Targets(mine), mine, m.cards[card], id);
  }

  /** What `RunPending` leaves keeps the Cards' invariant, whatever judgements
      and edges there are. */
  lemma MigrationKeepsCards(
      host: Host, split: Split, edges: seq<CardEdge>, runs: map<Uuid, Runs>, versions: map<Uuid, seq<Version>>, used: U.Recorded,
      done: map<Uuid, Migrated>, now: U.Recorded, results: seq<Sql.Entry>, stored: map<Uuid, seq<C.StoredEdge>>)
    requires done.Keys == runs.Keys == versions.Keys && Inserted(used, done, now)
    requires forall e :: e in done ==> IsMigrated(host, split, runs[e], versions[e], edges, done[e])
    requires C.Good(C.Hub(runs, used, results, stored))
    ensures C.Good(C.Hub(map e | e in done :: done[e].runs, now, results, stored))
  {
    hide IsMigrated;
    forall key | key in now ensures key.evalId in done && key.runId in done[key.evalId].runs.rows {
      if key in used {
        RowsStay(host, split, runs[key.evalId], versions[key.evalId], edges, done[key.evalId]);
      } else {
        RebuiltHasRow(host, split, runs[key.evalId], versions[key.evalId], edges, done[key.evalId], key.versionId, key.runId);
      }
    }
  }

  lemma RowsStay(host: Host, split: Split, st: Runs, versions: seq<Version>, edges: seq<CardEdge>, m: Migrated)
    requires IsMigrated(host, split, st, versions, edges, m)
    ensures st.rows.Keys <= m.runs.rows.Keys
  {
    hide Sources, Winners, Stores, H.SameAt, CardMigrated, Formula;
  }
}
