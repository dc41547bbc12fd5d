/** The run tables of one Eval as values, and what every write makes of them
    (`evalhub-store/src/runs.rs`). */
module RunTables {
  import opened Prelude
  import opened Json
  import opened Text
  import opened Errors
  import opened Validate
  import opened RunHash
  import opened RunRules
  import Sql

  type RunRow = Sql.RunRow
  type Uuid = int

  /** What the write path is given: the JSON Schema check of an object, RFC 3339,
      the keys a facet's fingerprint leaves out, and hexadecimal. */
  datatype Host = Host(
    schemaErrors: Json -> seq<ErrorEntry>,
    readTime: string -> Option<int>,
    excluded: string -> set<string>,
    hex: Hex)

  datatype Runs = Runs(
    recordId: Uuid,
    /** The latest live header. */
    header: Option<Json>,
    rows: map<string, RunRow>,
    metrics: map<string, map<string, int>>,
    attachments: map<string, map<string, string>>,
    fingerprints: map<string, map<string, string>>,
    runsHash: Option<Digest>)

  // --------------------------------------------------------- what is derived

  predicate HexDigit(c: char) {
    '0' <= c <= '9' || 'a' <= c <= 'f' || 'A' <= c <= 'F'
  }

  /** A digest of 64 hexadecimal digits, as bytes are: without case. */
  function DecodeSha(s: string): Option<string> {
    if |s| == 64 && forall c :: c in s ==> HexDigit(c)
    then Some(Map(c => if 'A' <= c <= 'F' then c - 'A' + 'a' else c, s))
    else None
  }

  /** `attachments[i]` with a path and a digest, both strings. */
  function Listed(items: seq<Json>, i: nat): Option<(string, string)>
    requires i < |items|
  {
    var path, sha := items[i].GetStr("path"), items[i].GetStr("sha256");
    if path.Some? && sha.Some? then Some((path.value, sha.value)) else None
  }

  function Decoded(items: seq<Json>, n: nat): seq<(string, string)>
    requires n <= |items|
  {
    if n == 0 then []
    else
      var a := Listed(items, n - 1);
      Decoded(items, n - 1)
      + if a.Some? && DecodeSha(a.value.1).Some? then [(a.value.0, DecodeSha(a.value.1).value)] else []
  }

  function DecodeErrors(items: seq<Json>, n: nat): seq<ErrorEntry>
    requires n <= |items|
  {
    if n == 0 then []
    else
      var a := Listed(items, n - 1);
      DecodeErrors(items, n - 1)
      + if a.Some? && DecodeSha(a.value.1).None?
        then [ErrorEntry("/attachments/" + Decimal(n - 1) + "/sha256", Schema)] else []
  }

  /** `decode_attachments` */
  method DecodeAttachments(body: Json, errors0: seq<ErrorEntry>)
    returns (attachments: seq<(string, string)>, errors: seq<ErrorEntry>)
    ensures attachments == AttachmentsOf(body)
    ensures errors == errors0 + DecodeErrors(Items(body, "attachments"), |Items(body, "attachments")|)
  {
    hide DecodeSha;
    var items := Items(body, "attachments");
    attachments, errors := [], errors0;
    for i := 0 to |items|
      invariant attachments == Decoded(items, i)
      invariant errors == errors0 + DecodeErrors(items, i)
    {
      Regroup(errors0, DecodeErrors(items, i), [ErrorEntry("/attachments/" + Decimal(i) + "/sha256", Schema)]);
      var path, sha := items[i].GetStr("path"), items[i].GetStr("sha256");
      if path.Some? && sha.Some? {
        var bytes := DecodeSha(sha.value);
        if bytes.Some? {
          attachments := attachments + [(path.value, bytes.value)];
        } else {
          errors := errors + [ErrorEntry("/attachments/" + Decimal(i) + "/sha256", Schema)];
        }
      }
    }
  }

  function AttachmentsOf(body: Json): seq<(string, string)> {
    Decoded(Items(body, "attachments"), |Items(body, "attachments")|)
  }

  function MetricsOf(body: Json): map<string, int> {
    var doc := body.Get("metrics");
    if doc.Some? && doc.value.JObj?
    then map k | k in doc.value.fields && doc.value.fields[k].JNum? :: doc.value.fields[k].n else map[]
  }

  /** A facet without its `ext` and the keys that say nothing of what was run. */
  function FacetCore(host: Host, body: Json, facet: string): Json {
    var doc := body.Get(facet);
    JObj(if doc.Some? && doc.value.JObj?
         then map k | k in doc.value.fields && k !in host.excluded(facet) :: doc.value.fields[k] else map[])
  }

  function FingerprintsOf(host: Host, body: Json): map<string, string> {
    map f | f in RUN_FACETS :: host.hex(Sha256(FacetCore(host, body, f)))
  }

  function TimeOf(host: Host, body: Json, key: string): Option<int> {
    if body.GetStr(key).Some? then host.readTime(body.GetStr(key).value) else None
  }

  /** An element after the checks: everything the write needs. */
  datatype Checked = Checked(
    runId: string, body: Json, contentHash: Digest, status: string, errorKind: Option<string>,
    startedAt: Option<int>, endedAt: Option<int>, metrics: map<string, int>,
    attachments: seq<(string, string)>, fingerprints: map<string, string>)

  function Prepare(host: Host, runId: string, body: Json, attachments: seq<(string, string)>): Checked {
    var stored := if body.JObj? then WithRunId(runId, body) else body;
    Checked(
      runId, stored, RunContentHash(runId, stored),
      if stored.GetStr("status").Some? then stored.GetStr("status").value else "",
      if stored.Get("error").Some? then stored.Get("error").value.GetStr("kind") else None,
      TimeOf(host, stored, "started_at"), TimeOf(host, stored, "ended_at"),
      MetricsOf(stored), attachments, FingerprintsOf(host, stored))
  }

  // --------------------------------------------------------------- elements

  datatype Input = Input(runId: string, body: Json)

  predicate Repeats(inputs: seq<Input>, i: nat)
    requires i < |inputs|
  {
    inputs[i].runId != "" && exists j :: 0 <= j < i && inputs[j].runId == inputs[i].runId
  }

  /** `validate::run`; the schema of a run accepts nothing but objects. */
  function RunErrors(host: Host, runId: string, body: Json): seq<ErrorEntry> {
    SortEntries((if body.JObj? then host.schemaErrors(body) else [ErrorEntry("", Schema)]) + SemanticErrors(runId, body))
  }

  function DeletedErrors(st: Runs, runId: string): seq<ErrorEntry> {
    if runId in st.rows && st.rows[runId].tombstoned then [ErrorEntry("/run_id", RunDeleted)] else []
  }

  /** The body as it would be stored under a header, but for its `run_id`. */
  function Filled(header: Json, input: Input): Json {
    Materialised(input.body, header)
  }

  function OwnErrors(host: Host, header: Json, st: Runs, input: Input): seq<ErrorEntry> {
    var body := Filled(header, input);
    RunErrors(host, input.runId, body)
    + DecodeErrors(Items(body, "attachments"), |Items(body, "attachments")|)
    + DeletedErrors(st, input.runId)
  }

  function RepeatErrors(inputs: seq<Input>, i: nat): seq<ErrorEntry>
    requires i < |inputs|
  {
    if Repeats(inputs, i) then [ErrorEntry("/run_id", BatchDuplicateRunId)] else []
  }

  function CheckedOf(host: Host, header: Json, input: Input): Checked {
    var body := Filled(header, input);
    Prepare(host, input.runId, body, AttachmentsOf(body))
  }

  function MissingErrors(ready: set<string>, attachments: seq<(string, string)>, n: nat): seq<ErrorEntry>
    requires n <= |attachments|
  {
    if n == 0 then []
    else
      MissingErrors(ready, attachments, n - 1)
      + if attachments[n - 1].1 in ready then []
        else [ErrorEntry("/attachments/" + Decimal(n - 1) + "/sha256", AttachmentMissing)]
  }

  function Missing(ready: set<string>, c: Checked): seq<ErrorEntry> {
    MissingErrors(ready, c.attachments, |c.attachments|)
  }

  /** Why element `i` is refused: attachments are looked up only for one that
      passed everything else. */
  function Problems(host: Host, header: Json, st: Runs, ready: set<string>, inputs: seq<Input>, i: nat): seq<ErrorEntry>
    requires i < |inputs|
  {
    var errors := RepeatErrors(inputs, i) + OwnErrors(host, header, st, inputs[i]);
    if errors != [] then errors else Missing(ready, CheckedOf(host, header, inputs[i]))
  }

  datatype Rejection = Rejection(index: nat, runId: string, errors: seq<ErrorEntry>)

  /** Every refused element, by index. */
  function Rejections(host: Host, header: Json, st: Runs, ready: set<string>, inputs: seq<Input>, n: nat): seq<Rejection>
    requires n <= |inputs|
  {
    if n == 0 then []
    else
      var problems := Problems(host, header, st, ready, inputs, n - 1);
      Rejections(host, header, st, ready, inputs, n - 1)
      + if problems == [] then [] else [Rejection(n - 1, inputs[n - 1].runId, SortEntries(problems))]
  }

  // ----------------------------------------------------------------- writes

  datatype Change = Created | Updated | Unchanged

  function ChangeOf(rows: map<string, RunRow>, c: Checked): Change {
    if c.runId !in rows then Created
    else if rows[c.runId].contentHash == c.contentHash then Unchanged
    else Updated
  }

  function PathMap(attachments: seq<(string, string)>): map<string, string> {
    if attachments == [] then map[]
    else PathMap(attachments[..|attachments| - 1])[attachments[|attachments| - 1].0 := attachments[|attachments| - 1].1]
  }

  /** The run row as it is inserted or overwritten. */
  function RowOf(st: Runs, c: Checked): RunRow {
    var known := c.runId in st.rows;
    Sql.RunRow(
      st.recordId, c.runId, c.contentHash, c.status, c.errorKind, c.startedAt, c.endedAt, Some(c.body),
      known && st.rows[c.runId].archived, known && st.rows[c.runId].tombstoned)
  }

  /** And its side rows are replaced. */
  function Upserted(st: Runs, c: Checked): Runs {
    st.(rows := st.rows[c.runId := RowOf(st, c)],
        metrics := st.metrics[c.runId := c.metrics],
        attachments := st.attachments[c.runId := PathMap(c.attachments)],
        fingerprints := st.fingerprints[c.runId := c.fingerprints])
  }

  datatype RunWritten = RunWritten(runId: string, change: Change, contentHash: Digest, status: string, archived: bool)

  function WrittenAs(rows: map<string, RunRow>, c: Checked): RunWritten {
    RunWritten(c.runId, ChangeOf(rows, c), c.contentHash, c.status, c.runId in rows && rows[c.runId].archived)
  }

  /** The first `n` elements written over `st`; what changes is judged by the
      rows as they were. */
  function Applied(host: Host, header: Json, st: Runs, inputs: seq<Input>, n: nat): Runs
    requires n <= |inputs|
  {
    if n == 0 then st
    else
      var before := Applied(host, header, st, inputs, n - 1);
      var c := CheckedOf(host, header, inputs[n - 1]);
      if ChangeOf(st.rows, c).Unchanged? then before else Upserted(before, c)
  }

  function WrittenList(host: Host, header: Json, st: Runs, inputs: seq<Input>, n: nat): (r: seq<RunWritten>)
    requires n <= |inputs|
    ensures |r| == n
    ensures forall i :: 0 <= i < n ==> r[i] == WrittenAs(st.rows, CheckedOf(host, header, inputs[i]))
  {
    seq(n, i requires 0 <= i < n => WrittenAs(st.rows, CheckedOf(host, header, inputs[i])))
  }

  function PairsIn(rows: map<string, RunRow>, ids: seq<string>): (r: seq<(string, Digest)>)
    requires forall id :: id in ids ==> id in rows
    ensures |r| == |ids| && forall i :: 0 <= i < |r| ==> r[i] == (ids[i], rows[ids[i]].contentHash)
  {
    seq(|ids|, i requires 0 <= i < |ids| => assert ids[i] in ids; (ids[i], rows[ids[i]].contentHash))
  }

  /** The digest over every run of the record, archived and deleted included. */
  function Formula(host: Host, rows: map<string, RunRow>): Digest {
    RunsHash(host.hex, PairsIn(rows, Ascending(rows.Keys)))
  }

  function CurrentHash(host: Host, st: Runs): Digest {
    if st.runsHash.Some? then st.runsHash.value else RunsHash(host.hex, [])
  }

  predicate AnyChanged(written: seq<RunWritten>) {
    exists i :: 0 <= i < |written| && !written[i].change.Unchanged?
  }

  datatype WriteResult = RecordNotFound | Rejected(rejections: seq<Rejection>) | Written(runs: seq<RunWritten>, runsHash: Digest)

  /** `write_runs`, all or nothing. */
  function Write(host: Host, st: Runs, ready: set<string>, inputs: seq<Input>): (WriteResult, Runs) {
    if st.header.None? then (RecordNotFound, st)
    else
      var header := st.header.value;
      var rejections := Rejections(host, header, st, ready, inputs, |inputs|);
      if rejections != [] then (Rejected(rejections), st)
      else
        var written := WrittenList(host, header, st, inputs, |inputs|);
        var after := Applied(host, header, st, inputs, |inputs|);
        var done := if AnyChanged(written) then after.(runsHash := Some(Formula(host, after.rows))) else after;
        (Written(written, CurrentHash(host, done)), done)
  }

  function Put(host: Host, st: Runs, ready: set<string>, runId: string, body: Json): (WriteResult, Runs) {
    Write(host, st, ready, [Input(runId, body)])
  }

  function InputsOf(bodies: seq<Json>): (r: seq<Input>)
    ensures |r| == |bodies|
  {
    Map((b: Json) => Input(if b.GetStr("run_id").Some? then b.GetStr("run_id").value else "", b), bodies)
  }

  function PutBatch(host: Host, st: Runs, ready: set<string>, bodies: seq<Json>): (WriteResult, Runs) {
    Write(host, st, ready, InputsOf(bodies))
  }

  datatype EditResult = NoRecord | NoRun | IsDeleted | Edited(row: RunRow)

  /** `set_archived` */
  function Archive(st: Runs, runId: string, archived: bool): (EditResult, Runs) {
    if st.header.None? then (NoRecord, st)
    else if runId !in st.rows then (NoRun, st)
    else if st.rows[runId].tombstoned then (IsDeleted, st)
    else
      var row := st.rows[runId].(archived := archived);
      (Edited(row), st.(rows := st.rows[runId := row]))
  }

  /** `tombstone` */
  function Delete(st: Runs, runId: string): (EditResult, Runs) {
    if st.header.None? then (NoRecord, st)
    else if runId !in st.rows then (NoRun, st)
    else if st.rows[runId].tombstoned then (IsDeleted, st)
    else
      var row := st.rows[runId].(tombstoned := true, body := None);
      (Edited(row), st.(rows := st.rows[runId := row], attachments := st.attachments - {runId}))
  }
}
