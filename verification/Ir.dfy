/** Identifiers and facets (`evalhub-core/src/validate.rs`). */
module Validate {
  /** The facets of a run, and with `grading` those of a Card. */
  const RUN_FACETS: seq<string> := ["model", "task", "harness", "generation", "trial", "env"]

  const CARD_FACETS: seq<string> := ["model", "task", "harness", "generation", "trial", "grading", "env"]

  predicate SlugStart(c: char) {
    'a' <= c <= 'z' || '0' <= c <= '9'
  }

  predicate SlugChar(c: char) {
    SlugStart(c) || c == '.' || c == '_' || c == '-'
  }

  predicate IsSlug(part: string) {
    part != "" && SlugStart(part[0]) && forall c :: c in part ==> SlugChar(c)
  }

  /** `{ns}/{name}`, split at the first `/`. */
  predicate IsValidId(s: string) {
    exists i :: 0 <= i < |s| && s[i] == '/' && IsSlug(s[..i]) && IsSlug(s[i + 1..])
  }

  const MAX_RUN_ID_BYTES := 200

  /** Bytes of the UTF-8 form. */
  function Utf8Length(s: string): nat {
    if s == "" then 0
    else
      (if s[0] < '\U{80}' then 1 else if s[0] < '\U{800}' then 2 else if s[0] < '\U{10000}' then 3 else 4)
      + Utf8Length(s[1..])
  }

  predicate IsValidRunId(s: string) {
    s != "" && '/' !in s && Utf8Length(s) <= MAX_RUN_ID_BYTES
  }

  lemma ValidIdChars(s: string)
    requires IsValidId(s)
    ensures s != ""
    ensures forall c :: c in s ==> SlugChar(c) || c == '/'
    ensures '[' !in s && ']' !in s
  {
    var i :| 0 <= i < |s| && s[i] == '/' && IsSlug(s[..i]) && IsSlug(s[i + 1..]);
    assert s == s[..i] + [s[i]] + s[i + 1..];
  }
}

/** The backend-independent query tree (`evalhub-query/src/ir.rs`). */
module Ir {
  import opened Prelude
  import opened Json
  import opened Validate

  type Uuid = int

  /** `{ns}/{name}` of a Card the request names. */
  type CardRef = s: string | IsValidId(s) witness IdWitness()

  function IdWitness(): (s: string)
    ensures IsValidId(s)
  {
    assert "a/b"[1] == '/' && IsSlug("a/b"[..1]) && IsSlug("a/b"[2..]);
    "a/b"
  }

  datatype ValueType = Number | String | Boolean

  datatype ResultField = Value | Label

  datatype Dir = Asc | Desc

  datatype Op = Eq | Ne | Gt | Gte | Lt | Lte | In | Prefix | Contains

  datatype ArrayTable = Results | Relations | Attachments

  datatype ArrayColumn =
    | ResultMetric | ResultAggregation | ResultValue | ResultN
    | RelationType | RelationTo | AttachmentPath | AttachmentSha256

  datatype RunColumn =
    | RunId
    | Status
    | ErrorKind
    | StartedAt
    | EndedAt
    | Facet(path: seq<string>)
    | RunFingerprint(facet: string)
    | Metric(id: string)
    | Judgement(card: CardRef, metric: string, field: ResultField)

  datatype Column =
    | Generated(name: string)
    | Fingerprint(of: string)
    | Ext(extPath: seq<string>, ty: ValueType)
    | Body(bodyPath: seq<string>)
    | Array(array: ArrayColumn)
    | Run(run: RunColumn)

  datatype Cmp = Cmp(column: Column, op: Op, value: Json)

  datatype Filter =
    | And(children: seq<Filter>)
    | Or(children: seq<Filter>)
    | Not(child: Filter)
    | Compare(cmp: Cmp)
    | Exists(column: Column)
    | Any(table: ArrayTable, conditions: seq<Cmp>)

  datatype SortKey = SortColumn(column: Column) | SortMetric(metric: string) | CreatedAt | SortRun(run: RunColumn)

  datatype Sort = Sort(key: SortKey, dir: Dir)

  datatype RunCursor = RunCursor(keys: seq<Json>, runId: string)

  datatype RunQuery = RunQuery(
    cards: seq<CardRef>,
    filter: Option<Filter>,
    sort: seq<Sort>,
    limit: nat,
    cursor: Option<RunCursor>)
}
