/** The statement a run query compiles to, as a tree, and what Postgres makes
    of it: three-valued predicates over the rows of the run tables. */
module Sql {
  import opened Prelude
  import opened Json
  import opened Backend
  import opened Ir
  import opened Quoting

  // ------------------------------------------------------- three-valued logic

  datatype Truth = True | False | Unknown

  function Truly(b: bool): Truth {
    if b then True else False
  }

  function Negate(t: Truth): Truth {
    match t case True => False case False => True case Unknown => Unknown
  }

  function Both(a: Truth, b: Truth): Truth {
    if a.False? || b.False? then False else if a.True? && b.True? then True else Unknown
  }

  function Either(a: Truth, b: Truth): Truth {
    if a.True? || b.True? then True else if a.False? && b.False? then False else Unknown
  }

  // ------------------------------------------------------------------- values

  datatype KeyType = KNumber | KText | KBoolean | KTime

  datatype Value = VNum(n: int) | VText(s: string) | VBool(b: bool) | VTime(t: int)

  predicate HasType(v: Value, ty: KeyType) {
    match ty case KNumber => v.VNum? case KText => v.VText? case KBoolean => v.VBool? case KTime => v.VTime?
  }

  /** A value's place in the order of its type. */
  function Rank(be: Backend, v: Value): real {
    match v
    case VNum(n) => n as real
    case VText(s) => be.collate(s)
    case VBool(b) => if b then 1.0 else 0.0
    case VTime(t) => t as real
  }

  datatype Sign = Equal | NotEqual | Greater | GreaterEq | Less | LessEq

  predicate Holds(sign: Sign, a: real, b: real) {
    match sign
    case Equal => a == b
    case NotEqual => a != b
    case Greater => a > b
    case GreaterEq => a >= b
    case Less => a < b
    case LessEq => a <= b
  }

  // ------------------------------------------------------------------- tables

  /** `runs`, keyed by `(recordId, runId)`. */
  datatype RunRow = RunRow(
    recordId: Uuid, runId: string, contentHash: Digest,
    status: string, errorKind: Option<string>, startedAt: Option<int>, endedAt: Option<int>,
    body: Option<Json>, archived: bool, tombstoned: bool)

  /** `run_results`, keyed by `(versionId, ordinal)`. */
  datatype Entry = Entry(
    versionId: Uuid, ordinal: nat, evalId: Uuid, runId: string, metric: string,
    value: Option<int>, verdict: Option<string>, partition: Option<Json>)

  /** A row of `card_eval_runs`: a Card version used a run of an Eval. */
  datatype UsedKey = UsedKey(versionId: Uuid, evalId: Uuid, runId: string)

  datatype Db = Db(
    runs: seq<RunRow>,
    metrics: map<(Uuid, string), map<string, int>>,
    fingerprints: map<(Uuid, string), map<string, string>>,
    results: seq<Entry>,
    /** `card_eval_runs`, with the content hash recorded. */
    used: map<UsedKey, Digest>)

  /** The side rows of one run. */
  function SideOf<T>(m: map<(Uuid, string), map<string, T>>, recordId: Uuid, runId: string): map<string, T> {
    if (recordId, runId) in m then m[(recordId, runId)] else map[]
  }

  ghost predicate KeyedBy(runs: seq<RunRow>) {
    forall i, j :: 0 <= i < j < |runs| ==> runs[i].recordId != runs[j].recordId || runs[i].runId != runs[j].runId
  }

  ghost predicate WellKeyed(db: Db) {
    KeyedBy(db.runs)
  }

  datatype RunState = Live | Archived | Deleted

  /** A row of `p0`: a run as the reader may see it. */
  datatype Masked = Masked(
    recordId: Uuid, runId: string, contentHash: Digest, state: RunState, shown: bool,
    status: Option<string>, errorKind: Option<string>, startedAt: Option<int>, endedAt: Option<int>,
    body: Option<Json>)

  // ---------------------------------------------------------------- the tree

  datatype Expr =
    | RunIdColumn | StatusColumn | ErrorKindColumn | StartedColumn | EndedColumn
    | BodyPath(literal: string, cast: ValueType)
    | FingerprintOf(facet: string)
    | MetricOf(metric: string)
    | BestEntry(versionId: Uuid, of: string, field: ResultField, dir: Dir)
    | EntryField(column: ResultField)
    | KeyColumn(k: nat)

  datatype Pred =
    | PTrue | PFalse
    | PAll(all: seq<Pred>)
    | PAny(any: seq<Pred>)
    | PNot(not: Pred)
    | PCompare(left: Expr, sign: Sign, right: Value)
    | PIn(item: Expr, list: seq<Value>)
    | PLike(text: Expr, pattern: string)
    | PIsNull(missing: Expr)
    | PNotNull(present: Expr)
    | PContains(part: Json)
    | PPathExists(jsonpath: string)
    | PExistsEntry(versionId: Uuid, metric: string, cond: Pred)

  datatype Stmt = Stmt(
    recordId: Uuid, member: bool, listArchived: bool, listDeleted: bool, versions: seq<Uuid>,
    keys: seq<Expr>, filter: Pred, keyset: Pred, dirs: seq<Dir>, tiebreak: Dir, limit: nat)

  // -------------------------------------------------------------- evaluation

  /** What an expression may refer to: the row, its keys, and inside an
      `EXISTS` the entry. */
  datatype Scene = Scene(be: Backend, db: Db, row: Masked, keys: seq<Option<Value>>, entry: Option<Entry>)

  /** `#>` */
  function AtPath(be: Backend, doc: Json, path: seq<string>): Option<Json>
    decreases |path|
  {
    if path == [] then Some(doc)
    else if doc.JObj? then
      if path[0] in doc.fields then AtPath(be, doc.fields[path[0]], path[1..]) else None
    else if doc.JArr? && be.subscript(path[0]).Some? then
      var i := be.subscript(path[0]).value;
      var k := if i < 0 then |doc.items| + i else i;
      if 0 <= k < |doc.items| then AtPath(be, doc.items[k], path[1..]) else None
    else None
  }

  /** `evalhub_num`, `evalhub_str`, `evalhub_bool` */
  function CastTo(doc: Option<Json>, ty: ValueType): Option<Value> {
    if doc.None? then None
    else
      match ty
      case Number => if doc.value.JNum? then Some(VNum(doc.value.n)) else None
      case String => if doc.value.JStr? then Some(VText(doc.value.s)) else None
      case Boolean => if doc.value.JBool? then Some(VBool(doc.value.b)) else None
  }

  function FieldOf(e: Entry, field: ResultField): Option<Value> {
    match field
    case Value => if e.value.None? then None else Some(VNum(e.value.value))
    case Label => if e.verdict.None? then None else Some(VText(e.verdict.value))
  }

  predicate About(e: Entry, versionId: Uuid, row: Masked, metric: string) {
    e.versionId == versionId && e.evalId == row.recordId && e.runId == row.runId && e.metric == metric
  }

  /** The order of the best-entry subquery: the field in the sort's direction,
      then the position in the Card. */
  predicate EntryFirst(be: Backend, field: ResultField, dir: Dir, a: Entry, b: Entry)
    requires FieldOf(a, field).Some? && FieldOf(b, field).Some?
  {
    var x, y := Rank(be, FieldOf(a, field).value), Rank(be, FieldOf(b, field).value);
    if x == y then a.ordinal < b.ordinal else if dir.Asc? then x < y else x > y
  }

  /** `ORDER BY … LIMIT 1` over the entries that have the field. */
  function Best(be: Backend, es: seq<Entry>, field: ResultField, dir: Dir): (r: Option<Entry>)
    ensures r.Some? ==> r.value in es && FieldOf(r.value, field).Some?
  {
    if es == [] then None
    else
      var rest := Best(be, es[1..], field, dir);
      if FieldOf(es[0], field).None? then rest
      else if rest.None? || !EntryFirst(be, field, dir, rest.value, es[0]) then Some(es[0])
      else rest
  }

  function Texted(s: Option<string>): Option<Value> {
    if s.None? then None else Some(VText(s.value))
  }

  function Timed(t: Option<int>): Option<Value> {
    if t.None? then None else Some(VTime(t.value))
  }

  function EvalExpr(s: Scene, e: Expr): Option<Value> {
    match e
    case RunIdColumn => Some(VText(s.row.runId))
    case StatusColumn => Texted(s.row.status)
    case ErrorKindColumn => Texted(s.row.errorKind)
    case StartedColumn => Timed(s.row.startedAt)
    case EndedColumn => Timed(s.row.endedAt)
    case BodyPath(literal, cast) =>
      var path := ReadLiteral(literal);
      if path.None? || s.row.body.None? then None else CastTo(AtPath(s.be, s.row.body.value, path.value), cast)
    case FingerprintOf(facet) =>
      var key := (s.row.recordId, s.row.runId);
      if s.row.shown && key in s.db.fingerprints && facet in s.db.fingerprints[key]
      then Some(VText(s.db.fingerprints[key][facet])) else None
    case MetricOf(metric) =>
      var key := (s.row.recordId, s.row.runId);
      if s.row.shown && key in s.db.metrics && metric in s.db.metrics[key]
      then Some(VNum(s.db.metrics[key][metric])) else None
    case BestEntry(versionId, metric, field, dir) =>
      var best := Best(s.be, Select(s.db.results, e => About(e, versionId, s.row, metric)), field, dir);
      if best.None? then None else FieldOf(best.value, field)
    case EntryField(field) => if s.entry.None? then None else FieldOf(s.entry.value, field)
    case KeyColumn(k) => if k < |s.keys| then s.keys[k] else None
  }

  function EvalPred(s: Scene, p: Pred): Truth
    decreases p
  {
    match p
    case PTrue => True
    case PFalse => False
    case PAll(ps) => EvalAll(s, ps)
    case PAny(ps) => EvalAny(s, ps)
    case PNot(q) => Negate(EvalPred(s, q))
    case PCompare(e, sign, v) =>
      var x := EvalExpr(s, e);
      if x.None? then Unknown else Truly(Holds(sign, Rank(s.be, x.value), Rank(s.be, v)))
    case PIn(e, vs) =>
      var x := EvalExpr(s, e);
      if vs == [] then False
      else if x.None? then Unknown
      else Truly(exists v :: v in vs && Rank(s.be, x.value) == Rank(s.be, v))
    case PLike(e, pattern) =>
      var x := EvalExpr(s, e);
      if x.None? then Unknown else Truly(x.value.VText? && Like(pattern, x.value.s))
    case PIsNull(e) => Truly(EvalExpr(s, e).None?)
    case PNotNull(e) => Truly(EvalExpr(s, e).Some?)
    case PContains(part) =>
      if s.row.body.None? then Unknown else Truly(JsonContains(s.row.body.value, part))
    case PPathExists(text) =>
      var path := ReadJsonPath(s.be, text);
      if s.row.body.None? || path.None? then Unknown else Truly(LaxExists(s.row.body.value, path.value))
    case PExistsEntry(versionId, metric, cond) =>
      Truly(exists e :: e in s.db.results && About(e, versionId, s.row, metric)
                     && EvalPred(s.(entry := Some(e)), cond).True?)
  }

  function EvalAll(s: Scene, ps: seq<Pred>): Truth
    decreases ps
  {
    if ps == [] then True else Both(EvalPred(s, ps[0]), EvalAll(s, ps[1..]))
  }

  function EvalAny(s: Scene, ps: seq<Pred>): Truth
    decreases ps
  {
    if ps == [] then False else Either(EvalPred(s, ps[0]), EvalAny(s, ps[1..]))
  }

  /** Every jsonpath of a predicate is one the database takes: a cast that fails
      fails the statement, whatever the rows. */
  predicate Castable(be: Backend, p: Pred) {
    match p
    case PAll(ps) => forall q :: q in ps ==> Castable(be, q)
    case PAny(ps) => forall q :: q in ps ==> Castable(be, q)
    case PNot(q) => Castable(be, q)
    case PPathExists(text) => ReadJsonPath(be, text).Some?
    case PExistsEntry(_, _, cond) => Castable(be, cond)
    case _ => true
  }

  // --------------------------------------------------------------- statement

  predicate Shown(member: bool, r: RunRow) {
    !r.tombstoned && (member || !r.archived)
  }

  predicate Listed(db: Db, stmt: Stmt, r: RunRow) {
    && r.recordId == stmt.recordId
    && (|| (!r.archived && !r.tombstoned)
        || (stmt.member && stmt.listArchived && r.archived && !r.tombstoned)
        || (stmt.member && stmt.listDeleted && r.tombstoned)
        || (exists v :: v in stmt.versions && UsedKey(v, r.recordId, r.runId) in db.used))
  }

  function Mask(member: bool, r: RunRow): Masked {
    if Shown(member, r) then
      Masked(r.recordId, r.runId, r.contentHash, if r.archived then Archived else Live, true,
             Some(r.status), r.errorKind, r.startedAt, r.endedAt, r.body)
    else Masked(r.recordId, r.runId, r.contentHash, Deleted, false, None, None, None, None, None)
  }

  /** A row of `p`: `p0` with its sort keys. */
  datatype Keyed = Keyed(row: Masked, keys: seq<Option<Value>>)

  function KeyedRow(be: Backend, db: Db, stmt: Stmt, r: RunRow): Keyed {
    var row := Mask(stmt.member, r);
    var scene := Scene(be, db, row, [], None);
    Keyed(row, seq(|stmt.keys|, i requires 0 <= i < |stmt.keys| => EvalExpr(scene, stmt.keys[i])))
  }

  function SceneOf(be: Backend, db: Db, k: Keyed): Scene {
    Scene(be, db, k.row, k.keys, None)
  }

  predicate Selected(be: Backend, db: Db, stmt: Stmt, k: Keyed) {
    && EvalPred(SceneOf(be, db, k), stmt.filter).True?
    && EvalPred(SceneOf(be, db, k), stmt.keyset).True?
  }

  function KeyAt(k: Keyed, i: nat): Option<Value> {
    if i < |k.keys| then k.keys[i] else None
  }

  /** `ASC NULLS LAST`, `DESC NULLS FIRST` */
  predicate KeyBefore(be: Backend, dir: Dir, x: Option<Value>, y: Option<Value>) {
    if dir.Asc? then x.Some? && (y.None? || Rank(be, x.value) < Rank(be, y.value))
    else y.Some? && (x.None? || Rank(be, x.value) > Rank(be, y.value))
  }

  predicate KeySame(be: Backend, x: Option<Value>, y: Option<Value>) {
    if x.Some? && y.Some? then Rank(be, x.value) == Rank(be, y.value) else x.None? && y.None?
  }

  predicate IdBefore(be: Backend, dir: Dir, a: string, b: string) {
    if dir.Asc? then be.collate(a) < be.collate(b) else be.collate(a) > be.collate(b)
  }

  /** `ORDER BY k{i}…, run_id` from key `i` on. */
  predicate Before(be: Backend, dirs: seq<Dir>, tiebreak: Dir, i: nat, a: Keyed, b: Keyed)
    requires i <= |dirs|
    decreases |dirs| - i
  {
    if i == |dirs| then IdBefore(be, tiebreak, a.row.runId, b.row.runId)
    else
      || KeyBefore(be, dirs[i], KeyAt(a, i), KeyAt(b, i))
      || (KeySame(be, KeyAt(a, i), KeyAt(b, i)) && Before(be, dirs, tiebreak, i + 1, a, b))
  }

  function RowOrder(be: Backend, stmt: Stmt): (Keyed, Keyed) -> bool {
    (a: Keyed, b: Keyed) => Before(be, stmt.dirs, stmt.tiebreak, 0, a, b)
  }

  function Listing(db: Db, stmt: Stmt): RunRow -> bool {
    r => Listed(db, stmt, r)
  }

  function Selection(be: Backend, db: Db, stmt: Stmt): Keyed -> bool {
    k => Selected(be, db, stmt, k)
  }

  /** `p`, in the order of the scan. */
  function Scan(be: Backend, db: Db, stmt: Stmt): seq<Keyed> {
    Map(r => KeyedRow(be, db, stmt, r), Select(db.runs, Listing(db, stmt)))
  }

  /** The statement without its `LIMIT`. */
  function Rows(be: Backend, db: Db, stmt: Stmt): seq<Keyed> {
    Prelude.Sort(RowOrder(be, stmt), Select(Scan(be, db, stmt), Selection(be, db, stmt)))
  }

  function Execute(be: Backend, db: Db, stmt: Stmt): seq<Keyed> {
    Take(Rows(be, db, stmt), stmt.limit)
  }

  // ------------------------------------------------------------ order lemmas

  lemma {:induction false} BeforeIrreflexive(be: Backend, dirs: seq<Dir>, tiebreak: Dir, i: nat, a: Keyed)
    requires i <= |dirs|
    ensures !Before(be, dirs, tiebreak, i, a, a)
    decreases |dirs| - i
  {
    if i < |dirs| { BeforeIrreflexive(be, dirs, tiebreak, i + 1, a); }
  }

  lemma {:induction false} BeforeTransitive(be: Backend, dirs: seq<Dir>, tiebreak: Dir, i: nat, a: Keyed, b: Keyed, c: Keyed)
    requires i <= |dirs|
    requires Before(be, dirs, tiebreak, i, a, b) && Before(be, dirs, tiebreak, i, b, c)
    ensures Before(be, dirs, tiebreak, i, a, c)
    decreases |dirs| - i
  {
    if i < |dirs| && KeySame(be, KeyAt(a, i), KeyAt(b, i)) && KeySame(be, KeyAt(b, i), KeyAt(c, i)) {
      BeforeTransitive(be, dirs, tiebreak, i + 1, a, b, c);
    }
  }

  lemma {:induction false} BeforeTotal(be: Backend, dirs: seq<Dir>, tiebreak: Dir, i: nat, a: Keyed, b: Keyed)
    requires be.Sound() && i <= |dirs| && a.row.runId != b.row.runId
    ensures Before(be, dirs, tiebreak, i, a, b) || Before(be, dirs, tiebreak, i, b, a)
    decreases |dirs| - i
  {
    if i < |dirs| { BeforeTotal(be, dirs, tiebreak, i + 1, a, b); }
  }

  lemma RowOrderStrict(be: Backend, stmt: Stmt)
    ensures StrictOrder(RowOrder(be, stmt))
  {
    var less := RowOrder(be, stmt);
    forall a ensures !less(a, a) { BeforeIrreflexive(be, stmt.dirs, stmt.tiebreak, 0, a); }
    forall a, b, c | less(a, b) && less(b, c) ensures less(a, c) {
      BeforeTransitive(be, stmt.dirs, stmt.tiebreak, 0, a, b, c);
    }
  }

  /** The rows of one Eval differ in `run_id`, so any two are comparable. */
  lemma ScanComparable(be: Backend, db: Db, stmt: Stmt)
    requires be.Sound() && WellKeyed(db)
    ensures Comparable(RowOrder(be, stmt), Scan(be, db, stmt))
  {
    SelectedDistinct(db, stmt, db.runs);
    var scan := Scan(be, db, stmt);
    forall i, j | 0 <= i < j < |scan|
      ensures RowOrder(be, stmt)(scan[i], scan[j]) || RowOrder(be, stmt)(scan[j], scan[i])
    {
      var listed := Select(db.runs, Listing(db, stmt));
      assert listed[i].runId != listed[j].runId;
      assert scan[i] == KeyedRow(be, db, stmt, listed[i]) && scan[j] == KeyedRow(be, db, stmt, listed[j]);
      BeforeTotal(be, stmt.dirs, stmt.tiebreak, 0, scan[i], scan[j]);
    }
  }

  ghost predicate DistinctIds(rows: seq<RunRow>) {
    forall i, j :: 0 <= i < j < |rows| ==> rows[i].runId != rows[j].runId
  }

  lemma {:induction false} SelectedDistinct(db: Db, stmt: Stmt, runs: seq<RunRow>)
    requires KeyedBy(runs)
    ensures DistinctIds(Select(runs, Listing(db, stmt)))
  {
    if runs != [] {
      SelectedDistinct(db, stmt, runs[1..]);
      var rest := Select(runs[1..], Listing(db, stmt));
      if Listed(db, stmt, runs[0]) {
        forall j | 0 <= j < |rest| ensures rest[j].runId != runs[0].runId {
          SelectMember(runs[1..], Listing(db, stmt), rest[j]);
          var k :| 0 <= k < |runs[1..]| && runs[1..][k] == rest[j];
          assert runs[k + 1] == rest[j];
        }
        assert Select(runs, Listing(db, stmt)) == [runs[0]] + rest;
      }
    }
  }

  lemma ScanMember(be: Backend, db: Db, stmt: Stmt, k: Keyed)
    ensures k in Scan(be, db, stmt) <==> exists r :: r in db.runs && Listed(db, stmt, r) && k == KeyedRow(be, db, stmt, r)
  {
    hide Listed, KeyedRow;
    var listed := Select(db.runs, Listing(db, stmt));
    forall r { SelectMember(db.runs, Listing(db, stmt), r); }
    if k in Scan(be, db, stmt) {
      var i :| 0 <= i < |listed| && Scan(be, db, stmt)[i] == k;
      assert listed[i] in listed;
    }
    if r :| r in db.runs && Listed(db, stmt, r) && k == KeyedRow(be, db, stmt, r) {
      assert r in listed;
      var i :| 0 <= i < |listed| && listed[i] == r;
      assert Scan(be, db, stmt)[i] == k;
    }
  }

  lemma RowMember(be: Backend, db: Db, stmt: Stmt, k: Keyed)
    ensures k in Rows(be, db, stmt) <==> k in Scan(be, db, stmt) && Selected(be, db, stmt, k)
  {
    SortMember(RowOrder(be, stmt), Select(Scan(be, db, stmt), Selection(be, db, stmt)), k);
    SelectMember(Scan(be, db, stmt), Selection(be, db, stmt), k);
  }

  lemma RowsSorted(be: Backend, db: Db, stmt: Stmt)
    requires be.Sound() && WellKeyed(db)
    ensures Sorted(RowOrder(be, stmt), Rows(be, db, stmt))
    ensures StrictOrder(RowOrder(be, stmt))
  {
    RowOrderStrict(be, stmt);
    ScanComparable(be, db, stmt);
    SelectComparable(RowOrder(be, stmt), Scan(be, db, stmt), Selection(be, db, stmt));
    SortSorted(RowOrder(be, stmt), Select(Scan(be, db, stmt), Selection(be, db, stmt)));
  }

  /** The best entry is the extreme one: no entry with the field beats it. */
  lemma {:induction false} BestIsExtreme(be: Backend, es: seq<Entry>, field: ResultField, dir: Dir)
    ensures Best(be, es, field, dir).None? <==> forall e :: e in es ==> FieldOf(e, field).None?
    ensures var best := Best(be, es, field, dir);
            best.Some? ==> forall e :: e in es && FieldOf(e, field).Some? ==>
              var x, y := Rank(be, FieldOf(e, field).value), Rank(be, FieldOf(best.value, field).value);
              if dir.Asc? then y <= x else x <= y
  {
    if es != [] {
      BestIsExtreme(be, es[1..], field, dir);
      var rest := Best(be, es[1..], field, dir);
      assert forall e :: e in es <==> e == es[0] || e in es[1..];
      if FieldOf(es[0], field).Some? {
        assert es[0] in es;
      }
    }
  }
}
