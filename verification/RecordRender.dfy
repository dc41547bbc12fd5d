/** Which record queries the store cannot render
    (`evalhub-store/src/query_sql.rs`), of those the front end accepts. */
module RecordRender {
  import opened Prelude
  import opened Json
  import opened Validate
  import opened Ir
  import opened Paths
  import opened Quoting
  import opened Typecheck
  import opened RunSql
  import T = RunTables
  import G = Grammar

  const GENERATED: map<string, ValueType> := map[
    "title" := String, "producer_name" := String, "model_id" := String, "model_provider" := String,
    "model_revision" := String, "task_id" := String, "task_version" := String, "task_split" := String,
    "harness_name" := String, "harness_version" := String, "gen_temperature" := Number, "gen_top_p" := Number,
    "gen_max_tokens" := Number, "trial_k" := Number, "env_git_commit" := String, "env_git_dirty" := Boolean]

  /** Nothing, or why it cannot be rendered. */
  type Refusal = Option<Unsupported>

  function First(a: Refusal, b: Refusal): Refusal {
    if a.Some? then a else b
  }

  // --------------------------------------------------------------- rendering

  function ScalarRefusal(ty: ValueType, value: Json): Refusal {
    if LiteralMatches(value, ty) then None else Some(BadLiteral)
  }

  function ArrayRefusal(ty: ValueType, items: seq<Json>): Refusal {
    if items == [] then None else First(ScalarRefusal(ty, items[0]), ArrayRefusal(ty, items[1..]))
  }

  /** `push_operator` */
  function OperatorRefusal(op: Op, ty: ValueType, value: Json): Refusal {
    if op.In? then
      if value.JArr? then ArrayRefusal(ty, value.items) else Some(BadLiteral)
    else if op.Prefix? || op.Contains? then
      if !ty.String? then Some(NotText) else ScalarRefusal(String, value)
    else ScalarRefusal(ty, value)
  }

  function ExtRefusal(path: seq<string>): Refusal {
    if Renderable(path) then None else Some(BadSegment)
  }

  /** Pairs of hexadecimal digits. */
  predicate HexBytes(s: string) {
    |s| % 2 == 0 && forall c :: c in s ==> T.HexDigit(c)
  }

  /** `push_fingerprint` */
  function FingerprintRefusal(facet: string, op: Op, value: Json): Refusal {
    if facet !in CARD_FACETS then Some(UnknownColumn)
    else if !op.Eq? && !op.Ne? then Some(FingerprintOperator)
    else if !value.JStr? then Some(BadLiteral)
    else if !HexBytes(value.s) then Some(NotHexadecimal)
    else None
  }

  function ArrayType(column: ArrayColumn): (ArrayTable, ValueType) {
    match column
    case ResultMetric => (Results, String) case ResultAggregation => (Results, String)
    case ResultValue => (Results, Number) case ResultN => (Results, Number)
    case RelationType => (Relations, String) case RelationTo => (Relations, String)
    case AttachmentPath => (Attachments, String) case AttachmentSha256 => (Attachments, String)
  }

  /** `push_cmp`, inside an `any` over a side table or outside one. */
  function CmpRefusal(cmp: Cmp, inside: Option<ArrayTable>): Refusal {
    match cmp.column
    case Fingerprint(facet) => FingerprintRefusal(facet, cmp.op, cmp.value)
    case Body(_) => if cmp.op.Eq? then None else Some(UnknownColumn)
    case Array(c) =>
      if inside != Some(ArrayType(c).0) then Some(UnknownColumn) else OperatorRefusal(cmp.op, ArrayType(c).1, cmp.value)
    case Generated(name) =>
      if name !in GENERATED then Some(UnknownColumn) else OperatorRefusal(cmp.op, GENERATED[name], cmp.value)
    case Ext(path, ty) => First(ExtRefusal(path), OperatorRefusal(cmp.op, ty, cmp.value))
    case Run(_) => Some(UnknownColumn)
  }

  /** `push_exists` */
  function ExistsRefusal(column: Column): Refusal {
    match column
    case Generated(name) => if name in GENERATED then None else Some(UnknownColumn)
    case Ext(path, _) => ExtRefusal(path)
    case Body(path) => if JsonPathRenderable(path) then None else Some(BadSegment)
    case Fingerprint(facet) => if facet in CARD_FACETS then None else Some(UnknownColumn)
    case _ => Some(UnknownColumn)
  }

  function AnyRefusal(side: ArrayTable, conditions: seq<Cmp>): Refusal {
    if conditions == [] then None else First(CmpRefusal(conditions[0], Some(side)), AnyRefusal(side, conditions[1..]))
  }

  /** `push_filter`: the first refusal stops the rendering. */
  function FilterRefusal(f: Filter): Refusal
    decreases f
  {
    match f
    case And(fs) => AllRefusal(fs)
    case Or(fs) => AllRefusal(fs)
    case Not(g) => FilterRefusal(g)
    case Compare(cmp) => CmpRefusal(cmp, None)
    case Exists(column) => ExistsRefusal(column)
    case Any(side, conditions) => AnyRefusal(side, conditions)
  }

  function AllRefusal(fs: seq<Filter>): Refusal
    decreases fs
  {
    if fs == [] then None else First(FilterRefusal(fs[0]), AllRefusal(fs[1..]))
  }

  /** `plan_sorts`, one key. */
  function SortRefusal(key: SortKey): Refusal {
    match key
    case CreatedAt => None
    case SortMetric(_) => None
    case SortColumn(Generated(name)) => if name in GENERATED then None else Some(UnknownColumn)
    case SortColumn(Ext(path, _)) => ExtRefusal(path)
    case SortColumn(_) => Some(UnknownColumn)
    case SortRun(_) => Some(UnknownColumn)
  }

  // --------------------------------------------------------------- the table

  /** What a path of the table of a Card or an Eval can resolve to. */
  predicate RecordInfo(info: PathInfo) {
    info.Ranged? ||
    match info.column
    case Generated(name) => name in GENERATED && info.ty == GENERATED[name] && info.indexed.Full?
    case Fingerprint(facet) => facet in CARD_FACETS && info.ty.String? && info.indexed.Full?
    case Ext(_, ty) => ty == info.ty && info.indexed.Full?
    case Body(_) => !info.indexed.Full?
    case _ => false
  }

  ghost predicate RecordTable(t: PathTable) {
    t.target.Record? && forall p :: p in t.paths ==> RecordInfo(t.paths[p])
  }

  /** Registered schemas keep the table a record table. */
  lemma {:induction false} ExtendedTable(t: PathTable, ext: seq<ExtSchema>)
    requires RecordTable(t)
    ensures RecordTable(t.WithExt(ext))
  {
    hide RecordInfo;
    WithExtKeepsRuns(t, ext, "");
    forall p | p in t.WithExt(ext).paths ensures RecordInfo(t.WithExt(ext).paths[p]) {
      WithExtKeepsRuns(t, ext, p);
      if IsExt(t.WithExt(ext).paths[p]) { ExtIsRecord(t.WithExt(ext).paths[p]); }
    }
  }

  lemma ExtIsRecord(info: PathInfo)
    requires IsExt(info)
    ensures RecordInfo(info)
  {
  }

  lemma ResolvedRecord(t: PathTable, p: string)
    requires RecordTable(t)
    ensures t.Resolve(p).Some? ==> RecordInfo(t.Resolve(p).value)
  {
  }

  // ------------------------------------------------------- what is not served

  predicate CompareServed(info: PathInfo, op: Op, value: Json)
    requires info.Scalar?
  {
    && (info.column.Ext? ==> Renderable(info.column.extPath))
    && (info.column.Fingerprint? ==> (op.Eq? || op.Ne?) && value.JStr? && HexBytes(value.s))
  }

  predicate ExistsServed(info: PathInfo)
    requires info.Scalar?
  {
    && (info.column.Ext? ==> Renderable(info.column.extPath))
    && (info.column.Body? ==> JsonPathRenderable(info.column.bodyPath))
  }

  predicate Served(t: PathTable, f: G.Filter)
    requires WellTyped(f, t)
  {
    match f
    case And(fs) => forall i :: 0 <= i < |fs| ==> Served(t, fs[i])
    case Or(fs) => forall i :: 0 <= i < |fs| ==> Served(t, fs[i])
    case Not(g) => Served(t, g)
    case Compare(path, op, value) => CompareServed(t.Resolve(path).value, op, value)
    case Exists(path) => ExistsServed(t.Resolve(path).value)
    case Any(_, _) => true
  }

  lemma {:induction false} ArrayRenders(ty: ValueType, items: seq<Json>)
    requires forall v :: v in items ==> LiteralMatches(v, ty)
    ensures ArrayRefusal(ty, items).None?
  {
    if items != [] {
      assert items[0] in items;
      ArrayRenders(ty, items[1..]);
    }
  }

  lemma OperatorRenders(op: Op, ty: ValueType, value: Json)
    requires WellTypedCmp(ty, Full, op, value)
    ensures OperatorRefusal(op, ty, value).None?
  {
    if op.In? { ArrayRenders(ty, value.items); }
  }

  lemma CompareExact(info: PathInfo, op: Op, value: Json)
    requires info.Scalar? && RecordInfo(info) && WellTypedCmp(info.ty, info.indexed, op, value)
    ensures CmpRefusal(Cmp(info.column, op, value), None).None? <==> CompareServed(info, op, value)
  {
    hide OperatorRefusal, Renderable, HexBytes;
    if info.indexed.Full? { OperatorRenders(op, info.ty, value); }
  }

  lemma ExistsExact(info: PathInfo)
    requires info.Scalar? && RecordInfo(info)
    ensures ExistsRefusal(info.column).None? <==> ExistsServed(info)
  {
    hide Renderable, JsonPathRenderable;
  }

  lemma ConditionRenders(side: ArrayTable, key: string, term: G.MatchTerm)
    requires WellTypedTerm(side, key, term)
    ensures CmpRefusal(Condition(side, key, term), Some(side)).None?
  {
    hide OperatorRefusal, WellTypedCmp;
    OperatorRenders(term.op, ArrayKey(side, key).value.1, term.value);
  }

  lemma {:induction false} AnyRenders(side: ArrayTable, terms: seq<(string, G.MatchTerm)>, conditions: seq<Cmp>)
    requires |conditions| == |terms|
    requires forall i :: 0 <= i < |terms| ==>
               WellTypedTerm(side, terms[i].0, terms[i].1) && conditions[i] == Condition(side, terms[i].0, terms[i].1)
    ensures AnyRefusal(side, conditions).None?
  {
    hide CmpRefusal, WellTypedTerm, Condition;
    if terms != [] {
      ConditionRenders(side, terms[0].0, terms[0].1);
      forall i | 0 <= i < |terms[1..]|
        ensures WellTypedTerm(side, terms[1..][i].0, terms[1..][i].1)
        ensures conditions[1..][i] == Condition(side, terms[1..][i].0, terms[1..][i].1)
      {
        assert terms[1..][i] == terms[i + 1] && conditions[1..][i] == conditions[i + 1];
      }
      AnyRenders(side, terms[1..], conditions[1..]);
    }
  }

  lemma {:induction false} AllRenders(fs: seq<Filter>)
    ensures AllRefusal(fs).None? <==> forall i :: 0 <= i < |fs| ==> FilterRefusal(fs[i]).None?
  {
    hide CmpRefusal, ExistsRefusal, AnyRefusal;
    if fs != [] {
      AllRenders(fs[1..]);
      assert forall i :: 0 <= i < |fs| ==> fs[i] == if i == 0 then fs[0] else fs[1..][i - 1];
    }
  }

  /** An accepted filter over records fails to render exactly on a fingerprint
      asked for with another operator than `eq` or `ne` or against a literal
      that is not hexadecimal, or on a segment that cannot be written down. */
  lemma {:induction false} RendersExactly(t: PathTable, f: G.Filter)
    requires RecordTable(t) && WellTyped(f, t)
    ensures FilterRefusal(Elaborate(f, t)).None? <==> Served(t, f)
    decreases f
  {
    hide RecordTable, CmpRefusal, ExistsRefusal, AnyRefusal, CompareServed, ExistsServed, WellTypedCmp, WellTypedTerm, Condition;
    match f
    case And(fs) => JunctionRenders(t, f, fs);
    case Or(fs) => JunctionRenders(t, f, fs);
    case Not(g) => RendersExactly(t, g);
    case Compare(path, op, value) =>
      ResolvedRecord(t, path);
      CompareExact(t.Resolve(path).value, op, value);
    case Exists(path) =>
      ResolvedRecord(t, path);
      ExistsExact(t.Resolve(path).value);
    case Any(path, terms) =>
      var side := t.Resolve(path).value.table;
      AnyRenders(side, terms, Conditions(side, terms));
  }

  lemma {:induction false} JunctionRenders(t: PathTable, f: G.Filter, fs: seq<G.Filter>)
    requires RecordTable(t) && WellTyped(f, t) && (f == G.And(fs) || f == G.Or(fs))
    ensures FilterRefusal(Elaborate(f, t)).None? <==> Served(t, f)
    decreases f, 0
  {
    hide RecordTable, CmpRefusal, ExistsRefusal, AnyRefusal, CompareServed, ExistsServed;
    var irs := Elaborate(f, t).children;
    AllRenders(irs);
    forall i | 0 <= i < |fs| ensures FilterRefusal(irs[i]).None? <==> Served(t, fs[i]) {
      assert fs[i] in fs && irs[i] == Elaborate(fs[i], t);
      RendersExactly(t, fs[i]);
    }
  }

  // -------------------------------------------------------------------- sort

  /** `check_sort` */
  function RecordSortKey(path: string, t: PathTable): Option<SortKey> {
    var rest := StripPrefix(path, "results[");
    var parts := if rest.None? then None else SplitOnce(rest.value, "]");
    if path == "created_at" then Some(CreatedAt)
    else if parts.Some? then
      if parts.value.1 == ".value" && '/' in parts.value.0 then Some(SortMetric(parts.value.0)) else None
    else
      var info := t.Resolve(path);
      if info.Some? && info.value.Scalar? && info.value.indexed.Full? then Some(SortColumn(info.value.column)) else None
  }

  /** A sort the front end accepts is refused exactly on a fingerprint or on a
      segment that cannot be written down. */
  lemma SortRendersExactly(t: PathTable, path: string)
    requires RecordTable(t) && RecordSortKey(path, t).Some?
    ensures var key := RecordSortKey(path, t).value;
            SortRefusal(key).None? <==>
            !(key.SortColumn? && key.column.Fingerprint?)
            && (key.SortColumn? && key.column.Ext? ==> Renderable(key.column.extPath))
  {
    hide Renderable, SplitOnce;
    ResolvedRecord(t, path);
  }

  /** A record table with one path. */
  const MODEL_TABLE := PathTable(map["fingerprint.model" := Scalar(Fingerprint("model"), String, Full)], Record)

  /** `in` on a fingerprint, accepted and then refused. */
  lemma FingerprintInIsRefused()
    ensures RecordTable(MODEL_TABLE)
    ensures var f := G.Compare("fingerprint.model", In, JArr([JStr("00")]));
            WellTyped(f, MODEL_TABLE) && FilterRefusal(Elaborate(f, MODEL_TABLE)) == Some(FingerprintOperator)
  {
    var f := G.Compare("fingerprint.model", In, JArr([JStr("00")]));
    assert MODEL_TABLE.Resolve("fingerprint.model") == Some(Scalar(Fingerprint("model"), String, Full));
    assert WellTyped(f, MODEL_TABLE);
    assert CARD_FACETS[0] == "model";
  }
}
