/** The path table (`evalhub-query/src/typecheck.rs`): which column a query
    path names. */
module Paths {
  import opened Prelude
  import opened Validate
  import opened Ir

  // ------------------------------------------------------------------ text

  function StripPrefix(s: string, p: string): Option<string> {
    if p <= s then Some(s[|p|..]) else None
  }

  /** `str::split_once`: at the first occurrence. */
  function SplitOnce(s: string, sep: string): (r: Option<(string, string)>)
    ensures r.Some? ==> s == r.value.0 + sep + r.value.1
  {
    if sep <= s then Some(("", s[|sep|..]))
    else if s == "" then None
    else
      var rest := SplitOnce(s[1..], sep);
      if rest.None? then None else Some(([s[0]] + rest.value.0, rest.value.1))
  }

  /** Before the first separator there may be anything without its first
      character. */
  lemma {:induction false} SplitOnceAt(a: string, sep: string, b: string)
    requires sep != "" && sep[0] !in a
    ensures SplitOnce(a + sep + b, sep) == Some((a, b))
  {
    if a == "" {
      assert a + sep + b == sep + b;
    } else {
      SplitOnceAt(a[1..], sep, b);
      SplitOnceStep(a[0], a[1..] + sep + b, sep);
      Regroup([a[0]], a[1..], sep);
      Regroup([a[0]], a[1..] + sep, b);
      assert a == [a[0]] + a[1..];
    }
  }

  lemma {:induction false} SplitOnceStep(c: char, rest: string, sep: string)
    requires sep != "" && sep[0] != c && SplitOnce(rest, sep).Some?
    ensures SplitOnce([c] + rest, sep) == Some(([c] + SplitOnce(rest, sep).value.0, SplitOnce(rest, sep).value.1))
  {
    var s := [c] + rest;
    assert s[0] == c && s[1..] == rest;
  }

  lemma {:induction false} SplitOnceAbsent(s: string, sep: string)
    requires sep != "" && sep[0] !in s
    ensures SplitOnce(s, sep).None?
  {
    if s != "" { SplitOnceAbsent(s[1..], sep); }
  }

  function Split(s: string, sep: char): (r: seq<string>)
    ensures r != []
  {
    if s == "" then [""]
    else
      var rest := Split(s[1..], sep);
      if s[0] == sep then [""] + rest else [[s[0]] + rest[0]] + rest[1..]
  }

  function Join(parts: seq<string>, sep: char): string {
    if parts == [] then ""
    else if |parts| == 1 then parts[0]
    else parts[0] + [sep] + Join(parts[1..], sep)
  }

  lemma {:induction false} SplitJoin(s: string, sep: char)
    ensures Join(Split(s, sep), sep) == s
  {
    if s != "" {
      SplitJoin(s[1..], sep);
      var rest := Split(s[1..], sep);
      var parts := Split(s, sep);
      if s[0] == sep {
        assert parts[1..] == rest;
      } else {
        assert parts[1..] == rest[1..];
        if |rest| > 1 {
          assert Join(parts, sep) == [s[0]] + (rest[0] + [sep] + Join(rest[1..], sep));
        }
      }
    }
  }

  lemma {:induction false} SplitWhole(s: string, sep: char)
    requires sep !in s
    ensures Split(s, sep) == [s]
  {
    if s != "" {
      SplitWhole(s[1..], sep);
      assert s == [s[0]] + s[1..];
    }
  }

  // ----------------------------------------------------------------- table

  datatype Indexed = Full | EqExistsOnly | EqExistsUntyped

  datatype PathInfo = Scalar(column: Column, ty: ValueType, indexed: Indexed) | Ranged(table: ArrayTable)

  datatype Target = Record | Runs(cards: seq<CardRef>)

  /** The scalar leaves of the six Eval facets, by dotted path. */
  type FacetLeaves = map<string, (seq<string>, ValueType)>

  datatype ExtSchema = ExtSchema(ns: string, paths: seq<(seq<string>, ValueType)>, applied: bool)

  datatype PathTable = PathTable(paths: map<string, PathInfo>, target: Target) {
    function WithExt(entries: seq<ExtSchema>): PathTable
      decreases |entries|
    {
      if entries == [] then this
      else
        var head := if entries[0].applied then WithPaths(entries[0].ns, entries[0].paths) else this;
        head.WithExt(entries[1..])
    }

    function WithPaths(ns: string, typed: seq<(seq<string>, ValueType)>): PathTable
      decreases |typed|
    {
      if typed == [] then this
      else
        var (segments, ty) := typed[0];
        var path := "ext." + ns + "." + Join(segments, '.');
        this.(paths := paths[path := Scalar(Ext(["ext", ns] + segments, ty), ty, Full)]).WithPaths(ns, typed[1..])
    }

    function Resolve(path: string): Option<PathInfo> {
      if path in paths then Some(paths[path])
      else
        var param := if target.Runs? then ResolveRunParam(path, target.cards) else NotAParameter;
        match param
        case Found(info) => Some(info)
        case Refused => None
        case NotAParameter => ResolveUnregistered(path)
    }
  }

  /** `ext.{ns}.{key…}` of nobody's schema: the namespace ends at the first dot. */
  function ResolveUnregistered(path: string): Option<PathInfo> {
    var rest := StripPrefix(path, "ext.");
    if rest.None? then None
    else
      var parts := SplitOnce(rest.value, ".");
      if parts.None? || parts.value.0 == "" || parts.value.1 == "" then None
      else Some(Scalar(Body(["ext", parts.value.0] + Split(parts.value.1, '.')), String, EqExistsUntyped))
  }

  datatype Param = NotAParameter | Refused | Found(info: PathInfo)

  function FullRun(column: RunColumn, ty: ValueType): PathInfo {
    Scalar(Run(column), ty, Full)
  }

  function FieldType(field: ResultField): ValueType {
    if field.Value? then Number else String
  }

  /** `metrics[` read: `{metric}]`. */
  function ResolveMetric(rest: string): Param {
    if rest == "" || rest[|rest| - 1] != ']' then Refused
    else
      var metric := rest[..|rest| - 1];
      if !IsValidId(metric) then Refused else Found(FullRun(Metric(metric), Number))
  }

  /** `results[` read: `{card}][{metric}].value` or `.label`. */
  function ResolveJudgement(rest: string, cards: seq<CardRef>): Param {
    var cardRest := SplitOnce(rest, "][");
    if cardRest.None? then Refused
    else
      var metricRest := SplitOnce(cardRest.value.1, "].");
      if metricRest.None? then Refused
      else
        var card, metric, field := cardRest.value.0, metricRest.value.0, metricRest.value.1;
        if !IsValidId(card) || card !in cards || !IsValidId(metric) then Refused
        else if field == "value" then Found(FullRun(Judgement(card, metric, Value), Number))
        else if field == "label" then Found(FullRun(Judgement(card, metric, Label), String))
        else Refused
  }

  function ResolveRunParam(path: string, cards: seq<CardRef>): Param {
    if StripPrefix(path, "metrics[").Some? then ResolveMetric(StripPrefix(path, "metrics[").value)
    else if path == "metrics" || "metrics." <= path then Refused
    else if StripPrefix(path, "results[").Some? then ResolveJudgement(StripPrefix(path, "results[").value, cards)
    else if path == "results" || "results." <= path then Refused
    else NotAParameter
  }

  /** The wire spelling of a parametric column. */
  function PrintParam(column: RunColumn): string
    requires column.Metric? || column.Judgement?
  {
    match column
    case Metric(id) => "metrics[" + (id + "]")
    case Judgement(card, metric, field) =>
      "results[" + (card + "][" + (metric + "]." + FieldName(field)))
  }

  function FieldName(field: ResultField): string {
    if field.Value? then "value" else "label"
  }

  function FixedColumn(path: string): Option<PathInfo> {
    if path == "run_id" then Some(FullRun(RunId, String))
    else if path == "status" then Some(FullRun(Status, String))
    else if path == "error.kind" then Some(FullRun(ErrorKind, String))
    else if path == "started_at" then Some(FullRun(StartedAt, String))
    else if path == "ended_at" then Some(FullRun(EndedAt, String))
    else None
  }

  const FIXED: set<string> := {"run_id", "status", "error.kind", "started_at", "ended_at"}

  function FacetPaths(leaves: FacetLeaves): map<string, PathInfo> {
    map p | p in leaves :: FullRun(Facet(leaves[p].0), leaves[p].1)
  }

  function FingerprintPaths(facets: seq<string>): map<string, PathInfo> {
    if facets == [] then map[]
    else
      FingerprintPaths(facets[..|facets| - 1])
        ["fingerprint." + facets[|facets| - 1] := FullRun(RunFingerprint(facets[|facets| - 1]), String)]
  }

  function Dedup(cards: seq<CardRef>): (r: seq<CardRef>)
    ensures forall c :: c in r <==> c in cards
  {
    if cards == [] then []
    else
      var front := Dedup(cards[..|cards| - 1]);
      var last := cards[|cards| - 1];
      assert cards == cards[..|cards| - 1] + [last];
      if last in front then front else front + [last]
  }

  /** `PathTable::for_runs` */
  function ForRuns(leaves: FacetLeaves, cards: seq<CardRef>): PathTable {
    var fixed := map p | p in FIXED && FixedColumn(p).Some? :: FixedColumn(p).value;
    PathTable(fixed + FacetPaths(leaves) + FingerprintPaths(RUN_FACETS), Runs(Dedup(cards)))
  }

  // ------------------------------------------------------------- properties

  predicate IsExt(info: PathInfo) {
    info.Scalar? && info.column.Ext? && info.column.ty == info.ty && info.indexed.Full?
  }

  /** Registered schemas add `ext` columns and nothing else. */
  lemma {:induction false} WithPathsKeepsRuns(t: PathTable, ns: string, typed: seq<(seq<string>, ValueType)>, p: string)
    ensures var u := t.WithPaths(ns, typed);
            && u.target == t.target
            && (p in u.paths ==> (p in t.paths && u.paths[p] == t.paths[p]) || IsExt(u.paths[p]))
    decreases |typed|
  {
    if typed != [] {
      var (segments, ty) := typed[0];
      var path := "ext." + ns + "." + Join(segments, '.');
      WithPathsKeepsRuns(t.(paths := t.paths[path := Scalar(Ext(["ext", ns] + segments, ty), ty, Full)]), ns, typed[1..], p);
    }
  }

  lemma {:induction false} WithExtKeepsRuns(t: PathTable, ext: seq<ExtSchema>, p: string)
    ensures var u := t.WithExt(ext);
            && u.target == t.target
            && (p in u.paths ==> (p in t.paths && u.paths[p] == t.paths[p]) || IsExt(u.paths[p]))
    decreases |ext|
  {
    if ext != [] {
      var head := if ext[0].applied then t.WithPaths(ext[0].ns, ext[0].paths) else t;
      WithPathsKeepsRuns(t, ext[0].ns, ext[0].paths, p);
      WithExtKeepsRuns(head, ext[1..], p);
    }
  }

  lemma JudgementResolves(card: CardRef, metric: string, field: ResultField, cards: seq<CardRef>)
    requires card in cards && IsValidId(metric)
    ensures ResolveJudgement(card + "][" + (metric + "]." + FieldName(field)), cards)
         == Found(FullRun(Judgement(card, metric, field), FieldType(field)))
  {
    ValidIdChars(card);
    ValidIdChars(metric);
    SplitOnceAt(card, "][", metric + "]." + FieldName(field));
    SplitOnceAt(metric, "].", FieldName(field));
  }

  lemma Stripped(head: string, rest: string)
    ensures StripPrefix(head + rest, head) == Some(rest)
  {
  }

  lemma Unstripped(s: string, head: string)
    requires StripPrefix(s, head).Some?
    ensures s == head + StripPrefix(s, head).value
  {
  }

  lemma OtherHead(head: string, rest: string, p: string)
    requires head != "" && p != "" && head[0] != p[0]
    ensures !(p <= head + rest) && p != head + rest
  {
    assert (head + rest)[0] == head[0];
  }

  lemma MetricResolves(id: string, cards: seq<CardRef>)
    requires IsValidId(id)
    ensures ResolveRunParam("metrics[" + (id + "]"), cards) == Found(FullRun(Metric(id), Number))
  {
    Stripped("metrics[", id + "]");
    assert (id + "]")[..|id|] == id;
  }

  /** A metric or judgement the request may name resolves from its printed form. */
  lemma PrintedResolves(column: RunColumn, cards: seq<CardRef>)
    requires column.Metric? ==> IsValidId(column.id)
    requires column.Judgement? ==> column.card in cards && IsValidId(column.metric)
    requires column.Metric? || column.Judgement?
    ensures ResolveRunParam(PrintParam(column), cards)
         == Found(FullRun(column, if column.Metric? then Number else FieldType(column.field)))
  {
    match column
    case Metric(id) => MetricResolves(id, cards);
    case Judgement(card, metric, field) =>
      JudgementResolves(card, metric, field, cards);
      var rest := card + "][" + (metric + "]." + FieldName(field));
      Stripped("results[", rest);
      OtherHead("results[", rest, "metrics[");
      OtherHead("results[", rest, "metrics.");
      OtherHead("results[", rest, "metrics");
  }

  lemma JudgementIsPrinted(rest: string, cards: seq<CardRef>)
    requires ResolveJudgement(rest, cards).Found?
    ensures var info := ResolveJudgement(rest, cards).info;
            && info.Scalar? && info.column.Run? && info.column.run.Judgement?
            && "results[" + rest == PrintParam(info.column.run)
  {
  }

  /** Whatever it accepts is the printed form of the column it returns. */
  lemma ResolvedIsPrinted(path: string, cards: seq<CardRef>)
    requires ResolveRunParam(path, cards).Found?
    ensures var info := ResolveRunParam(path, cards).info;
            && info.Scalar? && info.column.Run? && (info.column.run.Metric? || info.column.run.Judgement?)
            && path == PrintParam(info.column.run)
  {
    if StripPrefix(path, "metrics[").Some? {
      var rest := StripPrefix(path, "metrics[").value;
      Unstripped(path, "metrics[");
      assert rest == rest[..|rest| - 1] + "]";
    } else {
      var rest := StripPrefix(path, "results[").value;
      Unstripped(path, "results[");
      JudgementIsPrinted(rest, cards);
    }
  }

  /** An unregistered path of a namespace and key means that namespace and key
      exactly when the namespace has no dot, although a namespace may have one. */
  lemma {:induction false} UnregisteredPath(ns: string, key: string)
    requires ns != "" && key != ""
    ensures ResolveUnregistered("ext." + ns + "." + key)
              == Some(Scalar(Body(["ext", ns] + Split(key, '.')), String, EqExistsUntyped))
            <==> '.' !in ns
  {
    var path := "ext." + ns + "." + key;
    assert path[|"ext."|..] == ns + "." + key;
    if '.' !in ns {
      SplitOnceAt(ns, ".", key);
    } else {
      var parts := SplitOnce(ns + "." + key, ".");
      DotEarly(ns, "." + key);
      assert ns + "." + key == ns + ("." + key);
      if parts.Some? {
        var got := ["ext", parts.value.0] + Split(parts.value.1, '.');
        assert got[1] == parts.value.0;
        assert (["ext", ns] + Split(key, '.'))[1] == ns;
      }
    }
  }

  lemma {:induction false} DotEarly(ns: string, rest: string)
    requires '.' in ns
    ensures SplitOnce(ns + rest, ".").Some? && |SplitOnce(ns + rest, ".").value.0| < |ns|
  {
    if ns[0] != '.' {
      DotEarly(ns[1..], rest);
      assert (ns + rest)[1..] == ns[1..] + rest;
    }
  }

  /** `a.b/c` is an id, and its `ext` path is taken for one of `a`. */
  lemma DottedNamespaceIsSplit()
    ensures IsValidId("a.b/c")
    ensures ResolveUnregistered("ext.a.b/c.k") == Some(Scalar(Body(["ext", "a"] + Split("b/c.k", '.')), String, EqExistsUntyped))
  {
    var id := "a.b/c";
    assert id[3] == '/' && id[..3] == "a.b" && id[4..] == "c";
    assert "ext.a.b/c.k" == "ext." + "a.b/c.k";
    Stripped("ext.", "a.b/c.k");
    SplitOnceAt("a", ".", "b/c.k");
    assert "a" + "." + "b/c.k" == "a.b/c.k";
  }
}
