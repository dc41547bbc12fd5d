/** The error entries of a refused request (`evalhub-schema/src/error.rs`). */
module Errors {
  import opened Prelude
  import opened Text

  /** In declaration order, which breaks ties between entries at one path. */
  datatype ErrorCode =
    | Schema | AttachmentRefUnknown | AttachmentPathInvalid | MetricIdInvalid | ExtKeyInvalid
    | TypeMismatch | NotIndexed | UnknownPath | AttachmentMissing | RunStatusDetail
    | RunIdInvalid | RunIdMismatch | RunUnknown | RunNotInUsedSet | RunDeleted | BatchDuplicateRunId
  {
    function Position(): nat {
      match this
      case Schema => 0 case AttachmentRefUnknown => 1 case AttachmentPathInvalid => 2 case MetricIdInvalid => 3
      case ExtKeyInvalid => 4 case TypeMismatch => 5 case NotIndexed => 6 case UnknownPath => 7
      case AttachmentMissing => 8 case RunStatusDetail => 9 case RunIdInvalid => 10 case RunIdMismatch => 11
      case RunUnknown => 12 case RunNotInUsedSet => 13 case RunDeleted => 14 case BatchDuplicateRunId => 15
    }
  }

  datatype ErrorEntry = ErrorEntry(path: string, code: ErrorCode)

  predicate EntryLess(a: ErrorEntry, b: ErrorEntry) {
    StrLess(a.path, b.path) || (a.path == b.path && a.code.Position() < b.code.Position())
  }

  /** Every rejection lists its entries by path and code. */
  function SortEntries(errors: seq<ErrorEntry>): (r: seq<ErrorEntry>)
    ensures r == [] <==> errors == []
  {
    Sort(EntryLess, errors)
  }

  lemma SortedEntries(errors: seq<ErrorEntry>)
    ensures forall e :: e in SortEntries(errors) <==> e in errors
  {
    forall e ensures e in SortEntries(errors) <==> e in errors { SortMember(EntryLess, errors, e); }
  }
}

/** The wire form of a `where` clause and the filter it means
    (`evalhub-query/src/grammar.rs`). */
module Grammar {
  import opened Prelude
  import opened Json
  import opened Text
  import opened Errors
  import Ir

  type Op = Ir.Op

  datatype MatchTerm = MatchTerm(op: Op, value: Json)

  datatype Filter =
    | And(children: seq<Filter>)
    | Or(children: seq<Filter>)
    | Not(child: Filter)
    | Compare(path: string, op: Op, value: Json)
    | Exists(path: string)
    | Any(path: string, terms: seq<(string, MatchTerm)>)

  function Spell(op: Op): string {
    match op
    case Eq => "eq" case Ne => "ne" case Gt => "gt" case Gte => "gte" case Lt => "lt" case Lte => "lte"
    case In => "in" case Prefix => "prefix" case Contains => "contains"
  }

  function ParseOp(s: string): Option<Op> {
    if s == "eq" then Some(Ir.Eq) else if s == "ne" then Some(Ir.Ne)
    else if s == "gt" then Some(Ir.Gt) else if s == "gte" then Some(Ir.Gte)
    else if s == "lt" then Some(Ir.Lt) else if s == "lte" then Some(Ir.Lte)
    else if s == "in" then Some(Ir.In) else if s == "prefix" then Some(Ir.Prefix)
    else if s == "contains" then Some(Ir.Contains) else None
  }

  lemma SpellReadsBack(op: Op)
    ensures ParseOp(Spell(op)) == Some(op)
    ensures Spell(op) != "exists" && Spell(op) != "any"
  {
    match op
    case Eq => case Ne => case Gt => case Gte => case Lt => case Lte =>
    case In => case Prefix => case Contains =>
  }

  // ---------------------------------------------------------------- lowering

  /** The tagged shape `lower` produces; operators are still text. */
  datatype Tagged =
    | Placeholder
    | TAnd(children: seq<Tagged>)
    | TOr(children: seq<Tagged>)
    | TNot(child: Tagged)
    | TCompare(path: string, op: string, value: Json)
    | TExists(path: string)
    | TAny(path: string, terms: seq<(string, Option<(Json, Json)>)>)

  datatype Lowered = Lowered(tree: Tagged, errors: seq<ErrorEntry>)

  function ShapeError(pointer: string): Lowered {
    Lowered(Placeholder, [ErrorEntry(pointer, Schema)])
  }

  function ExtraKeys(fields: map<string, Json>, allowed: set<string>, pointer: string): seq<ErrorEntry> {
    ExtraAmong(Ascending(fields.Keys), allowed, pointer)
  }

  function ExtraAmong(keys: seq<string>, allowed: set<string>, pointer: string): seq<ErrorEntry> {
    if keys == [] then []
    else
      (if keys[0] in allowed then [] else [ErrorEntry(pointer + "/" + keys[0], Schema)])
      + ExtraAmong(keys[1..], allowed, pointer)
  }

  lemma {:induction false} NoneExtra(keys: seq<string>, allowed: set<string>, pointer: string)
    requires forall k :: k in keys ==> k in allowed
    ensures ExtraAmong(keys, allowed, pointer) == []
  {
    if keys != [] { NoneExtra(keys[1..], allowed, pointer); }
  }

  lemma NoExtraKeys(fields: map<string, Json>, allowed: set<string>, pointer: string)
    requires fields.Keys <= allowed
    ensures ExtraKeys(fields, allowed, pointer) == []
  {
    NoneExtra(Ascending(fields.Keys), allowed, pointer);
  }

  function Lower(value: Json, pointer: string): Lowered
    decreases value
  {
    if !value.JObj? then ShapeError(pointer)
    else if "and" in value.fields then
      if |value.fields| > 1 then ShapeError(pointer)
      else if !value.fields["and"].JArr? then ShapeError(pointer + "/and")
      else
        var lowered := LowerAll(value.fields["and"].items, pointer + "/and/");
        Lowered(TAnd(Trees(lowered)), AllErrors(lowered))
    else if "or" in value.fields then
      if |value.fields| > 1 then ShapeError(pointer)
      else if !value.fields["or"].JArr? then ShapeError(pointer + "/or")
      else
        var lowered := LowerAll(value.fields["or"].items, pointer + "/or/");
        Lowered(TOr(Trees(lowered)), AllErrors(lowered))
    else if "not" in value.fields then
      if |value.fields| > 1 then ShapeError(pointer)
      else
        var lowered := Lower(value.fields["not"], pointer + "/not");
        Lowered(TNot(lowered.tree), lowered.errors)
    else LowerLeaf(value, pointer)
  }

  function LowerAll(items: seq<Json>, pointer: string): (r: seq<Lowered>)
    ensures |r| == |items|
    decreases items
  {
    seq(|items|, i requires 0 <= i < |items| => Lower(items[i], pointer + Decimal(i)))
  }

  function AllErrors(lowered: seq<Lowered>): seq<ErrorEntry> {
    if lowered == [] then [] else lowered[0].errors + AllErrors(lowered[1..])
  }

  function Trees(lowered: seq<Lowered>): (r: seq<Tagged>)
    ensures |r| == |lowered|
    ensures forall i :: 0 <= i < |r| ==> r[i] == lowered[i].tree
  {
    seq(|lowered|, i requires 0 <= i < |lowered| => lowered[i].tree)
  }

  function LowerLeaf(value: Json, pointer: string): Lowered
    requires value.JObj?
  {
    if "path" !in value.fields then ShapeError(pointer)
    else if value.GetStr("path").None? then ShapeError(pointer + "/path")
    else if "op" !in value.fields then ShapeError(pointer)
    else if value.GetStr("op").None? then ShapeError(pointer + "/op")
    else
      var path, op := value.GetStr("path").value, value.GetStr("op").value;
      if op == "exists" then Lowered(TExists(path), ExtraKeys(value.fields, {"path", "op"}, pointer))
      else if op == "any" then LowerAny(path, value.fields, pointer)
      else
        var extra := ExtraKeys(value.fields, {"path", "op", "value"}, pointer);
        if "value" !in value.fields then Lowered(Placeholder, extra + [ErrorEntry(pointer, Schema)])
        else Lowered(TCompare(path, op, value.fields["value"]), extra)
  }

  function LowerAny(path: string, fields: map<string, Json>, pointer: string): Lowered {
    var extra := ExtraKeys(fields, {"path", "op", "match"}, pointer);
    if "match" !in fields then Lowered(Placeholder, extra + [ErrorEntry(pointer, Schema)])
    else if !fields["match"].JObj? then Lowered(Placeholder, extra + [ErrorEntry(pointer + "/match", Schema)])
    else
      var terms := fields["match"].fields;
      Lowered(TAny(path, LowerTerms(terms, Ascending(terms.Keys))), extra + MatchErrors(terms, pointer))
  }

  predicate ExplicitTerm(term: Json) {
    term.JObj? && ("op" in term.fields || "value" in term.fields)
  }

  /** A bare literal means `eq`; so does an object that names neither key. */
  function LowerTerm(term: Json): Option<(Json, Json)> {
    if !ExplicitTerm(term) then Some((JStr("eq"), term))
    else if "value" !in term.fields then None
    else Some((if "op" in term.fields then term.fields["op"] else JStr("eq"), term.fields["value"]))
  }

  function LowerTerms(terms: map<string, Json>, keys: seq<string>): (r: seq<(string, Option<(Json, Json)>)>)
    requires forall k :: k in keys ==> k in terms
    ensures |r| == |keys|
    ensures forall i :: 0 <= i < |keys| ==> r[i] == (keys[i], LowerTerm(terms[keys[i]]))
  {
    seq(|keys|, i requires 0 <= i < |keys| => (keys[i], LowerTerm(terms[keys[i]])))
  }

  function MatchErrors(terms: map<string, Json>, pointer: string): seq<ErrorEntry> {
    ErrorsAmong(Ascending(terms.Keys), terms, pointer)
  }

  function ErrorsAmong(keys: seq<string>, terms: map<string, Json>, pointer: string): seq<ErrorEntry>
    requires forall k :: k in keys ==> k in terms
  {
    if keys == [] then []
    else TermErrors(terms[keys[0]], pointer + "/match/" + keys[0]) + ErrorsAmong(keys[1..], terms, pointer)
  }

  function TermErrors(term: Json, pointer: string): seq<ErrorEntry> {
    if !ExplicitTerm(term) then []
    else
      ExtraKeys(term.fields, {"op", "value"}, pointer)
      + (if "value" !in term.fields then [ErrorEntry(pointer, Schema)] else [])
  }

  /** The typed builder: it reads each operator, and fails on one it does not know. */
  function Build(t: Tagged): Option<Filter> {
    match t
    case Placeholder => None
    case TAnd(cs) => if BuildAll(cs).None? then None else Some(And(BuildAll(cs).value))
    case TOr(cs) => if BuildAll(cs).None? then None else Some(Or(BuildAll(cs).value))
    case TNot(c) => if Build(c).None? then None else Some(Not(Build(c).value))
    case TCompare(path, op, value) =>
      if ParseOp(op).None? then None else Some(Compare(path, ParseOp(op).value, value))
    case TExists(path) => Some(Exists(path))
    case TAny(path, terms) =>
      if BuildTerms(terms).None? then None else Some(Any(path, BuildTerms(terms).value))
  }

  function BuildAll(ts: seq<Tagged>): Option<seq<Filter>> {
    if ts == [] then Some([])
    else if Build(ts[0]).None? || BuildAll(ts[1..]).None? then None
    else Some([Build(ts[0]).value] + BuildAll(ts[1..]).value)
  }

  function BuildTerms(terms: seq<(string, Option<(Json, Json)>)>): Option<seq<(string, MatchTerm)>> {
    if terms == [] then Some([])
    else
      var (k, t) := terms[0];
      if t.None? || !t.value.0.JStr? || ParseOp(t.value.0.s).None? || BuildTerms(terms[1..]).None? then None
      else Some([(k, MatchTerm(ParseOp(t.value.0.s).value, t.value.1))] + BuildTerms(terms[1..]).value)
  }

  function Parse(value: Json): Result<Filter, seq<ErrorEntry>> {
    var lowered := Lower(value, "/where");
    if lowered.errors != [] then Err(lowered.errors)
    else
      var built := Build(lowered.tree);
      if built.None? then Err([ErrorEntry("/where", Schema)]) else Ok(built.value)
  }

  lemma ParseErrs(value: Json)
    ensures Parse(value).Err? ==> Parse(value).error != []
  {
  }

  // -------------------------------------------------- pushing onto one list

  lemma {:induction false} ExtraSnoc(keys: seq<string>, k: string, allowed: set<string>, pointer: string)
    ensures ExtraAmong(keys + [k], allowed, pointer)
         == ExtraAmong(keys, allowed, pointer) + if k in allowed then [] else [ErrorEntry(pointer + "/" + k, Schema)]
  {
    if keys != [] {
      ExtraSnoc(keys[1..], k, allowed, pointer);
      assert (keys + [k])[1..] == keys[1..] + [k];
    }
  }

  /** `reject_extra_keys` */
  method RejectExtraKeys(fields: map<string, Json>, allowed: set<string>, pointer: string, errors0: seq<ErrorEntry>)
    returns (errors: seq<ErrorEntry>)
    ensures errors == errors0 + ExtraKeys(fields, allowed, pointer)
  {
    hide ExtraAmong;
    var keys := Ascending(fields.Keys);
    errors := errors0;
    NoKeys(allowed, pointer);
    for i := 0 to |keys|
      invariant errors == errors0 + ExtraAmong(keys[..i], allowed, pointer)
    {
      assert keys[..i + 1] == keys[..i] + [keys[i]];
      ExtraSnoc(keys[..i], keys[i], allowed, pointer);
      if keys[i] !in allowed {
        Regroup(errors0, ExtraAmong(keys[..i], allowed, pointer), [ErrorEntry(pointer + "/" + keys[i], Schema)]);
        errors := errors + [ErrorEntry(pointer + "/" + keys[i], Schema)];
      }
    }
    assert keys[..|keys|] == keys;
  }

  lemma {:induction false} NoKeys(allowed: set<string>, pointer: string)
    ensures ExtraAmong([], allowed, pointer) == []
  {
  }

  /** `lower_term` */
  method LowerTermInto(term: Json, pointer: string, errors0: seq<ErrorEntry>)
    returns (r: Option<(Json, Json)>, errors: seq<ErrorEntry>)
    ensures r == LowerTerm(term) && errors == errors0 + TermErrors(term, pointer)
  {
    hide ExtraKeys;
    errors := errors0;
    if !ExplicitTerm(term) {
      return Some((JStr("eq"), term)), errors;
    }
    errors := RejectExtraKeys(term.fields, {"op", "value"}, pointer, errors);
    if "value" !in term.fields {
      errors := errors + [ErrorEntry(pointer, Schema)];
      Regroup(errors0, ExtraKeys(term.fields, {"op", "value"}, pointer), [ErrorEntry(pointer, Schema)]);
      return None, errors;
    }
    r := Some((if "op" in term.fields then term.fields["op"] else JStr("eq"), term.fields["value"]));
  }

  lemma {:induction false} ErrorsSnoc(keys: seq<string>, k: string, terms: map<string, Json>, pointer: string)
    requires k in terms && forall x :: x in keys ==> x in terms
    ensures ErrorsAmong(keys + [k], terms, pointer)
         == ErrorsAmong(keys, terms, pointer) + TermErrors(terms[k], pointer + "/match/" + k)
  {
    hide TermErrors;
    if keys != [] {
      ErrorsSnoc(keys[1..], k, terms, pointer);
      assert (keys + [k])[1..] == keys[1..] + [k];
      Regroup(TermErrors(terms[keys[0]], pointer + "/match/" + keys[0]), ErrorsAmong(keys[1..], terms, pointer),
              TermErrors(terms[k], pointer + "/match/" + k));
    }
  }

  method LowerTermsInto(terms: map<string, Json>, keys: seq<string>, pointer: string, errors0: seq<ErrorEntry>)
    returns (lowered: seq<(string, Option<(Json, Json)>)>, errors: seq<ErrorEntry>)
    requires forall k :: k in keys ==> k in terms
    ensures lowered == LowerTerms(terms, keys) && errors == errors0 + ErrorsAmong(keys, terms, pointer)
  {
    hide TermErrors, LowerTerm, ErrorsAmong;
    lowered, errors := [], errors0;
    NoTerms(terms, pointer);
    for i := 0 to |keys|
      invariant |lowered| == i && forall j :: 0 <= j < i ==> lowered[j] == (keys[j], LowerTerm(terms[keys[j]]))
      invariant errors == errors0 + ErrorsAmong(keys[..i], terms, pointer)
    {
      var k := keys[i];
      assert k in keys;
      assert keys[..i + 1] == keys[..i] + [k];
      ErrorsSnoc(keys[..i], k, terms, pointer);
      var here := pointer + "/match/" + k;
      Regroup(errors0, ErrorsAmong(keys[..i], terms, pointer), TermErrors(terms[k], here));
      var term;
      term, errors := LowerTermInto(terms[k], here, errors);
      lowered := lowered + [(k, term)];
    }
    assert keys[..|keys|] == keys;
    assert lowered == LowerTerms(terms, keys);
  }

  lemma {:induction false} NoTerms(terms: map<string, Json>, pointer: string)
    ensures ErrorsAmong([], terms, pointer) == []
  {
  }

  method LowerAnyInto(path: string, fields: map<string, Json>, pointer: string, errors0: seq<ErrorEntry>)
    returns (tree: Tagged, errors: seq<ErrorEntry>)
    ensures tree == LowerAny(path, fields, pointer).tree && errors == errors0 + LowerAny(path, fields, pointer).errors
  {
    hide ExtraKeys, ErrorsAmong, LowerTerms;
    ghost var extra := ExtraKeys(fields, {"path", "op", "match"}, pointer);
    errors := RejectExtraKeys(fields, {"path", "op", "match"}, pointer, errors0);
    if "match" !in fields {
      Regroup(errors0, extra, [ErrorEntry(pointer, Schema)]);
      return Placeholder, errors + [ErrorEntry(pointer, Schema)];
    }
    if !fields["match"].JObj? {
      Regroup(errors0, extra, [ErrorEntry(pointer + "/match", Schema)]);
      return Placeholder, errors + [ErrorEntry(pointer + "/match", Schema)];
    }
    Regroup(errors0, extra, MatchErrors(fields["match"].fields, pointer));
    var lowered;
    var terms := fields["match"].fields;
    lowered, errors := LowerTermsInto(terms, Ascending(terms.Keys), pointer, errors);
    tree := TAny(path, lowered);
  }

  /** `lower_leaf` */
  method LowerLeafInto(value: Json, pointer: string, errors0: seq<ErrorEntry>) returns (tree: Tagged, errors: seq<ErrorEntry>)
    requires value.JObj?
    ensures tree == LowerLeaf(value, pointer).tree && errors == errors0 + LowerLeaf(value, pointer).errors
  {
    hide ExtraKeys, LowerAny;
    if "path" !in value.fields {
      return Placeholder, errors0 + [ErrorEntry(pointer, Schema)];
    }
    if !value.fields["path"].JStr? {
      return Placeholder, errors0 + [ErrorEntry(pointer + "/path", Schema)];
    }
    if "op" !in value.fields {
      return Placeholder, errors0 + [ErrorEntry(pointer, Schema)];
    }
    if !value.fields["op"].JStr? {
      return Placeholder, errors0 + [ErrorEntry(pointer + "/op", Schema)];
    }
    var path, op := value.fields["path"].s, value.fields["op"].s;
    if op == "exists" {
      errors := RejectExtraKeys(value.fields, {"path", "op"}, pointer, errors0);
      return TExists(path), errors;
    }
    if op == "any" {
      tree, errors := LowerAnyInto(path, value.fields, pointer, errors0);
      return;
    }
    ghost var extra := ExtraKeys(value.fields, {"path", "op", "value"}, pointer);
    errors := RejectExtraKeys(value.fields, {"path", "op", "value"}, pointer, errors0);
    if "value" !in value.fields {
      Regroup(errors0, extra, [ErrorEntry(pointer, Schema)]);
      return Placeholder, errors + [ErrorEntry(pointer, Schema)];
    }
    tree := TCompare(path, op, value.fields["value"]);
  }

  lemma {:induction false} AllErrorsSnoc(lowered: seq<Lowered>, one: Lowered)
    ensures AllErrors(lowered + [one]) == AllErrors(lowered) + one.errors
  {
    if lowered == [] {
      assert lowered + [one] == [one];
      assert AllErrors([one]) == one.errors + AllErrors([]);
    } else {
      AllErrorsSnoc(lowered[1..], one);
      assert (lowered + [one])[1..] == lowered[1..] + [one];
      Regroup(lowered[0].errors, AllErrors(lowered[1..]), one.errors);
    }
  }

  /** `lower`: every problem goes onto the one list, in the order it is met. */
  method LowerInto(value: Json, pointer: string, errors0: seq<ErrorEntry>) returns (tree: Tagged, errors: seq<ErrorEntry>)
    ensures tree == Lower(value, pointer).tree && errors == errors0 + Lower(value, pointer).errors
    decreases value, 1
  {
    hide LowerLeaf;
    if !value.JObj? {
      return Placeholder, errors0 + [ErrorEntry(pointer, Schema)];
    }
    if "and" in value.fields {
      if |value.fields| > 1 {
        return Placeholder, errors0 + [ErrorEntry(pointer, Schema)];
      }
      if !value.fields["and"].JArr? {
        return Placeholder, errors0 + [ErrorEntry(pointer + "/and", Schema)];
      }
      var trees;
      trees, errors := LowerAllInto(value.fields["and"].items, pointer + "/and/", errors0);
      return TAnd(trees), errors;
    }
    if "or" in value.fields {
      if |value.fields| > 1 {
        return Placeholder, errors0 + [ErrorEntry(pointer, Schema)];
      }
      if !value.fields["or"].JArr? {
        return Placeholder, errors0 + [ErrorEntry(pointer + "/or", Schema)];
      }
      var trees;
      trees, errors := LowerAllInto(value.fields["or"].items, pointer + "/or/", errors0);
      return TOr(trees), errors;
    }
    if "not" in value.fields {
      if |value.fields| > 1 {
        return Placeholder, errors0 + [ErrorEntry(pointer, Schema)];
      }
      var child;
      child, errors := LowerInto(value.fields["not"], pointer + "/not", errors0);
      return TNot(child), errors;
    }
    tree, errors := LowerLeafInto(value, pointer, errors0);
  }

  method LowerAllInto(items: seq<Json>, pointer: string, errors0: seq<ErrorEntry>)
    returns (trees: seq<Tagged>, errors: seq<ErrorEntry>)
    ensures trees == Trees(LowerAll(items, pointer)) && errors == errors0 + AllErrors(LowerAll(items, pointer))
    decreases items, 0
  {
    hide Lower, AllErrors;
    ghost var lowered := LowerAll(items, pointer);
    NoErrors([]);
    trees, errors := [], errors0;
    for i := 0 to |items|
      invariant |trees| == i && forall j :: 0 <= j < i ==> trees[j] == lowered[j].tree
      invariant errors == errors0 + AllErrors(lowered[..i])
    {
      assert lowered[..i + 1] == lowered[..i] + [lowered[i]];
      AllErrorsSnoc(lowered[..i], lowered[i]);
      Regroup(errors0, AllErrors(lowered[..i]), lowered[i].errors);
      var tree;
      tree, errors := LowerInto(items[i], pointer + Decimal(i), errors);
      trees := trees + [tree];
    }
    assert lowered[..|items|] == lowered;
    assert trees == Trees(lowered);
  }

  // -------------------------------------------------------------- acceptance

  predicate TermOk(term: Json) {
    ExplicitTerm(term) ==>
      && term.fields.Keys <= {"op", "value"} && "value" in term.fields
      && ("op" in term.fields ==> term.fields["op"].JStr? && ParseOp(term.fields["op"].s).Some?)
  }

  predicate LeafOk(fields: map<string, Json>) {
    && "path" in fields && fields["path"].JStr? && "op" in fields && fields["op"].JStr?
    && if fields["op"].s == "exists" then fields.Keys <= {"path", "op"}
       else if fields["op"].s == "any" then
         && fields.Keys <= {"path", "op", "match"} && "match" in fields && fields["match"].JObj?
         && forall k :: k in fields["match"].fields ==> TermOk(fields["match"].fields[k])
       else fields.Keys <= {"path", "op", "value"} && "value" in fields && ParseOp(fields["op"].s).Some?
  }

  /** The filters of the grammar, told without lowering. */
  predicate WireOk(value: Json)
    decreases value
  {
    value.JObj? &&
    if "and" in value.fields then
      |value.fields| == 1 && value.fields["and"].JArr? && forall v :: v in value.fields["and"].items ==> WireOk(v)
    else if "or" in value.fields then
      |value.fields| == 1 && value.fields["or"].JArr? && forall v :: v in value.fields["or"].items ==> WireOk(v)
    else if "not" in value.fields then |value.fields| == 1 && WireOk(value.fields["not"])
    else LeafOk(value.fields)
  }

  lemma {:induction false} ExtraAmongExact(keys: seq<string>, allowed: set<string>, pointer: string)
    ensures ExtraAmong(keys, allowed, pointer) == [] <==> forall k :: k in keys ==> k in allowed
  {
    if keys != [] {
      ExtraAmongExact(keys[1..], allowed, pointer);
      assert forall k :: k in keys <==> k == keys[0] || k in keys[1..];
    }
  }

  lemma ExtraExact(fields: map<string, Json>, allowed: set<string>, pointer: string)
    ensures ExtraKeys(fields, allowed, pointer) == [] <==> fields.Keys <= allowed
  {
    ExtraAmongExact(Ascending(fields.Keys), allowed, pointer);
  }

  lemma TermExact(term: Json, pointer: string)
    ensures TermErrors(term, pointer) == [] && BuildTerm(LowerTerm(term)) <==> TermOk(term)
  {
    hide ExtraKeys;
    if ExplicitTerm(term) { ExtraExact(term.fields, {"op", "value"}, pointer); }
    SpellReadsBack(Ir.Eq);
  }

  /** The builder can read a lowered term. */
  predicate BuildTerm(t: Option<(Json, Json)>) {
    t.Some? && t.value.0.JStr? && ParseOp(t.value.0.s).Some?
  }

  lemma {:induction false} BuildTermsExact(terms: seq<(string, Option<(Json, Json)>)>)
    ensures BuildTerms(terms).Some? <==> forall i :: 0 <= i < |terms| ==> BuildTerm(terms[i].1)
    ensures BuildTerms(terms).Some? ==> TermKeys(BuildTerms(terms).value) == seq(|terms|, i requires 0 <= i < |terms| => terms[i].0)
  {
    if terms != [] {
      BuildTermsExact(terms[1..]);
      assert forall i :: 0 <= i < |terms| ==> terms[i] == if i == 0 then terms[0] else terms[1..][i - 1];
    }
  }

  lemma {:induction false} ErrorsAmongExact(keys: seq<string>, terms: map<string, Json>, pointer: string)
    requires forall k :: k in keys ==> k in terms
    ensures ErrorsAmong(keys, terms, pointer) == [] <==>
            forall i :: 0 <= i < |keys| ==> TermErrors(terms[keys[i]], pointer + "/match/" + keys[i]) == []
  {
    hide TermErrors;
    if keys != [] {
      ErrorsAmongExact(keys[1..], terms, pointer);
      assert forall i :: 0 <= i < |keys| ==> keys[i] == if i == 0 then keys[0] else keys[1..][i - 1];
    }
  }

  lemma MatchExact(path: string, terms: map<string, Json>, pointer: string)
    ensures (MatchErrors(terms, pointer) == [] && BuildTerms(LowerTerms(terms, Ascending(terms.Keys))).Some?)
       <==> forall k :: k in terms ==> TermOk(terms[k])
    ensures BuildTerms(LowerTerms(terms, Ascending(terms.Keys))).Some? ==>
              TermKeys(BuildTerms(LowerTerms(terms, Ascending(terms.Keys))).value) == Ascending(terms.Keys)
  {
    hide TermErrors, LowerTerm, TermOk, BuildTerm, BuildTerms;
    var keys := Ascending(terms.Keys);
    var lowered := LowerTerms(terms, keys);
    ErrorsAmongExact(keys, terms, pointer);
    BuildTermsExact(lowered);
    forall i | 0 <= i < |keys|
      ensures keys[i] in terms
      ensures TermErrors(terms[keys[i]], pointer + "/match/" + keys[i]) == [] && BuildTerm(lowered[i].1) <==> TermOk(terms[keys[i]])
    {
      assert keys[i] in keys;
      TermExact(terms[keys[i]], pointer + "/match/" + keys[i]);
    }
    forall k | k in terms ensures exists i :: 0 <= i < |keys| && keys[i] == k { assert k in keys; }
  }

  // -------------------------------------------------------------- round trip

  function TermKeys(terms: seq<(string, MatchTerm)>): seq<string> {
    Map((t: (string, MatchTerm)) => t.0, terms)
  }

  /** `match` terms are a `BTreeMap`: keys ascending. */
  ghost predicate WellFormed(f: Filter) {
    match f
    case And(cs) => forall c :: c in cs ==> WellFormed(c)
    case Or(cs) => forall c :: c in cs ==> WellFormed(c)
    case Not(c) => WellFormed(c)
    case Any(_, terms) => Sorted(StrLess, TermKeys(terms))
    case _ => true
  }

  function WireTerm(t: MatchTerm): Json {
    JObj(map["op" := JStr(Spell(t.op)), "value" := t.value])
  }

  function WireTerms(terms: seq<(string, MatchTerm)>): map<string, Json> {
    if terms == [] then map[]
    else WireTerms(terms[1..])[terms[0].0 := WireTerm(terms[0].1)]
  }

  /** The filter as a client writes it. */
  function Wire(f: Filter): Json {
    match f
    case And(cs) => JObj(map["and" := JArr(seq(|cs|, i requires 0 <= i < |cs| => Wire(cs[i])))])
    case Or(cs) => JObj(map["or" := JArr(seq(|cs|, i requires 0 <= i < |cs| => Wire(cs[i])))])
    case Not(c) => JObj(map["not" := Wire(c)])
    case Compare(path, op, value) =>
      JObj(map["path" := JStr(path), "op" := JStr(Spell(op)), "value" := value])
    case Exists(path) => JObj(map["path" := JStr(path), "op" := JStr("exists")])
    case Any(path, terms) =>
      JObj(map["path" := JStr(path), "op" := JStr("any"), "match" := JObj(WireTerms(terms))])
  }

  lemma {:induction false} BuildAllOf(ts: seq<Tagged>, fs: seq<Filter>)
    requires |ts| == |fs| && forall i :: 0 <= i < |ts| ==> Build(ts[i]) == Some(fs[i])
    ensures BuildAll(ts) == Some(fs)
  {
    if ts != [] {
      BuildAllOf(ts[1..], fs[1..]);
      assert fs == [fs[0]] + fs[1..];
    }
  }

  lemma {:induction false} NoErrors(lowered: seq<Lowered>)
    requires forall i :: 0 <= i < |lowered| ==> lowered[i].errors == []
    ensures AllErrors(lowered) == []
  {
    if lowered != [] { NoErrors(lowered[1..]); }
  }

  lemma {:induction false} WireTermsAt(terms: seq<(string, MatchTerm)>)
    requires Sorted(StrLess, TermKeys(terms))
    ensures WireTerms(terms).Keys == set k | k in TermKeys(terms)
    ensures forall i :: 0 <= i < |terms| ==> terms[i].0 in WireTerms(terms) && WireTerms(terms)[terms[i].0] == WireTerm(terms[i].1)
  {
    if terms != [] {
      var keys := TermKeys(terms);
      assert TermKeys(terms[1..]) == keys[1..];
      assert keys == [keys[0]] + keys[1..];
      WireTermsAt(terms[1..]);
      forall i | 0 < i < |terms| ensures WireTerms(terms)[terms[i].0] == WireTerm(terms[i].1) {
        assert terms[i] == terms[1..][i - 1];
        assert StrLess(keys[0], keys[i]);
        StrTrichotomy(keys[0], keys[i]);
      }
    }
  }

  lemma {:induction false} BuildTermsOf(lowered: seq<(string, Option<(Json, Json)>)>, terms: seq<(string, MatchTerm)>)
    requires |lowered| == |terms|
    requires forall i :: 0 <= i < |terms| ==>
               lowered[i] == (terms[i].0, Some((JStr(Spell(terms[i].1.op)), terms[i].1.value)))
    ensures BuildTerms(lowered) == Some(terms)
  {
    if terms != [] {
      BuildTermsOf(lowered[1..], terms[1..]);
      SpellReadsBack(terms[0].1.op);
      assert terms == [terms[0]] + terms[1..];
    }
  }

  lemma TermReadsBack(t: MatchTerm, pointer: string)
    ensures LowerTerm(WireTerm(t)) == Some((JStr(Spell(t.op)), t.value))
    ensures TermErrors(WireTerm(t), pointer) == []
  {
    NoExtraKeys(WireTerm(t).fields, {"op", "value"}, pointer);
  }

  lemma {:induction false} NoMatchErrors(terms: seq<(string, MatchTerm)>, m: map<string, Json>, pointer: string)
    requires forall i :: 0 <= i < |terms| ==> terms[i].0 in m && m[terms[i].0] == WireTerm(terms[i].1)
    ensures forall k :: k in TermKeys(terms) ==> k in m
    ensures ErrorsAmong(TermKeys(terms), m, pointer) == []
  {
    if terms != [] {
      assert TermKeys(terms)[1..] == TermKeys(terms[1..]);
      NoMatchErrors(terms[1..], m, pointer);
      TermReadsBack(terms[0].1, pointer + "/match/" + terms[0].0);
    }
  }

  lemma {:induction false} TermsReadBack(terms: seq<(string, MatchTerm)>, pointer: string)
    requires Sorted(StrLess, TermKeys(terms))
    ensures MatchErrors(WireTerms(terms), pointer) == []
    ensures BuildTerms(LowerTerms(WireTerms(terms), Ascending(WireTerms(terms).Keys))) == Some(terms)
  {
    WireTermsAt(terms);
    var m := WireTerms(terms);
    AscendingSorted(m.Keys);
    StrOrder();
    SortedUnique(StrLess, Ascending(m.Keys), TermKeys(terms));
    NoMatchErrors(terms, m, pointer);
    var lowered := LowerTerms(m, TermKeys(terms));
    forall i | 0 <= i < |terms|
      ensures lowered[i] == (terms[i].0, Some((JStr(Spell(terms[i].1.op)), terms[i].1.value)))
    {
      TermReadsBack(terms[i].1, "");
    }
    BuildTermsOf(lowered, terms);
  }

  lemma {:induction false} MatchErrorFree(path: string, terms: seq<(string, MatchTerm)>, fields: map<string, Json>, pointer: string)
    requires Sorted(StrLess, TermKeys(terms))
    requires fields.Keys <= {"path", "op", "match"}
    requires "match" in fields && fields["match"] == JObj(WireTerms(terms))
    ensures LowerAny(path, fields, pointer).errors == []
  {
    hide ExtraKeys, MatchErrors, LowerTerms, BuildTerms, WireTerms, Ascending, TermKeys;
    TermsReadBack(terms, pointer);
    NoExtraKeys(fields, {"path", "op", "match"}, pointer);
  }

  lemma {:induction false} MatchBuilds(path: string, terms: seq<(string, MatchTerm)>, fields: map<string, Json>, pointer: string)
    requires Sorted(StrLess, TermKeys(terms))
    requires "match" in fields && fields["match"] == JObj(WireTerms(terms))
    ensures Build(LowerAny(path, fields, pointer).tree) == Some(Any(path, terms))
  {
    hide ExtraKeys, MatchErrors, LowerTerms, BuildTerms, WireTerms, Ascending, TermKeys;
    TermsReadBack(terms, pointer);
  }

  lemma {:induction false} LeafIsLowered(w: Json, pointer: string)
    requires w.JObj? && w.fields.Keys <= {"path", "op", "value", "match"}
    ensures Lower(w, pointer) == LowerLeaf(w, pointer)
  {
  }

  lemma {:induction false} AnyIsLowered(path: string, terms: Json, pointer: string)
    ensures var fields := map["path" := JStr(path), "op" := JStr("any"), "match" := terms];
            fields.Keys == {"path", "op", "match"} && Lower(JObj(fields), pointer) == LowerAny(path, fields, pointer)
  {
    var w := JObj(map["path" := JStr(path), "op" := JStr("any"), "match" := terms]);
    LeafIsLowered(w, pointer);
    assert w.GetStr("path") == Some(path) && w.GetStr("op") == Some("any");
  }

  lemma {:induction false} CompareReadsBack(path: string, op: Op, value: Json, pointer: string)
    ensures Lower(Wire(Compare(path, op, value)), pointer) == Lowered(TCompare(path, Spell(op), value), [])
  {
    var w := Wire(Compare(path, op, value));
    LeafIsLowered(w, pointer);
    SpellReadsBack(op);
    assert w.GetStr("path") == Some(path) && w.GetStr("op") == Some(Spell(op));
    NoExtraKeys(w.fields, {"path", "op", "value"}, pointer);
  }

  lemma {:induction false} ExistsReadsBack(path: string, pointer: string)
    ensures Lower(Wire(Exists(path)), pointer) == Lowered(TExists(path), [])
  {
    var w := Wire(Exists(path));
    LeafIsLowered(w, pointer);
    assert w.GetStr("path") == Some(path) && w.GetStr("op") == Some("exists");
    NoExtraKeys(w.fields, {"path", "op"}, pointer);
  }

  lemma {:induction false} JunctionIsLowered(items: seq<Json>, pointer: string)
    ensures var lowered := LowerAll(items, pointer + "/and/");
            Lower(JObj(map["and" := JArr(items)]), pointer) == Lowered(TAnd(Trees(lowered)), AllErrors(lowered))
    ensures var lowered := LowerAll(items, pointer + "/or/");
            Lower(JObj(map["or" := JArr(items)]), pointer) == Lowered(TOr(Trees(lowered)), AllErrors(lowered))
  {
  }

  /** Every filter, written out and lowered again, is itself, with no error. */
  lemma {:induction false} LowerWire(f: Filter, pointer: string)
    requires WellFormed(f)
    ensures Lower(Wire(f), pointer).errors == []
    ensures Build(Lower(Wire(f), pointer).tree) == Some(f)
    decreases f, 1
  {
    hide LowerAny, LowerLeaf, LowerAll, AllErrors, BuildAll, BuildTerms, WireTerms, TermKeys, ParseOp;
    match f
    case And(cs) =>
      var items := seq(|cs|, i requires 0 <= i < |cs| => Wire(cs[i]));
      JunctionIsLowered(items, pointer);
      LowerWireAll(f, cs, items, pointer + "/and/");
    case Or(cs) =>
      var items := seq(|cs|, i requires 0 <= i < |cs| => Wire(cs[i]));
      JunctionIsLowered(items, pointer);
      LowerWireAll(f, cs, items, pointer + "/or/");
    case Not(c) => LowerWire(c, pointer + "/not");
    case Compare(path, op, value) =>
      CompareReadsBack(path, op, value, pointer);
      SpellReadsBack(op);
    case Exists(path) => ExistsReadsBack(path, pointer);
    case Any(path, terms) =>
      AnyIsLowered(path, JObj(WireTerms(terms)), pointer);
      MatchErrorFree(path, terms, Wire(f).fields, pointer);
      MatchBuilds(path, terms, Wire(f).fields, pointer);
  }

  lemma {:induction false} LowerWireAll(f: Filter, cs: seq<Filter>, items: seq<Json>, pointer: string)
    requires forall c :: c in cs ==> c < f && WellFormed(c)
    requires |items| == |cs| && forall i :: 0 <= i < |cs| ==> items[i] == Wire(cs[i])
    ensures AllErrors(LowerAll(items, pointer)) == []
    ensures BuildAll(Trees(LowerAll(items, pointer))) == Some(cs)
    decreases f, 0
  {
    var lowered := LowerAll(items, pointer);
    forall i | 0 <= i < |cs| ensures lowered[i].errors == [] && Build(lowered[i].tree) == Some(cs[i]) {
      assert cs[i] in cs;
      LowerWire(cs[i], pointer + Decimal(i));
    }
    NoErrors(lowered);
    BuildAllOf(Trees(lowered), cs);
  }

  lemma {:induction false} ParseWire(f: Filter)
    requires WellFormed(f)
    ensures Parse(Wire(f)) == Ok(f)
  {
    LowerWire(f, "/where");
  }

  // -------------------------------------------------------- exactly what parses

  /** Lowering finds nothing wrong and the builder reads the result. */
  predicate Parses(l: Lowered) {
    l.errors == [] && Build(l.tree).Some?
  }

  lemma AnyExact(path: string, fields: map<string, Json>, pointer: string)
    ensures var l := LowerAny(path, fields, pointer);
            && (Parses(l) <==>
                  && fields.Keys <= {"path", "op", "match"} && "match" in fields && fields["match"].JObj?
                  && forall k :: k in fields["match"].fields ==> TermOk(fields["match"].fields[k]))
            && (Parses(l) ==> WellFormed(Build(l.tree).value))
  {
    hide ExtraKeys, MatchErrors, LowerTerms, BuildTerms, TermOk, Ascending;
    ExtraExact(fields, {"path", "op", "match"}, pointer);
    if "match" in fields && fields["match"].JObj? {
      var terms := fields["match"].fields;
      MatchExact(path, terms, pointer);
      AscendingSorted(terms.Keys);
    }
  }

  lemma LeafExact(value: Json, pointer: string)
    requires value.JObj?
    ensures var l := LowerLeaf(value, pointer);
            (Parses(l) <==> LeafOk(value.fields)) && (Parses(l) ==> WellFormed(Build(l.tree).value))
  {
    hide ExtraKeys, LowerAny, ParseOp, TermOk;
    if value.GetStr("path").Some? && value.GetStr("op").Some? {
      var path, op := value.GetStr("path").value, value.GetStr("op").value;
      if op == "exists" {
        ExtraExact(value.fields, {"path", "op"}, pointer);
      } else if op == "any" {
        AnyExact(path, value.fields, pointer);
      } else {
        ExtraExact(value.fields, {"path", "op", "value"}, pointer);
      }
    }
  }

  lemma {:induction false} AllErrorsExact(lowered: seq<Lowered>)
    ensures AllErrors(lowered) == [] <==> forall i :: 0 <= i < |lowered| ==> lowered[i].errors == []
  {
    if lowered != [] {
      AllErrorsExact(lowered[1..]);
      assert forall i :: 0 <= i < |lowered| ==> lowered[i] == if i == 0 then lowered[0] else lowered[1..][i - 1];
    }
  }

  lemma {:induction false} BuildAllExact(ts: seq<Tagged>)
    ensures BuildAll(ts).Some? <==> forall i :: 0 <= i < |ts| ==> Build(ts[i]).Some?
    ensures BuildAll(ts).Some? ==> |BuildAll(ts).value| == |ts| && forall i :: 0 <= i < |ts| ==> BuildAll(ts).value[i] == Build(ts[i]).value
  {
    hide Build;
    if ts != [] {
      BuildAllExact(ts[1..]);
      assert forall i :: 0 <= i < |ts| ==> ts[i] == if i == 0 then ts[0] else ts[1..][i - 1];
    }
  }

  lemma {:induction false} ChildrenExact(items: seq<Json>, lowered: seq<Lowered>)
    requires |lowered| == |items|
    requires forall i :: 0 <= i < |items| ==>
               (Parses(lowered[i]) <==> WireOk(items[i]))
               && (Parses(lowered[i]) ==> WellFormed(Build(lowered[i].tree).value))
    ensures AllErrors(lowered) == [] && BuildAll(Trees(lowered)).Some? <==> forall v :: v in items ==> WireOk(v)
    ensures AllErrors(lowered) == [] && BuildAll(Trees(lowered)).Some? ==>
              forall f :: f in BuildAll(Trees(lowered)).value ==> WellFormed(f)
  {
    hide Build, WireOk, WellFormed, AllErrors, BuildAll;
    AllErrorsExact(lowered);
    BuildAllExact(Trees(lowered));
    forall i | 0 <= i < |items| ensures items[i] in items {}
  }

  /** A filter parses exactly when it has the grammar's shape, and what it
      parses to has its terms in order. */
  lemma {:induction false} LowerExact(value: Json, pointer: string)
    ensures var l := Lower(value, pointer);
            (Parses(l) <==> WireOk(value)) && (Parses(l) ==> WellFormed(Build(l.tree).value))
    decreases value
  {
    hide LowerLeaf, LeafOk;
    if value.JObj? {
      if "and" in value.fields {
        if |value.fields| <= 1 && value.fields["and"].JArr? { LowerAllExact(value.fields["and"].items, pointer + "/and/"); }
      } else if "or" in value.fields {
        if |value.fields| <= 1 && value.fields["or"].JArr? { LowerAllExact(value.fields["or"].items, pointer + "/or/"); }
      } else if "not" in value.fields {
        LowerExact(value.fields["not"], pointer + "/not");
      } else {
        LeafExact(value, pointer);
      }
    }
  }

  lemma {:induction false} LowerAllExact(items: seq<Json>, pointer: string)
    ensures var lowered := LowerAll(items, pointer);
            && (AllErrors(lowered) == [] && BuildAll(Trees(lowered)).Some? <==> forall v :: v in items ==> WireOk(v))
            && (AllErrors(lowered) == [] && BuildAll(Trees(lowered)).Some? ==>
                  forall f :: f in BuildAll(Trees(lowered)).value ==> WellFormed(f))
    decreases items
  {
    hide Lower, Parses, WireOk;
    var lowered := LowerAll(items, pointer);
    forall i | 0 <= i < |items|
      ensures Parses(lowered[i]) <==> WireOk(items[i])
      ensures Parses(lowered[i]) ==> Build(lowered[i].tree).Some? && WellFormed(Build(lowered[i].tree).value)
    {
      LowerExact(items[i], pointer + Decimal(i));
      ParsesBuilds(lowered[i]);
    }
    ChildrenExact(items, lowered);
  }

  lemma ParsesBuilds(l: Lowered)
    ensures Parses(l) ==> Build(l.tree).Some?
  {
  }

  /** The parser accepts exactly the grammar, and what it accepts, written out
      again, parses to the same filter. */
  lemma {:induction false} ParseExact(value: Json)
    ensures Parse(value).Ok? <==> WireOk(value)
    ensures Parse(value).Ok? ==> WellFormed(Parse(value).value) && Parse(Wire(Parse(value).value)) == Parse(value)
  {
    hide Lower, Build, WireOk, WellFormed, Wire;
    LowerExact(value, "/where");
    if Parse(value).Ok? { ParseWire(Parse(value).value); }
  }

  /** `parse` */
  method ParseFilter(value: Json) returns (r: Result<Filter, seq<ErrorEntry>>)
    ensures r == Parse(value)
    ensures r.Ok? <==> WireOk(value)
    ensures r.Err? ==> r.error != []
  {
    hide Lower, Build, WireOk;
    var tree, errors := LowerInto(value, "/where", []);
    assert errors == Lower(value, "/where").errors;
    ParseExact(value);
    ParseErrs(value);
    if errors != [] {
      return Err(errors);
    }
    var built := Build(tree);
    r := if built.None? then Err([ErrorEntry("/where", Schema)]) else Ok(built.value);
  }
}
