/** The type check (`evalhub-query/src/typecheck.rs`): a parsed filter against a
    path table. The `&mut Vec` of errors is a list passed in and out. */
module Typecheck {
  import opened Prelude
  import opened Json
  import opened Text
  import opened Errors
  import opened Ir
  import opened Paths
  import G = Grammar

  predicate OpSuits(op: Op, ty: ValueType) {
    match op
    case Eq => true case Ne => true case In => true
    case Gt => !ty.Boolean? case Gte => !ty.Boolean? case Lt => !ty.Boolean? case Lte => !ty.Boolean?
    case Prefix => ty.String? case Contains => ty.String?
  }

  predicate IndexServes(indexed: Indexed, op: Op) {
    indexed.Full? || op.Eq?
  }

  predicate LiteralMatches(value: Json, ty: ValueType) {
    match ty
    case Number => value.JNum?
    case String => value.JStr?
    case Boolean => value.JBool?
  }

  /** A comparison the path can serve: declaratively. */
  predicate WellTypedCmp(ty: ValueType, indexed: Indexed, op: Op, value: Json) {
    match indexed
    case EqExistsUntyped => op.Eq?
    case EqExistsOnly => op.Eq? && LiteralMatches(value, ty)
    case Full =>
      && OpSuits(op, ty)
      && if op.In? then value.JArr? && forall v :: v in value.items ==> LiteralMatches(v, ty)
         else LiteralMatches(value, ty)
  }

  function FirstBad(items: seq<Json>, ty: ValueType): (k: nat)
    ensures k <= |items|
    ensures forall i :: 0 <= i < k ==> LiteralMatches(items[i], ty)
    ensures k < |items| ==> !LiteralMatches(items[k], ty)
  {
    if items == [] || !LiteralMatches(items[0], ty) then 0 else 1 + FirstBad(items[1..], ty)
  }

  function OpProblems(ty: ValueType, indexed: Indexed, op: Op, pointer: string): seq<ErrorEntry> {
    if !indexed.EqExistsUntyped? && !OpSuits(op, ty) then [ErrorEntry(pointer + "/op", TypeMismatch)]
    else if !IndexServes(indexed, op) then [ErrorEntry(pointer + "/op", NotIndexed)]
    else []
  }

  function ValueProblems(ty: ValueType, typed: bool, op: Op, value: Json, pointer: string): seq<ErrorEntry> {
    if op.In? then
      if !value.JArr? then [ErrorEntry(pointer + "/value", TypeMismatch)]
      else
        var bad := FirstBad(value.items, ty);
        if typed && bad < |value.items| then [ErrorEntry(pointer + "/value/" + Decimal(bad), TypeMismatch)] else []
    else if typed && !LiteralMatches(value, ty) then [ErrorEntry(pointer + "/value", TypeMismatch)]
    else []
  }

  function CmpProblems(ty: ValueType, indexed: Indexed, op: Op, value: Json, pointer: string): seq<ErrorEntry> {
    OpProblems(ty, indexed, op, pointer) + ValueProblems(ty, !indexed.EqExistsUntyped?, op, value, pointer)
  }

  lemma CmpProblemsExact(ty: ValueType, indexed: Indexed, op: Op, value: Json, pointer: string)
    ensures CmpProblems(ty, indexed, op, value, pointer) == [] <==> WellTypedCmp(ty, indexed, op, value)
  {
    if op.In? && value.JArr? {
      var bad := FirstBad(value.items, ty);
      if bad == |value.items| {
        assert forall v :: v in value.items ==> LiteralMatches(v, ty);
      } else {
        assert value.items[bad] in value.items;
      }
    }
  }

  /** The half of `check_cmp` about the literal. */
  method CheckValue(ty: ValueType, typed: bool, op: Op, value: Json, pointer: string, errors0: seq<ErrorEntry>)
    returns (ok: bool, errors: seq<ErrorEntry>)
    ensures errors == errors0 + ValueProblems(ty, typed, op, value, pointer)
    ensures ok <==> ValueProblems(ty, typed, op, value, pointer) == []
  {
    errors, ok := errors0, true;
    if op.In? {
      if !value.JArr? {
        errors := errors + [ErrorEntry(pointer + "/value", TypeMismatch)];
        ok := false;
      } else {
        var bad := 0;
        while bad < |value.items| && LiteralMatches(value.items[bad], ty)
          invariant 0 <= bad <= |value.items|
          invariant forall i :: 0 <= i < bad ==> LiteralMatches(value.items[i], ty)
        {
          bad := bad + 1;
        }
        assert bad == FirstBad(value.items, ty);
        if typed && bad < |value.items| {
          errors := errors + [ErrorEntry(pointer + "/value/" + Decimal(bad), TypeMismatch)];
          ok := false;
        }
      }
    } else if typed && !LiteralMatches(value, ty) {
      errors := errors + [ErrorEntry(pointer + "/value", TypeMismatch)];
      ok := false;
    }
  }

  method CheckCmp(column: Column, ty: ValueType, indexed: Indexed, op: Op, value: Json, pointer: string,
                  errors0: seq<ErrorEntry>)
    returns (r: Option<Cmp>, errors: seq<ErrorEntry>)
    ensures errors == errors0 + CmpProblems(ty, indexed, op, value, pointer)
    ensures r == if WellTypedCmp(ty, indexed, op, value) then Some(Cmp(column, op, value)) else None
    ensures r.None? <==> |errors| > |errors0|
  {
    errors := errors0;
    var ok := true;
    var typed := !indexed.EqExistsUntyped?;
    if typed && !OpSuits(op, ty) {
      errors := errors + [ErrorEntry(pointer + "/op", TypeMismatch)];
      ok := false;
    } else if !IndexServes(indexed, op) {
      errors := errors + [ErrorEntry(pointer + "/op", NotIndexed)];
      ok := false;
    }
    assert errors == errors0 + OpProblems(ty, indexed, op, pointer);
    Regroup(errors0, OpProblems(ty, indexed, op, pointer), ValueProblems(ty, typed, op, value, pointer));
    var valueOk;
    valueOk, errors := CheckValue(ty, typed, op, value, pointer, errors);
    CmpProblemsExact(ty, indexed, op, value, pointer);
    r := if ok && valueOk then Some(Cmp(column, op, value)) else None;
  }

  // ------------------------------------------------------------- any … match

  function ArrayKey(table: ArrayTable, key: string): Option<(ArrayColumn, ValueType)> {
    match table
    case Results =>
      if key == "metric" then Some((ResultMetric, String))
      else if key == "aggregation" then Some((ResultAggregation, String))
      else if key == "value" then Some((ResultValue, Number))
      else if key == "n" then Some((ResultN, Number))
      else None
    case Relations =>
      if key == "type" then Some((RelationType, String))
      else if key == "to" then Some((RelationTo, String))
      else None
    case Attachments =>
      if key == "path" then Some((AttachmentPath, String))
      else if key == "sha256" then Some((AttachmentSha256, String))
      else None
  }

  predicate WellTypedTerm(side: ArrayTable, key: string, term: G.MatchTerm) {
    ArrayKey(side, key).Some? && WellTypedCmp(ArrayKey(side, key).value.1, Full, term.op, term.value)
  }

  predicate WellTypedTerms(side: ArrayTable, terms: seq<(string, G.MatchTerm)>) {
    terms != [] && forall i :: 0 <= i < |terms| ==> WellTypedTerm(side, terms[i].0, terms[i].1)
  }

  function TermProblems(side: ArrayTable, key: string, term: G.MatchTerm, pointer: string): seq<ErrorEntry> {
    var here := pointer + "/match/" + key;
    if ArrayKey(side, key).None? then [ErrorEntry(here, UnknownPath)]
    else CmpProblems(ArrayKey(side, key).value.1, Full, term.op, term.value, here)
  }

  function TermsProblems(side: ArrayTable, terms: seq<(string, G.MatchTerm)>, n: nat, pointer: string): seq<ErrorEntry>
    requires n <= |terms|
  {
    if n == 0 then []
    else TermsProblems(side, terms, n - 1, pointer) + TermProblems(side, terms[n - 1].0, terms[n - 1].1, pointer)
  }

  function Condition(side: ArrayTable, key: string, term: G.MatchTerm): Cmp
    requires WellTypedTerm(side, key, term)
  {
    Cmp(Array(ArrayKey(side, key).value.0), term.op, term.value)
  }

  function Conditions(side: ArrayTable, terms: seq<(string, G.MatchTerm)>): (r: seq<Cmp>)
    requires WellTypedTerms(side, terms)
    ensures |r| == |terms|
  {
    seq(|terms|, i requires 0 <= i < |terms| => Condition(side, terms[i].0, terms[i].1))
  }

  method CheckTerms(side: ArrayTable, terms: seq<(string, G.MatchTerm)>, pointer: string, errors0: seq<ErrorEntry>)
    returns (r: Option<seq<Cmp>>, errors: seq<ErrorEntry>)
    ensures terms == [] ==> errors == errors0 + [ErrorEntry(pointer + "/match", Schema)]
    ensures terms != [] ==> errors == errors0 + TermsProblems(side, terms, |terms|, pointer)
    ensures r.Some? <==> WellTypedTerms(side, terms)
    ensures r.Some? ==> r.value == Conditions(side, terms)
    ensures r.None? <==> |errors| > |errors0|
  {
    errors := errors0;
    if terms == [] {
      errors := errors + [ErrorEntry(pointer + "/match", Schema)];
      return None, errors;
    }
    var conditions: seq<Cmp>;
    conditions, errors := CheckEach(side, terms, pointer, errors0);
    r := if |conditions| == |terms| then Some(conditions) else None;
  }

  /** The terms that check, in order; fewer than all when one did not. */
  method CheckEach(side: ArrayTable, terms: seq<(string, G.MatchTerm)>, pointer: string, errors0: seq<ErrorEntry>)
    returns (conditions: seq<Cmp>, errors: seq<ErrorEntry>)
    ensures errors == errors0 + TermsProblems(side, terms, |terms|, pointer)
    ensures |conditions| <= |terms|
    ensures |conditions| == |terms| <==> forall k :: 0 <= k < |terms| ==> WellTypedTerm(side, terms[k].0, terms[k].1)
    ensures |conditions| < |terms| <==> |errors| > |errors0|
    ensures |conditions| == |terms| ==>
              forall k :: 0 <= k < |terms| ==> conditions[k] == Condition(side, terms[k].0, terms[k].1)
  {
    hide TermProblems, WellTypedTerm, Condition;
    errors, conditions := errors0, [];
    ghost var bad := 0;
    for i := 0 to |terms|
      invariant errors == errors0 + TermsProblems(side, terms, i, pointer)
      invariant |conditions| <= i
      invariant |conditions| < i ==> bad < i && !WellTypedTerm(side, terms[bad].0, terms[bad].1)
      invariant |conditions| < i <==> |errors| > |errors0|
      invariant |conditions| == i ==> forall k :: 0 <= k < i ==> WellTypedTerm(side, terms[k].0, terms[k].1)
      invariant |conditions| == i ==> forall k :: 0 <= k < i ==> conditions[k] == Condition(side, terms[k].0, terms[k].1)
    {
      Regroup(errors0, TermsProblems(side, terms, i, pointer), TermProblems(side, terms[i].0, terms[i].1, pointer));
      var cmp;
      cmp, errors := CheckTerm(side, terms[i].0, terms[i].1, pointer, errors);
      if cmp.Some? {
        conditions := conditions + [cmp.value];
      } else {
        bad := i;
      }
    }
  }

  method CheckTerm(side: ArrayTable, key: string, term: G.MatchTerm, pointer: string, errors0: seq<ErrorEntry>)
    returns (r: Option<Cmp>, errors: seq<ErrorEntry>)
    ensures errors == errors0 + TermProblems(side, key, term, pointer)
    ensures r == if WellTypedTerm(side, key, term) then Some(Condition(side, key, term)) else None
    ensures r.None? <==> |errors| > |errors0|
  {
    var here := pointer + "/match/" + key;
    var found := ArrayKey(side, key);
    if found.None? {
      errors, r := errors0 + [ErrorEntry(here, UnknownPath)], None;
    } else {
      r, errors := CheckCmp(Array(found.value.0), found.value.1, Full, term.op, term.value, here, errors0);
    }
  }

  // ------------------------------------------------------------------ filter

  /** A filter the table can serve: declaratively. */
  predicate WellTyped(ast: G.Filter, table: PathTable) {
    match ast
    case And(cs) => forall c :: c in cs ==> WellTyped(c, table)
    case Or(cs) => forall c :: c in cs ==> WellTyped(c, table)
    case Not(c) => WellTyped(c, table)
    case Compare(path, op, value) =>
      var info := table.Resolve(path);
      info.Some? && info.value.Scalar? && WellTypedCmp(info.value.ty, info.value.indexed, op, value)
    case Exists(path) =>
      var info := table.Resolve(path);
      info.Some? && info.value.Scalar?
    case Any(path, terms) =>
      var info := table.Resolve(path);
      info.Some? && info.value.Ranged? && WellTypedTerms(info.value.table, terms)
  }

  /** The IR of a well-typed filter: every path becomes its column. */
  function Elaborate(ast: G.Filter, table: PathTable): Filter
    requires WellTyped(ast, table)
  {
    match ast
    case And(cs) => And(seq(|cs|, i requires 0 <= i < |cs| => Elaborate(cs[i], table)))
    case Or(cs) => Or(seq(|cs|, i requires 0 <= i < |cs| => Elaborate(cs[i], table)))
    case Not(c) => Not(Elaborate(c, table))
    case Compare(path, op, value) => Compare(Cmp(table.Resolve(path).value.column, op, value))
    case Exists(path) => Exists(table.Resolve(path).value.column)
    case Any(path, terms) =>
      var side := table.Resolve(path).value.table;
      Any(side, Conditions(side, terms))
  }

  function Problems(ast: G.Filter, table: PathTable, pointer: string): seq<ErrorEntry>
    decreases ast, 0
  {
    match ast
    case And(cs) => ProblemsUpTo(cs, |cs|, table, pointer + "/and/")
    case Or(cs) => ProblemsUpTo(cs, |cs|, table, pointer + "/or/")
    case Not(c) => Problems(c, table, pointer + "/not")
    case Compare(path, op, value) =>
      var info := table.Resolve(path);
      if info.None? then [ErrorEntry(pointer + "/path", UnknownPath)]
      else if info.value.Ranged? then [ErrorEntry(pointer + "/op", TypeMismatch)]
      else CmpProblems(info.value.ty, info.value.indexed, op, value, pointer)
    case Exists(path) =>
      var info := table.Resolve(path);
      if info.None? then [ErrorEntry(pointer + "/path", UnknownPath)]
      else if info.value.Ranged? then [ErrorEntry(pointer + "/path", TypeMismatch)]
      else []
    case Any(path, terms) =>
      var info := table.Resolve(path);
      if info.None? then [ErrorEntry(pointer + "/path", UnknownPath)]
      else if info.value.Scalar? then [ErrorEntry(pointer + "/op", TypeMismatch)]
      else if terms == [] then [ErrorEntry(pointer + "/match", Schema)]
      else TermsProblems(info.value.table, terms, |terms|, pointer)
  }

  function ProblemsUpTo(cs: seq<G.Filter>, n: nat, table: PathTable, pointer: string): seq<ErrorEntry>
    requires n <= |cs|
    decreases cs, n
  {
    if n == 0 then []
    else ProblemsUpTo(cs, n - 1, table, pointer) + Problems(cs[n - 1], table, pointer + Decimal(n - 1))
  }

  /** `check_at`: the filter in the IR, or none and at least one error. */
  method CheckAt(ast: G.Filter, table: PathTable, pointer: string, errors0: seq<ErrorEntry>)
    returns (r: Option<Filter>, errors: seq<ErrorEntry>)
    ensures errors == errors0 + Problems(ast, table, pointer)
    ensures r == if WellTyped(ast, table) then Some(Elaborate(ast, table)) else None
    ensures r.None? <==> |errors| > |errors0|
    decreases ast, 1
  {
    errors := errors0;
    match ast
    case And(cs) =>
      var checked;
      checked, errors := CheckAll(cs, table, pointer + "/and/", errors);
      r := if |checked| == |cs| then Some(And(checked)) else None;
      assert r.Some? ==> checked == Elaborate(ast, table).children;
    case Or(cs) =>
      var checked;
      checked, errors := CheckAll(cs, table, pointer + "/or/", errors);
      r := if |checked| == |cs| then Some(Or(checked)) else None;
      assert r.Some? ==> checked == Elaborate(ast, table).children;
    case Not(c) =>
      var inner;
      inner, errors := CheckAt(c, table, pointer + "/not", errors);
      r := if inner.Some? then Some(Not(inner.value)) else None;
    case Compare(path, op, value) =>
      var info := table.Resolve(path);
      if info.None? {
        errors := errors + [ErrorEntry(pointer + "/path", UnknownPath)];
        r := None;
      } else if info.value.Ranged? {
        errors := errors + [ErrorEntry(pointer + "/op", TypeMismatch)];
        r := None;
      } else {
        var Scalar(column, ty, indexed) := info.value;
        CmpProblemsExact(ty, indexed, op, value, pointer);
        var cmp;
        cmp, errors := CheckCmp(column, ty, indexed, op, value, pointer, errors);
        r := if cmp.Some? then Some(Compare(cmp.value)) else None;
      }
    case Exists(path) =>
      var info := table.Resolve(path);
      if info.None? {
        errors := errors + [ErrorEntry(pointer + "/path", UnknownPath)];
        r := None;
      } else if info.value.Ranged? {
        errors := errors + [ErrorEntry(pointer + "/path", TypeMismatch)];
        r := None;
      } else {
        r := Some(Exists(info.value.column));
      }
    case Any(path, terms) =>
      var info := table.Resolve(path);
      if info.None? {
        errors := errors + [ErrorEntry(pointer + "/path", UnknownPath)];
        r := None;
      } else if info.value.Scalar? {
        errors := errors + [ErrorEntry(pointer + "/op", TypeMismatch)];
        r := None;
      } else {
        var side := info.value.table;
        var conditions;
        conditions, errors := CheckTerms(side, terms, pointer, errors);
        r := if conditions.Some? then Some(Any(side, conditions.value)) else None;
        assert r.Some? ==> conditions.value == Elaborate(ast, table).conditions;
      }
  }

  /** The children that check, in order; fewer than all when one did not. */
  method CheckAll(cs: seq<G.Filter>, table: PathTable, pointer: string, errors0: seq<ErrorEntry>)
    returns (checked: seq<Filter>, errors: seq<ErrorEntry>)
    ensures errors == errors0 + ProblemsUpTo(cs, |cs|, table, pointer)
    ensures |checked| == |cs| <==> forall c :: c in cs ==> WellTyped(c, table)
    ensures |checked| == |cs| ==> forall i :: 0 <= i < |cs| ==> checked[i] == Elaborate(cs[i], table)
    ensures |checked| != |cs| <==> |errors| > |errors0|
    decreases cs, 0
  {
    hide WellTyped, Elaborate, Problems, Decimal;
    errors, checked := errors0, [];
    ghost var bad := 0;
    for i := 0 to |cs|
      invariant errors == errors0 + ProblemsUpTo(cs, i, table, pointer)
      invariant |checked| <= i
      invariant |checked| < i ==> bad < i && !WellTyped(cs[bad], table)
      invariant |checked| < i <==> |errors| > |errors0|
      invariant |checked| == i ==> forall k :: 0 <= k < i ==> WellTyped(cs[k], table)
      invariant |checked| == i ==> forall k :: 0 <= k < i ==> checked[k] == Elaborate(cs[k], table)
    {
      Regroup(errors0, ProblemsUpTo(cs, i, table, pointer), Problems(cs[i], table, pointer + Decimal(i)));
      var one;
      one, errors := CheckAt(cs[i], table, pointer + Decimal(i), errors);
      if one.Some? {
        checked := checked + [one.value];
      } else {
        bad := i;
      }
    }
    assert |checked| < |cs| ==> cs[bad] in cs;
  }

  /** An error is returned exactly when the error list is not empty, and that
      is exactly when the filter is not well-typed. */
  method Check(ast: G.Filter, table: PathTable) returns (r: Result<Filter, seq<ErrorEntry>>)
    ensures r.Ok? <==> WellTyped(ast, table)
    ensures r.Ok? ==> r.value == Elaborate(ast, table)
    ensures r.Err? ==> r.error == Problems(ast, table, "/where") && r.error != []
  {
    var filter, errors := CheckAt(ast, table, "/where", []);
    if filter.Some? && errors == [] {
      r := Ok(filter.value);
    } else {
      r := Err(errors);
    }
  }

  // ----------------------------------------------------------------- request

  datatype Request = Request(filter: Option<Json>, sort: seq<(string, Dir)>)

  function RunSortKey(path: string, table: PathTable): Option<SortKey> {
    var info := table.Resolve(path);
    if info.None? || info.value.Ranged? then None
    else if info.value.column.Run? then Some(SortRun(info.value.column.run))
    else if info.value.indexed.Full? then Some(SortColumn(info.value.column))
    else None
  }

  function SortCode(path: string, table: PathTable): ErrorCode {
    var info := table.Resolve(path);
    if info.None? then UnknownPath else if info.value.Ranged? then TypeMismatch else NotIndexed
  }

  /** A request the run projection can serve. */
  predicate Accepted(request: Request, table: PathTable, cursor: Option<RunCursor>) {
    && (request.filter.Some? ==>
          var ast := G.Parse(request.filter.value);
          ast.Ok? && WellTyped(ast.value, table))
    && (forall s :: s in request.sort ==> RunSortKey(s.0, table).Some?)
    && (cursor.Some? ==> |cursor.value.keys| == |request.sort|)
  }

  function QueryOf(request: Request, table: PathTable, limit: nat, cursor: Option<RunCursor>): RunQuery
    requires Accepted(request, table, cursor) && table.target.Runs?
  {
    RunQuery(
      table.target.cards,
      if request.filter.None? then None
      else
        var ast := G.Parse(request.filter.value).value;
        Some(Elaborate(ast, table)),
      seq(|request.sort|, i requires 0 <= i < |request.sort| =>
            assert request.sort[i] in request.sort;
            Ir.Sort(RunSortKey(request.sort[i].0, table).value, request.sort[i].1)),
      limit,
      cursor)
  }

  method CompileFilter(filter: Option<Json>, table: PathTable)
    returns (r: Option<Filter>, errors: seq<ErrorEntry>)
    ensures errors == [] <==> (filter.Some? ==> G.Parse(filter.value).Ok? && WellTyped(G.Parse(filter.value).value, table))
    ensures errors == [] && filter.Some? ==> r == Some(Elaborate(G.Parse(filter.value).value, table))
    ensures filter.None? ==> r.None?
  {
    r, errors := None, [];
    if filter.Some? {
      var ast := G.ParseFilter(filter.value);
      match ast {
        case Ok(f) =>
          var checked := Check(f, table);
          match checked {
            case Ok(g) => r := Some(g);
            case Err(e) => errors := e;
          }
        case Err(e) =>
          errors := e;
      }
    }
  }

  method CompileSorts(sorts: seq<(string, Dir)>, table: PathTable, errors0: seq<ErrorEntry>)
    returns (sort: seq<Sort>, errors: seq<ErrorEntry>)
    ensures |sort| <= |sorts|
    ensures |sort| == |sorts| <==> forall s :: s in sorts ==> RunSortKey(s.0, table).Some?
    ensures |sort| == |sorts| ==> forall k :: 0 <= k < |sorts| ==>
              sort[k] == Ir.Sort(RunSortKey(sorts[k].0, table).value, sorts[k].1)
    ensures errors == [] <==> errors0 == [] && |sort| == |sorts|
  {
    hide RunSortKey, SortCode;
    sort, errors := [], errors0;
    for i := 0 to |sorts|
      invariant |sort| <= i
      invariant |sort| == i <==> forall k :: 0 <= k < i ==> RunSortKey(sorts[k].0, table).Some?
      invariant |sort| == i ==> forall k :: 0 <= k < i ==>
                  sort[k] == Ir.Sort(RunSortKey(sorts[k].0, table).value, sorts[k].1)
      invariant errors == [] <==> errors0 == [] && |sort| == i
    {
      var (path, dir) := sorts[i];
      var key := RunSortKey(path, table);
      if key.Some? {
        sort := sort + [Ir.Sort(key.value, dir)];
      } else {
        errors := errors + [ErrorEntry("/sort/" + Decimal(i) + "/path", SortCode(path, table))];
      }
    }
  }

  method CompileRuns(request: Request, table: PathTable, limit: nat, cursor: Option<RunCursor>)
    returns (r: Result<RunQuery, seq<ErrorEntry>>)
    requires table.target.Runs?
    ensures r.Ok? <==> Accepted(request, table, cursor)
    ensures r.Ok? ==> r.value == QueryOf(request, table, limit, cursor)
    ensures r.Err? ==> r.error != []
  {
    var filter, errors := CompileFilter(request.filter, table);
    var sort;
    sort, errors := CompileSorts(request.sort, table, errors);
    if cursor.Some? && |cursor.value.keys| != |sort| {
      errors := errors + [ErrorEntry("/cursor", Schema)];
    }
    if errors != [] {
      return Err(errors);
    }
    r := Ok(RunQuery(table.target.cards, filter, sort, limit, cursor));
  }
}
