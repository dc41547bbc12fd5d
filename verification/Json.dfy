/** JSON values as `serde_json` and Postgres `jsonb` hold them, the `jsonb`
    operators the compiled queries use, and content digests. */
module Json {
  import opened Prelude

  /** A number is a finite double, named by its position in the order of the
      doubles: nothing in the modelled code computes with one. */
  datatype Json =
    | JNull
    | JBool(b: bool)
    | JNum(n: int)
    | JStr(s: string)
    | JArr(items: seq<Json>)
    | JObj(fields: map<string, Json>)
  {
    /** `Value::get(key)` */
    function Get(key: string): Option<Json> {
      if JObj? && key in fields then Some(fields[key]) else None
    }

    /** `Value::get(key).and_then(Value::as_str)` */
    function GetStr(key: string): Option<string> {
      if Get(key).Some? && Get(key).value.JStr? then Some(Get(key).value.s) else None
    }

    predicate IsScalar() {
      !JArr? && !JObj?
    }
  }

  /** sha256 of the RFC 8785 form. Both are taken to be injective, so a digest
      is just its document under a constructor. */
  datatype Digest = Sha256(doc: Json)

  /** `{"a": {"b": v}}` for the path `["a", "b"]`. */
  function Nest(path: seq<string>, value: Json): Json {
    if path == [] then value else JObj(map[path[0] := Nest(path[1..], value)])
  }

  /** `jsonb @>`: objects by key, arrays by element, scalars by equality. */
  predicate JsonContains(doc: Json, part: Json)
    decreases part
  {
    match part
    case JObj(fs) =>
      doc.JObj? && forall k :: k in fs ==> k in doc.fields && JsonContains(doc.fields[k], fs[k])
    case JArr(ps) =>
      doc.JArr? && forall p :: p in ps ==> exists d :: d in doc.items && JsonContains(d, p)
    case _ => doc == part
  }

  /** `jsonb @? '$."a"."b"'` in lax mode, where a member step over an array
      looks into its elements. */
  predicate LaxExists(doc: Json, path: seq<string>)
    decreases |path|
  {
    if path == [] then true
    else if doc.JObj? then path[0] in doc.fields && LaxExists(doc.fields[path[0]], path[1..])
    else if doc.JArr? then
      exists d :: d in doc.items && d.JObj? && path[0] in d.fields && LaxExists(d.fields[path[0]], path[1..])
    else false
  }

  /** The value reached through objects alone. */
  function Member(doc: Json, path: seq<string>): Option<Json>
    decreases |path|
  {
    if path == [] then Some(doc)
    else if doc.Get(path[0]).None? then None
    else Member(doc.fields[path[0]], path[1..])
  }

  /** Containment of a nested document asks about one member only. */
  lemma {:induction false} ContainsNest(doc: Json, path: seq<string>, value: Json)
    ensures JsonContains(doc, Nest(path, value)) <==>
            Member(doc, path).Some? && JsonContains(Member(doc, path).value, value)
  {
    if path != [] && doc.Get(path[0]).Some? {
      ContainsNest(doc.fields[path[0]], path[1..], value);
    }
  }

  /** `eq` on a path nobody declared a type for is containment, which is
      equality for every stored document exactly when the literal is a scalar. */
  lemma {:induction false} ContainmentIsEquality(literal: Json)
    ensures (forall doc :: JsonContains(doc, literal) <==> doc == literal) <==> literal.IsScalar()
  {
    if literal.JArr? {
      var bigger := JArr(literal.items + [JNull]);
      forall p | p in literal.items ensures exists d :: d in bigger.items && JsonContains(d, p) {
        ContainsSelf(p);
        assert p in bigger.items;
      }
      assert JsonContains(bigger, literal);
      assert |bigger.items| != |literal.items|;
    } else if literal.JObj? {
      var unused := FreshKey(literal.fields.Keys);
      var bigger := JObj(literal.fields[unused := JNull]);
      forall k | k in literal.fields ensures JsonContains(bigger.fields[k], literal.fields[k]) {
        ContainsSelf(literal.fields[k]);
      }
      assert JsonContains(bigger, literal);
      assert unused in bigger.fields;
    }
  }

  /** Along one chain of members exist exactly its prefixes. */
  lemma {:induction false} LaxNest(path: seq<string>, value: Json, q: seq<string>)
    requires value.IsScalar()
    ensures LaxExists(Nest(path, value), q) <==> q <= path
    decreases |q|
  {
    if q != [] && path != [] && q[0] == path[0] {
      LaxNest(path[1..], value, q[1..]);
      assert q == [q[0]] + q[1..] && path == [path[0]] + path[1..];
    }
  }

  /** Different paths exist in different documents. */
  lemma LaxTells(p: seq<string>, q: seq<string>) returns (doc: Json)
    requires p != q
    ensures LaxExists(doc, p) != LaxExists(doc, q)
  {
    doc := Nest(if q <= p then q else p, JNull);
    LaxNest(if q <= p then q else p, JNull, p);
    LaxNest(if q <= p then q else p, JNull, q);
  }

  lemma {:induction false} ContainsSelf(doc: Json)
    ensures JsonContains(doc, doc)
  {
    match doc
    case JObj(fs) =>
      forall k | k in fs ensures JsonContains(fs[k], fs[k]) { ContainsSelf(fs[k]); }
    case JArr(ps) =>
      forall p | p in ps ensures JsonContains(p, p) { ContainsSelf(p); }
    case _ =>
  }

  /** A key longer than every key of `keys`. */
  ghost function FreshKey(keys: set<string>): (k: string)
    ensures k !in keys
    ensures forall x :: x in keys ==> |x| < |k|
  {
    if keys == {} then "x"
    else
      var x :| x in keys;
      var k := FreshKey(keys - {x});
      var longer := seq(|x| + |k|, i => 'x');
      assert forall y :: y in keys ==> y == x || y in keys - {x};
      longer + "x"
  }

  /** `[1]` is contained in `[1, 2]`, which it does not equal. */
  lemma ContainedIsNotEqual()
    ensures JsonContains(JArr([JNum(1), JNum(2)]), JArr([JNum(1)])) && JArr([JNum(1), JNum(2)]) != JArr([JNum(1)])
  {
    var items := [JNum(1), JNum(2)];
    assert items[0] in items && JsonContains(items[0], JNum(1));
    assert |items| != |[JNum(1)]|;
  }
}
