/** Rust's order on `str`, and the ascending key list of a `BTreeMap`. */
module Text {
  import opened Prelude

  /** Code point order, which is the byte order of the UTF-8. */
  predicate StrLess(a: string, b: string) {
    if a == "" then b != ""
    else b != "" && (a[0] < b[0] || (a[0] == b[0] && StrLess(a[1..], b[1..])))
  }

  lemma {:induction false} StrTrichotomy(a: string, b: string)
    ensures a == b || StrLess(a, b) || StrLess(b, a)
    ensures !(StrLess(a, b) && StrLess(b, a))
    ensures !StrLess(a, a)
  {
    if a != "" && b != "" {
      StrTrichotomy(a[1..], b[1..]);
      assert a == [a[0]] + a[1..] && b == [b[0]] + b[1..];
    }
    if a != "" { StrTrichotomy(a[1..], a[1..]); }
  }

  lemma {:induction false} StrTransitive(a: string, b: string, c: string)
    requires StrLess(a, b) && StrLess(b, c)
    ensures StrLess(a, c)
  {
    if a != "" && a[0] == b[0] && b[0] == c[0] {
      StrTransitive(a[1..], b[1..], c[1..]);
    }
  }

  lemma StrOrder()
    ensures StrictOrder(StrLess)
  {
    forall a ensures !StrLess(a, a) { StrTrichotomy(a, a); }
    forall a, b, c | StrLess(a, b) && StrLess(b, c) ensures StrLess(a, c) { StrTransitive(a, b, c); }
  }

  predicate IsLeast(k: string, keys: set<string>) {
    k in keys && forall x :: x in keys && x != k ==> StrLess(k, x)
  }

  lemma {:induction false} LeastExists(keys: set<string>)
    requires keys != {}
    ensures exists k :: IsLeast(k, keys)
    ensures forall a, b :: IsLeast(a, keys) && IsLeast(b, keys) ==> a == b
    decreases |keys|
  {
    var k :| k in keys;
    if keys == {k} {
      assert IsLeast(k, keys);
    } else {
      LeastExists(keys - {k});
      var least :| IsLeast(least, keys - {k});
      StrTrichotomy(k, least);
      if StrLess(k, least) {
        forall x | x in keys && x != k ensures StrLess(k, x) {
          if x != least { StrTransitive(k, least, x); }
        }
        assert IsLeast(k, keys);
      } else {
        assert IsLeast(least, keys);
      }
    }
    forall a, b | IsLeast(a, keys) && IsLeast(b, keys) ensures a == b { StrTrichotomy(a, b); }
  }

  function LeastOf(keys: set<string>): (k: string)
    requires keys != {}
    ensures IsLeast(k, keys)
  {
    LeastExists(keys);
    var k :| IsLeast(k, keys);
    k
  }

  /** The keys of a `BTreeMap`, as iteration yields them. */
  function Ascending(keys: set<string>): (r: seq<string>)
    ensures |r| == |keys|
    ensures forall k :: k in r <==> k in keys
    decreases |keys|
  {
    if keys == {} then [] else [LeastOf(keys)] + Ascending(keys - {LeastOf(keys)})
  }

  lemma {:induction false} AscendingSorted(keys: set<string>)
    ensures Sorted(StrLess, Ascending(keys))
    decreases |keys|
  {
    if keys != {} {
      var k := Ascending(keys)[0];
      AscendingSorted(keys - {k});
      forall y | y in Ascending(keys - {k}) ensures StrLess(k, y) { assert y in keys; }
    }
  }

  /** A natural number in decimal, as JSON pointers spell positions. */
  function Decimal(n: nat): string {
    if n < 10 then ["0123456789"[n]] else Decimal(n / 10) + ["0123456789"[n % 10]]
  }
}
