/** Paging over records (`evalhub-store/src/query_sql.rs`, `push_keyset` and
    `run`): its two keyset forms agree, and exactly when following cursors is
    complete. Unlike the run projection's, this keyset is not aware of NULL. */
module RecordKeyset {
  import opened Prelude
  import opened Json
  import opened Backend
  import opened Ir
  import opened Sql
  import opened RunSql

  datatype Plan = Plan(dir: Dir, ty: KeyType)

  /** A matched version: its sort keys, and what the order falls back on. */
  datatype Hit = Hit(keys: seq<Option<Sql.Value>>, createdAt: int, versionId: int)

  datatype Cursor = Cursor(keys: seq<Json>, versionId: int)

  /** A cursor's decoded values. */
  datatype From = From(keys: seq<Sql.Value>, versionId: int)

  function TieDir(plans: seq<Plan>): Dir {
    if plans == [] then Desc else plans[|plans| - 1].dir
  }

  predicate Uniform(plans: seq<Plan>) {
    forall i :: 0 <= i < |plans| ==> plans[i].dir == TieDir(plans)
  }

  function SignFor(dir: Dir): Sign {
    if dir.Asc? then Greater else Less
  }

  // ----------------------------------------------------------- the two forms

  function CompareTo(be: Backend, sign: Sign, x: Option<Sql.Value>, c: Sql.Value): Truth {
    if x.None? then Unknown else Truly(Holds(sign, Rank(be, x.value), Rank(be, c)))
  }

  function IdCompare(dir: Dir, k: Hit, c: From): Truth {
    Truly(Holds(SignFor(dir), k.versionId as real, c.versionId as real))
  }

  ghost predicate Fits(plans: seq<Plan>, k: Hit, c: From) {
    |k.keys| == |plans| == |c.keys|
  }

  /** `(k1, …, version_id) > (c1, …, id)`: the first pair that is not equal
      decides, and a NULL there leaves it unknown. */
  function RowValue(be: Backend, plans: seq<Plan>, dir: Dir, k: Hit, c: From, i: nat): Truth
    requires Fits(plans, k, c) && i <= |plans|
    decreases |plans| - i
  {
    if i == |plans| then IdCompare(dir, k, c)
    else if CompareTo(be, Equal, k.keys[i], c.keys[i]).True? then RowValue(be, plans, dir, k, c, i + 1)
    else CompareTo(be, SignFor(dir), k.keys[i], c.keys[i])
  }

  /** `k1 = c1 AND … ` over the first `i` keys. */
  function EqualAll(be: Backend, plans: seq<Plan>, k: Hit, c: From, i: nat): Truth
    requires Fits(plans, k, c) && i <= |plans|
  {
    if i == 0 then True else Both(EqualAll(be, plans, k, c, i - 1), CompareTo(be, Equal, k.keys[i - 1], c.keys[i - 1]))
  }

  function LexTerm(be: Backend, plans: seq<Plan>, k: Hit, c: From, i: nat): Truth
    requires Fits(plans, k, c) && i <= |plans|
  {
    Both(EqualAll(be, plans, k, c, i),
         if i < |plans| then CompareTo(be, SignFor(plans[i].dir), k.keys[i], c.keys[i]) else IdCompare(TieDir(plans), k, c))
  }

  /** The disjunction of the first `n` terms. */
  function Lex(be: Backend, plans: seq<Plan>, k: Hit, c: From, n: nat): Truth
    requires Fits(plans, k, c) && n <= |plans| + 1
  {
    if n == 0 then False else Either(Lex(be, plans, k, c, n - 1), LexTerm(be, plans, k, c, n - 1))
  }

  /** What the page predicate says of a row. */
  function Admits(be: Backend, plans: seq<Plan>, k: Hit, c: From): Truth
    requires Fits(plans, k, c)
  {
    if Uniform(plans) then RowValue(be, plans, TieDir(plans), k, c, 0) else Lex(be, plans, k, c, |plans| + 1)
  }

  // -------------------------------------------------------------- agreement

  /** The first key that is not equal decides, each in its own direction. */
  function Decides(be: Backend, plans: seq<Plan>, k: Hit, c: From, i: nat): Truth
    requires Fits(plans, k, c) && i <= |plans|
    decreases |plans| - i
  {
    if i == |plans| then IdCompare(TieDir(plans), k, c)
    else if CompareTo(be, Equal, k.keys[i], c.keys[i]).True? then Decides(be, plans, k, c, i + 1)
    else CompareTo(be, SignFor(plans[i].dir), k.keys[i], c.keys[i])
  }

  lemma {:induction false} RowValueDecides(be: Backend, plans: seq<Plan>, k: Hit, c: From, i: nat)
    requires Fits(plans, k, c) && i <= |plans| && Uniform(plans)
    ensures RowValue(be, plans, TieDir(plans), k, c, i) == Decides(be, plans, k, c, i)
    decreases |plans| - i
  {
    if i < |plans| { RowValueDecides(be, plans, k, c, i + 1); }
  }

  /** The first `m` keys are equal to the cursor's. */
  ghost predicate EqualBelow(be: Backend, plans: seq<Plan>, k: Hit, c: From, m: nat)
    requires Fits(plans, k, c) && m <= |plans|
  {
    forall j :: 0 <= j < m ==> CompareTo(be, Equal, k.keys[j], c.keys[j]).True?
  }

  lemma {:induction false} EqualAllBelow(be: Backend, plans: seq<Plan>, k: Hit, c: From, m: nat, i: nat)
    requires Fits(plans, k, c) && m <= |plans| && i <= |plans| && EqualBelow(be, plans, k, c, m)
    ensures i <= m ==> EqualAll(be, plans, k, c, i).True?
    ensures m < i && CompareTo(be, Equal, k.keys[m], c.keys[m]).False? ==> EqualAll(be, plans, k, c, i).False?
    ensures m < i && CompareTo(be, Equal, k.keys[m], c.keys[m]).Unknown? ==> !EqualAll(be, plans, k, c, i).True?
  {
    if i > 0 { EqualAllBelow(be, plans, k, c, m, i - 1); }
  }

  /** With `m` the first key not equal, the disjunction says what it says. */
  lemma {:induction false} LexUpTo(be: Backend, plans: seq<Plan>, k: Hit, c: From, m: nat, n: nat)
    requires Fits(plans, k, c) && m <= |plans| && n <= |plans| + 1 && EqualBelow(be, plans, k, c, m)
    requires m < |plans| ==> !CompareTo(be, Equal, k.keys[m], c.keys[m]).True?
    ensures Lex(be, plans, k, c, n) == if n <= m then False else LexTerm(be, plans, k, c, m)
  {
    if n > 0 {
      LexUpTo(be, plans, k, c, m, n - 1);
      EqualAllBelow(be, plans, k, c, m, n - 1);
      EqualAllBelow(be, plans, k, c, m, m);
    }
  }

  lemma {:induction false} FirstUnequal(be: Backend, plans: seq<Plan>, k: Hit, c: From, i: nat) returns (m: nat)
    requires Fits(plans, k, c) && i <= |plans| && EqualBelow(be, plans, k, c, i)
    ensures i <= m <= |plans| && EqualBelow(be, plans, k, c, m)
    ensures m < |plans| ==> !CompareTo(be, Equal, k.keys[m], c.keys[m]).True?
    ensures Decides(be, plans, k, c, i) == Decides(be, plans, k, c, m)
    decreases |plans| - i
  {
    m := i;
    if i < |plans| && CompareTo(be, Equal, k.keys[i], c.keys[i]).True? { m := FirstUnequal(be, plans, k, c, i + 1); }
  }

  /** The two forms have the same truth value on every row, NULLs included. */
  lemma {:induction false} FormsAgree(be: Backend, plans: seq<Plan>, k: Hit, c: From)
    requires Fits(plans, k, c)
    ensures Lex(be, plans, k, c, |plans| + 1) == Decides(be, plans, k, c, 0) == Admits(be, plans, k, c)
    ensures Uniform(plans) ==> RowValue(be, plans, TieDir(plans), k, c, 0) == Lex(be, plans, k, c, |plans| + 1)
  {
    hide CompareTo;
    var m := FirstUnequal(be, plans, k, c, 0);
    LexUpTo(be, plans, k, c, m, |plans| + 1);
    EqualAllBelow(be, plans, k, c, m, m);
    if Uniform(plans) { RowValueDecides(be, plans, k, c, 0); }
  }

  // -------------------------------------------------------------- the order

  /** `ORDER BY k…, version_id`; with no key, newest first by `created_at`. */
  predicate HitBefore(be: Backend, plans: seq<Plan>, a: Hit, b: Hit, i: nat)
    requires |a.keys| == |b.keys| == |plans| && i <= |plans|
    decreases |plans| - i
  {
    if i < |plans| then
      || KeyBefore(be, plans[i].dir, a.keys[i], b.keys[i])
      || (KeySame(be, a.keys[i], b.keys[i]) && HitBefore(be, plans, a, b, i + 1))
    else if plans == [] then a.createdAt > b.createdAt || (a.createdAt == b.createdAt && a.versionId > b.versionId)
    else if TieDir(plans).Asc? then a.versionId < b.versionId else a.versionId > b.versionId
  }

  /** The cursor of a row, which a NULL key makes useless. */
  ghost predicate NonNull(k: Hit) {
    forall i :: 0 <= i < |k.keys| ==> k.keys[i].Some?
  }

  function FromOf(k: Hit): From
    requires NonNull(k)
  {
    From(seq(|k.keys|, i requires 0 <= i < |k.keys| => k.keys[i].value), k.versionId)
  }

  /** An ascending key of `k` is NULL where every key before it is the cursor's. */
  ghost predicate LostToNull(be: Backend, plans: seq<Plan>, c: Hit, k: Hit, i: nat)
    requires |c.keys| == |k.keys| == |plans| && i <= |plans|
    decreases |plans| - i
  {
    i < |plans|
    && ((plans[i].dir.Asc? && k.keys[i].None?)
        || (KeySame(be, c.keys[i], k.keys[i]) && LostToNull(be, plans, c, k, i + 1)))
  }

  lemma {:induction false} DecidesExactly(be: Backend, plans: seq<Plan>, c: Hit, k: Hit, i: nat)
    requires plans != [] && |c.keys| == |k.keys| == |plans| && i <= |plans| && NonNull(c)
    ensures Decides(be, plans, k, FromOf(c), i).True? <==>
            HitBefore(be, plans, c, k, i) && !LostToNull(be, plans, c, k, i)
    decreases |plans| - i
  {
    if i < |plans| { DecidesExactly(be, plans, c, k, i + 1); }
  }

  /** A cursor admits exactly the rows after its own, short of those that sort
      after it for a NULL. */
  lemma {:induction false} AdmitsExactly(be: Backend, plans: seq<Plan>, c: Hit, k: Hit)
    requires plans != [] && |c.keys| == |k.keys| == |plans| && NonNull(c)
    ensures Admits(be, plans, k, FromOf(c)).True? <==> HitBefore(be, plans, c, k, 0) && !LostToNull(be, plans, c, k, 0)
  {
    FormsAgree(be, plans, k, FromOf(c));
    DecidesExactly(be, plans, c, k, 0);
  }

  // --------------------------------------------------------------- the pages

  ghost predicate Table(plans: seq<Plan>, rows: seq<Hit>) {
    && (forall i :: 0 <= i < |rows| ==> Shaped(plans, rows[i]))
    && (forall i, j :: 0 <= i < j < |rows| ==> rows[i].versionId != rows[j].versionId)
  }

  predicate Shaped(plans: seq<Plan>, k: Hit) {
    |k.keys| == |plans| && forall i :: 0 <= i < |plans| && k.keys[i].Some? ==> HasType(k.keys[i].value, plans[i].ty)
  }

  function HitOrder(be: Backend, plans: seq<Plan>): (Hit, Hit) -> bool {
    (a: Hit, b: Hit) => |a.keys| == |b.keys| == |plans| && HitBefore(be, plans, a, b, 0)
  }

  function AdmittedBy(be: Backend, plans: seq<Plan>, c: From): Hit -> bool {
    (k: Hit) => |k.keys| == |plans| == |c.keys| && Admits(be, plans, k, c).True?
  }

  /** Every row in order; the rows of a page that continues after a cursor. */
  function Listed(be: Backend, plans: seq<Plan>, rows: seq<Hit>): seq<Hit> {
    Prelude.Sort(HitOrder(be, plans), rows)
  }

  function ListedAfter(be: Backend, plans: seq<Plan>, rows: seq<Hit>, c: From): seq<Hit> {
    Prelude.Sort(HitOrder(be, plans), Select(rows, AdmittedBy(be, plans, c)))
  }

  lemma {:induction false} HitIrreflexive(be: Backend, plans: seq<Plan>, a: Hit, i: nat)
    requires |a.keys| == |plans| && i <= |plans|
    ensures !HitBefore(be, plans, a, a, i)
    decreases |plans| - i
  {
    if i < |plans| { HitIrreflexive(be, plans, a, i + 1); }
  }

  lemma {:induction false} HitTransitive(be: Backend, plans: seq<Plan>, a: Hit, b: Hit, c: Hit, i: nat)
    requires |a.keys| == |b.keys| == |c.keys| == |plans| && i <= |plans|
    requires HitBefore(be, plans, a, b, i) && HitBefore(be, plans, b, c, i)
    ensures HitBefore(be, plans, a, c, i)
    decreases |plans| - i
  {
    if i < |plans| && KeySame(be, a.keys[i], b.keys[i]) && KeySame(be, b.keys[i], c.keys[i]) {
      HitTransitive(be, plans, a, b, c, i + 1);
    }
  }

  lemma {:induction false} HitTotal(be: Backend, plans: seq<Plan>, a: Hit, b: Hit, i: nat)
    requires |a.keys| == |b.keys| == |plans| && i <= |plans| && a.versionId != b.versionId
    ensures HitBefore(be, plans, a, b, i) || HitBefore(be, plans, b, a, i)
    decreases |plans| - i
  {
    if i < |plans| { HitTotal(be, plans, a, b, i + 1); }
  }

  lemma HitOrderStrict(be: Backend, plans: seq<Plan>)
    ensures StrictOrder(HitOrder(be, plans))
  {
    var less := HitOrder(be, plans);
    forall a ensures !less(a, a) {
      if |a.keys| == |plans| { HitIrreflexive(be, plans, a, 0); }
    }
    forall a, b, c | less(a, b) && less(b, c) ensures less(a, c) { HitTransitive(be, plans, a, b, c, 0); }
  }

  lemma ListedSorted(be: Backend, plans: seq<Plan>, rows: seq<Hit>)
    requires Table(plans, rows)
    ensures StrictOrder(HitOrder(be, plans)) && Comparable(HitOrder(be, plans), rows)
    ensures Sorted(HitOrder(be, plans), Listed(be, plans, rows))
    ensures forall k :: k in Listed(be, plans, rows) <==> k in rows
  {
    HitOrderStrict(be, plans);
    var less := HitOrder(be, plans);
    forall i, j | 0 <= i < j < |rows| ensures less(rows[i], rows[j]) || less(rows[j], rows[i]) {
      HitTotal(be, plans, rows[i], rows[j], 0);
    }
    SortSorted(less, rows);
    forall k ensures k in Listed(be, plans, rows) <==> k in rows { SortMember(less, rows, k); }
  }

  lemma AfterSorted(be: Backend, plans: seq<Plan>, rows: seq<Hit>, c: From)
    requires Table(plans, rows)
    ensures Sorted(HitOrder(be, plans), ListedAfter(be, plans, rows, c))
    ensures forall k :: k in ListedAfter(be, plans, rows, c) <==> k in rows && AdmittedBy(be, plans, c)(k)
  {
    ListedSorted(be, plans, rows);
    var less, admitted := HitOrder(be, plans), Select(rows, AdmittedBy(be, plans, c));
    SelectComparable(less, rows, AdmittedBy(be, plans, c));
    SortSorted(less, admitted);
    forall k ensures k in ListedAfter(be, plans, rows, c) <==> k in rows && AdmittedBy(be, plans, c)(k) {
      SortMember(less, admitted, k);
      SelectMember(rows, AdmittedBy(be, plans, c), k);
    }
  }

  /** The page after row `i` goes on where the rows do. */
  ghost predicate Continues(be: Backend, plans: seq<Plan>, rows: seq<Hit>, i: nat)
    requires i < |Listed(be, plans, rows)| && NonNull(Listed(be, plans, rows)[i])
  {
    var all := Listed(be, plans, rows);
    ListedAfter(be, plans, rows, FromOf(all[i])) == all[i + 1..]
  }

  /** It does so exactly when the cursor admits the later rows and no other. */
  lemma ContinuesExactly(be: Backend, plans: seq<Plan>, rows: seq<Hit>, i: nat)
    requires Table(plans, rows)
    requires i < |Listed(be, plans, rows)| && NonNull(Listed(be, plans, rows)[i])
    ensures var all := Listed(be, plans, rows);
            Continues(be, plans, rows, i) <==>
            forall j :: 0 <= j < |all| ==> (AdmittedBy(be, plans, FromOf(all[i]))(all[j]) <==> j > i)
  {
    hide HitOrder, AdmittedBy, ListedAfter, Listed;
    var all := Listed(be, plans, rows);
    var c := FromOf(all[i]);
    var admitted := AdmittedBy(be, plans, c);
    ListedSorted(be, plans, rows);
    AfterSorted(be, plans, rows, c);
    var after := ListedAfter(be, plans, rows, c);
    if forall j :: 0 <= j < |all| ==> (admitted(all[j]) <==> j > i) {
      forall k ensures k in after <==> k in all[i + 1..] {
        if k in after {
          var j :| 0 <= j < |all| && all[j] == k;
          assert all[i + 1..][j - i - 1] == k;
        }
      }
      SortedUnique(HitOrder(be, plans), after, all[i + 1..]);
    }
    if Continues(be, plans, rows, i) {
      forall j | 0 <= j < |all| ensures admitted(all[j]) <==> j > i {
        assert all[j] in all;
        SortedAt(be, plans, all, i, j);
      }
    }
  }

  lemma SortedAt(be: Backend, plans: seq<Plan>, all: seq<Hit>, i: nat, j: nat)
    requires StrictOrder(HitOrder(be, plans)) && Sorted(HitOrder(be, plans), all) && i < |all| && j < |all|
    ensures all[j] in all[i + 1..] <==> j > i
  {
    if j > i { assert all[i + 1..][j - i - 1] == all[j]; }
  }

  /** With sort keys: exactly when no later row sorts after for a NULL. */
  lemma {:induction false} ContinuesBySort(be: Backend, plans: seq<Plan>, rows: seq<Hit>, i: nat)
    requires Table(plans, rows) && plans != []
    requires i < |Listed(be, plans, rows)| && NonNull(Listed(be, plans, rows)[i])
    ensures var all := Listed(be, plans, rows);
            Continues(be, plans, rows, i) <==>
            forall j :: i < j < |all| ==> Shaped(plans, all[i]) && Shaped(plans, all[j]) && !LostToNull(be, plans, all[i], all[j], 0)
  {
    hide Listed, Admits, HitBefore, LostToNull, FromOf;
    var all := Listed(be, plans, rows);
    ListedSorted(be, plans, rows);
    ContinuesExactly(be, plans, rows, i);
    forall j | 0 <= j < |all| ensures Shaped(plans, all[j]) { assert all[j] in rows; }
    forall j | 0 <= j < |all|
      ensures AdmittedBy(be, plans, FromOf(all[i]))(all[j]) <==> j > i && !LostToNull(be, plans, all[i], all[j], 0)
    {
      FromShape(all[i]);
      AdmitsExactly(be, plans, all[i], all[j]);
      InOrder(be, plans, all, i, j);
    }
  }

  lemma FromShape(k: Hit)
    requires NonNull(k)
    ensures |FromOf(k).keys| == |k.keys|
  {
  }

  lemma {:induction false} HitAsymmetric(be: Backend, plans: seq<Plan>, a: Hit, b: Hit)
    requires |a.keys| == |b.keys| == |plans| && HitBefore(be, plans, a, b, 0)
    ensures !HitBefore(be, plans, b, a, 0)
  {
    HitIrreflexive(be, plans, a, 0);
    if HitBefore(be, plans, b, a, 0) { HitTransitive(be, plans, a, b, a, 0); }
  }

  lemma {:induction false} InOrder(be: Backend, plans: seq<Plan>, all: seq<Hit>, i: nat, j: nat)
    requires StrictOrder(HitOrder(be, plans)) && Sorted(HitOrder(be, plans), all) && i < |all| && j < |all|
    requires |all[i].keys| == |all[j].keys| == |plans|
    ensures HitBefore(be, plans, all[i], all[j], 0) <==> i < j
  {
    hide HitBefore;
    var less := HitOrder(be, plans);
    HitIrreflexive(be, plans, all[i], 0);
    if i < j { assert less(all[i], all[j]); }
    if i > j {
      assert less(all[j], all[i]);
      HitAsymmetric(be, plans, all[j], all[i]);
    }
  }

  /** `created_at` and `version_id` put the rows in the same order. */
  ghost predicate OrdersAgree(rows: seq<Hit>) {
    forall a, b :: a in rows && b in rows && a.createdAt > b.createdAt ==> a.versionId > b.versionId
  }

  /** Without a sort a cursor admits the rows of lower `version_id`. */
  lemma AdmitsByAge(be: Backend, c: Hit, k: Hit)
    requires c.keys == [] && k.keys == []
    ensures AdmittedBy(be, [], FromOf(c))(k) <==> k.versionId < c.versionId
  {
  }

  lemma {:induction false} ByAge(be: Backend, a: Hit, b: Hit)
    requires a.keys == [] && b.keys == []
    ensures HitBefore(be, [], a, b, 0) <==>
            a.createdAt > b.createdAt || (a.createdAt == b.createdAt && a.versionId > b.versionId)
  {
  }

  ghost predicate AllContinue(be: Backend, plans: seq<Plan>, rows: seq<Hit>) {
    forall i :: 0 <= i < |Listed(be, plans, rows)| ==>
      NonNull(Listed(be, plans, rows)[i]) && Continues(be, plans, rows, i)
  }

  /** The list runs by falling `version_id`. */
  ghost predicate Falling(all: seq<Hit>) {
    forall i, j :: 0 <= i < |all| && 0 <= j < |all| ==> (all[j].versionId < all[i].versionId <==> j > i)
  }

  lemma ContinueFalling(be: Backend, rows: seq<Hit>)
    requires Table([], rows)
    ensures AllContinue(be, [], rows) <==> Falling(Listed(be, [], rows))
  {
    hide Listed, HitOrder, Continues, AdmittedBy;
    var all := Listed(be, [], rows);
    ListedSorted(be, [], rows);
    forall i | 0 <= i < |all| ensures all[i].keys == [] && NonNull(all[i]) { assert all[i] in rows; }
    forall i | 0 <= i < |all|
      ensures Continues(be, [], rows, i) <==>
              forall j :: 0 <= j < |all| ==> (all[j].versionId < all[i].versionId <==> j > i)
    {
      ContinuesExactly(be, [], rows, i);
      forall j | 0 <= j < |all| ensures AdmittedBy(be, [], FromOf(all[i]))(all[j]) <==> all[j].versionId < all[i].versionId {
        AdmitsByAge(be, all[i], all[j]);
      }
    }
  }

  lemma AgreeFalling(be: Backend, rows: seq<Hit>)
    requires Table([], rows)
    ensures Falling(Listed(be, [], rows)) <==> OrdersAgree(rows)
  {
    hide Listed, HitBefore;
    var all := Listed(be, [], rows);
    ListedSorted(be, [], rows);
    forall i | 0 <= i < |all| ensures all[i].keys == [] { assert all[i] in rows; }
    forall i, j | 0 <= i < |all| && 0 <= j < |all|
      ensures i < j <==> all[i].createdAt > all[j].createdAt || (all[i].createdAt == all[j].createdAt && all[i].versionId > all[j].versionId)
    {
      InOrder(be, [], all, i, j);
      ByAge(be, all[i], all[j]);
    }
    if Falling(all) {
      forall a, b | a in rows && b in rows && a.createdAt > b.createdAt ensures a.versionId > b.versionId {
        assert a in all && b in all;
        var i :| 0 <= i < |all| && all[i] == a;
        var j :| 0 <= j < |all| && all[j] == b;
        assert i < j;
      }
    }
    if OrdersAgree(rows) {
      forall i, j | 0 <= i < |all| && 0 <= j < |all| ensures all[j].versionId < all[i].versionId <==> j > i {
        assert all[i] in rows && all[j] in rows;
      }
    }
  }

  /** Without a sort every page continues exactly when the two orders agree: the
      predicate compares `version_id` alone. */
  lemma ContinuesByAge(be: Backend, rows: seq<Hit>)
    requires Table([], rows)
    ensures AllContinue(be, [], rows) <==> OrdersAgree(rows)
  {
    ContinueFalling(be, rows);
    AgreeFalling(be, rows);
  }

  // ------------------------------------------------------------- the cursor

  function CursorOf(be: Backend, k: Hit): Cursor {
    Cursor(Map((v: Option<Sql.Value>) => ReadKey(be, v), k.keys), k.versionId)
  }

  function KeyValuesOf(be: Backend, plans: seq<Plan>, keys: seq<Json>, n: nat): Rendered<seq<Sql.Value>>
    requires |keys| == |plans| && n <= |plans|
  {
    if n == 0 then Ok([])
    else
      var front := KeyValuesOf(be, plans, keys, n - 1);
      if front.Err? then front
      else
        var v := KeyValue(be, plans[n - 1].ty, keys[n - 1]);
        if v.Err? then Err(v.error) else Ok(front.value + [v.value])
  }

  function Decode(be: Backend, plans: seq<Plan>, cursor: Cursor): Rendered<From> {
    if |cursor.keys| != |plans| then Err(CursorShape)
    else
      var vs := KeyValuesOf(be, plans, cursor.keys, |plans|);
      if vs.Err? then Err(vs.error) else Ok(From(vs.value, cursor.versionId))
  }

  method DecodeCursor(be: Backend, plans: seq<Plan>, cursor: Cursor) returns (r: Rendered<From>)
    ensures r == Decode(be, plans, cursor)
  {
    if |cursor.keys| != |plans| {
      return Err(CursorShape);
    }
    var vs: seq<Sql.Value> := [];
    for i := 0 to |plans|
      invariant KeyValuesOf(be, plans, cursor.keys, i) == Ok(vs)
    {
      var v := KeyValue(be, plans[i].ty, cursor.keys[i]);
      if v.Err? {
        FirstError(be, plans, cursor.keys, i, |plans|);
        return Err(v.error);
      }
      vs := vs + [v.value];
    }
    r := Ok(From(vs, cursor.versionId));
  }

  lemma {:induction false} FirstError(be: Backend, plans: seq<Plan>, keys: seq<Json>, i: nat, n: nat)
    requires |keys| == |plans| && i < n <= |plans|
    requires KeyValuesOf(be, plans, keys, i).Ok? && KeyValue(be, plans[i].ty, keys[i]).Err?
    ensures KeyValuesOf(be, plans, keys, n) == Err(KeyValue(be, plans[i].ty, keys[i]).error)
  {
    if i < n - 1 { FirstError(be, plans, keys, i, n - 1); }
  }

  lemma KeyReadsBack(be: Backend, ty: KeyType, v: Option<Sql.Value>)
    requires be.Sound() && (v.Some? ==> HasType(v.value, ty))
    ensures KeyValue(be, ty, ReadKey(be, v)) == if v.Some? then Ok(v.value) else Err(BadLiteral)
  {
    if v.Some? && v.value.VTime? { assert be.readTime(be.showTime(v.value.t)) == Some(v.value.t); }
  }

  lemma {:induction false} KeysReadBack(be: Backend, plans: seq<Plan>, k: Hit, n: nat)
    requires be.Sound() && Shaped(plans, k) && n <= |plans|
    ensures var r := KeyValuesOf(be, plans, CursorOf(be, k).keys, n);
            && (r.Ok? <==> forall i :: 0 <= i < n ==> k.keys[i].Some?)
            && (r.Ok? ==> |r.value| == n && forall i :: 0 <= i < n ==> r.value[i] == k.keys[i].value)
            && (r.Err? ==> r.error == BadLiteral)
  {
    hide Backend.Sound;
    if n > 0 {
      KeysReadBack(be, plans, k, n - 1);
      KeyReadsBack(be, plans[n - 1].ty, k.keys[n - 1]);
    }
  }

  /** The cursor of a row is refused exactly when one of its keys is NULL. */
  lemma CursorUsable(be: Backend, plans: seq<Plan>, k: Hit)
    requires be.Sound() && Shaped(plans, k)
    ensures Decode(be, plans, CursorOf(be, k)).Ok? <==> NonNull(k)
    ensures NonNull(k) ==> Decode(be, plans, CursorOf(be, k)) == Ok(FromOf(k))
    ensures !NonNull(k) ==> Decode(be, plans, CursorOf(be, k)) == Err(BadLiteral)
  {
    hide Backend.Sound;
    KeysReadBack(be, plans, k, |plans|);
    if NonNull(k) {
      assert KeyValuesOf(be, plans, CursorOf(be, k).keys, |plans|).value == FromOf(k).keys;
    }
  }

  // -------------------------------------------------------------- the walk

  /** `run`, its sorts planned. */
  method FetchPage(be: Backend, plans: seq<Plan>, rows: seq<Hit>, cursor: Option<Cursor>, limit: nat)
    returns (r: Rendered<(seq<Hit>, Option<Cursor>)>)
    requires limit >= 1
    ensures cursor.None? ==> r.Ok? && IsPage(be, Listed(be, plans, rows), limit, r.value.0, r.value.1)
    ensures cursor.Some? ==> (r.Ok? <==> Decode(be, plans, cursor.value).Ok?)
    ensures cursor.Some? && r.Ok? ==>
              IsPage(be, ListedAfter(be, plans, rows, Decode(be, plans, cursor.value).value), limit, r.value.0, r.value.1)
  {
    hide Listed, ListedAfter, Decode;
    var found: seq<Hit>;
    if cursor.None? {
      found := Prelude.Take(Listed(be, plans, rows), limit + 1);
    } else {
      var start := DecodeCursor(be, plans, cursor.value);
      if start.Err? {
        return Err(start.error);
      }
      found := Prelude.Take(ListedAfter(be, plans, rows, start.value), limit + 1);
    }
    var hits := Prelude.Take(found, limit);
    r := Ok((hits, if |found| > limit then Some(CursorOf(be, hits[|hits| - 1])) else None));
  }

  ghost predicate IsPage(be: Backend, rows: seq<Hit>, limit: nat, hits: seq<Hit>, next: Option<Cursor>)
    requires limit >= 1
  {
    && hits == Prelude.Take(rows, limit)
    && next == if |rows| > limit then Some(CursorOf(be, rows[limit - 1])) else None
  }

  /** Every row but the last can be continued from. */
  ghost predicate Unbroken(be: Backend, plans: seq<Plan>, rows: seq<Hit>) {
    forall i :: 0 <= i < |Listed(be, plans, rows)| - 1 ==>
      NonNull(Listed(be, plans, rows)[i]) && Continues(be, plans, rows, i)
  }

  /** A row that another follows has no NULL key, and none follows it for a NULL. */
  ghost predicate NeverLost(be: Backend, plans: seq<Plan>, rows: seq<Hit>)
    requires Table(plans, rows)
  {
    forall a, b :: a in rows && b in rows && HitBefore(be, plans, a, b, 0) ==> NonNull(a) && !LostToNull(be, plans, a, b, 0)
  }

  ghost predicate NoNulls(rows: seq<Hit>) {
    forall k :: k in rows ==> NonNull(k)
  }

  lemma {:induction false} NoLoss(be: Backend, plans: seq<Plan>, c: Hit, k: Hit, i: nat)
    requires |c.keys| == |k.keys| == |plans| && i <= |plans| && NonNull(k)
    ensures !LostToNull(be, plans, c, k, i)
    decreases |plans| - i
  {
    if i < |plans| { NoLoss(be, plans, c, k, i + 1); }
  }

  /** With sort keys the walk is unbroken exactly when no row is ever lost. */
  lemma {:induction false} UnbrokenBySort(be: Backend, plans: seq<Plan>, rows: seq<Hit>)
    requires Table(plans, rows) && plans != []
    ensures Unbroken(be, plans, rows) <==> NeverLost(be, plans, rows)
  {
    hide Listed, HitBefore, LostToNull, Continues, HitOrder, NonNull;
    var all := Listed(be, plans, rows);
    ListedSorted(be, plans, rows);
    forall i | 0 <= i < |all| ensures all[i] in rows && Shaped(plans, all[i]) { assert all[i] in all; }
    forall i, j | 0 <= i < |all| && 0 <= j < |all| ensures HitBefore(be, plans, all[i], all[j], 0) <==> i < j {
      InOrder(be, plans, all, i, j);
    }
    forall i | 0 <= i < |all| && NonNull(all[i])
      ensures Continues(be, plans, rows, i) <==> forall j :: i < j < |all| ==> !LostToNull(be, plans, all[i], all[j], 0)
    {
      ContinuesBySort(be, plans, rows, i);
    }
    if Unbroken(be, plans, rows) {
      forall a, b | a in rows && b in rows && HitBefore(be, plans, a, b, 0)
        ensures NonNull(a) && !LostToNull(be, plans, a, b, 0)
      {
        assert a in all && b in all;
        var i :| 0 <= i < |all| && all[i] == a;
        var j :| 0 <= j < |all| && all[j] == b;
      }
    }
    if NeverLost(be, plans, rows) {
      forall i | 0 <= i < |all| - 1 ensures NonNull(all[i]) && Continues(be, plans, rows, i) {
        assert HitBefore(be, plans, all[i], all[i + 1], 0);
      }
    }
  }

  /** So it is unbroken wherever no sort key is NULL. */
  lemma SortedUnbroken(be: Backend, plans: seq<Plan>, rows: seq<Hit>)
    requires Table(plans, rows) && plans != [] && NoNulls(rows)
    ensures NeverLost(be, plans, rows) && Unbroken(be, plans, rows)
  {
    hide HitBefore, LostToNull, Unbroken;
    forall a, b | a in rows && b in rows ensures !LostToNull(be, plans, a, b, 0) { NoLoss(be, plans, a, b, 0); }
    UnbrokenBySort(be, plans, rows);
  }

  /** Without sort keys, exactly where the two orders agree: the last row, which
      nothing follows, makes no difference. */
  lemma UnbrokenByAge(be: Backend, rows: seq<Hit>)
    requires Table([], rows)
    ensures Unbroken(be, [], rows) <==> OrdersAgree(rows)
  {
    hide Listed, HitOrder, Continues, AdmittedBy, OrdersAgree;
    ContinuesByAge(be, rows);
    var all := Listed(be, [], rows);
    ListedSorted(be, [], rows);
    forall i | 0 <= i < |all| ensures all[i].keys == [] && NonNull(all[i]) { assert all[i] in rows; }
    forall i | 0 <= i < |all|
      ensures Continues(be, [], rows, i) <==>
              forall j :: 0 <= j < |all| ==> (all[j].versionId < all[i].versionId <==> j > i)
    {
      ContinuesExactly(be, [], rows, i);
      forall j | 0 <= j < |all| ensures AdmittedBy(be, [], FromOf(all[i]))(all[j]) <==> all[j].versionId < all[i].versionId {
        AdmitsByAge(be, all[i], all[j]);
      }
    }
    if Unbroken(be, [], rows) && all != [] {
      var last := |all| - 1;
      forall j | 0 <= j < last ensures !(all[j].versionId < all[last].versionId) {
        assert Continues(be, [], rows, j);
      }
      assert Continues(be, [], rows, last);
    }
  }

  /** What a caller can see of the rows: with sort keys that none is lost to a
      NULL, without them that the two orders agree. */
  ghost predicate Walkable(be: Backend, plans: seq<Plan>, rows: seq<Hit>)
    requires Table(plans, rows)
  {
    if plans == [] then OrdersAgree(rows) else NeverLost(be, plans, rows)
  }

  /** Over such rows the pages put together are all of them, in order. */
  method FollowCursors(be: Backend, plans: seq<Plan>, rows: seq<Hit>, limit: nat) returns (hits: seq<Hit>)
    requires be.Sound() && Table(plans, rows) && limit >= 1 && Walkable(be, plans, rows)
    ensures hits == Listed(be, plans, rows)
  {
    hide Backend.Sound, Listed, ListedAfter, Decode, CursorOf, Table, Unbroken, FromOf, NeverLost, OrdersAgree;
    if plans == [] { UnbrokenByAge(be, rows); } else { UnbrokenBySort(be, plans, rows); }
    ghost var all := Listed(be, plans, rows);
    var fetched := FetchPage(be, plans, rows, None, limit);
    var page, next := fetched.value.0, fetched.value.1;
    hits := [];
    while next.Some?
      invariant |hits| <= |all| && hits == all[..|hits|]
      invariant IsPage(be, all[|hits|..], limit, page, next)
      decreases |all| - |hits|
    {
      ghost var at := |hits|;
      hits := hits + page;
      assert hits == all[..at + limit];
      NextPage(be, plans, rows, at + limit - 1);
      fetched := FetchPage(be, plans, rows, next, limit);
      page, next := fetched.value.0, fetched.value.1;
    }
    hits := hits + page;
  }

  lemma NextPage(be: Backend, plans: seq<Plan>, rows: seq<Hit>, i: nat)
    requires be.Sound() && Table(plans, rows) && Unbroken(be, plans, rows)
    requires i < |Listed(be, plans, rows)| - 1
    ensures var all := Listed(be, plans, rows);
            && Decode(be, plans, CursorOf(be, all[i])).Ok?
            && ListedAfter(be, plans, rows, Decode(be, plans, CursorOf(be, all[i])).value) == all[i + 1..]
  {
    hide Backend.Sound, Listed, ListedAfter, Decode, CursorOf, FromOf;
    var all := Listed(be, plans, rows);
    ListedSorted(be, plans, rows);
    assert all[i] in rows;
    CursorUsable(be, plans, all[i]);
  }

  // ---------------------------------------------------------- where it fails

  /** One ascending number; of two hits the second has none. */
  const BY_NUMBER := [Plan(Asc, KNumber)]

  const NUMBERED := Hit([Some(VNum(1))], 0, 1)

  const UNNUMBERED := Hit([None], 0, 2)

  /** The page after the first is empty, and the second is never seen. */
  lemma {:induction false} NullIsLost(be: Backend)
    ensures Table(BY_NUMBER, [NUMBERED, UNNUMBERED])
    ensures Listed(be, BY_NUMBER, [NUMBERED, UNNUMBERED]) == [NUMBERED, UNNUMBERED]
    ensures ListedAfter(be, BY_NUMBER, [NUMBERED, UNNUMBERED], FromOf(NUMBERED)) == []
  {
    var rows := [NUMBERED, UNNUMBERED];
    assert HitBefore(be, BY_NUMBER, NUMBERED, UNNUMBERED, 0);
    TwoInOrder(be, BY_NUMBER, rows);
    assert LostToNull(be, BY_NUMBER, NUMBERED, UNNUMBERED, 0);
    NothingAfter(be, BY_NUMBER, rows);
  }

  /** And a page that ended with it would give a cursor no one can use. */
  lemma NullCursorIsRefused(be: Backend)
    requires be.Sound()
    ensures Decode(be, BY_NUMBER, CursorOf(be, UNNUMBERED)) == Err(BadLiteral)
  {
    hide Backend.Sound;
    CursorUsable(be, BY_NUMBER, UNNUMBERED);
    assert !NonNull(UNNUMBERED) by { assert UNNUMBERED.keys[0].None?; }
  }

  /** A version written later under a lower id. */
  const NEWER := Hit([], 2, 1)

  const OLDER := Hit([], 1, 2)

  /** Without a sort the page after the newer of the two is empty. */
  lemma {:induction false} OlderIsLost(be: Backend)
    ensures Table([], [NEWER, OLDER])
    ensures Listed(be, [], [NEWER, OLDER]) == [NEWER, OLDER]
    ensures ListedAfter(be, [], [NEWER, OLDER], FromOf(NEWER)) == []
  {
    var rows := [NEWER, OLDER];
    assert HitBefore(be, [], NEWER, OLDER, 0);
    TwoInOrder(be, [], rows);
    AdmitsByAge(be, NEWER, OLDER);
    AdmitsByAge(be, NEWER, NEWER);
    NoneAdmitted(be, [], rows);
  }

  lemma {:induction false} TwoInOrder(be: Backend, plans: seq<Plan>, rows: seq<Hit>)
    requires Table(plans, rows) && |rows| == 2 && HitBefore(be, plans, rows[0], rows[1], 0)
    ensures Listed(be, plans, rows) == rows
  {
    hide Listed, HitBefore;
    ListedSorted(be, plans, rows);
    assert Sorted(HitOrder(be, plans), rows);
    SortedUnique(HitOrder(be, plans), Listed(be, plans, rows), rows);
  }

  lemma NoneAdmitted(be: Backend, plans: seq<Plan>, rows: seq<Hit>)
    requires Table(plans, rows) && rows != [] && NonNull(rows[0])
    requires forall k :: k in rows ==> !AdmittedBy(be, plans, FromOf(rows[0]))(k)
    ensures ListedAfter(be, plans, rows, FromOf(rows[0])) == []
  {
    hide ListedAfter, AdmittedBy;
    AfterSorted(be, plans, rows, FromOf(rows[0]));
    var after := ListedAfter(be, plans, rows, FromOf(rows[0]));
    HitOrderStrict(be, plans);
    SortedUnique(HitOrder(be, plans), after, []);
  }

  lemma {:induction false} NothingAfter(be: Backend, plans: seq<Plan>, rows: seq<Hit>)
    requires Table(plans, rows) && plans != [] && |rows| == 2 && NonNull(rows[0])
    requires LostToNull(be, plans, rows[0], rows[1], 0)
    ensures ListedAfter(be, plans, rows, FromOf(rows[0])) == []
  {
    hide ListedAfter, Admits, LostToNull, HitBefore;
    FromShape(rows[0]);
    AdmitsExactly(be, plans, rows[0], rows[0]);
    AdmitsExactly(be, plans, rows[0], rows[1]);
    HitIrreflexive(be, plans, rows[0], 0);
    NoneAdmitted(be, plans, rows);
  }
}
