/** The versions of one record (`evalhub-store/src/records.rs`): appended under
    the record lock, labelled, tombstoned. */
module Versions {
  import opened Prelude
  import opened Json
  import opened Text

  datatype Version = Version(seqNo: nat, mark: Option<string>, contentHash: Digest, body: Option<Json>, changed: seq<string>)

  // ------------------------------------------------------------ changed keys

  function FieldsOf(body: Option<Json>): map<string, Json> {
    if body.Some? && body.value.JObj? then body.value.fields else map[]
  }

  predicate Differs(a: map<string, Json>, b: map<string, Json>, k: string) {
    if k in a && k in b then a[k] != b[k] else k in a || k in b
  }

  /** The keys on either side whose values differ. */
  function DifferingKeys(a: map<string, Json>, b: map<string, Json>): set<string> {
    set k | k in a.Keys + b.Keys && Differs(a, b, k)
  }

  function Deduped(xs: seq<string>): seq<string> {
    if |xs| < 2 then xs
    else if xs[0] == xs[1] then Deduped(xs[1..])
    else [xs[0]] + Deduped(xs[1..])
  }

  ghost predicate Ordered(xs: seq<string>) {
    forall i, j :: 0 <= i < j < |xs| ==> !StrLess(xs[j], xs[i])
  }

  lemma {:induction false} InsertOrdered(x: string, xs: seq<string>)
    requires Ordered(xs)
    ensures Ordered(Insert(StrLess, x, xs))
  {
    if xs != [] {
      if StrLess(xs[0], x) {
        InsertOrdered(x, xs[1..]);
        var r := Insert(StrLess, x, xs[1..]);
        forall j | 0 <= j < |r| ensures !StrLess(r[j], xs[0]) {
          InsertMember(StrLess, x, xs[1..], r[j]);
          StrTrichotomy(xs[0], x);
          if r[j] != x {
            var k :| 0 <= k < |xs[1..]| && xs[1..][k] == r[j];
            assert xs[k + 1] == r[j];
          }
        }
      } else {
        forall j | 0 <= j < |xs| ensures !StrLess(xs[j], x) {
          if StrLess(xs[j], x) {
            StrTrichotomy(xs[0], xs[j]);
            if StrLess(xs[0], xs[j]) { StrTransitive(xs[0], xs[j], x); }
          }
        }
      }
    }
  }

  lemma {:induction false} SortOrdered(xs: seq<string>)
    ensures Ordered(Sort(StrLess, xs))
  {
    if xs != [] {
      SortOrdered(xs[1..]);
      InsertOrdered(xs[0], Sort(StrLess, xs[1..]));
    }
  }

  lemma {:induction false} DedupedExact(xs: seq<string>)
    requires Ordered(xs)
    ensures Sorted(StrLess, Deduped(xs))
    ensures forall k :: k in Deduped(xs) <==> k in xs
  {
    if |xs| >= 2 {
      DedupedExact(xs[1..]);
      assert forall k :: k in xs <==> k == xs[0] || k in xs[1..];
      if xs[0] != xs[1] {
        var rest := Deduped(xs[1..]);
        forall j | 0 <= j < |rest| ensures StrLess(xs[0], rest[j]) {
          assert rest[j] in xs[1..];
          var k :| 0 <= k < |xs[1..]| && xs[1..][k] == rest[j];
          StrTrichotomy(xs[0], xs[1]);
          StrTrichotomy(xs[1], xs[k + 1]);
          if k > 0 && xs[1] != xs[k + 1] { StrTransitive(xs[0], xs[1], xs[k + 1]); }
        }
      }
    }
  }

  method KeepDiffering(keys: seq<string>, a: map<string, Json>, b: map<string, Json>, found0: seq<string>) returns (found: seq<string>)
    ensures forall k :: k in found <==> k in found0 || (k in keys && Differs(a, b, k))
  {
    found := found0;
    for i := 0 to |keys|
      invariant forall k :: k in found <==> k in found0 || (k in keys[..i] && Differs(a, b, k))
    {
      assert keys[..i + 1] == keys[..i] + [keys[i]];
      if Differs(a, b, keys[i]) {
        found := found + [keys[i]];
      }
    }
    assert keys[..|keys|] == keys;
  }

  /** `changed_keys`: the keys of both bodies, those that differ, sorted, each once. */
  method ChangedKeys(previous: Option<Json>, next: Json) returns (keys: seq<string>)
    ensures keys == Ascending(DifferingKeys(FieldsOf(previous), FieldsOf(Some(next))))
  {
    var a, b := FieldsOf(previous), FieldsOf(Some(next));
    var found := KeepDiffering(Ascending(a.Keys), a, b, []);
    found := KeepDiffering(Ascending(b.Keys), a, b, found);
    keys := Deduped(Sort(StrLess, found));
    SortOrdered(found);
    DedupedExact(Sort(StrLess, found));
    forall k ensures k in keys <==> k in DifferingKeys(a, b) { SortMember(StrLess, found, k); }
    AscendingSorted(DifferingKeys(a, b));
    StrOrder();
    SortedUnique(StrLess, keys, Ascending(DifferingKeys(a, b)));
  }

  // ----------------------------------------------------------------- queries

  /** The live version of the highest seq. */
  function Latest(vs: seq<Version>): Option<Version> {
    if vs == [] then None
    else
      var rest := Latest(vs[..|vs| - 1]);
      var last := vs[|vs| - 1];
      if last.body.None? || (rest.Some? && rest.value.seqNo > last.seqNo) then rest else Some(last)
  }

  function MaxSeq(vs: seq<Version>): nat {
    if vs == [] then 0
    else if vs[|vs| - 1].seqNo > MaxSeq(vs[..|vs| - 1]) then vs[|vs| - 1].seqNo else MaxSeq(vs[..|vs| - 1])
  }

  predicate HasMark(vs: seq<Version>, mark: string) {
    exists i :: 0 <= i < |vs| && vs[i].mark == Some(mark)
  }

  predicate HasSeq(vs: seq<Version>, n: nat) {
    exists i :: 0 <= i < |vs| && vs[i].seqNo == n
  }

  // -------------------------------------------------------------- operations

  datatype PostResult = Existing(version: Version) | Created(version: Version) | NotAdmitted | LabelInUse

  /** `create_or_append`; `admitted` says that the attachments and the Card's runs
      are in order. */
  function Post(vs: seq<Version>, body: Json, mark: Option<string>, admitted: bool): (PostResult, seq<Version>) {
    var latest := Latest(vs);
    if latest.Some? && latest.value.contentHash == Sha256(body) then (Existing(latest.value), vs)
    else if !admitted then (NotAdmitted, vs)
    else if mark.Some? && HasMark(vs, mark.value) then (LabelInUse, vs)
    else
      var previous := if latest.Some? then latest.value.body else None;
      var v := Version(MaxSeq(vs) + 1, mark, Sha256(body), Some(body),
                       Ascending(DifferingKeys(FieldsOf(previous), FieldsOf(Some(body)))));
      (Created(v), vs + [v])
  }

  datatype EditResult = Done | LabelInvalid | VersionNotFound | AlreadyTombstoned

  predicate BadLabel(mark: string) {
    forall c :: c in mark ==> '0' <= c <= '9'
  }

  function Relabelled(v: Version, n: nat, mark: string): Version {
    if v.seqNo == n then v.(mark := Some(mark)) else if v.mark == Some(mark) then v.(mark := None) else v
  }

  /** `set_label`: taken from whichever version held it. */
  function SetLabel(vs: seq<Version>, n: nat, mark: string): (EditResult, seq<Version>) {
    if BadLabel(mark) then (LabelInvalid, vs)
    else if !HasSeq(vs, n) then (VersionNotFound, vs)
    else (Done, Map((v: Version) => Relabelled(v, n, mark), vs))
  }

  function Buried(v: Version, n: nat): Version {
    if v.seqNo == n then v.(body := None) else v
  }

  /** `tombstone` */
  function Tombstone(vs: seq<Version>, n: nat): (EditResult, seq<Version>) {
    if exists i :: 0 <= i < |vs| && vs[i].seqNo == n && vs[i].body.Some?
    then (Done, Map((v: Version) => Buried(v, n), vs))
    else (if HasSeq(vs, n) then AlreadyTombstoned else VersionNotFound, vs)
  }

  datatype Op =
    | PostOp(body: Json, mark: Option<string>, admitted: bool)
    | LabelOp(seqNo: nat, to: string)
    | TombstoneOp(which: nat)

  function Step(vs: seq<Version>, op: Op): seq<Version> {
    match op
    case PostOp(body, mark, admitted) => Post(vs, body, mark, admitted).1
    case LabelOp(n, mark) => SetLabel(vs, n, mark).1
    case TombstoneOp(n) => Tombstone(vs, n).1
  }

  function After(vs: seq<Version>, ops: seq<Op>): seq<Version>
    decreases |ops|
  {
    if ops == [] then vs else After(Step(vs, ops[0]), ops[1..])
  }

  // --------------------------------------------------------------- invariant

  /** Seqs are 1 to n in append order; each label names one version; a live
      version's hash is the hash of its body. */
  ghost predicate Good(vs: seq<Version>) {
    && (forall i :: 0 <= i < |vs| ==> vs[i].seqNo == i + 1)
    && (forall i, j :: 0 <= i < j < |vs| && vs[i].mark.Some? ==> vs[i].mark != vs[j].mark)
    && (forall i :: 0 <= i < |vs| && vs[i].body.Some? ==> vs[i].contentHash == Sha256(vs[i].body.value))
  }

  /** A version once appended keeps its seq, its hash and its changed keys, and
      its body until it is tombstoned. */
  ghost predicate Kept(vs: seq<Version>, now: seq<Version>) {
    && |vs| <= |now|
    && forall i :: 0 <= i < |vs| ==>
         && now[i].seqNo == vs[i].seqNo && now[i].contentHash == vs[i].contentHash && now[i].changed == vs[i].changed
         && (now[i].body == vs[i].body || now[i].body.None?)
  }

  lemma {:induction false} MaxSeqIs(vs: seq<Version>)
    requires forall i :: 0 <= i < |vs| ==> vs[i].seqNo == i + 1
    ensures MaxSeq(vs) == |vs|
  {
    if vs != [] { MaxSeqIs(vs[..|vs| - 1]); }
  }

  /** The latest is the live version no live version comes after. */
  lemma {:induction false} LatestIsHighest(vs: seq<Version>)
    requires forall i :: 0 <= i < |vs| ==> vs[i].seqNo == i + 1
    ensures Latest(vs).None? <==> forall i :: 0 <= i < |vs| ==> vs[i].body.None?
    ensures Latest(vs).Some? ==>
              var v := Latest(vs).value;
              && 1 <= v.seqNo <= |vs| && vs[v.seqNo - 1] == v && v.body.Some?
              && forall i :: v.seqNo <= i < |vs| ==> vs[i].body.None?
  {
    if vs != [] { LatestIsHighest(vs[..|vs| - 1]); }
  }

  lemma PostGood(vs: seq<Version>, body: Json, mark: Option<string>, admitted: bool)
    requires Good(vs)
    ensures Good(Post(vs, body, mark, admitted).1) && Kept(vs, Post(vs, body, mark, admitted).1)
  {
    hide DifferingKeys, Ascending, Latest, MaxSeq;
    MaxSeqIs(vs);
  }

  lemma LabelGood(vs: seq<Version>, n: nat, mark: string)
    requires Good(vs)
    ensures Good(SetLabel(vs, n, mark).1) && Kept(vs, SetLabel(vs, n, mark).1)
  {
    hide BadLabel;
  }

  lemma TombstoneGood(vs: seq<Version>, n: nat)
    requires Good(vs)
    ensures Good(Tombstone(vs, n).1) && Kept(vs, Tombstone(vs, n).1)
  {
  }

  lemma StepGood(vs: seq<Version>, op: Op)
    requires Good(vs)
    ensures Good(Step(vs, op)) && Kept(vs, Step(vs, op))
  {
    hide Good, Kept, Post, SetLabel, Tombstone;
    match op
    case PostOp(body, mark, admitted) => PostGood(vs, body, mark, admitted);
    case LabelOp(n, mark) => LabelGood(vs, n, mark);
    case TombstoneOp(n) => TombstoneGood(vs, n);
  }

  /** Over any history the invariant holds and no version is lost or rewritten. */
  lemma {:induction false} HistoryGood(vs: seq<Version>, ops: seq<Op>)
    requires Good(vs)
    ensures Good(After(vs, ops)) && Kept(vs, After(vs, ops))
    decreases |ops|
  {
    hide Step, Good;
    if ops != [] {
      StepGood(vs, ops[0]);
      HistoryGood(Step(vs, ops[0]), ops[1..]);
    }
  }

  /** Posting what the latest version says writes nothing; anything else admitted
      under a free label is appended, and a second post of it writes nothing. */
  lemma {:induction false} PostIsIdempotent(vs: seq<Version>, body: Json, mark: Option<string>, admitted: bool, again: Option<string>, later: bool)
    requires Good(vs)
    ensures var (r, now) := Post(vs, body, mark, admitted);
            && (r.Existing? <==> Latest(vs).Some? && Latest(vs).value.body == Some(body))
            && (r.Created? <==> now != vs)
            && (r.Created? || r.Existing? ==> Post(now, body, again, later) == (Existing(r.version), now))
  {
    hide DifferingKeys, Ascending, Latest, MaxSeq;
    var (r, now) := Post(vs, body, mark, admitted);
    LatestIsHighest(vs);
    StepGood(vs, PostOp(body, mark, admitted));
    LatestIsHighest(now);
    if r.Created? { assert now[|vs|] == r.version; }
  }

  // ------------------------------------------------------------------- class

  class Record {
    var versions: seq<Version>

    constructor ()
      ensures versions == []
    {
      versions := [];
    }

    method Append(body: Json, mark: Option<string>, admitted: bool) returns (r: PostResult)
      modifies this
      ensures (r, versions) == Post(old(versions), body, mark, admitted)
    {
      var latest := Latest(versions);
      if latest.Some? && latest.value.contentHash == Sha256(body) {
        return Existing(latest.value);
      }
      if !admitted {
        return NotAdmitted;
      }
      var n := MaxSeq(versions) + 1;
      var changed := ChangedKeys(if latest.Some? then latest.value.body else None, body);
      if mark.Some? && HasMark(versions, mark.value) {
        return LabelInUse;
      }
      var v := Version(n, mark, Sha256(body), Some(body), changed);
      versions := versions + [v];
      r := Created(v);
    }

    /** The label is taken from its holder before the version is looked for; a
        missing version undoes it. */
    method Label(n: nat, mark: string) returns (r: EditResult)
      modifies this
      ensures (r, versions) == SetLabel(old(versions), n, mark)
    {
      if BadLabel(mark) {
        return LabelInvalid;
      }
      var before := versions;
      versions := Map((v: Version) => if v.mark == Some(mark) then v.(mark := None) else v, versions);
      if !HasSeq(versions, n) {
        assert forall i :: 0 <= i < |before| ==> versions[i].seqNo == before[i].seqNo;
        versions := before;
        return VersionNotFound;
      }
      ghost var i :| 0 <= i < |versions| && versions[i].seqNo == n;
      assert before[i].seqNo == n;
      versions := Map((v: Version) => if v.seqNo == n then v.(mark := Some(mark)) else v, versions);
      assert versions == SetLabel(before, n, mark).1;
      r := Done;
    }

    method Bury(n: nat) returns (r: EditResult)
      modifies this
      ensures (r, versions) == Tombstone(old(versions), n)
    {
      if exists i :: 0 <= i < |versions| && versions[i].seqNo == n && versions[i].body.Some? {
        versions := Map((v: Version) => Buried(v, n), versions);
        return Done;
      }
      r := if HasSeq(versions, n) then AlreadyTombstoned else VersionNotFound;
    }
  }
}
