/** What the hub derives from a run (`evalhub-core/src/run.rs`): its conditions,
    its content hash, and the hash over a set of runs. */
module RunHash {
  import opened Prelude
  import opened Json
  import opened Text
  import opened Validate

  /** The hexadecimal spelling of a digest. */
  type Hex = Digest -> string

  ghost predicate Faithful(hex: Hex) {
    forall a, b :: hex(a) == hex(b) ==> a == b
  }

  // --------------------------------------------------------- materialisation

  /** A facet a header hands down to runs that do not have it. */
  predicate Default(header: Json, facet: string) {
    header.Get(facet).Some? && !header.Get(facet).value.JNull?
  }

  function Materialised(run: Json, header: Json): Json {
    if !run.JObj? then run
    else JObj(run.fields + map f | f in RUN_FACETS && f !in run.fields && Default(header, f) :: header.fields[f])
  }

  method Materialise(run: Json, header: Json) returns (r: Json)
    ensures r == Materialised(run, header)
  {
    if !run.JObj? {
      return run;
    }
    var fields := run.fields;
    for i := 0 to |RUN_FACETS|
      invariant forall f :: f in fields <==> f in run.fields || (f in RUN_FACETS[..i] && Default(header, f))
      invariant forall f :: f in fields ==> fields[f] == if f in run.fields then run.fields[f] else header.fields[f]
    {
      var key := RUN_FACETS[i];
      assert RUN_FACETS[..i + 1] == RUN_FACETS[..i] + [key];
      if key !in fields && Default(header, key) {
        fields := fields[key := header.fields[key]];
      }
    }
    assert RUN_FACETS[..|RUN_FACETS|] == RUN_FACETS;
    assert fields == Materialised(run, header).fields;
    r := JObj(fields);
  }

  /** A facet the run has, `null` included, is the run's own; copying once more
      from the same header changes nothing. */
  lemma MaterialiseKeeps(run: Json, header: Json)
    ensures run.JObj? ==> forall k :: k in run.fields ==> Materialised(run, header).Get(k) == Some(run.fields[k])
    ensures Materialised(Materialised(run, header), header) == Materialised(run, header)
  {
    if run.JObj? {
      var once := Materialised(run, header);
      assert forall f :: f in RUN_FACETS && Default(header, f) ==> f in once.fields;
      assert Materialised(once, header).fields == once.fields;
    }
  }

  /** A run that has all six facets is not touched by any header. */
  lemma MaterialisedForGood(run: Json, header: Json)
    requires run.JObj? && forall f :: f in RUN_FACETS ==> f in run.fields
    ensures Materialised(run, header) == run
  {
    assert Materialised(run, header).fields == run.fields;
  }

  // ------------------------------------------------------------------- hashes

  /** The body under the id it is written under. */
  function WithRunId(runId: string, run: Json): Json {
    JObj((if run.JObj? then run.fields else map[])["run_id" := JStr(runId)])
  }

  function RunContentHash(runId: string, run: Json): Digest {
    Sha256(WithRunId(runId, run))
  }

  type Pair = (string, string)

  predicate PairLess(a: Pair, b: Pair) {
    StrLess(a.0, b.0) || (a.0 == b.0 && StrLess(a.1, b.1))
  }

  function Spelled(hex: Hex, runs: seq<(string, Digest)>): (r: seq<Pair>)
    ensures |r| == |runs|
    ensures forall i :: 0 <= i < |r| ==> r[i] == (runs[i].0, hex(runs[i].1))
  {
    seq(|runs|, i requires 0 <= i < |runs| => (runs[i].0, hex(runs[i].1)))
  }

  function PairDoc(pairs: seq<Pair>): (r: Json)
    ensures r.JArr? && |r.items| == |pairs|
    ensures forall i :: 0 <= i < |pairs| ==> r.items[i] == JArr([JStr(pairs[i].0), JStr(pairs[i].1)])
  {
    JArr(seq(|pairs|, i requires 0 <= i < |pairs| => JArr([JStr(pairs[i].0), JStr(pairs[i].1)])))
  }

  /** The hash over a set of runs: the pairs are sorted before they are
      canonicalised, because RFC 8785 keeps array order. */
  function RunsHash(hex: Hex, runs: seq<(string, Digest)>): Digest {
    Sha256(PairDoc(Sort(PairLess, Spelled(hex, runs))))
  }

  // ------------------------------------------------ the order of the pairs

  lemma PairTrichotomy(a: Pair, b: Pair)
    ensures a == b || PairLess(a, b) || PairLess(b, a)
    ensures !(PairLess(a, b) && PairLess(b, a)) && !PairLess(a, a)
  {
    StrTrichotomy(a.0, b.0);
    StrTrichotomy(a.1, b.1);
    StrTrichotomy(a.0, a.0);
    StrTrichotomy(a.1, a.1);
  }

  lemma PairTransitive(a: Pair, b: Pair, c: Pair)
    requires PairLess(a, b) && PairLess(b, c)
    ensures PairLess(a, c)
  {
    StrTrichotomy(a.0, a.0);
    if StrLess(a.0, b.0) && StrLess(b.0, c.0) { StrTransitive(a.0, b.0, c.0); }
    if a.0 == b.0 && b.0 == c.0 { StrTransitive(a.1, b.1, c.1); }
  }

  /** Two insertions commute. */
  lemma {:induction false} InsertCommutes(a: Pair, b: Pair, xs: seq<Pair>)
    ensures Insert(PairLess, a, Insert(PairLess, b, xs)) == Insert(PairLess, b, Insert(PairLess, a, xs))
  {
    PairTrichotomy(a, b);
    if xs != [] {
      PairTrichotomy(xs[0], a);
      PairTrichotomy(xs[0], b);
      if PairLess(xs[0], a) && PairLess(xs[0], b) {
        InsertCommutes(a, b, xs[1..]);
      }
      if PairLess(xs[0], a) && !PairLess(xs[0], b) && xs[0] != b { PairTransitive(b, xs[0], a); }
      if PairLess(xs[0], b) && !PairLess(xs[0], a) && xs[0] != a { PairTransitive(a, xs[0], b); }
    }
  }

  lemma {:induction false} SortRemoved(xs: seq<Pair>, k: nat)
    requires k < |xs|
    ensures Sort(PairLess, xs) == Insert(PairLess, xs[k], Sort(PairLess, xs[..k] + xs[k + 1..]))
  {
    if k == 0 {
      assert xs[..0] + xs[1..] == xs[1..];
    } else {
      SortRemoved(xs[1..], k - 1);
      var rest := xs[..k] + xs[k + 1..];
      assert rest[1..] == xs[1..][..k - 1] + xs[1..][k..];
      InsertCommutes(xs[0], xs[k], Sort(PairLess, rest[1..]));
    }
  }

  lemma {:induction false} SortPermuted(xs: seq<Pair>, ys: seq<Pair>)
    requires multiset(xs) == multiset(ys)
    ensures Sort(PairLess, xs) == Sort(PairLess, ys)
    decreases |xs|
  {
    assert |xs| == |multiset(xs)| == |multiset(ys)| == |ys|;
    if xs != [] {
      assert xs[0] in multiset(ys);
      var k :| 0 <= k < |ys| && ys[k] == xs[0];
      var rest := ys[..k] + ys[k + 1..];
      assert ys == ys[..k] + [ys[k]] + ys[k + 1..];
      assert xs == [xs[0]] + xs[1..];
      assert multiset(rest) == multiset(ys) - multiset{xs[0]};
      assert multiset(xs[1..]) == multiset(xs) - multiset{xs[0]};
      SortPermuted(xs[1..], rest);
      SortRemoved(ys, k);
    }
  }

  lemma {:induction false} InsertMultiset(x: Pair, xs: seq<Pair>)
    ensures multiset(Insert(PairLess, x, xs)) == multiset{x} + multiset(xs)
  {
    if xs != [] {
      assert xs == [xs[0]] + xs[1..];
      if PairLess(xs[0], x) { InsertMultiset(x, xs[1..]); }
    }
  }

  lemma {:induction false} SortMultiset(xs: seq<Pair>)
    ensures multiset(Sort(PairLess, xs)) == multiset(xs)
  {
    if xs != [] {
      SortMultiset(xs[1..]);
      InsertMultiset(xs[0], Sort(PairLess, xs[1..]));
      assert xs == [xs[0]] + xs[1..];
    }
  }

  /** `runs_hash` says exactly which pairs there are, each as often as it is
      there, and nothing about their order. */
  lemma RunsHashExact(hex: Hex, xs: seq<(string, Digest)>, ys: seq<(string, Digest)>)
    ensures RunsHash(hex, xs) == RunsHash(hex, ys) <==> multiset(Spelled(hex, xs)) == multiset(Spelled(hex, ys))
  {
    var a, b := Spelled(hex, xs), Spelled(hex, ys);
    if multiset(a) == multiset(b) {
      SortPermuted(a, b);
    }
    if RunsHash(hex, xs) == RunsHash(hex, ys) {
      var p, q := Sort(PairLess, a), Sort(PairLess, b);
      assert PairDoc(p) == PairDoc(q);
      forall i | 0 <= i < |p| ensures p[i] == q[i] {
        assert PairDoc(p).items[i] == PairDoc(q).items[i];
      }
      assert p == q;
      SortMultiset(a);
      SortMultiset(b);
    }
  }

  ghost predicate DistinctKeys(runs: seq<(string, Digest)>) {
    forall i, j :: 0 <= i < j < |runs| ==> runs[i].0 != runs[j].0
  }

  /** Over one list of distinct ids, two assignments of hashes are told apart. */
  lemma SameIdsSameHashes(hex: Hex, xs: seq<(string, Digest)>, ys: seq<(string, Digest)>)
    requires Faithful(hex) && DistinctKeys(xs) && |xs| == |ys|
    requires forall i :: 0 <= i < |xs| ==> xs[i].0 == ys[i].0
    ensures RunsHash(hex, xs) == RunsHash(hex, ys) <==> xs == ys
  {
    RunsHashExact(hex, xs, ys);
    var a, b := Spelled(hex, xs), Spelled(hex, ys);
    if multiset(a) == multiset(b) {
      forall i | 0 <= i < |xs| ensures xs[i] == ys[i] {
        assert a[i] in multiset(b);
        var j :| 0 <= j < |b| && b[j] == a[i];
        assert xs[j].0 == xs[i].0;
        assert i == j;
      }
    }
  }

  // ------------------------------------------------------------ used sets

  /** A recorded used run, read back with what it is now. */
  datatype UsedRun = UsedRun(runId: string, posted: Digest, current: Digest)

  datatype Summary = Summary(runsUsed: nat, usedSetHash: Digest, postedUsedSetHash: Digest, changedSinceCard: seq<string>)

  function Currently(runs: seq<UsedRun>): (r: seq<(string, Digest)>)
    ensures |r| == |runs| && forall i :: 0 <= i < |r| ==> r[i] == (runs[i].runId, runs[i].current)
  {
    seq(|runs|, i requires 0 <= i < |runs| => (runs[i].runId, runs[i].current))
  }

  function AsPosted(runs: seq<UsedRun>): (r: seq<(string, Digest)>)
    ensures |r| == |runs| && forall i :: 0 <= i < |r| ==> r[i] == (runs[i].runId, runs[i].posted)
  {
    seq(|runs|, i requires 0 <= i < |runs| => (runs[i].runId, runs[i].posted))
  }

  function ChangedIds(runs: seq<UsedRun>): seq<string> {
    if runs == [] then []
    else (if runs[0].posted != runs[0].current then [runs[0].runId] else []) + ChangedIds(runs[1..])
  }

  function Summarise(hex: Hex, runs: seq<UsedRun>): Summary {
    Summary(|runs|, RunsHash(hex, Currently(runs)), RunsHash(hex, AsPosted(runs)), ChangedIds(runs))
  }

  lemma {:induction false} ChangedIdsExact(runs: seq<UsedRun>)
    ensures forall id :: id in ChangedIds(runs) <==> exists u :: u in runs && u.runId == id && u.posted != u.current
  {
    if runs != [] {
      ChangedIdsExact(runs[1..]);
      assert forall u :: u in runs <==> u == runs[0] || u in runs[1..];
    }
  }

  /** The two hashes a Card's summary carries differ exactly when it lists a
      changed run. */
  lemma SummaryTells(hex: Hex, runs: seq<UsedRun>)
    requires Faithful(hex) && forall i, j :: 0 <= i < j < |runs| ==> runs[i].runId != runs[j].runId
    ensures var s := Summarise(hex, runs); s.usedSetHash == s.postedUsedSetHash <==> s.changedSinceCard == []
  {
    SameIdsSameHashes(hex, Currently(runs), AsPosted(runs));
    ChangedIdsExact(runs);
    var ids := ChangedIds(runs);
    if Currently(runs) == AsPosted(runs) {
      forall u | u in runs ensures u.posted == u.current {
        var i :| 0 <= i < |runs| && runs[i] == u;
        assert Currently(runs)[i] == AsPosted(runs)[i];
      }
      NoMember(ids);
    }
    if ids == [] {
      forall i | 0 <= i < |runs| ensures Currently(runs)[i] == AsPosted(runs)[i] {
        assert runs[i] in runs;
        assert runs[i].runId !in ids;
      }
      assert Currently(runs) == AsPosted(runs);
    }
  }

  lemma NoMember(xs: seq<string>)
    requires forall x :: x !in xs
    ensures xs == []
  {
    assert xs == [] || exists x :: x in xs by { HeadIsIn(xs); }
  }

  lemma HeadIsIn(xs: seq<string>)
    ensures xs == [] || xs[0] in xs
  {
  }
}
