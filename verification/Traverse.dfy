/** References between versions as text (`evalhub-store/src/relations.rs`,
    `RelationTarget`). */
module Refs {
  import opened Prelude
  import opened Text
  import opened Paths

  datatype Ref = ToVersion(ns: string, name: string, seqNo: nat) | Outside(text: string)

  const MAX_SEQ := 2147483647

  predicate Digits(s: string) {
    s != "" && forall i :: 0 <= i < |s| ==> '0' <= s[i] <= '9'
  }

  function DigitsValue(s: string): nat
    requires s == "" || Digits(s)
  {
    if s == "" then 0
    else
      10 * DigitsValue(s[..|s| - 1]) + (s[|s| - 1] - '0') as int
  }

  /** `str::parse::<i32>` of a positive number: one leading `+` is allowed. */
  function ParseSeq(s: string): Option<nat> {
    var digits := if s != "" && s[0] == '+' then s[1..] else s;
    if !Digits(digits) || DigitsValue(digits) > MAX_SEQ || DigitsValue(digits) < 1 then None else Some(DigitsValue(digits))
  }

  /** `rsplit_once`: at the last occurrence. */
  function SplitLast(s: string, c: char): Option<(string, string)> {
    if s == "" then None
    else if s[|s| - 1] == c then Some((s[..|s| - 1], ""))
    else
      var rest := SplitLast(s[..|s| - 1], c);
      if rest.None? then None else Some((rest.value.0, rest.value.1 + [s[|s| - 1]]))
  }

  function ParseRef(s: string): Option<Ref> {
    if "external:" <= s || "hf:" <= s then Some(Outside(s))
    else
      var parts := SplitLast(s, '@');
      if parts.None? || ParseSeq(parts.value.1).None? then None
      else
        var path := SplitOnce(parts.value.0, "/");
        if path.None? || path.value.0 == "" || path.value.1 == "" || '/' in path.value.1 then None
        else Some(ToVersion(path.value.0, path.value.1, ParseSeq(parts.value.1).value))
  }

  function RefText(ref: Ref): string {
    match ref
    case ToVersion(ns, name, n) => ns + "/" + (name + "@" + Decimal(n))
    case Outside(text) => text
  }

  lemma {:induction false} DecimalDigits(n: nat)
    ensures Digits(Decimal(n)) && DigitsValue(Decimal(n)) == n
  {
    if n >= 10 {
      DecimalDigits(n / 10);
      assert Decimal(n)[..|Decimal(n)| - 1] == Decimal(n / 10);
      DigitOf(n % 10);
    } else {
      DigitOf(n);
      assert Decimal(n)[..0] == "";
    }
  }

  lemma DigitOf(d: nat)
    requires d < 10
    ensures '0' <= "0123456789"[d] <= '9' && ("0123456789"[d] - '0') as int == d
  {
  }

  lemma {:induction false} SplitLastAt(a: string, c: char, b: string)
    requires c !in b
    ensures SplitLast(a + [c] + b, c) == Some((a, b))
  {
    var s := a + [c] + b;
    if b == "" {
      assert s == a + [c] && s[..|s| - 1] == a;
    } else {
      SplitLastAt(a, c, b[..|b| - 1]);
      assert s[..|s| - 1] == a + [c] + b[..|b| - 1];
      assert b == b[..|b| - 1] + [b[|b| - 1]];
    }
  }

  lemma ColonFirst(s: string, prefix: string)
    requires ':' !in s && ':' in prefix
    ensures !(prefix <= s)
  {
  }

  lemma {:induction false} NoColon(ns: string, name: string, n: nat)
    requires ':' !in ns && ':' !in name
    ensures ':' !in ns + "/" + name + ['@'] + Decimal(n)
  {
    hide Decimal;
    DecimalDigits(n);
  }

  lemma {:induction false} SeqReadsBack(n: nat)
    requires 1 <= n <= MAX_SEQ
    ensures ParseSeq(Decimal(n)) == Some(n) && '@' !in Decimal(n)
  {
    hide Decimal;
    DecimalDigits(n);
    assert Decimal(n)[0] in Decimal(n);
  }

  /** An unresolved edge is stored as the text that names its target again. */
  lemma RefReadsBack(ns: string, name: string, n: nat)
    requires ns != "" && name != "" && '/' !in ns && '/' !in name && ':' !in ns && ':' !in name
    requires 1 <= n <= MAX_SEQ
    ensures ParseRef(RefText(ToVersion(ns, name, n))) == Some(ToVersion(ns, name, n))
  {
    hide Decimal, ParseSeq, SplitLast, SplitOnce;
    var path := ns + "/" + name;
    var s := path + ['@'] + Decimal(n);
    assert RefText(ToVersion(ns, name, n)) == s;
    SeqReadsBack(n);
    SplitLastAt(path, '@', Decimal(n));
    SplitOnceAt(ns, "/", name);
    NoColon(ns, name, n);
    ColonFirst(s, "external:");
    ColonFirst(s, "hf:");
  }
}

/** The walk over relations (`evalhub-store/src/relations.rs`, `traverse`): it
    finds exactly what lies within the bound, nearest first. */
module Traverse {
  import opened Prelude
  import opened Json
  import opened Refs

  type Uuid = int

  datatype Version = Version(recordId: Uuid, ns: string, name: string, seqNo: nat, isEval: bool, open: bool)

  datatype RefKey = RefKey(isEval: bool, ns: string, name: string, seqNo: nat)

  /** A row of `relations`: resolved, or textual. */
  datatype Relation = Relation(from: Uuid, kind: string, toVersion: Option<Uuid>, toText: string, attrs: Option<Json>)

  datatype World = World(
    versions: map<Uuid, Version>,
    byName: map<RefKey, Uuid>,
    /** The latest live version of a record. */
    latest: map<Uuid, Uuid>,
    relations: seq<Relation>)

  datatype Direction = Out | In | Either

  datatype Params = Params(direction: Direction, kinds: Option<seq<string>>, depth: nat, followLatest: bool, callerNs: seq<string>)

  datatype EdgeEnd = AtVersion(id: Uuid) | AtText(text: string)

  datatype Edge = Edge(from: Uuid, kind: string, to: EdgeEnd, attrs: Option<Json>)

  datatype Graph = Graph(nodes: seq<Uuid>, edges: seq<Edge>)

  // -------------------------------------------------------------- resolution

  predicate Visible(v: Version, callerNs: seq<string>) {
    v.open || v.ns in callerNs
  }

  function Seen(w: World, key: RefKey, callerNs: seq<string>): Option<Uuid> {
    if key in w.byName && w.byName[key] in w.versions && Visible(w.versions[w.byName[key]], callerNs)
    then Some(w.byName[key]) else None
  }

  /** `resolve_ref`: of the kinds that have such a version the caller may see,
      the first, cards before evals. */
  function ResolveRef(w: World, ref: Ref, callerNs: seq<string>): Option<Uuid>
    requires ref.ToVersion?
  {
    var card := Seen(w, RefKey(false, ref.ns, ref.name, ref.seqNo), callerNs);
    if card.Some? then card else Seen(w, RefKey(true, ref.ns, ref.name, ref.seqNo), callerNs)
  }

  /** `resolve_stored` */
  function ResolveStored(w: World, r: Relation, callerNs: seq<string>): EdgeEnd {
    if r.toVersion.Some? && r.toVersion.value in w.versions then AtVersion(r.toVersion.value)
    else
      var ref := ParseRef(r.toText);
      if ref.Some? && ref.value.ToVersion? && ResolveRef(w, ref.value, callerNs).Some?
      then AtVersion(ResolveRef(w, ref.value, callerNs).value) else AtText(r.toText)
  }

  function NameOf(v: Version): string {
    RefText(ToVersion(v.ns, v.name, v.seqNo))
  }

  predicate Wanted(p: Params, kind: string) {
    p.kinds.Some? ==> kind in p.kinds.value
  }

  function Outgoing(w: World, p: Params, v: Uuid): seq<(Edge, Option<Uuid>)> {
    Map((r: Relation) =>
          var end := ResolveStored(w, r, p.callerNs);
          (Edge(v, r.kind, end, r.attrs), if end.AtVersion? then Some(end.id) else None),
        Select(w.relations, (r: Relation) => r.from == v && Wanted(p, r.kind)))
  }

  /** Edges resolved to the version, and those whose text names it. */
  function Incoming(w: World, p: Params, v: Uuid): seq<(Edge, Option<Uuid>)>
    requires v in w.versions
  {
    Map((r: Relation) => (Edge(r.from, r.kind, AtVersion(v), r.attrs), Some(r.from)),
        Select(w.relations, (r: Relation) =>
          (r.toVersion == Some(v) || r.toText == NameOf(w.versions[v])) && Wanted(p, r.kind) && r.from in w.versions))
  }

  function Neighbours(w: World, p: Params, v: Uuid): seq<(Edge, Option<Uuid>)>
    requires v in w.versions
  {
    (if p.direction.In? then [] else Outgoing(w, p, v)) + (if p.direction.Out? then [] else Incoming(w, p, v))
  }

  /** The version itself, or the latest one of its record. */
  function Current(w: World, p: Params, v: Uuid): Uuid
    requires v in w.versions
  {
    var id := w.versions[v].recordId;
    if p.followLatest && id in w.latest && w.latest[id] in w.versions then w.latest[id] else v
  }

  // ------------------------------------------------------------ reachability

  predicate Follows(w: World, p: Params, u: Uuid, v: Uuid)
    requires u in w.versions
  {
    exists i :: 0 <= i < |Neighbours(w, p, u)| && LeadsTo(w, p, Neighbours(w, p, u)[i].1, v)
  }

  predicate LeadsTo(w: World, p: Params, next: Option<Uuid>, v: Uuid) {
    next.Some? && next.value in w.versions && Current(w, p, next.value) == v
  }

  /** Within `k` steps of `start`. */
  ghost predicate Within(w: World, p: Params, start: Uuid, k: nat, v: Uuid) {
    if k == 0 then v == start
    else Within(w, p, start, k - 1, v) || exists u :: u in w.versions && Within(w, p, start, k - 1, u) && Follows(w, p, u, v)
  }

  ghost predicate EdgeAt(w: World, p: Params, v: Uuid, e: Edge) {
    v in w.versions && exists i :: 0 <= i < |Neighbours(w, p, v)| && Neighbours(w, p, v)[i].0 == e
  }

  function Clamp(depth: nat): nat {
    if depth < 1 then 1 else if depth > 5 then 5 else depth
  }

  /** No nearer node comes after a farther one. */
  ghost predicate NearestFirst(w: World, p: Params, start: Uuid, nodes: seq<Uuid>) {
    forall i, j, k: nat :: 0 <= i < j < |nodes| && Within(w, p, start, k, nodes[j]) && k <= Clamp(p.depth) ==>
      Within(w, p, start, k, nodes[i])
  }

  /** The nodes are those within the bound, each once and nearest first; the
      edges are those read from a node below the bound, each once. */
  ghost predicate IsWalk(w: World, p: Params, start: Uuid, g: Graph) {
    && Distinct(g.nodes) && Distinct(g.edges)
    && (forall v :: v in g.nodes <==> Within(w, p, start, Clamp(p.depth), v))
    && NearestFirst(w, p, start, g.nodes)
    && (forall e :: e in g.edges <==> exists v :: Within(w, p, start, Clamp(p.depth) - 1, v) && EdgeAt(w, p, v, e))
  }

  // --------------------------------------------------------------- the walk

  /** The state of the walk: what was found, how far off, and how many of those
      have had their edges read. The queue is the rest. */
  datatype Walk = Walk(nodes: seq<Uuid>, dist: seq<nat>, done: nat, edges: seq<Edge>)

  ghost predicate Shaped(w: World, k: Walk, depth: nat) {
    && |k.dist| == |k.nodes| && k.done <= |k.nodes| && Distinct(k.nodes) && Distinct(k.edges)
    && (forall i :: 0 <= i < |k.nodes| ==> k.nodes[i] in w.versions && k.dist[i] <= depth)
    && (forall i, j :: 0 <= i < j < |k.dist| ==> k.dist[i] <= k.dist[j])
    && (forall i :: 0 <= i < |k.dist| && k.done < |k.dist| ==> k.dist[i] <= k.dist[k.done] + 1)
  }

  /** Every node lies within its distance. */
  ghost predicate Sound(w: World, p: Params, start: Uuid, k: Walk)
    requires |k.dist| == |k.nodes|
  {
    forall i :: 0 <= i < |k.nodes| ==> Within(w, p, start, k.dist[i], k.nodes[i])
  }

  /** The node is found, no farther off than `d`. */
  ghost predicate FoundBy(k: Walk, v: Uuid, d: nat)
    requires |k.dist| == |k.nodes|
  {
    exists j :: 0 <= j < |k.nodes| && k.nodes[j] == v && k.dist[j] <= d
  }

  /** What a node whose edges were read leads to has been found. */
  ghost predicate Closed(w: World, p: Params, start: Uuid, k: Walk, depth: nat)
    requires Shaped(w, k, depth)
  {
    && FoundBy(k, start, 0)
    && forall i, v :: 0 <= i < k.done && k.dist[i] < depth && Follows(w, p, k.nodes[i], v) ==> FoundBy(k, v, k.dist[i] + 1)
  }

  ghost predicate EdgesRead(w: World, p: Params, k: Walk, depth: nat)
    requires Shaped(w, k, depth)
  {
    forall e :: e in k.edges <==> exists i :: 0 <= i < k.done && k.dist[i] < depth && EdgeAt(w, p, k.nodes[i], e)
  }

  ghost predicate Ok(w: World, p: Params, start: Uuid, k: Walk, depth: nat) {
    Shaped(w, k, depth) && Sound(w, p, start, k) && Closed(w, p, start, k, depth) && EdgesRead(w, p, k, depth)
  }

  lemma {:induction false} WithinGrows(w: World, p: Params, start: Uuid, a: nat, b: nat, v: Uuid)
    requires a <= b && Within(w, p, start, a, v)
    ensures Within(w, p, start, b, v)
    decreases b
  {
    if a < b { WithinGrows(w, p, start, a, b - 1, v); }
  }

  /** When the queue is empty, everything within `d` steps has been found. */
  lemma {:induction false} AllFound(w: World, p: Params, start: Uuid, k: Walk, depth: nat, d: nat, v: Uuid)
    requires Ok(w, p, start, k, depth) && k.done == |k.nodes| && d <= depth && Within(w, p, start, d, v)
    ensures FoundBy(k, v, d)
    decreases d
  {
    hide Follows;
    if d > 0 {
      if Within(w, p, start, d - 1, v) {
        AllFound(w, p, start, k, depth, d - 1, v);
      } else {
        var u :| u in w.versions && Within(w, p, start, d - 1, u) && Follows(w, p, u, v);
        AllFound(w, p, start, k, depth, d - 1, u);
        var i :| 0 <= i < |k.nodes| && k.nodes[i] == u && k.dist[i] <= d - 1;
        assert FoundBy(k, v, k.dist[i] + 1);
      }
    }
  }

  lemma FoundThere(k: Walk, i: nat, d: nat)
    requires |k.dist| == |k.nodes| && Distinct(k.nodes) && i < |k.nodes| && FoundBy(k, k.nodes[i], d)
    ensures k.dist[i] <= d
  {
  }

  lemma {:induction false} FoundExactly(w: World, p: Params, start: Uuid, k: Walk, depth: nat, d: nat, i: nat)
    requires Ok(w, p, start, k, depth) && k.done == |k.nodes| && d <= depth && i < |k.nodes|
    ensures Within(w, p, start, d, k.nodes[i]) <==> k.dist[i] <= d
  {
    hide Within, Follows, EdgeAt, FoundBy, Closed, EdgesRead;
    if k.dist[i] <= d { WithinGrows(w, p, start, k.dist[i], d, k.nodes[i]); }
    if Within(w, p, start, d, k.nodes[i]) {
      AllFound(w, p, start, k, depth, d, k.nodes[i]);
      FoundThere(k, i, d);
    }
  }

  lemma Finished(w: World, p: Params, start: Uuid, k: Walk)
    requires Ok(w, p, start, k, Clamp(p.depth)) && k.done == |k.nodes|
    ensures IsWalk(w, p, start, Graph(k.nodes, k.edges))
  {
    hide Follows, EdgeAt, Within;
    var depth := Clamp(p.depth);
    forall v ensures v in k.nodes <==> Within(w, p, start, depth, v) {
      if v in k.nodes {
        var i :| 0 <= i < |k.nodes| && k.nodes[i] == v;
        FoundExactly(w, p, start, k, depth, depth, i);
      }
      if Within(w, p, start, depth, v) { AllFound(w, p, start, k, depth, depth, v); }
    }
    forall i, j, d: nat | 0 <= i < j < |k.nodes| && Within(w, p, start, d, k.nodes[j]) && d <= depth
      ensures Within(w, p, start, d, k.nodes[i])
    {
      FoundExactly(w, p, start, k, depth, d, i);
      FoundExactly(w, p, start, k, depth, d, j);
    }
    forall e ensures e in k.edges <==> exists v :: Within(w, p, start, depth - 1, v) && EdgeAt(w, p, v, e) {
      if e in k.edges {
        var i :| 0 <= i < k.done && k.dist[i] < depth && EdgeAt(w, p, k.nodes[i], e);
        FoundExactly(w, p, start, k, depth, depth - 1, i);
      }
      if v :| Within(w, p, start, depth - 1, v) && EdgeAt(w, p, v, e) {
        AllFound(w, p, start, k, depth, depth - 1, v);
      }
    }
  }

  // -------------------------------------------------------------- one node

  /** Where the first `n` neighbours of the node at hand lead has been found. */
  ghost predicate LeadsFound(w: World, p: Params, k: Walk, n: nat)
    requires |k.dist| == |k.nodes| && k.done < |k.nodes| && k.nodes[k.done] in w.versions
    requires n <= |Neighbours(w, p, k.nodes[k.done])|
  {
    forall i, v :: 0 <= i < n && LeadsTo(w, p, Neighbours(w, p, k.nodes[k.done])[i].1, v) ==> FoundBy(k, v, k.dist[k.done] + 1)
  }

  /** The edges of the nodes read, and the first `n` of the one at hand. */
  ghost predicate EdgesSoFar(w: World, p: Params, k: Walk, depth: nat, n: nat)
    requires |k.dist| == |k.nodes| && k.done < |k.nodes| && k.nodes[k.done] in w.versions
    requires n <= |Neighbours(w, p, k.nodes[k.done])|
  {
    forall e :: e in k.edges <==>
      (exists i :: 0 <= i < k.done && k.dist[i] < depth && EdgeAt(w, p, k.nodes[i], e))
      || (exists i :: 0 <= i < n && Neighbours(w, p, k.nodes[k.done])[i].0 == e)
  }

  ghost predicate Formed(w: World, p: Params, start: Uuid, k: Walk, depth: nat) {
    Shaped(w, k, depth) && Sound(w, p, start, k) && Closed(w, p, start, k, depth)
  }

  /** The walk while the first `n` neighbours of the node at hand are read. */
  ghost predicate Reading(w: World, p: Params, start: Uuid, k: Walk, depth: nat, n: nat) {
    && Formed(w, p, start, k, depth) && k.done < |k.nodes| && k.dist[k.done] < depth
    && n <= |Neighbours(w, p, k.nodes[k.done])|
    && LeadsFound(w, p, k, n) && EdgesSoFar(w, p, k, depth, n)
  }

  function WithEdge(edges: seq<Edge>, e: Edge): seq<Edge> {
    if e in edges then edges else edges + [e]
  }

  function Pushed(k: Walk, v: Uuid, d: nat): Walk {
    if v in k.nodes then k else k.(nodes := k.nodes + [v], dist := k.dist + [d])
  }

  function ReadOne(w: World, p: Params, k: Walk, d: nat, step: (Edge, Option<Uuid>)): Walk {
    var next := k.(edges := WithEdge(k.edges, step.0));
    if step.1.Some? && step.1.value in w.versions then Pushed(next, Current(w, p, step.1.value), d) else next
  }

  lemma CurrentExists(w: World, p: Params, v: Uuid)
    requires v in w.versions
    ensures Current(w, p, v) in w.versions
  {
  }

  /** The walk went on: what was found before is found still. */
  ghost predicate Onward(k: Walk, next: Walk)
    requires |k.dist| == |k.nodes|
  {
    && |next.dist| == |next.nodes| && next.done == k.done && k.nodes <= next.nodes && k.dist <= next.dist
  }

  lemma FoundStill(k: Walk, next: Walk, v: Uuid, d: nat)
    requires |k.dist| == |k.nodes| && Onward(k, next) && FoundBy(k, v, d)
    ensures FoundBy(next, v, d)
  {
    var j :| 0 <= j < |k.nodes| && k.nodes[j] == v && k.dist[j] <= d;
    assert next.nodes[j] == v && next.dist[j] <= d;
  }

  lemma PushedShape(w: World, p: Params, start: Uuid, k: Walk, depth: nat, v: Uuid, u: Uuid)
    requires Shaped(w, k, depth) && Sound(w, p, start, k)
    requires k.done < |k.nodes| && k.dist[k.done] < depth && v in w.versions
    requires u == k.nodes[k.done] && Follows(w, p, u, v)
    ensures var next := Pushed(k, v, k.dist[k.done] + 1);
            Onward(k, next) && Shaped(w, next, depth) && Sound(w, p, start, next) && FoundBy(next, v, k.dist[k.done] + 1)
  {
    hide Follows;
    var d := k.dist[k.done] + 1;
    var next := Pushed(k, v, d);
    if v in k.nodes {
      var j :| 0 <= j < |k.nodes| && k.nodes[j] == v;
      assert k.dist[j] <= d;
    } else {
      assert Within(w, p, start, d - 1, u);
      assert Within(w, p, start, d, v);
      assert next.nodes[|k.nodes|] == v;
    }
  }

  lemma PushedKeeps(w: World, p: Params, start: Uuid, k: Walk, depth: nat, v: Uuid, u: Uuid)
    requires Formed(w, p, start, k, depth)
    requires k.done < |k.nodes| && k.dist[k.done] < depth && v in w.versions
    requires u == k.nodes[k.done] && Follows(w, p, u, v)
    ensures var next := Pushed(k, v, k.dist[k.done] + 1);
            Formed(w, p, start, next, depth) && Onward(k, next) && FoundBy(next, v, k.dist[k.done] + 1)
  {
    hide Follows, Sound, FoundBy, Within;
    PushedShape(w, p, start, k, depth, v, u);
    var next := Pushed(k, v, k.dist[k.done] + 1);
    FoundStill(k, next, start, 0);
    forall i, x | 0 <= i < next.done && next.dist[i] < depth && Follows(w, p, next.nodes[i], x)
      ensures FoundBy(next, x, next.dist[i] + 1)
    {
      assert k.nodes[i] == next.nodes[i] && k.dist[i] == next.dist[i];
      FoundStill(k, next, x, k.dist[i] + 1);
    }
  }

  lemma EdgeKept(w: World, p: Params, start: Uuid, k: Walk, depth: nat, n: nat, e: Edge)
    requires Reading(w, p, start, k, depth, n) && n < |Neighbours(w, p, k.nodes[k.done])|
    requires e == Neighbours(w, p, k.nodes[k.done])[n].0
    ensures var next := k.(edges := WithEdge(k.edges, e));
            Formed(w, p, start, next, depth) && Onward(k, next) && EdgesSoFar(w, p, next, depth, n + 1)
  {
    hide Follows, Within, Neighbours, EdgeAt;
    var next := k.(edges := WithEdge(k.edges, e));
    assert forall x :: x in next.edges <==> x in k.edges || x == e;
    forall x, d ensures FoundBy(k, x, d) == FoundBy(next, x, d) {}
  }

  lemma EdgesStay(w: World, p: Params, k: Walk, next: Walk, depth: nat, n: nat)
    requires |k.dist| == |k.nodes| && Onward(k, next) && next.edges == k.edges
    requires k.done < |k.nodes| && k.nodes[k.done] in w.versions && n <= |Neighbours(w, p, k.nodes[k.done])|
    requires EdgesSoFar(w, p, k, depth, n)
    ensures EdgesSoFar(w, p, next, depth, n)
  {
    hide Neighbours, EdgeAt;
    assert forall i :: 0 <= i <= k.done ==> next.nodes[i] == k.nodes[i] && next.dist[i] == k.dist[i];
  }

  lemma LeadsStay(w: World, p: Params, k: Walk, next: Walk, n: nat, target: Option<Uuid>)
    requires |k.dist| == |k.nodes| && Onward(k, next)
    requires k.done < |k.nodes| && k.nodes[k.done] in w.versions && n < |Neighbours(w, p, k.nodes[k.done])|
    requires LeadsFound(w, p, k, n) && target == Neighbours(w, p, k.nodes[k.done])[n].1
    requires forall v :: LeadsTo(w, p, target, v) ==> FoundBy(next, v, k.dist[k.done] + 1)
    ensures LeadsFound(w, p, next, n + 1)
  {
    hide Neighbours, LeadsTo, FoundBy;
    forall i, v | 0 <= i < n + 1 && LeadsTo(w, p, Neighbours(w, p, next.nodes[next.done])[i].1, v)
      ensures FoundBy(next, v, next.dist[next.done] + 1)
    {
      if i < n { FoundStill(k, next, v, k.dist[k.done] + 1); }
    }
  }

  lemma ReadKeeps(w: World, p: Params, start: Uuid, k: Walk, depth: nat, n: nat)
    requires Reading(w, p, start, k, depth, n) && n < |Neighbours(w, p, k.nodes[k.done])|
    ensures Reading(w, p, start, ReadOne(w, p, k, k.dist[k.done] + 1, Neighbours(w, p, k.nodes[k.done])[n]), depth, n + 1)
  {
    hide Within, Neighbours, EdgeAt, Current, EdgesSoFar, LeadsFound, Sound, Closed, FoundBy;
    var u := k.nodes[k.done];
    var step := Neighbours(w, p, u)[n];
    EdgeKept(w, p, start, k, depth, n, step.0);
    var next := k.(edges := WithEdge(k.edges, step.0));
    if step.1.Some? && step.1.value in w.versions {
      var v := Current(w, p, step.1.value);
      CurrentExists(w, p, step.1.value);
      assert LeadsTo(w, p, step.1, v);
      PushedKeeps(w, p, start, next, depth, v, u);
      var last := Pushed(next, v, k.dist[k.done] + 1);
      EdgesStay(w, p, next, last, depth, n + 1);
      LeadsStay(w, p, k, last, n, step.1);
    } else {
      LeadsStay(w, p, k, next, n, step.1);
    }
  }

  lemma NodeRead(w: World, p: Params, start: Uuid, k: Walk, depth: nat)
    requires k.done < |k.nodes| && k.nodes[k.done] in w.versions
    requires Reading(w, p, start, k, depth, |Neighbours(w, p, k.nodes[k.done])|)
    ensures Ok(w, p, start, k.(done := k.done + 1), depth)
  {
    hide Within, Neighbours, Current;
    var next := k.(done := k.done + 1);
    forall x, d ensures FoundBy(k, x, d) == FoundBy(next, x, d) {}
    if next.done < |k.dist| { assert k.dist[k.done] <= k.dist[next.done]; }
  }

  lemma NodeSkipped(w: World, p: Params, start: Uuid, k: Walk, depth: nat)
    requires Ok(w, p, start, k, depth) && k.done < |k.nodes| && k.dist[k.done] >= depth
    ensures Ok(w, p, start, k.(done := k.done + 1), depth)
  {
    hide Within, Neighbours, Current;
    var next := k.(done := k.done + 1);
    forall x, d ensures FoundBy(k, x, d) == FoundBy(next, x, d) {}
    if next.done < |k.dist| { assert k.dist[k.done] <= k.dist[next.done]; }
  }

  lemma {:induction false} NoMoreThan(nodes: seq<Uuid>, ids: set<Uuid>)
    requires Distinct(nodes) && forall i :: 0 <= i < |nodes| ==> nodes[i] in ids
    ensures |nodes| <= |ids|
    decreases |nodes|
  {
    if nodes != [] {
      var last := nodes[|nodes| - 1];
      NoMoreThan(nodes[..|nodes| - 1], ids - {last});
    }
  }

  lemma Begun(w: World, p: Params, start: Uuid, depth: nat)
    requires start in w.versions
    ensures Ok(w, p, start, Walk([start], [0], 0, []), depth)
  {
    assert Walk([start], [0], 0, []).nodes[0] == start;
  }

  lemma Started(w: World, p: Params, start: Uuid, k: Walk, depth: nat)
    requires Ok(w, p, start, k, depth) && k.done < |k.nodes| && k.dist[k.done] < depth
    ensures k.nodes[k.done] in w.versions && Reading(w, p, start, k, depth, 0)
  {
    hide Within, Follows, EdgeAt;
  }

  lemma Bounded(w: World, p: Params, start: Uuid, k: Walk, depth: nat)
    requires Ok(w, p, start, k, depth)
    ensures |k.dist| == |k.nodes| <= |w.versions.Keys| && k.done <= |k.nodes|
  {
    hide Within, Follows, EdgeAt;
    NoMoreThan(k.nodes, w.versions.Keys);
  }

  /** The variables of the walk say what its state says. */
  ghost predicate Matches(k: Walk, nodes: seq<Uuid>, edges: seq<Edge>, seen: set<Uuid>, queue: seq<(Uuid, nat)>) {
    && |k.dist| == |k.nodes| && k.nodes == nodes && k.edges == edges
    && (forall v :: v in seen <==> v in nodes)
    && k.done + |queue| == |nodes|
    && (forall i :: 0 <= i < |queue| ==> queue[i] == (k.nodes[k.done + i], k.dist[k.done + i]))
  }

  /** One neighbour, as the loop takes it. */
  method Take(w: World, p: Params, ghost k: Walk, nodes0: seq<Uuid>, edges0: seq<Edge>, seen0: set<Uuid>,
              queue0: seq<(Uuid, nat)>, d: nat, step: (Edge, Option<Uuid>))
    returns (nodes: seq<Uuid>, edges: seq<Edge>, seen: set<Uuid>, queue: seq<(Uuid, nat)>)
    requires Matches(k, nodes0, edges0, seen0, queue0)
    ensures Matches(ReadOne(w, p, k, d, step), nodes, edges, seen, queue)
    ensures queue0 <= queue
  {
    hide Current;
    nodes, edges, seen, queue := nodes0, edges0, seen0, queue0;
    var (edge, next) := step;
    if edge !in edges {
      edges := edges + [edge];
    }
    if next.Some? && next.value in w.versions {
      var id := Current(w, p, next.value);
      if id !in seen {
        seen, nodes, queue := seen + {id}, nodes + [id], queue + [(id, d)];
      }
    }
  }

  /** `traverse`: breadth first from a version, or from the latest of its record. */
  method TraverseFrom(w: World, start0: Uuid, p: Params) returns (g: Graph)
    ensures start0 !in w.versions ==> g == Graph([], [])
    ensures start0 in w.versions ==> IsWalk(w, p, Current(w, p, start0), g)
  {
    hide Neighbours, Within, Ok, Reading, IsWalk, Current, ReadOne;
    if start0 !in w.versions {
      return Graph([], []);
    }
    var depth := Clamp(p.depth);
    CurrentExists(w, p, start0);
    var start := Current(w, p, start0);
    var nodes: seq<Uuid>, edges: seq<Edge>, seen: set<Uuid> := [start], [], {start};
    var queue: seq<(Uuid, nat)> := [(start, 0)];
    ghost var k := Walk([start], [0], 0, []);
    Begun(w, p, start, depth);
    while queue != []
      invariant Ok(w, p, start, k, depth)
      invariant Matches(k, nodes, edges, seen, queue)
      decreases |w.versions.Keys| - k.done
    {
      Bounded(w, p, start, k, depth);
      var (v, d) := queue[0];
      if d >= depth {
        NodeSkipped(w, p, start, k, depth);
      } else {
        Started(w, p, start, k, depth);
        var steps := Neighbours(w, p, v);
        ghost var done := k.done;
        for n := 0 to |steps|
          invariant k.done == done < |k.nodes| && |k.dist| == |k.nodes| && k.nodes[done] == v && k.dist[done] == d
          invariant Reading(w, p, start, k, depth, n)
          invariant Matches(k, nodes, edges, seen, queue) && queue != [] && queue[0] == (v, d)
        {
          ReadKeeps(w, p, start, k, depth, n);
          nodes, edges, seen, queue := Take(w, p, k, nodes, edges, seen, queue, d + 1, steps[n]);
          ReadOneStays(w, p, k, d + 1, steps[n]);
          k := ReadOne(w, p, k, d + 1, steps[n]);
        }
        NodeRead(w, p, start, k, depth);
      }
      queue := queue[1..];
      k := k.(done := k.done + 1);
    }
    Finished(w, p, start, k);
    g := Graph(nodes, edges);
  }

  lemma ReadOneStays(w: World, p: Params, k: Walk, d: nat, step: (Edge, Option<Uuid>))
    requires |k.dist| == |k.nodes|
    ensures var next := ReadOne(w, p, k, d, step);
            next.done == k.done && |next.dist| == |next.nodes| && k.nodes <= next.nodes && k.dist <= next.dist
  {
    hide Current;
  }
}
