/** The record-row locks as transactions take them, one at a time and
    interleaved: that a Card transaction commits what the rule for used sets
    gives at that moment, and why no set of transactions waits in a circle. */
module Locks {
  import opened Prelude
  import opened Json
  import U = UsedSet

  type Id = nat

  type RunRow = U.RunRow

  /** A `core/uses_eval` edge that resolved to a version of an Eval. */
  type Edge = u: U.UsesEval | 0 <= u.evalId witness U.UsesEval(0, None, None)

  /** A version of a Card. */
  datatype VersionRef = VersionRef(card: Id, version: Id)

  datatype Rec = CardRec(id: Id) | EvalRec(id: Id)

  datatype Mode = Shared | Exclusive

  datatype Lock = Lock(rec: Rec, mode: Mode)

  /** The transactions that lock record rows. */
  datatype Kind =
    /** A Card post, or a late `core/uses_eval` edge: the Card, then the Evals
        the new edges resolved to before any lock was taken. */
    | CardTx(ref: VersionRef, edges: seq<Edge>, writer: set<string>)
    /** `put`, `put_batch`, archive, unarchive and delete: the rows they leave. */
    | RunTx(eval: Id, writes: map<string, RunRow>)
    | VisibilityTx(eval: Id, open: bool)
    /** A header post, a label, a tombstone. */
    | EditTx(rec: Rec)
    /** The data migration: every Eval. */
    | MigrationTx(evals: set<Id>, rebuilt: map<Id, map<string, RunRow>>)

  datatype Eval = Eval(ns: string, open: bool, runs: map<string, RunRow>)

  datatype Tx = Tx(kind: Kind, held: nat, visible: set<Id>, recorded: map<Id, U.UsedRuns>)

  /** What is committed, and the transactions under way. */
  datatype Hub = Hub(
    evals: map<Id, Eval>,
    /** The resolved edges of Card versions. */
    edges: map<VersionRef, seq<Edge>>,
    txs: map<nat, Tx>)

  /** The Evals a Card transaction locks. */
  function Candidates(edges: seq<Edge>): set<Id> {
    set u: Edge | u in edges :: u.evalId
  }

  function RowsIn(evals: map<Id, Eval>): U.Rows {
    map e | e in evals :: evals[e].runs
  }

  function StoredEdges(hub: Hub, ref: VersionRef): seq<Edge> {
    if ref in hub.edges then hub.edges[ref] else []
  }

  // -------------------------------------------------------------- lock plans

  predicate IsMin(x: Id, ids: set<Id>) {
    x in ids && forall y :: y in ids ==> x <= y
  }

  lemma {:induction false} MinExists(ids: set<Id>)
    requires ids != {}
    ensures exists x :: IsMin(x, ids)
    decreases |ids|
  {
    var x :| x in ids;
    if ids == {x} {
      assert IsMin(x, ids);
    } else {
      MinExists(ids - {x});
      var y :| IsMin(y, ids - {x});
      var m := if x <= y then x else y;
      forall z | z in ids ensures m <= z {
        if z != x { assert z in ids - {x}; }
      }
      assert IsMin(m, ids);
    }
  }

  /** `ORDER BY id`, and the order of a `BTreeSet`. */
  ghost function ById(ids: set<Id>): (r: seq<Id>)
    ensures forall x :: x in r <==> x in ids
    ensures forall i, j :: 0 <= i < j < |r| ==> r[i] < r[j]
    decreases |ids|
  {
    if ids == {} then []
    else
      MinExists(ids);
      var x :| IsMin(x, ids);
      [x] + ById(ids - {x})
  }

  ghost function LockAll(ids: seq<Id>, mode: Mode): (r: seq<Lock>)
    ensures |r| == |ids| && forall i :: 0 <= i < |r| ==> r[i] == Lock(EvalRec(ids[i]), mode)
  {
    Map((e: Id) => Lock(EvalRec(e), mode), ids)
  }

  ghost function Plan(kind: Kind): seq<Lock> {
    match kind
    case CardTx(ref, edges, _) => [Lock(CardRec(ref.card), Exclusive)] + LockAll(ById(Candidates(edges)), Shared)
    case RunTx(e, _) => [Lock(EvalRec(e), Exclusive)]
    case VisibilityTx(e, _) => [Lock(EvalRec(e), Exclusive)]
    case EditTx(rec) => [Lock(rec, Exclusive)]
    case MigrationTx(evals, _) => LockAll(ById(evals), Exclusive)
  }

  /** Cards come before Evals, Evals by id. */
  function Rank(rec: Rec): nat {
    match rec case CardRec(_) => 0 case EvalRec(id) => id + 1
  }

  /** Every transaction takes its locks in one order. */
  lemma PlanOrdered(kind: Kind, i: nat, j: nat)
    requires i < j < |Plan(kind)|
    ensures Rank(Plan(kind)[i].rec) < Rank(Plan(kind)[j].rec)
  {
  }

  // ------------------------------------------------------------------- locks

  ghost predicate Holds(tx: Tx, lock: Lock) {
    exists i :: 0 <= i < tx.held && i < |Plan(tx.kind)| && Plan(tx.kind)[i] == lock
  }

  predicate Conflict(a: Lock, b: Lock) {
    a.rec == b.rec && (a.mode.Exclusive? || b.mode.Exclusive?)
  }

  ghost predicate Wants(tx: Tx) {
    tx.held < |Plan(tx.kind)|
  }

  ghost function Next(tx: Tx): Lock
    requires Wants(tx)
  {
    Plan(tx.kind)[tx.held]
  }

  /** `t` cannot go on before `u` ends. */
  ghost predicate WaitsFor(hub: Hub, t: nat, u: nat) {
    && t in hub.txs && u in hub.txs && t != u && Wants(hub.txs[t])
    && exists lock :: Holds(hub.txs[u], lock) && Conflict(Next(hub.txs[t]), lock)
  }

  ghost predicate Free(hub: Hub, t: nat)
    requires t in hub.txs
  {
    forall u :: !WaitsFor(hub, t, u)
  }

  // ------------------------------------------------------------------- steps

  predicate MaySee(e: Eval, writer: set<string>) {
    e.open || e.ns in writer
  }

  datatype Event =
    | NewEval(id: Id, ns: string)
    | Begin(t: nat, kind: Kind)
    /** A lock is granted; a Card transaction reads the Eval's visibility with it. */
    | Acquire(t: nat)
    /** `fix`: the used runs of one visible Eval, by the stored edges and the new. */
    | ReadRuns(t: nat, id: Id)
    | Commit(t: nat)
    | Abort(t: nat)

  ghost predicate Enabled(hub: Hub, ev: Event) {
    match ev
    case NewEval(id, _) => id !in hub.evals
    case Begin(t, _) => t !in hub.txs
    case Acquire(t) =>
      && t in hub.txs && Wants(hub.txs[t]) && Free(hub, t)
      && (Next(hub.txs[t]).rec.EvalRec? ==> Next(hub.txs[t]).rec.id in hub.evals)
    case ReadRuns(t, id) =>
      && t in hub.txs && hub.txs[t].kind.CardTx? && !Wants(hub.txs[t])
      && id in hub.txs[t].visible && id !in hub.txs[t].recorded
    case Commit(t) =>
      && t in hub.txs && !Wants(hub.txs[t])
      && (hub.txs[t].kind.CardTx? ==> hub.txs[t].recorded.Keys == hub.txs[t].visible)
    case Abort(t) => t in hub.txs
  }

  function Overwritten(evals: map<Id, Eval>, id: Id, writes: map<string, RunRow>): map<Id, Eval> {
    if id in evals then evals[id := evals[id].(runs := evals[id].runs + writes)] else evals
  }

  function Committed(evals: map<Id, Eval>, kind: Kind): map<Id, Eval> {
    match kind
    case RunTx(id, writes) => Overwritten(evals, id, writes)
    case VisibilityTx(id, open) => if id in evals then evals[id := evals[id].(open := open)] else evals
    case MigrationTx(ids, rebuilt) =>
      map e | e in evals :: if e in ids && e in rebuilt then evals[e].(runs := evals[e].runs + rebuilt[e]) else evals[e]
    case _ => evals
  }

  /** The new edges whose Evals the writer may see under the locks; the others
      are stored as text. */
  function Resolved(edges: seq<Edge>, visible: set<Id>): seq<Edge> {
    if edges == [] then []
    else (if edges[0].evalId in visible then [edges[0]] else []) + Resolved(edges[1..], visible)
  }

  function EdgesAfter(hub: Hub, tx: Tx): map<VersionRef, seq<Edge>> {
    if tx.kind.CardTx?
    then hub.edges[tx.kind.ref := StoredEdges(hub, tx.kind.ref) + Resolved(tx.kind.edges, tx.visible)] else hub.edges
  }

  /** The used runs of one Eval by the rule, over what is committed now. */
  function Ruled(hub: Hub, kind: Kind, id: Id): U.UsedRuns
    requires kind.CardTx?
  {
    U.UsedSetOf(RowsIn(hub.evals), StoredEdges(hub, kind.ref) + kind.edges, id)
  }

  ghost function Step(hub: Hub, ev: Event): Hub
    requires Enabled(hub, ev)
  {
    match ev
    case NewEval(id, ns) => hub.(evals := hub.evals[id := Eval(ns, false, map[])])
    case Begin(t, kind) => hub.(txs := hub.txs[t := Tx(kind, 0, {}, map[])])
    case Acquire(t) =>
      var tx := hub.txs[t];
      var rec := Next(tx).rec;
      var sees := tx.kind.CardTx? && rec.EvalRec? && MaySee(hub.evals[rec.id], tx.kind.writer);
      hub.(txs := hub.txs[t := tx.(held := tx.held + 1, visible := tx.visible + if sees then {rec.id} else {})])
    case ReadRuns(t, id) =>
      var tx := hub.txs[t];
      hub.(txs := hub.txs[t := tx.(recorded := tx.recorded[id := Ruled(hub, tx.kind, id)])])
    case Commit(t) => Hub(Committed(hub.evals, hub.txs[t].kind), EdgesAfter(hub, hub.txs[t]), hub.txs - {t})
    case Abort(t) => hub.(txs := hub.txs - {t})
  }

  // --------------------------------------------------------------- invariant

  /** Two transactions share a record only under share locks. */
  ghost predicate Exclusion(hub: Hub) {
    forall t, u, a, b :: t in hub.txs && u in hub.txs && t != u && Holds(hub.txs[t], a) && Holds(hub.txs[u], b) ==> !Conflict(a, b)
  }

  /** An Eval locked for sharing. */
  ghost predicate Shares(tx: Tx, e: Id) {
    Holds(tx, Lock(EvalRec(e), Shared))
  }

  /** What a Card transaction has seen is still so, and what it has recorded is
      what it would record now. */
  ghost predicate Current(hub: Hub, tx: Tx) {
    && tx.recorded.Keys <= tx.visible
    && (tx.recorded != map[] ==> !Wants(tx))
    && (forall e :: e in tx.visible ==> tx.kind.CardTx? && Shares(tx, e))
    && (forall e :: Shares(tx, e) ==> tx.kind.CardTx? && e in hub.evals)
    && (forall e :: Shares(tx, e) ==> (e in tx.visible <==> MaySee(hub.evals[e], tx.kind.writer)))
    && (forall e :: e in tx.recorded ==> tx.recorded[e] == Ruled(hub, tx.kind, e))
  }

  ghost predicate Inv(hub: Hub) {
    Exclusion(hub) && forall t :: t in hub.txs ==> Current(hub, hub.txs[t])
  }

  lemma HoldsMore(tx: Tx, more: Tx, lock: Lock)
    requires Wants(tx) && more.kind == tx.kind && more.held == tx.held + 1
    ensures Holds(more, lock) <==> Holds(tx, lock) || lock == Next(tx)
  {
    hide Plan;
    if lock == Next(tx) { assert Plan(more.kind)[tx.held] == lock; }
  }

  lemma AcquireExcludes(hub: Hub, t: nat)
    requires Exclusion(hub) && Enabled(hub, Acquire(t))
    ensures Exclusion(Step(hub, Acquire(t)))
  {
    hide Plan, Conflict, MaySee;
    var after := Step(hub, Acquire(t));
    var tx, more := hub.txs[t], after.txs[t];
    forall lock { HoldsMore(tx, more, lock); }
    forall u, a, b | u in after.txs && u != t && Holds(more, a) && Holds(after.txs[u], b)
      ensures !Conflict(a, b) && !Conflict(b, a)
    {
      assert hub.txs[u] == after.txs[u];
      ConflictSymmetric(a, b);
      if a == Next(tx) { assert !WaitsFor(hub, t, u); }
    }
  }

  lemma AcquireKeeps(hub: Hub, t: nat)
    requires Inv(hub) && Enabled(hub, Acquire(t))
    ensures Inv(Step(hub, Acquire(t)))
  {
    hide Plan, Exclusion, Holds, Ruled, MaySee;
    var after := Step(hub, Acquire(t));
    AcquireExcludes(hub, t);
    AcquireCurrent(hub, t);
    forall u | u in after.txs && u != t ensures Current(after, after.txs[u]) {
      assert Current(hub, hub.txs[u]);
      CurrentStays(hub, after, hub.txs[u]);
    }
  }

  lemma ConflictSymmetric(a: Lock, b: Lock)
    ensures Conflict(a, b) == Conflict(b, a)
  {
  }

  /** A visible Eval is one locked for sharing, and visible then. */
  lemma AcquireCurrent(hub: Hub, t: nat)
    requires Inv(hub) && Enabled(hub, Acquire(t))
    ensures Current(Step(hub, Acquire(t)), Step(hub, Acquire(t)).txs[t])
  {
    hide Plan, Ruled;
    var tx, more := hub.txs[t], Step(hub, Acquire(t)).txs[t];
    var next := Next(tx);
    forall lock ensures Holds(more, lock) <==> Holds(tx, lock) || lock == next { HoldsMore(tx, more, lock); }
    assert Current(hub, tx) && tx.recorded == map[];
    if next.rec.EvalRec? {
      ExclusiveIsElsewhere(tx.kind, tx.held);
      OnceOnly(tx, next.rec.id);
    }
    forall e ensures Shares(more, e) <==> Shares(tx, e) || next == Lock(EvalRec(e), Shared) {}
  }

  /** Only a Card transaction locks Evals for sharing, and it locks none else. */
  lemma ExclusiveIsElsewhere(kind: Kind, i: nat)
    requires i < |Plan(kind)| && Plan(kind)[i].rec.EvalRec?
    ensures Plan(kind)[i].mode.Shared? <==> kind.CardTx?
  {
  }

  /** The Eval to lock next is not locked yet. */
  lemma OnceOnly(tx: Tx, e: Id)
    requires Wants(tx) && Next(tx).rec == EvalRec(e)
    ensures !Shares(tx, e)
  {
    hide Plan;
    if Shares(tx, e) {
      var i :| 0 <= i < tx.held && i < |Plan(tx.kind)| && Plan(tx.kind)[i] == Lock(EvalRec(e), Shared);
      PlanOrdered(tx.kind, i, tx.held);
    }
  }

  lemma ReadCurrent(hub: Hub, t: nat, id: Id)
    requires Enabled(hub, ReadRuns(t, id)) && Current(hub, hub.txs[t])
    ensures Current(Step(hub, ReadRuns(t, id)), Step(hub, ReadRuns(t, id)).txs[t])
  {
    hide Plan, Holds, Ruled, MaySee;
    var after := Step(hub, ReadRuns(t, id));
    var tx, more := hub.txs[t], after.txs[t];
    forall e ensures Ruled(after, tx.kind, e) == Ruled(hub, tx.kind, e) { RuledSame(hub, after, tx.kind, e); }
    forall e ensures Shares(more, e) <==> Shares(tx, e) { SameShares(tx, more, e); }
  }

  lemma SameShares(tx: Tx, more: Tx, e: Id)
    requires more.kind == tx.kind && more.held == tx.held
    ensures Shares(more, e) <==> Shares(tx, e)
  {
    hide Plan;
  }

  lemma ReadKeeps(hub: Hub, t: nat, id: Id)
    requires Inv(hub) && Enabled(hub, ReadRuns(t, id))
    ensures Inv(Step(hub, ReadRuns(t, id)))
  {
    hide Plan, Exclusion, Holds, Ruled, MaySee;
    var after := Step(hub, ReadRuns(t, id));
    ExclusionStays(hub, after);
    ReadCurrent(hub, t, id);
    forall u | u in after.txs && u != t ensures Current(after, after.txs[u]) {
      assert Current(hub, hub.txs[u]);
      CurrentStays(hub, after, hub.txs[u]);
    }
  }

  /** A commit changes an Eval only under its exclusive lock. */
  lemma ChangesUnderLock(hub: Hub, t: nat, e: Id)
    requires t in hub.txs && !Wants(hub.txs[t]) && e in hub.evals
    ensures e in Committed(hub.evals, hub.txs[t].kind)
    ensures Committed(hub.evals, hub.txs[t].kind)[e] != hub.evals[e] ==> Holds(hub.txs[t], Lock(EvalRec(e), Exclusive))
  {
    var kind := hub.txs[t].kind;
    var plan := Plan(kind);
    match kind
    case MigrationTx(ids, _) =>
      if e in ids {
        var k :| 0 <= k < |ById(ids)| && ById(ids)[k] == e;
        assert plan[k] == Lock(EvalRec(e), Exclusive);
      }
    case CardTx(_, _, _) =>
    case EditTx(_) =>
    case _ => if kind.eval == e { assert plan[0] == Lock(EvalRec(e), Exclusive); }
  }

  lemma Clash(e: Id)
    ensures Conflict(Lock(EvalRec(e), Exclusive), Lock(EvalRec(e), Shared))
  {
  }

  /** Without a lock granted, exclusion stays. */
  lemma ExclusionStays(hub: Hub, after: Hub)
    requires Exclusion(hub)
    requires forall u :: u in after.txs ==>
               after.txs[u].held == 0
               || (u in hub.txs && after.txs[u].kind == hub.txs[u].kind && after.txs[u].held == hub.txs[u].held)
    ensures Exclusion(after)
  {
    hide Plan, Conflict;
    forall u, a | u in after.txs && Holds(after.txs[u], a) ensures u in hub.txs && Holds(hub.txs[u], a) {}
  }

  lemma RuledSame(hub: Hub, after: Hub, kind: Kind, e: Id)
    requires kind.CardTx? && StoredEdges(after, kind.ref) == StoredEdges(hub, kind.ref)
    requires e in hub.evals <==> e in after.evals
    requires e in hub.evals ==> after.evals[e] == hub.evals[e]
    ensures Ruled(after, kind, e) == Ruled(hub, kind, e)
  {
    var uses := StoredEdges(hub, kind.ref) + kind.edges;
    var before, now := RowsIn(hub.evals), RowsIn(after.evals);
    assert U.RowsOf(now, e) == U.RowsOf(before, e);
    forall id ensures U.Uses(now, uses, e, id) <==> U.Uses(before, uses, e, id) {}
  }

  /** What a transaction shares no other changes, nor the edges of its Card. */
  lemma CurrentStays(hub: Hub, after: Hub, tx: Tx)
    requires Current(hub, tx) && forall e :: Shares(tx, e) ==> e in after.evals && after.evals[e] == hub.evals[e]
    requires tx.recorded != map[] ==> StoredEdges(after, tx.kind.ref) == StoredEdges(hub, tx.kind.ref)
    ensures Current(after, tx)
  {
    hide Plan, Holds, Ruled, StoredEdges;
    forall e | e in tx.recorded ensures Ruled(after, tx.kind, e) == Ruled(hub, tx.kind, e) {
      RuledSame(hub, after, tx.kind, e);
    }
  }

  /** A commit changes the edges of a Card only under its lock. */
  lemma EdgesUnderLock(hub: Hub, t: nat, u: nat)
    requires Exclusion(hub) && t in hub.txs && u in hub.txs && t != u
    requires !Wants(hub.txs[t]) && !Wants(hub.txs[u]) && hub.txs[u].kind.CardTx?
    ensures var after := EdgesAfter(hub, hub.txs[t]);
            var ref := hub.txs[u].kind.ref;
            (ref in after <==> ref in hub.edges) && (ref in after ==> after[ref] == hub.edges[ref])
  {
    hide Plan, Resolved;
    if hub.txs[t].kind.CardTx? {
      CardPlan(hub.txs[t].kind);
      CardPlan(hub.txs[u].kind);
      var a, b := Lock(CardRec(hub.txs[t].kind.ref.card), Exclusive), Lock(CardRec(hub.txs[u].kind.ref.card), Exclusive);
      assert Plan(hub.txs[t].kind)[0] == a && Plan(hub.txs[u].kind)[0] == b;
      assert Holds(hub.txs[t], a) && Holds(hub.txs[u], b);
      assert !Conflict(a, b);
    }
  }

  lemma CommitKeeps(hub: Hub, t: nat)
    requires Inv(hub) && Enabled(hub, Commit(t))
    ensures Inv(Step(hub, Commit(t)))
  {
    hide Plan, Committed, Conflict, Ruled, EdgesAfter;
    var after := Step(hub, Commit(t));
    ExclusionStays(hub, after);
    forall u | u in after.txs ensures Current(after, after.txs[u]) {
      var tx := hub.txs[u];
      assert Current(hub, tx);
      forall e | Shares(tx, e) ensures e in after.evals && after.evals[e] == hub.evals[e] {
        ChangesUnderLock(hub, t, e);
        Clash(e);
      }
      if tx.recorded != map[] {
        var e :| e in tx.recorded;
        EdgesUnderLock(hub, t, u);
      }
      CurrentStays(hub, after, tx);
    }
  }

  lemma OtherKeeps(hub: Hub, ev: Event)
    requires Inv(hub) && Enabled(hub, ev) && (ev.NewEval? || ev.Begin? || ev.Abort?)
    ensures Inv(Step(hub, ev))
  {
    hide Plan, Conflict;
    var after := Step(hub, ev);
    ExclusionStays(hub, after);
    forall u | u in after.txs ensures Current(after, after.txs[u]) {
      if u in hub.txs && after.txs[u] == hub.txs[u] { CurrentStays(hub, after, hub.txs[u]); }
    }
  }

  lemma StepKeeps(hub: Hub, ev: Event)
    requires Inv(hub) && Enabled(hub, ev)
    ensures Inv(Step(hub, ev))
  {
    hide Inv, Enabled, Step;
    match ev
    case Acquire(t) => AcquireKeeps(hub, t);
    case ReadRuns(t, id) => ReadKeeps(hub, t, id);
    case Commit(t) => CommitKeeps(hub, t);
    case _ => OtherKeeps(hub, ev);
  }

  // -------------------------------------------------------------------- runs

  ghost predicate Possible(hub: Hub, events: seq<Event>)
    decreases |events|
  {
    events == [] || (Enabled(hub, events[0]) && Possible(Step(hub, events[0]), events[1..]))
  }

  ghost function After(hub: Hub, events: seq<Event>): Hub
    requires Possible(hub, events)
    decreases |events|
  {
    if events == [] then hub else After(Step(hub, events[0]), events[1..])
  }

  const START := Hub(map[], map[], map[])

  lemma {:induction false} RunKeeps(hub: Hub, events: seq<Event>)
    requires Inv(hub) && Possible(hub, events)
    ensures Inv(After(hub, events))
    decreases |events|
  {
    hide Inv, Enabled, Step;
    if events != [] {
      StepKeeps(hub, events[0]);
      RunKeeps(Step(hub, events[0]), events[1..]);
    }
  }

  lemma StartKeeps()
    ensures Inv(START)
  {
  }

  lemma {:induction false} ResolvedMember(edges: seq<Edge>, visible: set<Id>, u: U.UsesEval)
    ensures u in Resolved(edges, visible) <==> u in edges && u.evalId in visible
  {
    if edges != [] {
      ResolvedMember(edges[1..], visible, u);
      assert u in edges <==> u == edges[0] || u in edges[1..];
    }
  }

  /** The rule for an Eval looks at no edge into another. */
  lemma {:induction false} RuledByResolved(rows: U.Rows, stored: seq<Edge>, edges: seq<Edge>, visible: set<Id>, e: Id)
    requires e in visible
    ensures U.UsedSetOf(rows, stored + edges, e) == U.UsedSetOf(rows, stored + Resolved(edges, visible), e)
  {
    var all, some := stored + edges, stored + Resolved(edges, visible);
    forall u: U.UsesEval | u.evalId == e ensures u in all <==> u in some { ResolvedMember(edges, visible, u); }
    assert U.Explicit(all, e) <==> U.Explicit(some, e);
    forall id ensures U.Uses(rows, all, e, id) <==> U.Uses(rows, some, e, id) {
      assert U.Named(all, e, id) <==> U.Named(some, e, id);
    }
  }

  /** The Evals of the edges that the writer may see now. */
  function Seeable(hub: Hub, kind: Kind): set<Id>
    requires kind.CardTx?
  {
    set e | e in Candidates(kind.edges) && e in hub.evals && MaySee(hub.evals[e], kind.writer)
  }

  lemma SharesAll(tx: Tx, e: Id)
    requires tx.kind.CardTx? && !Wants(tx)
    ensures Shares(tx, e) <==> e in Candidates(tx.kind.edges)
  {
    hide Plan, ById, Candidates;
    var ids := ById(Candidates(tx.kind.edges));
    var plan := Plan(tx.kind);
    CardPlan(tx.kind);
    if e in ids {
      var i :| 0 <= i < |ids| && ids[i] == e;
      assert plan[i + 1] == Lock(EvalRec(e), Shared);
    }
    if Shares(tx, e) {
      var i :| 0 <= i < tx.held && i < |plan| && plan[i] == Lock(EvalRec(e), Shared);
      assert ids[i - 1] in ids;
    }
  }

  /** The Card, then each candidate. */
  lemma CardPlan(kind: Kind)
    requires kind.CardTx?
    ensures var ids, plan := ById(Candidates(kind.edges)), Plan(kind);
            && |plan| == |ids| + 1 && plan[0] == Lock(CardRec(kind.ref.card), Exclusive)
            && forall i :: 0 < i < |plan| ==> plan[i] == Lock(EvalRec(ids[i - 1]), Shared)
  {
    hide ById, Candidates;
  }

  /** In every interleaving: when a Card transaction commits, it has a used set
      for exactly the Evals of its edges its writer may see then, and each is
      what the rule gives over the rows and edges then, so that every recorded
      run carries exactly the content hash of its row. */
  lemma {:induction false} CommittedIsCurrent(events: seq<Event>, t: nat)
    requires Possible(START, events) && Enabled(After(START, events), Commit(t))
    requires After(START, events).txs[t].kind.CardTx?
    ensures var hub := After(START, events);
            var after := Step(hub, Commit(t));
            var Tx(kind, _, visible, recorded) := hub.txs[t];
            && after.evals == hub.evals
            && recorded.Keys == visible == Seeable(after, kind)
            && after.edges == hub.edges[kind.ref := StoredEdges(hub, kind.ref) + Resolved(kind.edges, visible)]
            && (forall e :: e in recorded ==>
                  recorded[e] == U.UsedSetOf(RowsIn(after.evals), StoredEdges(after, kind.ref), e))
            && (forall e, run :: e in recorded && run in recorded[e] ==>
                  run in after.evals[e].runs && recorded[e][run] == after.evals[e].runs[run].contentHash)
  {
    hide Plan, Holds, Exclusion, Possible, After, U.UsedSetOf, Resolved;
    StartKeeps();
    RunKeeps(START, events);
    var hub := After(START, events);
    var tx := hub.txs[t];
    assert Current(hub, tx);
    forall e ensures Shares(tx, e) <==> e in Candidates(tx.kind.edges) { SharesAll(tx, e); }
    forall e | e in tx.recorded
      ensures tx.recorded[e] == U.UsedSetOf(RowsIn(hub.evals), StoredEdges(hub, tx.kind.ref) + Resolved(tx.kind.edges, tx.visible), e)
      ensures forall run :: run in tx.recorded[e] ==>
                run in hub.evals[e].runs && tx.recorded[e][run] == hub.evals[e].runs[run].contentHash
    {
      RuledByResolved(RowsIn(hub.evals), StoredEdges(hub, tx.kind.ref), tx.kind.edges, tx.visible, e);
      RuledHashes(hub, tx.kind, e);
    }
  }

  lemma RuledHashes(hub: Hub, kind: Kind, e: Id)
    requires kind.CardTx? && e in hub.evals
    ensures forall run :: run in Ruled(hub, kind, e) ==>
              run in hub.evals[e].runs && Ruled(hub, kind, e)[run] == hub.evals[e].runs[run].contentHash
  {
  }

  /** A post, whose version is new, has recorded the used sets of its edges. */
  lemma {:induction false} PostIsRuled(events: seq<Event>, t: nat)
    requires Possible(START, events) && Enabled(After(START, events), Commit(t))
    requires After(START, events).txs[t].kind.CardTx?
    requires After(START, events).txs[t].kind.ref !in After(START, events).edges
    ensures var hub := After(START, events);
            var Tx(kind, _, visible, recorded) := hub.txs[t];
            recorded == U.UsedSets(RowsIn(hub.evals), Resolved(kind.edges, Seeable(hub, kind)))
  {
    hide Possible, After, U.UsedSetOf, Resolved, Plan, Candidates, MaySee, Wants;
    CommittedIsCurrent(events, t);
    var hub := After(START, events);
    var Tx(kind, _, visible, recorded) := hub.txs[t];
    var uses := Resolved(kind.edges, visible);
    assert hub.edges[kind.ref := [] + uses][kind.ref] == uses;
    ResolvedEvals(kind.edges, visible);
  }

  lemma {:induction false} ResolvedEvals(edges: seq<Edge>, visible: set<Id>)
    requires visible <= Candidates(edges)
    ensures U.EvalsOf(Resolved(edges, visible)) == visible
  {
    hide Resolved;
    var uses := Resolved(edges, visible);
    forall u: U.UsesEval ensures u in uses <==> u in edges && u.evalId in visible { ResolvedMember(edges, visible, u); }
    forall e ensures e in U.EvalsOf(uses) <==> e in visible {
      if e in visible {
        var u: Edge :| u in edges && u.evalId == e;
        assert u in uses;
      }
    }
  }

  // ---------------------------------------------------------------- deadlock

  /** Whoever waits for a waiting transaction wants a lower lock. */
  lemma WaitsUpward(hub: Hub, t: nat, u: nat)
    requires WaitsFor(hub, t, u) && Wants(hub.txs[u])
    ensures Rank(Next(hub.txs[t]).rec) < Rank(Next(hub.txs[u]).rec)
  {
    hide Plan;
    var lock :| Holds(hub.txs[u], lock) && Conflict(Next(hub.txs[t]), lock);
    var i :| 0 <= i < hub.txs[u].held && i < |Plan(hub.txs[u].kind)| && Plan(hub.txs[u].kind)[i] == lock;
    PlanOrdered(hub.txs[u].kind, i, hub.txs[u].held);
  }

  /** Each transaction of the list waits for the one after it. */
  ghost predicate Chain(hub: Hub, list: seq<nat>) {
    forall i :: 0 <= i < |list| - 1 ==> WaitsFor(hub, list[i], list[i + 1])
  }

  lemma {:induction false} ChainUpward(hub: Hub, list: seq<nat>)
    requires |list| >= 2 && Chain(hub, list) && list[|list| - 1] in hub.txs && Wants(hub.txs[list[|list| - 1]])
    ensures list[0] in hub.txs && Wants(hub.txs[list[0]])
    ensures Rank(Next(hub.txs[list[0]]).rec) < Rank(Next(hub.txs[list[|list| - 1]]).rec)
    decreases |list|
  {
    hide Plan;
    assert WaitsFor(hub, list[0], list[1]);
    if |list| == 2 {
      WaitsUpward(hub, list[0], list[1]);
    } else {
      var rest := list[1..];
      forall i | 0 <= i < |rest| - 1 ensures WaitsFor(hub, rest[i], rest[i + 1]) {
        assert WaitsFor(hub, list[i + 1], list[i + 2]);
      }
      assert WaitsFor(hub, list[1], list[2]);
      ChainUpward(hub, rest);
      WaitsUpward(hub, list[0], list[1]);
    }
  }

  /** No transactions wait for each other in a circle, in any state. */
  lemma NoDeadlock(hub: Hub, list: seq<nat>)
    requires |list| >= 2 && Chain(hub, list)
    ensures list[0] != list[|list| - 1]
  {
    hide Plan;
    assert WaitsFor(hub, list[0], list[1]);
    if list[0] == list[|list| - 1] { ChainUpward(hub, list); }
  }

  /** So while transactions are under way one of them is free to go on. */
  lemma {:induction false} SomeoneMoves(hub: Hub, t: nat) returns (u: nat)
    requires t in hub.txs
    ensures u in hub.txs && Free(hub, u)
    decreases Highest(hub, hub.txs.Keys) - (if Wants(hub.txs[t]) then Rank(Next(hub.txs[t]).rec) else Highest(hub, hub.txs.Keys))
  {
    hide Plan;
    u := t;
    if !Free(hub, t) {
      var v :| WaitsFor(hub, t, v);
      HighestBounds(hub, hub.txs.Keys, t);
      if Wants(hub.txs[v]) {
        WaitsUpward(hub, t, v);
        HighestBounds(hub, hub.txs.Keys, v);
        u := SomeoneMoves(hub, v);
      } else {
        u := v;
      }
    }
  }

  ghost function Highest(hub: Hub, ts: set<nat>): nat
    requires ts <= hub.txs.Keys
  {
    if ts == {} then 0
    else
      var t :| t in ts;
      var rest := Highest(hub, ts - {t});
      var mine := if Wants(hub.txs[t]) then Rank(Next(hub.txs[t]).rec) else 0;
      if mine > rest then mine else rest
  }

  lemma {:induction false} HighestBounds(hub: Hub, ts: set<nat>, u: nat)
    requires ts <= hub.txs.Keys && u in ts && Wants(hub.txs[u])
    ensures Rank(Next(hub.txs[u]).rec) <= Highest(hub, ts)
    decreases |ts|
  {
    hide Plan;
    if ts != {} {
      var t := PickedBy(hub, ts);
      if u != t { HighestBounds(hub, ts - {t}, u); }
    }
  }

  lemma PickedBy(hub: Hub, ts: set<nat>) returns (t: nat)
    requires ts <= hub.txs.Keys && ts != {}
    ensures t in ts
    ensures var rest := Highest(hub, ts - {t});
            var mine := if Wants(hub.txs[t]) then Rank(Next(hub.txs[t]).rec) else 0;
            Highest(hub, ts) == if mine > rest then mine else rest
  {
    t :| t in ts && Highest(hub, ts) == (
      var rest := Highest(hub, ts - {t});
      var mine := if Wants(hub.txs[t]) then Rank(Next(hub.txs[t]).rec) else 0;
      if mine > rest then mine else rest);
  }
}
