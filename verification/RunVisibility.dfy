/** The run store and the run projection together: what a write to a run that is
    not shown lets a reader see. */
module RunVisibility {
  import opened Prelude
  import opened Json
  import opened Text
  import opened Backend
  import opened Ir
  import opened Paths
  import opened Sql
  import opened RunSql
  import opened RunHash
  import opened RunMasking
  import T = RunTables
  import H = RunHistory

  function Filing<V>(recordId: Uuid, side: map<string, V>): (m: map<(Uuid, string), V>)
    ensures forall id :: (recordId, id) in m <==> id in side
    ensures forall id :: id in side ==> m[(recordId, id)] == side[id]
  {
    map id | id in side :: (recordId, id) := side[id]
  }

  function RowsOf(rows: map<string, RunRow>, ids: seq<string>): (r: seq<RunRow>)
    requires forall id :: id in ids ==> id in rows
    ensures |r| == |ids| && forall i :: 0 <= i < |r| ==> r[i] == rows[ids[i]]
  {
    seq(|ids|, i requires 0 <= i < |ids| => assert ids[i] in ids; rows[ids[i]])
  }

  /** The store of one Eval as the projection reads it, beside the Cards' rows. */
  function DbOf(st: T.Runs, results: seq<Entry>, used: map<UsedKey, Digest>): Db {
    Db(RowsOf(st.rows, Ascending(st.rows.Keys)), Filing(st.recordId, st.metrics), Filing(st.recordId, st.fingerprints), results, used)
  }

  /** Every row is filed under its own id, in its own record. */
  ghost predicate Filed(st: T.Runs) {
    forall id :: id in st.rows ==> st.rows[id].recordId == st.recordId && st.rows[id].runId == id
  }

  lemma GoodIsFiled(host: T.Host, st: T.Runs)
    requires H.Good(host, st)
    ensures Filed(st)
  {
    forall id | id in st.rows ensures st.rows[id].recordId == st.recordId && st.rows[id].runId == id {
      assert H.RowGood(host, st, id);
    }
  }

  lemma FiledKeyed(st: T.Runs, results: seq<Entry>, used: map<UsedKey, Digest>)
    requires Filed(st)
    ensures WellKeyed(DbOf(st, results, used))
  {
    var ids := Ascending(st.rows.Keys);
    var runs := DbOf(st, results, used).runs;
    AscendingSorted(st.rows.Keys);
    StrOrder();
    forall i, j | 0 <= i < j < |runs| ensures runs[i].runId != runs[j].runId {
      assert ids[i] in ids && ids[j] in ids;
      assert StrLess(ids[i], ids[j]);
    }
  }

  /** The run cannot be told apart in the two stores. */
  ghost predicate AlikeAt(member: bool, st: T.Runs, t: T.Runs, id: string)
    requires id in st.rows && id in t.rows
  {
    && Mask(member, st.rows[id]) == Mask(member, t.rows[id])
    && (Shown(member, st.rows[id]) ==>
          H.Side(st.metrics, id) == H.Side(t.metrics, id) && H.Side(st.fingerprints, id) == H.Side(t.fingerprints, id))
  }

  lemma SideIs<V>(recordId: Uuid, side: map<string, map<string, V>>, id: string)
    ensures SideOf(Filing(recordId, side), recordId, id) == H.Side(side, id)
  {
  }

  lemma AlikeCovers(member: bool, st: T.Runs, t: T.Runs, results: seq<Entry>, used: map<UsedKey, Digest>)
    requires Filed(st) && Filed(t) && t.recordId == st.recordId && t.rows.Keys == st.rows.Keys
    requires forall id :: id in st.rows ==> AlikeAt(member, st, t, id)
    ensures Covered(member, st.recordId, DbOf(st, results, used), DbOf(t, results, used))
  {
    hide Mask, Shown, Filing, SideOf, H.Side;
    var a, b := DbOf(st, results, used), DbOf(t, results, used);
    forall r | r in a.runs ensures exists s :: s in b.runs && LooksLike(member, a, r, b, s) {
      var ids := Ascending(st.rows.Keys);
      var i :| 0 <= i < |ids| && a.runs[i] == r;
      var id := ids[i];
      assert id in ids;
      assert b.runs[i] == t.rows[id];
      AlikeLooks(member, st, t, results, used, id);
      assert b.runs[i] in b.runs && LooksLike(member, a, r, b, b.runs[i]);
    }
  }

  lemma AlikeLooks(member: bool, st: T.Runs, t: T.Runs, results: seq<Entry>, used: map<UsedKey, Digest>, id: string)
    requires Filed(st) && Filed(t) && t.recordId == st.recordId
    requires id in st.rows && id in t.rows && AlikeAt(member, st, t, id)
    ensures LooksLike(member, DbOf(st, results, used), st.rows[id], DbOf(t, results, used), t.rows[id])
  {
    hide Mask, Shown, Filing, SideOf, H.Side;
    SideIs(st.recordId, st.metrics, id);
    SideIs(t.recordId, t.metrics, id);
    SideIs(st.recordId, st.fingerprints, id);
    SideIs(t.recordId, t.fingerprints, id);
  }

  lemma AlikeBack(member: bool, st: T.Runs, t: T.Runs, id: string)
    requires id in st.rows && id in t.rows && AlikeAt(member, st, t, id)
    ensures AlikeAt(member, t, st, id)
  {
  }

  /** To a reader who is not a member, deleting an archived run is no event: every
      page of every query stays as it was. */
  lemma HiddenEditsDoNotShow(
      be: Backend, hex: Hex, leaves: FacetLeaves, host: T.Host, st: T.Runs, op: H.Op,
      results: seq<Entry>, used: map<UsedKey, Digest>, query: RunQuery, scope: Scope, cards: seq<JoinedCard>)
    requires be.Sound() && H.Good(host, st) && !scope.member && scope.recordId == st.recordId
    requires op.DeleteOp? || op.ArchiveOp?
    requires op.runId in st.rows && !Shown(false, st.rows[op.runId])
    requires op.ArchiveOp? ==> op.archived || st.rows[op.runId].tombstoned
    ensures Projection(be, hex, leaves, DbOf(st, results, used), query, scope, cards)
         == Projection(be, hex, leaves, DbOf(H.Step(host, st, op), results, used), query, scope, cards)
  {
    hide Projection, Backend.Sound, H.Good, DbOf;
    var t := H.Step(host, st, op);
    H.StepGood(host, st, op);
    GoodIsFiled(host, st);
    GoodIsFiled(host, t);
    EditAlike(host, st, op);
    forall id | id in st.rows ensures AlikeAt(false, t, st, id) { AlikeBack(false, st, t, id); }
    AlikeCovers(false, st, t, results, used);
    AlikeCovers(false, t, st, results, used);
    FiledKeyed(st, results, used);
    FiledKeyed(t, results, used);
    SameCards(st, t, results, used);
    MaskingIsTotal(be, hex, leaves, DbOf(st, results, used), DbOf(t, results, used), query, scope, cards);
  }

  lemma SameCards(st: T.Runs, t: T.Runs, results: seq<Entry>, used: map<UsedKey, Digest>)
    ensures DbOf(st, results, used).results == DbOf(t, results, used).results
    ensures DbOf(st, results, used).used == DbOf(t, results, used).used
  {
  }

  lemma EditAlike(host: T.Host, st: T.Runs, op: H.Op)
    requires op.DeleteOp? || op.ArchiveOp?
    requires op.runId in st.rows && !Shown(false, st.rows[op.runId])
    requires op.ArchiveOp? ==> op.archived || st.rows[op.runId].tombstoned
    ensures var t := H.Step(host, st, op);
            && t.recordId == st.recordId && t.rows.Keys == st.rows.Keys
            && forall id :: id in st.rows ==> AlikeAt(false, st, t, id)
  {
    hide T.Write;
  }
}
