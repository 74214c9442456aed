/**
 Sweeps and lost races in the concurrent system: a listing served alone expires what the
 serial sweep expires, and a thread whose expiry was overtaken goes on with the row as it
 stands, without an error.
 */
module ProtocolSweeps {
  import opened Wrappers
  import opened StateMachine
  import opened OperationStore
  import opened Protocol
  import opened ProtocolServes
  import Dispatch = ProtocolDispatch
  import Limit = ProtocolLimit
  import Logs = ProtocolLogs
  import Refusals = ProtocolRefusals
  import Sweeps
  import U = UseCases

  /** The rows a listing reads. */
  function Listed(db: Db, ids: seq<OpId>): (rows: seq<Row>)
    requires forall i | 0 <= i < |ids| :: ids[i] in db.ops
    ensures |rows| == |ids|
  {
    seq(|ids|, i requires 0 <= i < |ids| => db.ops[ids[i]].row)
  }

  /** Where a listing of `ids` stands with `k` of them behind it. */
  function ListingPc(db: Db, ids: seq<OpId>, k: nat): Pc
    requires 0 <= k <= |ids| && ids != [] && forall i | 0 <= i < |ids| :: ids[i] in db.ops
  {
    var rows := Listed(db, ids);
    if k < |ids| then Fetched(Listing(rows[k + 1..]), rows[k])
    else Finished(Listing([]), ids[|ids| - 1], true)
  }

  lemma ListingStarts(s: System, t: ThreadId, ids: seq<OpId>)
    requires Logs.Inv(s) && Of(s, t).pc.Idle? && s.locks == map[] && ids != []
    requires forall i | 0 <= i < |ids| :: ids[i] in s.db.ops
    ensures Stands(s, t, ListingPc(s.db, ids, 0), s.db)
  {
    hide Logs.Inv, Limit.Reaches;
    var rows := Listed(s.db, ids);
    Logs.QuietIsEmpty(s, t);
    forall i | 0 <= i < |rows| ensures rows[i].id == ids[i] { Logs.CommittedId(s, ids[i]); }
    Limit.StartReach(s);
    Limit.ReachStep(s, s, BeginListing(t, rows));
    Logs.VisibleEmpty(s.db);
    assert Apply(s, BeginListing(t, rows)) == Solo(s, t, ListingPc(s.db, ids, 0), EMPTY, map[]);
    assert StandsWith(s, t, ListingPc(s.db, ids, 0), s.db, EMPTY, map[]);
  }

  /** One row of the listing. */
  lemma ListingGoesOn(s: System, t: ThreadId, ids: seq<OpId>, k: nat, view: Db)
    requires k < |ids| && forall i | 0 <= i < |ids| :: ids[i] in s.db.ops
    requires ids[k] in view.ops && view.ops[ids[k]] == s.db.ops[ids[k]] && s.db.ops[ids[k]].row.id == ids[k]
    requires Stands(s, t, ListingPc(s.db, ids, k), view)
    ensures Stands(s, t, ListingPc(s.db, ids, k + 1), U.Expire(view, s.clock, ids[k]))
  {
    hide Stands, U.Moving;
    var rows, id := Listed(s.db, ids), ids[k];
    var req := Listing(rows[k + 1..]);
    SettleFetched(s, t, req, view, id);
    var seen := U.Expire(view, s.clock, id);
    Sweeps.ExpireSeen(view, s.clock, id);
    Sweeps.LazyShape(view.ops[id], s.clock);
    SoloProceed(s, t, req, seen, id, 0);
    assert rows[k + 1..] == [] || rows[k + 1..][1..] == rows[k + 2..];
  }

  lemma {:induction false} ListingReaches(s: System, t: ThreadId, ids: seq<OpId>, k: nat)
    requires Logs.Inv(s) && Of(s, t).pc.Idle? && s.locks == map[] && ids != [] && k <= |ids|
    requires forall i | 0 <= i < |ids| :: ids[i] in s.db.ops
    requires forall i, j | 0 <= i < j < |ids| :: ids[i] != ids[j]
    ensures Stands(s, t, ListingPc(s.db, ids, k), U.ExpireAll(s.db, s.clock, ids[..k]))
  {
    hide Logs.Inv, Stands, U.Expire, ListingPc;
    if k == 0 {
      ListingStarts(s, t, ids);
    } else {
      ListingReaches(s, t, ids, k - 1);
      var view := U.ExpireAll(s.db, s.clock, ids[..k - 1]);
      Sweeps.SweepExpiresOnce(s.db, s.clock, ids[..k - 1]);
      Logs.CommittedId(s, ids[k - 1]);
      ListingGoesOn(s, t, ids, k - 1, view);
      assert ids[..k][..k - 1] == ids[..k - 1];
    }
  }

  /** A sweep over distinct operations, served alone by an idle thread, is a run that ends
      with the database the serial sweep leaves. */
  lemma SweptAlone(s: System, t: ThreadId, ids: seq<OpId>)
    requires Logs.Inv(s) && Of(s, t).pc.Idle? && s.locks == map[]
    requires forall i | 0 <= i < |ids| :: ids[i] in s.db.ops
    requires forall i, j | 0 <= i < j < |ids| :: ids[i] != ids[j]
    ensures Leaves(s, t, U.ExpireAll(s.db, s.clock, ids))
  {
    hide Logs.Inv, Stands, U.Expire, Limit.Reaches;
    if ids == [] {
      Untouched(s, t);
    } else {
      ListingReaches(s, t, ids, |ids|);
      assert ids[..|ids|] == ids;
      SoloEnd(s, t, Listing([]), ids[|ids| - 1], true, U.ExpireAll(s.db, s.clock, ids), false);
    }
  }

  // ---------------------------------------------------------------- lost races

  /** In every run, when an update matched no row and the row is read again: a lost expiry
      is absorbed, and the request goes on with the row as it stands; a lost transition of
      the request itself ends it with the error. Either way nothing is written. */
  lemma LostRace(run: seq<System>, i: nat, t: ThreadId)
    requires IsRun(run) && i + 1 < |run| && Enabled(run[i], Reread(t)) && run[i + 1] == Apply(run[i], Reread(t))
    ensures var pc := Of(run[i], t).pc; var view := View(run[i], t);
            && pc.row.id in view.ops && pc.row.version < view.ops[pc.row.id].row.version
            && Of(run[i + 1], t)
               == Thread(if pc.call.goal == Expiry then Settled(pc.req, view.ops[pc.row.id].row)
                         else Finished(pc.req, pc.row.id, false), Of(run[i], t).tx)
            && run[i + 1].db == run[i].db
  {
    hide Logs.Inv, ValidateTransition;
    Logs.RunKeeps(run, i);
    Dispatch.NotRetried(run[i], t);
    LostIsBehind(run[i], t);
    Refusals.SameWrites(run[i], Reread(t));
  }

  lemma LostIsBehind(s: System, t: ThreadId)
    requires Logs.Inv(s) && Of(s, t).pc.Lost? && Of(s, t).pc.row.id in View(s, t).ops
    ensures Of(s, t).pc.row.version < View(s, t).ops[Of(s, t).pc.row.id].row.version
  {
    Logs.Facts(s, t);
    assert OpOk(Of(s, t).pc.row.id, View(s, t).ops[Of(s, t).pc.row.id]);
  }
}
