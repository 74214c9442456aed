/**
 Deadlines, in the columns of the rows themselves: exactly which operations a read
 expires and into what, what a sweep leaves, and that nothing late succeeds.
 */
module Deadlines {
  import opened Wrappers
  import opened StateMachine
  import opened OperationStore
  import opened UseCases
  import Sweeps

  /** Waiting for approval past the approval deadline. */
  predicate ApprovalLapsed(row: Row, now: Time) {
    row.state == PendingApproval && row.approvalExpiresAt.Some? && now > row.approvalExpiresAt.value
  }

  /** Approved, and past the execution deadline. */
  predicate ExecutionLapsed(row: Row, now: Time) {
    row.state == Approved && row.executionDeadline.Some? && now > row.executionDeadline.value
  }

  /** The operation one version on, Expired, with one event by the clock. */
  function ExpiredBy(op: Op, t: TransitionId): Op {
    Op(op.row.(state := Expired, version := op.row.version + 1),
       op.log + [Event(Some(op.row.state), Expired, t, "clock")], op.votes)
  }

  lemma ExpiredIsLater(op: Op, t: TransitionId)
    ensures ExpiredBy(op, t) != op && (forall u: TransitionId :: ExpiredBy(op, t) == ExpiredBy(op, u) ==> t == u)
  {
    assert ExpiredBy(op, t).row.version != op.row.version;
    forall u: TransitionId | ExpiredBy(op, t) == ExpiredBy(op, u) ensures t == u {
      assert ExpiredBy(op, t).log[|op.log|] == ExpiredBy(op, u).log[|op.log|];
    }
  }

  /** What every read makes of an operation: T08 exactly when its approval lapsed, T11
      exactly when its execution did, and otherwise nothing. */
  lemma LazyIff(op: Op, now: Time)
    ensures LazyOp(op, now) == ExpiredBy(op, T08) <==> ApprovalLapsed(op.row, now)
    ensures LazyOp(op, now) == ExpiredBy(op, T11) <==> ExecutionLapsed(op.row, now)
    ensures LazyOp(op, now) == op <==> !ApprovalLapsed(op.row, now) && !ExecutionLapsed(op.row, now)
  {
    ExpiredIsLater(op, T08);
    ExpiredIsLater(op, T11);
  }

  /** The same on the database, with the one audit entry an expiry writes. */
  lemma ExpireIff(db: Db, now: Time, id: OpId)
    requires id in db.ops && db.ops[id].row.id == id
    ensures var op := db.ops[id];
            var entry := AuditRecord("clock", OperationExpiredAction, OnOperation(id), Denied);
            Expire(db, now, id)
            == if ApprovalLapsed(op.row, now) then Db(db.ops[id := ExpiredBy(op, T08)], db.audit + [entry])
               else if ExecutionLapsed(op.row, now) then Db(db.ops[id := ExpiredBy(op, T11)], db.audit + [entry])
               else db
  {
    LazyIff(db.ops[id], now);
    PutSame(db, id);
  }

  // ---------------------------------------------------------------- sweeps

  predicate Lapsed(row: Row, now: Time) {
    ApprovalLapsed(row, now) || ExecutionLapsed(row, now)
  }

  /** A sweep over a list that names every lapsed operation leaves none, and touches no
      other. */
  lemma SweepLeavesNoneLapsed(db: Db, now: Time, ids: seq<OpId>)
    requires forall i | 0 <= i < |ids| :: ids[i] in db.ops
    requires forall id | id in db.ops :: Lapsed(db.ops[id].row, now) ==> id in ids
    ensures var after := ExpireAll(db, now, ids);
            && (forall id | id in after.ops :: !Lapsed(after.ops[id].row, now))
            && (forall id | id in db.ops :: !Lapsed(db.ops[id].row, now) ==> after.ops[id] == db.ops[id])
            && (forall id | id in db.ops :: Lapsed(db.ops[id].row, now) ==> after.ops[id].row.state == Expired)
  {
    hide LazyOp, ExpiredBy;
    Sweeps.SweepExpiresOnce(db, now, ids);
    forall id | id in db.ops
      ensures Lapsed(db.ops[id].row, now) ==> LazyOp(db.ops[id], now).row.state == Expired
      ensures !Lapsed(db.ops[id].row, now) ==> LazyOp(db.ops[id], now) == db.ops[id]
    {
      LazyIff(db.ops[id], now);
      ExpiredState(db.ops[id]);
    }
  }

  lemma ExpiredState(op: Op)
    ensures forall t: TransitionId :: ExpiredBy(op, t).row.state == Expired
  {
  }

  // ---------------------------------------------------------------- nothing late

  /** At a time past its deadline no operation starts, whoever asks and however; and a
      matching request by somebody who may see it is told that it expired. */
  lemma NoLateExecution(db: Db, now: Time, v2: bool, id: OpId, act: Act)
    requires act.Execute? && id in db.ops && ExecutionLapsed(db.ops[id].row, now)
    ensures var row := db.ops[id].row; var o := Perform(db, now, v2, OnOne(id, act));
            && o.result.Failure?
            && (o.result.error == OperationExpired
                <==> && act.handle == id && !row.burned
                     && (act.who == row.origin.principal || (v2 && act.visible))
                     && (v2 || act.sameEnvironment))
            && id in o.db.ops && o.db.ops[id].row.state in {Approved, Expired}
  {
    hide LazyOp, ExecutingIn, Expiry;
    var op := db.ops[id];
    LazyIff(op, now);
    var seen := Expire(db, now, id);
    assert seen.ops[id] == LazyOp(op, now) by { Seen(db, now, id); }
  }

  /** An approval past its deadline never approves: no request leaves the operation
      Approved. */
  lemma NoLateApproval(db: Db, now: Time, v2: bool, id: OpId, act: Act)
    requires act.Approve? && id in db.ops && ApprovalLapsed(db.ops[id].row, now)
    ensures var o := Perform(db, now, v2, OnOne(id, act));
            && id in o.db.ops && o.db.ops[id].row.state == Expired
            && (o.result.Success? ==> o.result.value.row.state == Expired)
  {
    hide LazyOp, ExecutingIn, Expiry, Voters;
    var op := db.ops[id];
    LazyIff(op, now);
    var seen := Expire(db, now, id);
    assert seen.ops[id] == LazyOp(op, now) by { Seen(db, now, id); }
  }

  lemma Seen(db: Db, now: Time, id: OpId)
    requires id in db.ops
    ensures Expire(db, now, id).ops == db.ops[id := LazyOp(db.ops[id], now)]
  {
  }

  /** Over histories: whatever is Executing after a request was, if the request started
      it, within its deadline at that moment. */
  lemma StartsOnlyInTime(dbs: seq<Db>, steps: seq<Timed>, v2: bool, i: nat, id: OpId)
    requires IsHistory(dbs, steps, v2) && i < |steps| && id in dbs[i].ops && id in dbs[i + 1].ops
    requires steps[i].Do? && steps[i].request.OnOne? && steps[i].request.id == id && steps[i].request.act.Execute?
    requires dbs[i].ops[id].row.state != Executing && dbs[i + 1].ops[id].row.state == Executing
    ensures var row := dbs[i].ops[id].row;
            row.state == Approved && (row.executionDeadline.Some? ==> steps[i].now <= row.executionDeadline.value)
  {
    hide LazyOp, ExecutingIn, Expiry;
    var db, step := dbs[i], steps[i];
    assert dbs[i + 1] == After(db, v2, step);
    LazyIff(db.ops[id], step.now);
    Seen(db, step.now, id);
    if ExecutionLapsed(db.ops[id].row, step.now) { NoLateExecution(db, step.now, v2, id, step.request.act); }
  }
}
