/**
 The handle of an operation is good for one execution: what one execute request needs
 and spends, and what that means for every later request of a serial history.
 */
module SingleUse {
  import opened Wrappers
  import opened StateMachine
  import opened OperationStore
  import opened UseCases
  import opened Histories

  /** Everything execute checks before it burns the handle. */
  predicate Ready(op: Op, v2: bool, act: Act)
    requires act.Execute?
  {
    && Sees(op, act.who, act.visible, v2)
    && (v2 || act.sameEnvironment)
    && !op.row.burned && op.row.state == Approved && act.live == LiveOk
  }

  /** What execute leaves of one operation: it starts exactly when every check passes and
      there is room; it spends the handle exactly when every check passes, room or not;
      and a refusal by a check changes nothing. */
  lemma ExecuteOneIff(op: Op, running: nat, now: Time, v2: bool, act: Act)
    requires act.Execute?
    ensures var e := Acting(op, running, now, v2, act);
            && (e.result.Success? <==> Ready(op, v2, act) && running < act.maxConcurrent)
            && (e.op != op <==> Ready(op, v2, act))
            && (Ready(op, v2, act) ==> e.op.row.burned)
            && (e.result.Success? ==>
                  && e.op.row.state == State.Executing && e.op.row.version == op.row.version + 1
                  && e.op.log == op.log + [Event(Some(Approved), State.Executing, T10, act.who)])
            && (e.result.Failure? ==> e.audit == [] && e.op == op.(row := e.op.row)
                                      && op.row.(burned := e.op.row.burned) == e.op.row)
            && (Ready(op, v2, act) && e.result.Failure? ==> e.result.error == ConcurrencyLimitReached)
  {
  }

  lemma LazyKeeps(op: Op, now: Time)
    ensures LazyOp(op, now).row.burned == op.row.burned && LazyOp(op, now).row.origin == op.row.origin
  {
  }

  lemma ReadyMeans(op: Op, v2: bool, act: Act)
    requires act.Execute? && Ready(op, v2, act)
    ensures !op.row.burned
  {
  }

  /** How many operations of the workflow of `id` run when a request on `id` begins. */
  function Running(db: Db, now: Time, id: OpId): nat
    requires id in db.ops
  {
    |ExecutingIn(Expire(db, now, id), db.ops[id].row.origin.workflow)|
  }

  /** The same for a request on the database: the operation is read through lazy expiry,
      and the handle given must be its own. */
  lemma ExecuteIff(db: Db, now: Time, v2: bool, id: OpId, act: Act)
    requires act.Execute? && id in db.ops
    ensures var o := Perform(db, now, v2, OnOne(id, act));
            var ready := act.handle == id && Ready(LazyOp(db.ops[id], now), v2, act);
            && id in o.db.ops
            && (o.result.Success? <==> ready && Running(db, now, id) < act.maxConcurrent)
            && (!db.ops[id].row.burned && o.db.ops[id].row.burned <==> ready)
            && (ready && o.result.Failure? ==> o.result.error == ConcurrencyLimitReached)
            && (!ready ==> o.db == db || o.db == Expire(db, now, id))
  {
    hide Acting, ExecutingIn, Ready, LazyOp, Expiry;
    if act.handle == id {
      var seen := Expire(db, now, id);
      var op := LazyOp(db.ops[id], now);
      ExpireEvolves(db, now, id);
      LazyKeeps(db.ops[id], now);
      ExecuteOneIff(op, Running(db, now, id), now, v2, act);
      PutSame(seen, id);
      if Ready(op, v2, act) { ReadyMeans(op, v2, act); }
    }
  }

  // ---------------------------------------------------------------- histories

  predicate Executes(step: Timed, id: OpId) {
    step.Do? && step.request.OnOne? && step.request.id == id && step.request.act.Execute?
  }

  ghost function Answer(db: Db, v2: bool, step: Timed): Result<Reply>
    requires step.Do?
  {
    Perform(db, step.now, v2, step.request).result
  }

  /** The step started the operation, or was refused for want of room by a caller that
      caught the error inside the session scope. */
  ghost predicate Spends(db: Db, v2: bool, step: Timed, id: OpId) {
    && Executes(step, id)
    && (Answer(db, v2, step).Success? || (step.caught && Answer(db, v2, step) == Failure(ConcurrencyLimitReached)))
  }

  lemma UnknownFails(db: Db, v2: bool, step: Timed, id: OpId)
    requires Executes(step, id) && id !in db.ops
    ensures Answer(db, v2, step) == Failure(OperationNotFound) || Answer(db, v2, step) == Failure(ArgumentMismatch)
    ensures After(db, v2, step) == db
  {
  }

  /** Only a check refuses with another error than the limit's. */
  lemma LimitMeansReady(db: Db, now: Time, v2: bool, id: OpId, act: Act)
    requires act.Execute? && id in db.ops
    requires Perform(db, now, v2, OnOne(id, act)).result == Failure(ConcurrencyLimitReached)
    ensures act.handle == id && Ready(LazyOp(db.ops[id], now), v2, act)
  {
    hide ExecutingIn, LazyOp, Expiry;
    if act.handle == id { ExpireEvolves(db, now, id); }
  }

  lemma SpentIsBurned(db: Db, v2: bool, step: Timed, id: OpId)
    requires Spends(db, v2, step, id)
    ensures id in After(db, v2, step).ops && After(db, v2, step).ops[id].row.burned
  {
    hide Perform, Ready, LazyOp, Running, Expire;
    if id !in db.ops {
      UnknownFails(db, v2, step, id);
    } else {
      ExecuteIff(db, step.now, v2, id, step.request.act);
      if Answer(db, v2, step).Failure? { LimitMeansReady(db, step.now, v2, id, step.request.act); }
    }
  }

  lemma BurnedStays(db: Db, v2: bool, step: Timed, id: OpId)
    requires Keyed(db) && Possible(db, step) && id in db.ops && db.ops[id].row.burned
    ensures Keyed(After(db, v2, step))
    ensures id in After(db, v2, step).ops && After(db, v2, step).ops[id].row.burned
  {
    hide Perform, Passed, Keyed, After, Evolves;
    AfterSteps(db, v2, step);
    assert AllEvolve(db, After(db, v2, step));
    BurnEvolves(db.ops[id], After(db, v2, step).ops[id]);
  }

  lemma BurnEvolves(op: Op, later: Op)
    requires Evolves(op, later) && op.row.burned
    ensures later.row.burned
  {
  }

  lemma {:induction false} KeyedRun(dbs: seq<Db>, steps: seq<Timed>, v2: bool, i: nat)
    requires IsHistory(dbs, steps, v2) && i < |dbs|
    ensures Keyed(dbs[i])
  {
    hide After, Keyed, Possible;
    if i == 0 {
      assert Keyed(EMPTY) by { EmptyKeyed(); }
    } else {
      KeyedRun(dbs, steps, v2, i - 1);
      AfterSteps(dbs[i - 1], v2, steps[i - 1]);
    }
  }

  lemma EmptyKeyed()
    ensures Keyed(EMPTY)
  {
  }

  lemma {:induction false} BurnedFor(dbs: seq<Db>, steps: seq<Timed>, v2: bool, i: nat, j: nat, id: OpId)
    requires IsHistory(dbs, steps, v2) && i <= j < |dbs| && id in dbs[i].ops && dbs[i].ops[id].row.burned
    ensures id in dbs[j].ops && dbs[j].ops[id].row.burned
    decreases j
  {
    hide After, Keyed, Possible;
    if i < j {
      BurnedFor(dbs, steps, v2, i, j - 1, id);
      KeyedRun(dbs, steps, v2, j - 1);
      BurnedStays(dbs[j - 1], v2, steps[j - 1], id);
    }
  }

  /** In every serial history, once a handle is spent no later execute of the operation,
      by anyone, starts it again: it is refused, and leaves at most an expiry. */
  lemma HandleIsSingleUse(dbs: seq<Db>, steps: seq<Timed>, v2: bool, i: nat, j: nat, id: OpId)
    requires IsHistory(dbs, steps, v2) && i < j < |steps|
    requires Spends(dbs[i], v2, steps[i], id) && Executes(steps[j], id)
    ensures Answer(dbs[j], v2, steps[j])
            in {Failure(ArgumentMismatch), Failure(OperationNotFound), Failure(HandleAlreadyUsed)}
    ensures dbs[j + 1] == dbs[j] || (id in dbs[j].ops && dbs[j + 1] == Expire(dbs[j], steps[j].now, id))
  {
    hide Perform, Expire, Ready, LazyOp;
    SpentIsBurned(dbs[i], v2, steps[i], id);
    BurnedFor(dbs, steps, v2, i + 1, j, id);
    BurnedRefuses(dbs[j], v2, steps[j], id);
  }

  lemma BurnedRefuses(db: Db, v2: bool, step: Timed, id: OpId)
    requires Executes(step, id) && id in db.ops && db.ops[id].row.burned
    ensures Answer(db, v2, step)
            in {Failure(ArgumentMismatch), Failure(OperationNotFound), Failure(HandleAlreadyUsed)}
    ensures After(db, v2, step) == db || After(db, v2, step) == Expire(db, step.now, id)
  {
    hide ExecutingIn, Expiry;
    var seen := Expire(db, step.now, id);
    ExpireEvolves(db, step.now, id);
    LazyKeeps(db.ops[id], step.now);
    PutSame(seen, id);
  }
}
