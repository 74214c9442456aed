/**
 Who an operation is called for. With team approval an authorized principal may execute
 an operation it did not request; dispatch then refuses it after T10, so the call is
 never made and the operation stays in Executing, in every run.
 */
module ProtocolStranded {
  import opened Wrappers
  import opened StateMachine
  import opened OperationStore
  import opened Protocol
  import Logs = ProtocolLogs
  import Dispatch = ProtocolDispatch
  import Limit = ProtocolLimit
  import Refusals = ProtocolRefusals
  import Race = ProtocolRace
  import Serves = ProtocolServes
  import Single = SingleUse
  import U = UseCases

  /** `who` took the operation into Executing. */
  ghost predicate TakenBy(op: Op, who: PrincipalId) {
    exists k :: 0 <= k < |op.log| && op.log[k].transition == T10 && op.log[k].actor == who
  }

  ghost predicate TakenIn(db: Db, id: OpId, who: PrincipalId) {
    id in db.ops && TakenBy(db.ops[id], who)
  }

  ghost predicate TakenByRequester(db: Db, id: OpId) {
    id in db.ops && TakenBy(db.ops[id], db.ops[id].row.origin.principal)
  }

  // ---------------------------------------------------------------- invariant

  /** What a thread may conclude about who took T10, from where it stands. */
  ghost predicate Told(db: Db, tx: Db, pc: Pc) {
    && ((pc.Calling? || pc.Lost?) && pc.call.t == T10 ==> pc.req.Execute? && pc.call.actor == pc.req.who)
    && (pc.Finished? && pc.req.Execute? && pc.ok ==> TakenIn(tx, pc.id, pc.req.who))
    && (pc.Started? ==> TakenIn(db, pc.id, pc.who))
    && (pc.Ready? ==> TakenByRequester(db, pc.id))
  }

  ghost predicate Calls(db: Db, calls: multiset<OpId>) {
    forall id | id in calls :: TakenByRequester(db, id)
  }

  ghost predicate Inv(s: System) {
    && Dispatch.Inv(s)
    && Calls(s.db, s.calls)
    && forall t :: Told(s.db, Of(s, t).tx, Of(s, t).pc)
  }

  lemma TakenGrows(op: Op, later: Op, who: PrincipalId)
    requires TakenBy(op, who) && Logs.GrownOp(op, later)
    ensures TakenBy(later, who)
  {
    var k :| 0 <= k < |op.log| && op.log[k].transition == T10 && op.log[k].actor == who;
    assert later.log[k] == op.log[k];
  }

  lemma TakenOn(db: Db, later: Db, id: OpId)
    requires Logs.Grown(db, later)
    ensures TakenByRequester(db, id) ==> TakenByRequester(later, id)
    ensures forall who: PrincipalId :: TakenIn(db, id, who) ==> TakenIn(later, id, who)
  {
    hide TakenBy;
    forall who: PrincipalId | TakenIn(db, id, who) ensures TakenIn(later, id, who) {
      TakenGrows(db.ops[id], later.ops[id], who);
    }
    if TakenByRequester(db, id) { TakenGrows(db.ops[id], later.ops[id], db.ops[id].row.origin.principal); }
  }

  lemma ToldOn(db: Db, later: Db, tx: Db, pc: Pc)
    requires Told(db, tx, pc) && Logs.Grown(db, later)
    ensures Told(later, tx, pc)
  {
    hide Logs.Grown, TakenIn, TakenByRequester;
    if pc.Started? || pc.Ready? { TakenOn(db, later, pc.id); }
  }

  lemma CallsOn(db: Db, later: Db, calls: multiset<OpId>)
    requires Calls(db, calls) && Logs.Grown(db, later)
    ensures Calls(later, calls)
  {
    hide Logs.Grown, TakenByRequester;
    forall id | id in calls ensures TakenByRequester(later, id) { TakenOn(db, later, id); }
  }

  // ---------------------------------------------------------------- steps

  /** The committed database only grows. */
  lemma Grows(s: System, step: Step)
    requires Logs.Inv(s) && Enabled(s, step)
    ensures Logs.Grown(s.db, Apply(s, step).db)
  {
    hide Logs.Inv, Logs.RowsOk, Logs.RaceOk, Consistent, Logs.Grown;
    if step.Commit? {
      Logs.Facts(s, step.t);
      Refusals.CommitsVisible(s, step.t);
    } else {
      Dispatch.OnlyCommitsPublish(s, step);
      GrownSelf(s.db);
    }
  }

  lemma GrownSelf(db: Db)
    ensures Logs.Grown(db, db)
  {
  }

  lemma MoveTakes(op: Op, held: Row, t: TransitionId, actor: string, up: Updates)
    requires t == T10 && Move(op, held, t, actor, up).Some?
    ensures TakenBy(Move(op, held, t, actor, up).value, actor)
  {
    var moved := Move(op, held, t, actor, up).value;
    assert moved.log[|op.log|].transition == T10;
  }

  lemma UpdateTold(s: System, t: ThreadId)
    requires Told(s.db, Of(s, t).tx, Of(s, t).pc) && Dispatch.CallOk(Of(s, t).pc) && Enabled(s, Update(t))
    requires Logs.Inv(s)
    ensures var s' := Apply(s, Update(t)); Told(s.db, Of(s', t).tx, Of(s', t).pc)
  {
    hide ValidateTransition, Move, TakenBy, View, CanLock, TakenByRequester, Logs.Inv;
    var pc := Of(s, t).pc;
    var s' := Apply(s, Update(t));
    var op := View(s, t).ops[pc.row.id];
    var moved := Move(op, pc.row, pc.call.t, pc.call.actor, pc.call.up);
    assert s' == Updated(s, t, pc.req, pc.row, pc.call);
    if ValidateTransition(pc.call.t, Some(pc.row.state)).Success? && moved.Some? {
      Logs.SameRow(s, t, pc.row.id);
      MoveKeepsId(op, pc.row, pc.call);
      if pc.call.t == T10 { MoveTakes(op, pc.row, pc.call.t, pc.call.actor, pc.call.up); }
      MovedTold(s, t, pc, moved.value);
    }
  }

  lemma MoveKeepsId(op: Op, held: Row, call: Call)
    ensures var m := Move(op, held, call.t, call.actor, call.up); m.Some? ==> m.value.row.id == op.row.id
  {
  }

  lemma MovedTold(s: System, t: ThreadId, pc: Pc, op: Op)
    requires pc.Calling? && Dispatch.CallOk(pc) && op.row.id == pc.row.id
    requires pc.call.t == T10 ==> pc.call.actor == pc.req.who && TakenBy(op, pc.req.who)
    ensures var s' := Moved(s, t, pc.req, pc.row.id, pc.call, op); Told(s.db, Of(s', t).tx, Of(s', t).pc)
  {
    hide TakenBy;
  }

  lemma EnterTold(s: System, t: ThreadId)
    requires Told(s.db, Of(s, t).tx, Of(s, t).pc) && Enabled(s, EnterDispatch(t))
    ensures var s' := Apply(s, EnterDispatch(t)); Told(s.db, Of(s', t).tx, Of(s', t).pc)
  {
    hide TakenBy;
  }

  lemma CommitTold(s: System, t: ThreadId)
    requires Told(s.db, Of(s, t).tx, Of(s, t).pc) && Enabled(s, Commit(t))
    ensures var s' := Apply(s, Commit(t)); Told(s'.db, Of(s', t).tx, Of(s', t).pc)
  {
    hide TakenBy;
  }

  lemma VoteTold(s: System, t: ThreadId, d: Time)
    requires Enabled(s, Vote(t, d))
    ensures var s' := Apply(s, Vote(t, d)); Told(s.db, Of(s', t).tx, Of(s', t).pc)
  {
    hide TakenBy, View, CanLock, Voters;
  }

  /** The remaining steps of a thread: none of them ends an execute or starts a dispatch. */
  lemma PlainTold(s: System, step: Step)
    requires Enabled(s, step) && !step.Tick? && Told(s.db, Of(s, step.t).tx, Of(s, step.t).pc)
    requires !step.Update? && !step.Update2? && !step.EnterDispatch? && !step.Commit? && !step.Vote?
    ensures var s' := Apply(s, step); Told(s.db, Of(s', step.t).tx, Of(s', step.t).pc)
  {
    hide TakenBy, View, CanLock, ExecutingIn, ValidateTransition, BurnHandle;
  }

  lemma OwnTold(s: System, step: Step)
    requires Inv(s) && Enabled(s, step) && !step.Tick?
    ensures var s' := Apply(s, step); Told(s'.db, Of(s', step.t).tx, Of(s', step.t).pc)
  {
    hide Dispatch.Inv, Apply, Told, Calls;
    var t := step.t;
    assert Told(s.db, Of(s, t).tx, Of(s, t).pc);
    if step.Commit? {
      CommitTold(s, t);
    } else {
      Dispatch.OnlyCommitsPublish(s, step);
      match step
      case Update(_) => Refusals.LogsToo(s); CallsAreOk(s, t); UpdateTold(s, t);
      case Update2(_) => NoRetrying(s, t); assert false;
      case EnterDispatch(_) => EnterTold(s, t);
      case Vote(_, d) => VoteTold(s, t, d);
      case _ => PlainTold(s, step);
    }
  }

  lemma CallsAreOk(s: System, t: ThreadId)
    requires Dispatch.Inv(s)
    ensures Dispatch.CallOk(Of(s, t).pc)
  {
    hide Logs.Inv, Dispatch.DbCalls, Dispatch.Exclusive, Dispatch.CallOk, Dispatch.Staged;
    Dispatch.Facts(s, t);
  }

  lemma NoRetrying(s: System, t: ThreadId)
    requires Dispatch.Inv(s)
    ensures !Of(s, t).pc.Retrying?
  {
    Logs.NoRetrying(s, t);
  }

  lemma StepCalls(s: System, step: Step)
    requires Inv(s) && Enabled(s, step)
    ensures Calls(Apply(s, step).db, Apply(s, step).calls)
  {
    hide Dispatch.Inv, Apply, TakenByRequester, TakenIn, Logs.Grown;
    Refusals.LogsToo(s);
    Grows(s, step);
    CallsOn(s.db, Apply(s, step).db, s.calls);
    if Apply(s, step).calls != s.calls {
      Dispatch.OnlyCallsCall(s, step);
      assert Told(s.db, Of(s, step.t).tx, Of(s, step.t).pc);
      TakenOn(s.db, Apply(s, step).db, Of(s, step.t).pc.id);
    }
  }

  lemma StepKeeps(s: System, step: Step)
    requires Inv(s) && Enabled(s, step)
    ensures Inv(Apply(s, step))
  {
    hide Dispatch.Inv, Apply, Told, Calls, Enabled;
    var s' := Apply(s, step);
    Dispatch.StepKeeps(s, step);
    Refusals.LogsToo(s);
    Grows(s, step);
    StepCalls(s, step);
    forall t ensures Told(s'.db, Of(s', t).tx, Of(s', t).pc) {
      assert Told(s.db, Of(s, t).tx, Of(s, t).pc);
      if step.Tick? || step.t != t {
        Refusals.OthersLeave(s, step, t);
        ToldOn(s.db, s'.db, Of(s, t).tx, Of(s, t).pc);
      } else {
        OwnTold(s, step);
      }
    }
  }

  // ---------------------------------------------------------------- runs

  lemma InitOk(s: System)
    requires Init(s)
    ensures Inv(s)
  {
    Dispatch.InitOk(s);
    assert forall t :: Of(s, t) == Thread(Idle, EMPTY);
  }

  lemma {:induction false} RunKeeps(run: seq<System>, i: nat)
    requires IsRun(run) && i < |run|
    ensures Inv(run[i])
  {
    hide Inv, Enabled, Apply;
    if i == 0 {
      InitOk(run[0]);
    } else {
      RunKeeps(run, i - 1);
      assert Next(run[i - 1], run[i]);
      var step :| Enabled(run[i - 1], step) && run[i] == Apply(run[i - 1], step);
      StepKeeps(run[i - 1], step);
    }
  }

  /** A path takes T10 once. */
  lemma OneTaker(id: OpId, op: Op, who: PrincipalId, other: PrincipalId)
    requires OpOk(id, op) && TakenBy(op, who) && TakenBy(op, other)
    ensures who == other
  {
    var j :| 0 <= j < |op.log| && op.log[j].transition == T10 && op.log[j].actor == who;
    var k :| 0 <= k < |op.log| && op.log[k].transition == T10 && op.log[k].actor == other;
    if j < k { StagesRise(op.log, j, k); } else if k < j { StagesRise(op.log, k, j); }
  }

  /** In every run: whatever is called was taken into Executing by its own requester; and
      an operation that anyone else took there is never called and never leaves Executing,
      in any continuation. */
  lemma OnlyItsRequesterDispatches(run: seq<System>, i: nat, j: nat, id: OpId, who: PrincipalId)
    requires IsRun(run) && i <= j < |run| && TakenIn(run[i].db, id, who)
    ensures TakenIn(run[j].db, id, who)
    ensures who != run[j].db.ops[id].row.origin.principal ==>
              run[j].calls[id] == 0 && run[j].db.ops[id].row.state == Executing
  {
    hide Inv, IsRun, Dispatch.Inv, Logs.Inv, TakenBy;
    TakenFor(run, i, j, id, who);
    RunKeeps(run, j);
    TakenTwice(run[j], id, who);
    Dispatch.DispatchedAtMostOnce(run, j, id);
    AfterT10(run[j], id, who);
  }

  /** The other half: in every run, a thread whose T10 is committed may enter dispatch, and
      goes on to the call exactly when it acts for the requester; the call it can then make
      is the first and only one. */
  lemma DispatchProceedsIff(run: seq<System>, i: nat, t: ThreadId, id: OpId, who: PrincipalId)
    requires IsRun(run) && i < |run| && Of(run[i], t).pc == Started(id, who)
    ensures var s := run[i];
            && id in s.db.ops && TakenIn(s.db, id, who) && Enabled(s, EnterDispatch(t))
            && var entered := Apply(s, EnterDispatch(t));
               && entered.db == s.db
               && (Of(entered, t).pc == Ready(id) <==> who == s.db.ops[id].row.origin.principal)
               && (Of(entered, t).pc == Idle <==> who != s.db.ops[id].row.origin.principal)
               && (who == s.db.ops[id].row.origin.principal ==>
                     s.calls[id] == 0
                     && forall o: CallOutcome :: Enabled(entered, ExternalCall(t, o))
                                                 && Apply(entered, ExternalCall(t, o)).calls[id] == 1)
  {
    hide IsRun, Dispatch.Inv, Calls, Enabled, Apply, TakenIn;
    RunKeeps(run, i);
    var s := run[i];
    StartedFacts(s, t, id, who);
    EnterShape(s, t, id, who);
    var entered := Apply(s, EnterDispatch(t));
    if Of(entered, t).pc.Ready? {
      forall o: CallOutcome
        ensures Enabled(entered, ExternalCall(t, o)) && Apply(entered, ExternalCall(t, o)).calls[id] == 1
      {
        CallShape(entered, t, id, o);
      }
    }
  }

  lemma StartedFacts(s: System, t: ThreadId, id: OpId, who: PrincipalId)
    requires Inv(s) && Of(s, t).pc == Started(id, who)
    ensures id in s.db.ops && s.db.ops[id].row.state == Executing && s.calls[id] == 0 && TakenIn(s.db, id, who)
  {
    hide Logs.Inv, Dispatch.DbCalls, Dispatch.Exclusive, Dispatch.Staged, Calls;
    assert Dispatch.Inv(s);
    Dispatch.Facts(s, t);
    assert Told(s.db, Of(s, t).tx, Of(s, t).pc);
  }

  lemma EnterShape(s: System, t: ThreadId, id: OpId, who: PrincipalId)
    requires Of(s, t).pc == Started(id, who) && id in s.db.ops && s.db.ops[id].row.state == Executing
    ensures Enabled(s, EnterDispatch(t))
    ensures Apply(s, EnterDispatch(t))
            == WithPc(s, t, if who == s.db.ops[id].row.origin.principal then Ready(id) else Idle)
  {
  }

  lemma CallShape(s: System, t: ThreadId, id: OpId, o: CallOutcome)
    requires Of(s, t).pc == Ready(id)
    ensures Enabled(s, ExternalCall(t, o)) && Apply(s, ExternalCall(t, o)).calls == s.calls + multiset{id}
  {
  }

  lemma {:induction false} TakenFor(run: seq<System>, i: nat, j: nat, id: OpId, who: PrincipalId)
    requires IsRun(run) && i <= j < |run| && TakenIn(run[i].db, id, who)
    ensures TakenIn(run[j].db, id, who)
  {
    hide Inv, Enabled, Apply, TakenIn, Logs.Grown;
    if i < j {
      TakenFor(run, i, j - 1, id, who);
      Logs.RunKeeps(run, j - 1);
      assert Next(run[j - 1], run[j]);
      var step :| Enabled(run[j - 1], step) && run[j] == Apply(run[j - 1], step);
      Grows(run[j - 1], step);
      TakenOn(run[j - 1].db, run[j].db, id);
    }
  }

  lemma TakenTwice(s: System, id: OpId, who: PrincipalId)
    requires Inv(s) && TakenIn(s.db, id, who)
    ensures who != s.db.ops[id].row.origin.principal ==> id !in s.calls
  {
    hide TakenBy, OpOk, Dispatch.Inv;
    if id in s.calls {
      assert TakenByRequester(s.db, id);
      CommittedOk(s, id);
      OneTaker(id, s.db.ops[id], who, s.db.ops[id].row.origin.principal);
    }
  }

  lemma CommittedOk(s: System, id: OpId)
    requires Dispatch.Inv(s) && id in s.db.ops
    ensures OpOk(id, s.db.ops[id])
  {
    Dispatch.CommittedOk(s, id);
  }

  /** After T10 there are only Executing and the three outcomes. */
  lemma AfterT10(s: System, id: OpId, who: PrincipalId)
    requires Inv(s) && TakenIn(s.db, id, who)
    ensures Dispatch.Ran(s.db.ops[id].row.state)
  {
    hide Dispatch.Inv, Told, Calls;
    CommittedOk(s, id);
    TakenRan(id, s.db.ops[id], who);
  }

  lemma TakenRan(id: OpId, op: Op, who: PrincipalId)
    requires OpOk(id, op) && TakenBy(op, who)
    ensures Dispatch.Ran(op.row.state)
  {
    var k :| 0 <= k < |op.log| && op.log[k].transition == T10 && op.log[k].actor == who;
    var n := |op.log| - 1;
    if k < n {
      StagesRise(op.log, k, n);
    }
  }

  // ---------------------------------------------------------------- it happens

  function ByOutsider(max: nat): U.Act {
    U.Execute("q", true, 0, true, U.LiveOk, max)
  }

  lemma OutsiderTakes(db: Db, now: Time, w: WorkflowId, max: nat)
    requires Race.Waiting(db, now, 0, w) && |ExecutingIn(db, w)| < max
    ensures var o := U.Perform(db, now, true, U.OnOne(0, ByOutsider(max)));
            && o.result.Success? && TakenIn(o.db, 0, "q") && o.db.ops[0].row.state == Executing
            && o.db.ops[0].row.origin.principal == "p"
  {
    hide ExecutingIn;
    var op := db.ops[0];
    PutSame(db, 0);
    assert U.Expire(db, now, 0) == db;
    OutsiderTakesOne(op, |ExecutingIn(db, w)|, now, max);
  }

  lemma OutsiderTakesOne(op: Op, running: nat, now: Time, max: nat)
    requires op.row.state == Approved && !op.row.burned && running < max
    ensures var e := U.Acting(op, running, now, true, ByOutsider(max));
            && e.result.Success? && TakenBy(e.op, "q") && e.op.row.state == Executing
            && e.op.row.origin == op.row.origin
  {
    hide TakenBy;
    Single.ExecuteOneIff(op, running, now, true, ByOutsider(max));
    var e := U.Acting(op, running, now, true, ByOutsider(max));
    Taken(e.op, |op.log|, "q");
  }

  lemma Taken(op: Op, k: nat, who: PrincipalId)
    requires k < |op.log| && op.log[k].transition == T10 && op.log[k].actor == who
    ensures TakenBy(op, who)
  {
  }

  /** With team approval, in every configuration with room for one execution, some run from
      the empty database takes an operation into Executing for somebody else, where it
      stays. */
  lemma OutsiderStrands(cfg: Config, w: WorkflowId) returns (run: seq<System>)
    requires cfg.v2 && cfg.limit(w) > 0
    ensures Race.RunsUnder(cfg, run)
    ensures var db := run[|run| - 1].db;
            TakenIn(db, 0, "q") && db.ops[0].row.state == Executing && db.ops[0].row.origin.principal == "p"
  {
    hide ExecutingIn, Limit.Reaches, TakenIn, Race.Stocked, Race.Waiting;
    var s0 := System(cfg, EMPTY, map[], map[], multiset{}, 0);
    Race.StartStocked(s0, w);
    var s := Race.Supply(s0, s0, 0, w);
    Race.CfgOfStock(s0, s, 1);
    var later := OutsiderServed(s0, s, w);
    run := Race.RunTo(s0, later);
  }

  lemma OutsiderServed(s0: System, s: System, w: WorkflowId) returns (later: System)
    requires Race.Stocked(s0, s, 1) && Of(s, 0) == Thread(Idle, EMPTY) && Race.Waiting(s.db, s.clock, 0, w)
    requires s.cfg.v2 && |ExecutingIn(s.db, w)| < s.cfg.limit(w)
    ensures Limit.Reaches(s0, later) && TakenIn(later.db, 0, "q")
    ensures later.db.ops[0].row.state == Executing && later.db.ops[0].row.origin.principal == "p"
  {
    hide ExecutingIn, Limit.Reaches, U.Perform, TakenBy, Logs.Inv;
    var act := ByOutsider(s.cfg.limit(w));
    OutsiderTakes(s.db, s.clock, w, s.cfg.limit(w));
    Serves.ServedAlone(s, 0, 0, act, false);
    later := Serves.Closing(s, 0, U.Perform(s.db, s.clock, true, U.OnOne(0, act)).db, Started(0, "q"));
    Serves.ReachOn(s0, s, later);
  }
}
