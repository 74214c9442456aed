/**
 What n8n reports is what is recorded: in every run, an operation that is done carries
 exactly the outcome its one external call reported.
 */
module ProtocolOutcomes {
  import opened Wrappers
  import opened StateMachine
  import opened OperationStore
  import opened Protocol
  import Logs = ProtocolLogs
  import Dispatch = ProtocolDispatch
  import Refusals = ProtocolRefusals

  /** The step after state `k` is the external call of `t` for `id`, and reports `o`. */
  ghost predicate CallsAt(run: seq<System>, k: nat, t: ThreadId, id: OpId, o: CallOutcome)
    requires k + 1 < |run|
  {
    && Enabled(run[k], ExternalCall(t, o)) && Of(run[k], t).pc.id == id
    && run[k + 1] == Apply(run[k], ExternalCall(t, o))
  }

  /** Some call for `id` before state `i` reported `o`. */
  ghost predicate Reported(run: seq<System>, i: nat, id: OpId, o: CallOutcome) {
    exists k: nat, t: ThreadId :: k < i && k + 1 < |run| && CallsAt(run, k, t, id, o)
  }

  // ---------------------------------------------------------------- invariant

  type Reports = set<(OpId, CallOutcome)>

  ghost predicate OpSays(reports: Reports, id: OpId, op: Op) {
    && (op.row.state == Succeeded ==> (id, CallSucceeded) in reports)
    && (op.row.state == Failed ==> (id, CallFailed) in reports)
    && (op.row.state == Unknown ==> (id, CallIndeterminate) in reports)
  }

  ghost predicate CallSays(reports: Reports, id: OpId, t: TransitionId) {
    && (t == T13 ==> (id, CallSucceeded) in reports)
    && (t == T14 ==> (id, CallFailed) in reports)
    && (t == T15 ==> (id, CallIndeterminate) in reports)
  }

  /** What a thread has yet to record was reported. */
  ghost predicate PcSays(reports: Reports, pc: Pc) {
    && (pc.Returned? ==> (pc.id, pc.reported) in reports)
    && (Logs.HasRow(pc) && Dispatch.Req(pc).Record? ==> (pc.row.id, Dispatch.Req(pc).reported) in reports)
    && (pc.Calling? || pc.Lost? ==> CallSays(reports, pc.row.id, pc.call.t))
  }

  ghost predicate ThreadSays(reports: Reports, th: Thread) {
    PcSays(reports, th.pc) && forall id | id in th.tx.ops :: OpSays(reports, id, th.tx.ops[id])
  }

  ghost predicate Inv(s: System, reports: Reports) {
    && Logs.Inv(s)
    && (forall id | id in s.db.ops :: OpSays(reports, id, s.db.ops[id]))
    && (forall t :: ThreadSays(reports, Of(s, t)))
  }

  /** What a step adds to the reports. */
  function News(s: System, step: Step): Reports {
    if step.ExternalCall? && Of(s, step.t).pc.Ready? then {(Of(s, step.t).pc.id, step.reported)} else {}
  }

  // ---------------------------------------------------------------- steps

  lemma MoreReports(reports: Reports, more: Reports, th: Thread)
    requires ThreadSays(reports, th)
    ensures ThreadSays(reports + more, th)
  {
    forall id | id in th.tx.ops ensures OpSays(reports + more, id, th.tx.ops[id]) {
      assert OpSays(reports, id, th.tx.ops[id]);
    }
  }

  lemma ViewSays(s: System, reports: Reports, t: ThreadId, id: OpId)
    requires Inv(s, reports) && id in View(s, t).ops
    ensures OpSays(reports, id, View(s, t).ops[id]) && View(s, t).ops[id].row.id == id
  {
    hide Logs.ThreadOk, Logs.LockOk, Consistent;
    assert ThreadSays(reports, Of(s, t));
    Logs.SameRow(s, t, id);
  }

  lemma PutSays(reports: Reports, tx: Db, id: OpId, op: Op, audit: seq<AuditRecord>, pc: Pc)
    requires forall k | k in tx.ops :: OpSays(reports, k, tx.ops[k])
    requires OpSays(reports, id, op) && PcSays(reports, pc)
    ensures ThreadSays(reports, Thread(pc, Put(tx, id, op, audit)))
  {
  }

  lemma RaisedSays(view: Db, reports: Reports, pc: Pc)
    requires (pc.Calling? || pc.Lost?) && PcSays(reports, pc)
    requires pc.row.id in view.ops ==> view.ops[pc.row.id].row.id == pc.row.id
    ensures PcSays(reports, AfterRaise(view, pc.req, pc.row, pc.call))
  {
  }

  lemma MovedSays(reports: Reports, pc: Pc, was: Op, op: Op)
    requires pc.Calling? && PcSays(reports, pc) && was.row.id == pc.row.id
    requires Move(was, pc.row, pc.call.t, pc.call.actor, pc.call.up) == Some(op)
    ensures OpSays(reports, pc.row.id, op) && PcSays(reports, AfterMove(pc.req, op.row, pc.call))
  {
  }

  lemma UpdateSays(s: System, reports: Reports, t: ThreadId)
    requires Inv(s, reports) && Enabled(s, Update(t))
    ensures ThreadSays(reports, Of(Apply(s, Update(t)), t))
  {
    hide Logs.Inv, ValidateTransition, Move, PcSays, OpSays, CanLock, AfterMove, AfterRaise, Put;
    var pc := Of(s, t).pc;
    var was := View(s, t).ops[pc.row.id];
    assert ThreadSays(reports, Of(s, t));
    ViewSays(s, reports, t, pc.row.id);
    RaisedSays(View(s, t), reports, pc);
    var moved := Move(was, pc.row, pc.call.t, pc.call.actor, pc.call.up);
    if moved.Some? {
      MovedSays(reports, pc, was, moved.value);
      PutSays(reports, Of(s, t).tx, pc.row.id, moved.value, [MoveAudit(pc.row.id, pc.call.t, pc.call.actor)],
              AfterMove(pc.req, moved.value.row, pc.call));
    }
    LostSays(reports, pc);
  }

  lemma LostSays(reports: Reports, pc: Pc)
    requires pc.Calling? && PcSays(reports, pc)
    ensures PcSays(reports, Lost(pc.req, pc.row, pc.call))
  {
  }

  lemma VoteSays(s: System, reports: Reports, t: ThreadId, deadline: Time)
    requires Inv(s, reports) && Enabled(s, Vote(t, deadline))
    ensures ThreadSays(reports, Of(Apply(s, Vote(t, deadline)), t))
  {
    hide Logs.Inv, CanLock, View, Voters, OpSays, PcSays, Put, RecordVote, DecisionCall;
    var pc := Of(s, t).pc;
    var voted := RecordVote(View(s, t).ops[pc.row.id], pc.req.who, pc.req.verdict);
    assert ThreadSays(reports, Of(s, t));
    ViewSays(s, reports, t, pc.row.id);
    SameStateSays(reports, pc.row.id, View(s, t).ops[pc.row.id], voted);
    forall after: Pc
      | after == DecisionCall(pc.req, pc.row, pc.req.who, pc.req.verdict, deadline)
        || (after.Finished? && after.req == pc.req)
      ensures PcSays(reports, after)
    {
      DecidedSays(reports, pc, after, deadline);
    }
    forall after: Pc | PcSays(reports, after)
      ensures ThreadSays(reports, Thread(after, Put(Of(s, t).tx, pc.row.id, voted, [])))
    {
      PutSays(reports, Of(s, t).tx, pc.row.id, voted, [], after);
    }
  }

  lemma DecidedSays(reports: Reports, pc: Pc, after: Pc, deadline: Time)
    requires pc.Settled? && pc.req.Decide?
    requires after == DecisionCall(pc.req, pc.row, pc.req.who, pc.req.verdict, deadline)
             || (after.Finished? && after.req == pc.req)
    ensures PcSays(reports, after)
  {
  }

  lemma SameStateSays(reports: Reports, id: OpId, op: Op, later: Op)
    requires OpSays(reports, id, op) && (RecordedAs(op, later) || BurnHandle(op) == Some(later))
    ensures OpSays(reports, id, later)
  {
  }

  ghost predicate RecordedAs(op: Op, later: Op) {
    exists who, v :: later == RecordVote(op, who, v)
  }

  lemma BurnSays(s: System, reports: Reports, t: ThreadId)
    requires Inv(s, reports) && Enabled(s, Burn(t))
    ensures ThreadSays(reports, Of(Apply(s, Burn(t)), t))
  {
    hide Logs.Inv, CanLock, View, OpSays, Put, BurnHandle;
    var pc := Of(s, t).pc;
    var op := View(s, t).ops[pc.row.id];
    assert ThreadSays(reports, Of(s, t));
    ViewSays(s, reports, t, pc.row.id);
    if BurnHandle(op).Some? {
      SameStateSays(reports, pc.row.id, op, BurnHandle(op).value);
      PutSays(reports, Of(s, t).tx, pc.row.id, BurnHandle(op).value, [], Burned(pc.req.who, pc.row));
    }
  }

  lemma CreateSays(s: System, reports: Reports, t: ThreadId, id: OpId, origin: Origin)
    requires Inv(s, reports) && Enabled(s, BeginPrepare(t, id, origin))
    ensures ThreadSays(reports, Of(Apply(s, BeginPrepare(t, id, origin)), t))
  {
    hide Logs.Inv, CanLock, View;
    assert ThreadSays(reports, Of(s, t));
  }

  lemma EndSays(s: System, step: Step, reports: Reports)
    requires Enabled(s, step) && (step.Commit? || step.Rollback? || step.Crash?)
    ensures ThreadSays(reports, Of(Apply(s, step), step.t))
  {
    hide View;
  }

  /** The steps that only move the program counter. */
  lemma PcStepSays(s: System, step: Step, reports: Reports)
    requires Inv(s, reports) && Enabled(s, step) && !step.Tick?
    requires !step.Update? && !step.Update2? && !step.Vote? && !step.Burn? && !step.BeginPrepare?
    requires !step.Commit? && !step.Rollback? && !step.Crash?
    ensures PcSays(reports + News(s, step), Of(Apply(s, step), step.t).pc)
  {
    hide Logs.Inv, View, CanLock, Apply, Enabled, PcSays;
    assert ThreadSays(reports, Of(s, step.t));
    if step.Reread? {
      RereadSays(s, reports, step.t);
    } else if step.Settle? || step.Refuse? || step.Count? || step.FinishPrepare? || step.Proceed? {
      DecidedStepSays(s, step, reports);
    } else {
      BetweenSays(s, step, reports);
    }
  }

  lemma DecidedStepSays(s: System, step: Step, reports: Reports)
    requires step.Settle? || step.Refuse? || step.Count? || step.FinishPrepare? || step.Proceed?
    requires Enabled(s, step) && PcSays(reports, Of(s, step.t).pc)
    ensures PcSays(reports + News(s, step), Of(Apply(s, step), step.t).pc)
  {
    hide View, CanLock, ExecutingIn;
  }

  /** Fetching a row, entering dispatch, and the call. */
  lemma BetweenSays(s: System, step: Step, reports: Reports)
    requires step.BeginGet? || step.BeginListing? || step.EnterDispatch? || step.ExternalCall? || step.BeginRecord?
    requires Inv(s, reports) && Enabled(s, step) && PcSays(reports, Of(s, step.t).pc)
    ensures PcSays(reports + News(s, step), Of(Apply(s, step), step.t).pc)
  {
    hide Logs.Inv, View, CanLock;
    if step.BeginRecord? { Logs.CommittedId(s, Of(s, step.t).pc.id); }
  }

  lemma RereadSays(s: System, reports: Reports, t: ThreadId)
    requires Inv(s, reports) && Enabled(s, Reread(t))
    ensures PcSays(reports + News(s, Reread(t)), Of(Apply(s, Reread(t)), t).pc)
  {
    hide Logs.Inv, AfterRaise, PcSays, ValidateTransition, View;
    assert reports + {} == reports;
    assert ThreadSays(reports, Of(s, t));
    ViewSays(s, reports, t, Of(s, t).pc.row.id);
    RaisedSays(View(s, t), reports, Of(s, t).pc);
    Dispatch.NotRetried(s, t);
  }

  lemma OwnSays(s: System, step: Step, reports: Reports)
    requires Inv(s, reports) && Enabled(s, step) && !step.Tick?
    ensures ThreadSays(reports + News(s, step), Of(Apply(s, step), step.t))
  {
    hide Inv, Apply, PcSays, OpSays, Enabled;
    assert reports + {} == reports;
    if step.Update? {
      UpdateSays(s, reports, step.t);
    } else if step.Update2? {
      NoSecond(s, reports, step.t);
    } else if step.Vote? {
      VoteSays(s, reports, step.t, step.deadline);
    } else if step.Burn? {
      BurnSays(s, reports, step.t);
    } else if step.BeginPrepare? {
      CreateSays(s, reports, step.t, step.id, step.origin);
    } else if step.Commit? || step.Rollback? || step.Crash? {
      EndSays(s, step, reports);
    } else {
      PcStepSays(s, step, reports);
      Refusals.SameWrites(s, step);
      Says(s, reports, step.t);
      MoreReports(reports, News(s, step), Of(s, step.t));
    }
  }

  lemma NoSecond(s: System, reports: Reports, t: ThreadId)
    requires Inv(s, reports)
    ensures !Enabled(s, Update2(t))
  {
    Logs.NoRetrying(s, t);
  }

  lemma Says(s: System, reports: Reports, t: ThreadId)
    requires Inv(s, reports)
    ensures ThreadSays(reports, Of(s, t))
  {
  }

  lemma DbSays(s: System, step: Step, reports: Reports, id: OpId)
    requires Inv(s, reports) && Enabled(s, step) && id in Apply(s, step).db.ops
    ensures OpSays(reports + News(s, step), id, Apply(s, step).db.ops[id])
  {
    hide Logs.Inv;
    if step.Commit? {
      Refusals.CommitsVisible(s, step.t);
      ViewSays(s, reports, step.t, id);
    } else {
      Dispatch.OnlyCommitsPublish(s, step);
    }
  }

  lemma StepKeeps(s: System, step: Step, reports: Reports)
    requires Inv(s, reports) && Enabled(s, step)
    ensures Inv(Apply(s, step), reports + News(s, step))
  {
    hide Logs.Inv, Apply, Enabled, OpSays, ThreadSays, News;
    var s' := Apply(s, step);
    Logs.StepKeeps(s, step);
    forall id | id in s'.db.ops ensures OpSays(reports + News(s, step), id, s'.db.ops[id]) {
      DbSays(s, step, reports, id);
    }
    forall t ensures ThreadSays(reports + News(s, step), Of(s', t)) {
      if step.Tick? || step.t != t {
        Refusals.OthersLeave(s, step, t);
        MoreReports(reports, News(s, step), Of(s, t));
      } else {
        OwnSays(s, step, reports);
      }
    }
  }

  // ---------------------------------------------------------------- runs

  /** The reports are the reports of the calls made so far. */
  ghost predicate AllReported(run: seq<System>, i: nat, reports: Reports) {
    forall r | r in reports :: Reported(run, i, r.0, r.1)
  }

  lemma ReportedLater(run: seq<System>, i: nat, reports: Reports)
    requires AllReported(run, i, reports)
    ensures AllReported(run, i + 1, reports)
  {
    forall r | r in reports ensures Reported(run, i + 1, r.0, r.1) {
      var k: nat, t: ThreadId :| k < i && k + 1 < |run| && CallsAt(run, k, t, r.0, r.1);
    }
  }

  lemma {:induction false} RunKeeps(run: seq<System>, i: nat) returns (reports: Reports)
    requires IsRun(run) && i < |run|
    ensures Inv(run[i], reports) && AllReported(run, i, reports)
  {
    hide Inv, Enabled, Apply, Reported;
    if i == 0 {
      reports := {};
      InitOk(run[0]);
    } else {
      var before := RunKeeps(run, i - 1);
      assert Next(run[i - 1], run[i]);
      var step :| Enabled(run[i - 1], step) && run[i] == Apply(run[i - 1], step);
      StepKeeps(run[i - 1], step, before);
      reports := before + News(run[i - 1], step);
      ReportedLater(run, i - 1, before);
      if step.ExternalCall? && Of(run[i - 1], step.t).pc.Ready? {
        NewsReported(run, i - 1, step.t, Of(run[i - 1], step.t).pc.id, step.reported);
      }
    }
  }

  lemma NewsReported(run: seq<System>, k: nat, t: ThreadId, id: OpId, o: CallOutcome)
    requires k + 1 < |run| && CallsAt(run, k, t, id, o)
    ensures Reported(run, k + 1, id, o)
  {
  }

  lemma InitOk(s: System)
    requires Init(s)
    ensures Inv(s, {})
  {
    Logs.InitOk(s);
    assert forall t :: Of(s, t) == Thread(Idle, EMPTY);
  }

  // ---------------------------------------------------------------- one report each

  lemma CallCounts(run: seq<System>, k: nat, t: ThreadId, id: OpId, o: CallOutcome)
    requires IsRun(run) && k + 1 < |run| && CallsAt(run, k, t, id, o)
    ensures run[k].calls[id] == 0 && run[k + 1].calls[id] == 1
    ensures Of(run[k + 1], t).pc == Returned(id, o)
  {
    hide Enabled, IsRun;
    Dispatch.CalledOnlyAfterT10(run, k, id);
  }

  lemma {:induction false} CallsStay(run: seq<System>, i: nat, j: nat, id: OpId)
    requires IsRun(run) && i <= j < |run|
    ensures run[i].calls[id] <= run[j].calls[id]
  {
    hide Enabled, Apply;
    if i < j {
      CallsStay(run, i, j - 1, id);
      assert Next(run[j - 1], run[j]);
      var step :| Enabled(run[j - 1], step) && run[j] == Apply(run[j - 1], step);
      CallsGrow(run[j - 1], step, id);
    }
  }

  lemma CallsGrow(s: System, step: Step, id: OpId)
    requires Enabled(s, step)
    ensures s.calls[id] <= Apply(s, step).calls[id]
  {
    if Apply(s, step).calls != s.calls { Dispatch.OnlyCallsCall(s, step); }
  }

  /** An operation gets one report in a run. */
  lemma OneReport(run: seq<System>, i: nat, id: OpId, o: CallOutcome, p: CallOutcome)
    requires IsRun(run) && Reported(run, i, id, o) && Reported(run, i, id, p)
    ensures o == p
  {
    hide IsRun, CallsAt;
    var k: nat, t: ThreadId :| k < i && k + 1 < |run| && CallsAt(run, k, t, id, o);
    var l: nat, u: ThreadId :| l < i && l + 1 < |run| && CallsAt(run, l, u, id, p);
    CallCounts(run, k, t, id, o);
    CallCounts(run, l, u, id, p);
    if k < l { CallsStay(run, k + 1, l, id); }
    if l < k { CallsStay(run, l + 1, k, id); }
    if k == l && t != u { SameCaller(run, k, t, u, id, o, p); }
  }

  lemma SameCaller(run: seq<System>, k: nat, t: ThreadId, u: ThreadId, id: OpId, o: CallOutcome, p: CallOutcome)
    requires k + 1 < |run| && CallsAt(run, k, t, id, o) && CallsAt(run, k, u, id, p)
    ensures t == u
  {
    if t != u { Refusals.OthersLeave(run[k], ExternalCall(t, o), u); }
  }

  /** In every state of every run, an operation that is done was called, and is SUCCEEDED,
      FAILED or UNKNOWN exactly as that call reported: no interleaving, stale row, crash or
      second recorder makes it anything else. */
  lemma OutcomeIsTheReport(run: seq<System>, i: nat, id: OpId)
    requires IsRun(run) && i < |run| && id in run[i].db.ops
    ensures var s := run[i].db.ops[id].row.state;
            && (s in {Succeeded, Failed, Unknown} ==>
                  && (s == Succeeded <==> Reported(run, i, id, CallSucceeded))
                  && (s == Failed <==> Reported(run, i, id, CallFailed))
                  && (s == Unknown <==> Reported(run, i, id, CallIndeterminate)))
            && ((exists o :: Reported(run, i, id, o)) ==> s in {Executing, Succeeded, Failed, Unknown})
  {
    hide IsRun, Reported;
    var reports := RunKeeps(run, i);
    assert OpSays(reports, id, run[i].db.ops[id]);
    forall o, p | Reported(run, i, id, o) && Reported(run, i, id, p) ensures o == p { OneReport(run, i, id, o, p); }
    if o :| Reported(run, i, id, o) { ReportMeansRan(run, i, id, o); }
  }

  lemma ReportMeansRan(run: seq<System>, i: nat, id: OpId, o: CallOutcome)
    requires IsRun(run) && i < |run| && id in run[i].db.ops && Reported(run, i, id, o)
    ensures run[i].db.ops[id].row.state in {Executing, Succeeded, Failed, Unknown}
  {
    hide IsRun, CallsAt;
    var k: nat, t: ThreadId :| k < i && k + 1 < |run| && CallsAt(run, k, t, id, o);
    CallCounts(run, k, t, id, o);
    CallsStay(run, k + 1, i, id);
    Dispatch.DispatchedAtMostOnce(run, i, id);
  }
}
