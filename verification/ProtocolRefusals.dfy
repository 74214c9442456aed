/**
 What a refused execute leaves behind, in every run and whatever other threads do
 meanwhile: the handle is spent exactly when the refusal came after the burn and its
 transaction commits.
 */
module ProtocolRefusals {
  import opened StateMachine
  import opened OperationStore
  import opened Protocol
  import Logs = ProtocolLogs
  import Dispatch = ProtocolDispatch

  /** From state `i` to `i + 1`, the execute of `t` on `id` was refused: by a check, by
      the limit, or by a transition that had become illegal. */
  ghost predicate RefusedAt(run: seq<System>, i: nat, t: ThreadId, id: OpId)
    requires i + 1 < |run|
  {
    !Of(run[i], t).pc.Finished? && RefusedPc(Of(run[i + 1], t).pc, id)
  }

  predicate RefusedPc(pc: Pc, id: OpId) {
    pc.Finished? && pc.req.Execute? && !pc.ok && pc.id == id
  }

  // ---------------------------------------------------------------- invariant

  /** The transaction burned nothing. */
  ghost predicate NoBurn(db: Db, tx: Db) {
    forall id | id in tx.ops && tx.ops[id].row.burned :: id in db.ops && db.ops[id].row.burned
  }

  /** Before the burn, and in every other request, a transaction burns nothing. */
  ghost predicate Unspent(db: Db, th: Thread) {
    !Dispatch.Spending(th.pc) && !th.pc.Finished? ==> NoBurn(db, th.tx)
  }

  ghost predicate Inv(s: System) {
    Dispatch.Inv(s) && forall t :: Unspent(s.db, Of(s, t))
  }

  /** A committed burn stays. */
  ghost predicate BurnsKept(db: Db, later: Db) {
    forall id | id in db.ops :: id in later.ops && (db.ops[id].row.burned ==> later.ops[id].row.burned)
  }

  /** A step of another thread, or of the clock, leaves a thread alone. */
  lemma OthersLeave(s: System, step: Step, t: ThreadId)
    requires Enabled(s, step) && (step.Tick? || step.t != t)
    ensures Of(Apply(s, step), t) == Of(s, t)
  {
    hide Updated, Retried, Voted, BurnStep, Decision, SettledPc, RereadPc, CountedPc, PrepareCall, CanLock, View;
    if step.Update? || step.Update2? || step.Vote? || step.Burn? { WritersLeave(s, step, t); }
  }

  lemma WritersLeave(s: System, step: Step, t: ThreadId)
    requires Enabled(s, step) && (step.Update? || step.Update2? || step.Vote? || step.Burn?) && step.t != t
    ensures Of(Apply(s, step), t) == Of(s, t)
  {
    hide ValidateTransition, AfterMove, AfterRaise, Move, BurnHandle, Voters, DecisionCall, CanLock, View;
  }

  lemma CrashEnds(s: System, t: ThreadId)
    ensures Enabled(s, Crash(t)) && Of(Apply(s, Crash(t)), t).pc.Idle? && Apply(s, Crash(t)).db == s.db
  {
  }

  lemma CommitsVisible(s: System, t: ThreadId)
    requires Enabled(s, Commit(t))
    ensures Apply(s, Commit(t)).db == View(s, t)
    ensures Of(Apply(s, Commit(t)), t) != Of(s, t)
  {
  }

  lemma LogsToo(s: System)
    requires Dispatch.Inv(s)
    ensures Logs.Inv(s)
  {
  }

  lemma BurnsStay(s: System, step: Step)
    requires Dispatch.Inv(s) && Enabled(s, step)
    ensures BurnsKept(s.db, Apply(s, step).db)
  {
    hide Logs.Inv, Dispatch.DbCalls, Dispatch.Exclusive, Dispatch.Standing, Logs.ThreadOk, Logs.LockOk;
    if step.Commit? {
      var t := step.t;
      Dispatch.Facts(s, t);
      CommitsVisible(s, t);
      forall id | id in s.db.ops && id in Of(s, t).tx.ops
        ensures s.db.ops[id].row.burned ==> Of(s, t).tx.ops[id].row.burned
      {
        assert Dispatch.Staged(s.db, id, Of(s, t).tx.ops[id], s.calls[id], Of(s, t).pc);
      }
    } else {
      Dispatch.OnlyCommitsPublish(s, step);
    }
  }

  lemma NoBurnOn(db: Db, later: Db, tx: Db)
    requires NoBurn(db, tx) && BurnsKept(db, later)
    ensures NoBurn(later, tx)
  {
  }

  lemma PutNoBurn(db: Db, tx: Db, id: OpId, op: Op, audit: seq<AuditRecord>)
    requires NoBurn(db, tx)
    requires op.row.burned ==> id in Visible(db, tx).ops && Visible(db, tx).ops[id].row.burned
    ensures NoBurn(db, Put(tx, id, op, audit))
  {
  }

  // ---------------------------------------------------------------- steps

  /** From the burn on, a thread only goes to T10 and to the end of its body. */
  lemma SpendingLeads(s: System, step: Step)
    requires Enabled(s, step) && !step.Tick? && Dispatch.Spending(Of(s, step.t).pc)
    requires Dispatch.CallOk(Of(s, step.t).pc) && !Of(Apply(s, step), step.t).pc.Retrying?
    ensures var pc := Of(Apply(s, step), step.t).pc; Dispatch.Spending(pc) || pc.Finished? || step.Crash?
  {
    hide View, CanLock, ExecutingIn, ValidateTransition, Move;
  }

  lemma MoveKeepsBurn(op: Op, held: Row, call: Call)
    ensures var m := Move(op, held, call.t, call.actor, call.up); m.Some? ==> m.value.row.burned == op.row.burned
  {
  }

  lemma UpdateUnspent(s: System, t: ThreadId)
    requires Enabled(s, Update(t)) && NoBurn(s.db, Of(s, t).tx)
    ensures NoBurn(s.db, Of(Apply(s, Update(t)), t).tx)
  {
    hide ValidateTransition, Move, NoBurn, Put, CanLock, BurnHandle, AfterMove, AfterRaise;
    var pc := Of(s, t).pc;
    var op := View(s, t).ops[pc.row.id];
    var moved := Move(op, pc.row, pc.call.t, pc.call.actor, pc.call.up);
    MoveKeepsBurn(op, pc.row, pc.call);
    if moved.Some? {
      PutNoBurn(s.db, Of(s, t).tx, pc.row.id, moved.value, [MoveAudit(pc.row.id, pc.call.t, pc.call.actor)]);
    }
  }

  lemma VoteUnspent(s: System, t: ThreadId, deadline: Time)
    requires Enabled(s, Vote(t, deadline)) && NoBurn(s.db, Of(s, t).tx)
    ensures NoBurn(s.db, Of(Apply(s, Vote(t, deadline)), t).tx)
  {
    hide NoBurn, Put, CanLock, Voters, DecisionCall;
    var pc := Of(s, t).pc;
    PutNoBurn(s.db, Of(s, t).tx, pc.row.id, RecordVote(View(s, t).ops[pc.row.id], pc.req.who, pc.req.verdict), []);
  }

  lemma PrepareUnspent(s: System, t: ThreadId, id: OpId, origin: Origin)
    requires Enabled(s, BeginPrepare(t, id, origin)) && NoBurn(s.db, Of(s, t).tx)
    ensures NoBurn(s.db, Of(Apply(s, BeginPrepare(t, id, origin)), t).tx)
  {
    hide NoBurn, Put, CanLock, View;
    PutNoBurn(s.db, Of(s, t).tx, id, NewOperation(id, origin), [AuditOf(id, CreationEvent(origin))]);
  }

  /** The burn either refuses, or leads past itself. */
  lemma BurnUnspent(s: System, t: ThreadId)
    requires Enabled(s, Burn(t))
    ensures var th := Of(Apply(s, Burn(t)), t); Dispatch.Spending(th.pc) || th.pc.Finished?
  {
    hide Put, CanLock, View;
  }

  /** The other steps of a thread within its transaction write nothing. */
  lemma SameWrites(s: System, step: Step)
    requires Enabled(s, step) && !step.Tick? && !step.BeginPrepare? && !step.Update? && !step.Update2?
    requires !step.Vote? && !step.Burn? && !step.Commit? && !step.Rollback? && !step.Crash?
    ensures Of(Apply(s, step), step.t).tx == Of(s, step.t).tx && Apply(s, step).db == s.db
  {
    hide View, CanLock, ExecutingIn, ValidateTransition, PrepareCall, SettledPc, RereadPc, CountedPc, Decision;
  }

  lemma OwnUnspent(s: System, step: Step)
    requires Inv(s) && Enabled(s, step) && !step.Tick? && Dispatch.Inv(Apply(s, step))
    ensures Unspent(Apply(s, step).db, Of(Apply(s, step), step.t))
  {
    hide Dispatch.Inv, Apply, NoBurn, Enabled, Dispatch.Spending, Dispatch.CallOk;
    var t := step.t;
    var s' := Apply(s, step);
    assert Unspent(s.db, Of(s, t));
    if step.Commit? || step.Rollback? || step.Crash? {
      ClosesEmpty(s, step);
    } else if Dispatch.Spending(Of(s, t).pc) {
      CallsAreOk(s, t);
      NeverRetries(s', t);
      SpendingLeads(s, step);
    } else if Of(s, t).pc.Finished? {
      EndsOnly(s, step);
    } else {
      Dispatch.OnlyCommitsPublish(s, step);
      match step
      case BeginPrepare(_, id, origin) => PrepareUnspent(s, t, id, origin);
      case Update(_) => UpdateUnspent(s, t);
      case Update2(_) => NeverRetries(s, t); OnlyRetrying(s, t);
      case Vote(_, deadline) => VoteUnspent(s, t, deadline);
      case Burn(_) => BurnUnspent(s, t);
      case _ => SameWrites(s, step);
    }
  }

  lemma ClosesEmpty(s: System, step: Step)
    requires Enabled(s, step) && (step.Commit? || step.Rollback? || step.Crash?)
    ensures Of(Apply(s, step), step.t).tx == EMPTY && NoBurn(Apply(s, step).db, EMPTY)
  {
    hide View;
  }

  lemma EndsOnly(s: System, step: Step)
    requires Enabled(s, step) && !step.Tick? && Of(s, step.t).pc.Finished?
    ensures step.Commit? || step.Rollback? || step.Crash?
  {
  }

  lemma OnlyRetrying(s: System, t: ThreadId)
    requires Enabled(s, Update2(t))
    ensures Of(s, t).pc.Retrying?
  {
  }

  lemma NeverRetries(s: System, t: ThreadId)
    requires Dispatch.Inv(s)
    ensures !Of(s, t).pc.Retrying?
  {
    Logs.NoRetrying(s, t);
  }

  lemma CallsAreOk(s: System, t: ThreadId)
    requires Dispatch.Inv(s)
    ensures Dispatch.CallOk(Of(s, t).pc)
  {
    hide Logs.Inv, Dispatch.DbCalls, Dispatch.Exclusive, Dispatch.CallOk, Dispatch.Staged;
    Dispatch.Facts(s, t);
  }

  lemma StepKeeps(s: System, step: Step)
    requires Inv(s) && Enabled(s, step)
    ensures Inv(Apply(s, step))
  {
    hide Dispatch.Inv, Apply, NoBurn, Enabled, BurnsKept;
    var s' := Apply(s, step);
    Dispatch.StepKeeps(s, step);
    BurnsStay(s, step);
    forall t ensures Unspent(s'.db, Of(s', t)) {
      assert Unspent(s.db, Of(s, t));
      if step.Tick? || step.t != t {
        OthersLeave(s, step, t);
        if NoBurn(s.db, Of(s, t).tx) { NoBurnOn(s.db, s'.db, Of(s, t).tx); }
      } else {
        OwnUnspent(s, step);
      }
    }
  }

  lemma InitOk(s: System)
    requires Init(s)
    ensures Inv(s)
  {
    Dispatch.InitOk(s);
    assert forall t :: Of(s, t) == Thread(Idle, EMPTY);
  }

  lemma {:induction false} RunKeeps(run: seq<System>, i: nat)
    requires IsRun(run) && i < |run|
    ensures Inv(run[i])
  {
    hide Inv, Enabled, Apply;
    if i == 0 {
      InitOk(run[0]);
    } else {
      RunKeeps(run, i - 1);
      assert Next(run[i - 1], run[i]);
      var step :| Enabled(run[i - 1], step) && run[i] == Apply(run[i - 1], step);
      StepKeeps(run[i - 1], step);
    }
  }

  // ---------------------------------------------------------------- the refusal

  /** `t` holds the refusal of its execute on `id`; `past` says whether its transaction
      holds the burn. */
  ghost predicate Holding(s: System, t: ThreadId, id: OpId, past: bool) {
    var th := Of(s, t);
    && RefusedPc(th.pc, id) && id in s.db.ops
    && if past then Dispatch.Spent(s.db, th.tx, id) else NoBurn(s.db, th.tx)
  }

  /** Whatever step refuses an execute writes nothing, and is about the row in hand. */
  lemma RefusingStep(s: System, step: Step, t: ThreadId, id: OpId)
    requires Enabled(s, step) && !Of(s, t).pc.Finished? && RefusedPc(Of(Apply(s, step), t).pc, id)
    ensures Apply(s, step).db == s.db && Of(Apply(s, step), t).tx == Of(s, t).tx
    ensures var pc := Of(s, t).pc; Logs.HasRow(pc) && pc.row.id == id && Dispatch.Req(pc).Execute?
  {
    hide Apply;
    if step.Tick? || step.t != t {
      OthersLeave(s, step, t);
    } else if step.Update? || step.Update2? {
      RefusingUpdate(s, step, id);
    } else if step.Vote? || step.BeginPrepare? || step.Commit? || step.Rollback? || step.Crash? {
      NotRefusing(s, step, id);
    } else if step.Burn? {
      RefusingBurn(s, t, id);
    } else {
      SameWrites(s, step);
      RefusingPc(s, step, id);
    }
  }

  lemma RefusingUpdate(s: System, step: Step, id: OpId)
    requires Enabled(s, step) && (step.Update? || step.Update2?) && RefusedPc(Of(Apply(s, step), step.t).pc, id)
    ensures Apply(s, step).db == s.db && Of(Apply(s, step), step.t).tx == Of(s, step.t).tx
    ensures var pc := Of(s, step.t).pc; Logs.HasRow(pc) && pc.row.id == id && Dispatch.Req(pc).Execute?
  {
    hide View, CanLock, ValidateTransition, Move;
  }

  lemma RefusingBurn(s: System, t: ThreadId, id: OpId)
    requires Enabled(s, Burn(t)) && RefusedPc(Of(Apply(s, Burn(t)), t).pc, id)
    ensures Apply(s, Burn(t)).db == s.db && Of(Apply(s, Burn(t)), t).tx == Of(s, t).tx
    ensures var pc := Of(s, t).pc; Logs.HasRow(pc) && pc.row.id == id && Dispatch.Req(pc).Execute?
  {
    hide View, CanLock;
  }

  lemma NotRefusing(s: System, step: Step, id: OpId)
    requires Enabled(s, step)
    requires step.Vote? || step.BeginPrepare? || step.Commit? || step.Rollback? || step.Crash?
    ensures !RefusedPc(Of(Apply(s, step), step.t).pc, id)
  {
    hide View, CanLock, Voters;
  }

  lemma RefusingPc(s: System, step: Step, id: OpId)
    requires Enabled(s, step) && !step.Tick? && !step.Update? && !step.Update2? && !step.Vote? && !step.BeginPrepare?
    requires !step.Burn? && !step.Commit? && !step.Rollback? && !step.Crash?
    requires RefusedPc(Of(Apply(s, step), step.t).pc, id)
    ensures var pc := Of(s, step.t).pc; Logs.HasRow(pc) && pc.row.id == id && Dispatch.Req(pc).Execute?
  {
    hide View, CanLock, ExecutingIn, ValidateTransition, PrepareCall;
  }

  lemma RefusalHolds(s: System, step: Step, t: ThreadId, id: OpId)
    requires Inv(s) && Enabled(s, step) && !Of(s, t).pc.Finished? && RefusedPc(Of(Apply(s, step), t).pc, id)
    ensures Holding(Apply(s, step), t, id, Dispatch.Spending(Of(s, t).pc))
  {
    hide Logs.Inv, Dispatch.DbCalls, Dispatch.Staged, Dispatch.Exclusive, Logs.ThreadOk, Logs.LockOk, Apply, Enabled,
        NoBurn;
    RefusingStep(s, step, t, id);
    Dispatch.Facts(s, t);
    assert Unspent(s.db, Of(s, t));
  }

  /** What `t` wrote stays locked, so nobody else publishes it. */
  lemma HoldingStays(s: System, step: Step, t: ThreadId, id: OpId, past: bool)
    requires Dispatch.Inv(s) && Enabled(s, step) && Holding(s, t, id, past) && Of(Apply(s, step), t) == Of(s, t)
    ensures Holding(Apply(s, step), t, id, past)
  {
    hide Dispatch.Inv, Logs.Inv, Logs.ThreadOk, NoBurn;
    BurnsStay(s, step);
    if !past {
      NoBurnOn(s.db, Apply(s, step).db, Of(s, t).tx);
    } else if step.Commit? {
      LogsToo(s);
      Logs.Facts(s, t);
      Logs.Facts(s, step.t);
      CommitsVisible(s, step.t);
    } else {
      Dispatch.OnlyCommitsPublish(s, step);
    }
  }

  lemma HoldingFirst(run: seq<System>, i: nat, t: ThreadId, id: OpId)
    requires IsRun(run) && i + 1 < |run| && RefusedAt(run, i, t, id)
    ensures Holding(run[i + 1], t, id, Dispatch.Spending(Of(run[i], t).pc))
  {
    hide Enabled, Apply, Inv, Holding, Dispatch.Spending;
    RunKeeps(run, i);
    assert Next(run[i], run[i + 1]);
    var step :| Enabled(run[i], step) && run[i + 1] == Apply(run[i], step);
    RefusalHolds(run[i], step, t, id);
  }

  lemma {:induction false} HoldingFor(run: seq<System>, i: nat, j: nat, t: ThreadId, id: OpId, past: bool)
    requires IsRun(run) && i <= j < |run| && Holding(run[i], t, id, past)
    requires forall k | i <= k <= j :: Of(run[k], t) == Of(run[i], t)
    ensures Holding(run[j], t, id, past)
  {
    hide Enabled, Apply, Dispatch.Inv, Holding;
    if i < j {
      HoldingFor(run, i, j - 1, t, id, past);
      Dispatch.RunKeeps(run, j - 1);
      assert Next(run[j - 1], run[j]);
      var step :| Enabled(run[j - 1], step) && run[j] == Apply(run[j - 1], step);
      HoldingStays(run[j - 1], step, t, id, past);
    }
  }

  lemma OwnStep(s: System, step: Step, t: ThreadId)
    requires Enabled(s, step) && Of(s, t).pc.Finished? && Of(Apply(s, step), t) != Of(s, t)
    ensures step == Commit(t) || step == Rollback(t) || step == Crash(t)
    ensures step != Commit(t) ==> Apply(s, step).db == s.db
  {
    hide ExecutingIn, Apply;
    if step.Tick? || step.t != t {
      OthersLeave(s, step, t);
    } else if step.Crash? {
      CrashEnds(s, t);
    } else if step.Rollback? {
      Dispatch.OnlyCommitsPublish(s, step);
    }
  }

  ghost predicate SpendsNothing(db: Db, after: Db) {
    forall k | k in after.ops && after.ops[k].row.burned :: k in db.ops && db.ops[k].row.burned
  }

  lemma CommitSpendsNothing(db: Db, tx: Db)
    requires NoBurn(db, tx)
    ensures SpendsNothing(db, Visible(db, tx))
  {
  }

  /** A thread whose body has ended only commits, rolls back or crashes. */
  lemma EndsBy(s: System, step: Step, t: ThreadId, id: OpId, past: bool)
    requires Dispatch.Inv(s) && Holding(s, t, id, past) && Enabled(s, step) && Of(Apply(s, step), t) != Of(s, t)
    ensures step == Commit(t) || step == Rollback(t) || step == Crash(t)
    ensures id in s.db.ops && id in Apply(s, step).db.ops
    ensures !s.db.ops[id].row.burned && Apply(s, step).db.ops[id].row.burned <==> past && step == Commit(t)
    ensures step != Commit(t) ==> Apply(s, step).db == s.db
    ensures !(past && step == Commit(t)) ==> SpendsNothing(s.db, Apply(s, step).db)
    ensures past && step == Commit(t) ==> Dispatch.Wasted(Apply(s, step).db, id)
  {
    hide Dispatch.Inv, NoBurn, SpendsNothing, Apply, Enabled;
    OwnStep(s, step, t);
    if step == Commit(t) {
      CommitsVisible(s, t);
      if past { CommitWastes(s, t, id); } else { CommitSpendsNothing(s.db, Of(s, t).tx); NotSpent(s, t, id); }
    } else {
      SpendsSame(s.db);
    }
  }

  lemma SpendsSame(db: Db)
    ensures SpendsNothing(db, db)
  {
  }

  lemma NotSpent(s: System, t: ThreadId, id: OpId)
    requires NoBurn(s.db, Of(s, t).tx) && id in s.db.ops
    ensures id in View(s, t).ops && (View(s, t).ops[id].row.burned ==> s.db.ops[id].row.burned)
  {
  }

  lemma CommitWastes(s: System, t: ThreadId, id: OpId)
    requires Dispatch.Inv(s) && Holding(s, t, id, true)
    ensures Dispatch.Wasted(View(s, t), id)
  {
    hide Logs.Inv, Dispatch.Exclusive, Dispatch.Standing;
    Dispatch.Facts(s, t);
    Dispatch.CommittedOk(s, id);
    assert Dispatch.Staged(s.db, id, Of(s, t).tx.ops[id], s.calls[id], Of(s, t).pc);
  }

  /** In every run, for every refused execute, whatever refused it: when its transaction
      ends, it has burned the handle exactly when the refusal came after the burn and the
      end is a commit. Then the operation is never dispatched in any continuation;
      otherwise no handle at all was spent, and without a commit nothing changed. */
  lemma RefusalSpendsIff(run: seq<System>, i: nat, j: nat, t: ThreadId, id: OpId, step: Step)
    requires IsRun(run) && i + 1 < j < |run| && RefusedAt(run, i, t, id)
    requires forall k | i + 1 <= k < j :: Of(run[k], t) == Of(run[i + 1], t)
    requires Of(run[j], t) != Of(run[j - 1], t)
    requires Enabled(run[j - 1], step) && run[j] == Apply(run[j - 1], step)
    ensures var before, after := run[j - 1].db, run[j].db; var spends := Dispatch.Spending(Of(run[i], t).pc)
                                                                         && step == Commit(t);
            && id in before.ops && id in after.ops
            && (!before.ops[id].row.burned && after.ops[id].row.burned <==> spends)
            && (!spends ==> SpendsNothing(before, after))
            && (step != Commit(t) ==> after == before)
            && (spends ==> forall m | j <= m < |run| :: Dispatch.Wasted(run[m].db, id) && run[m].calls[id] == 0)
  {
    hide Enabled, Apply, Inv, Holding, IsRun, Dispatch.Spending, SpendsNothing;
    HoldingFirst(run, i, t, id);
    HoldingFor(run, i + 1, j - 1, t, id, Dispatch.Spending(Of(run[i], t).pc));
    Dispatch.RunKeeps(run, j - 1);
    EndsBy(run[j - 1], step, t, id, Dispatch.Spending(Of(run[i], t).pc));
    if Dispatch.Spending(Of(run[i], t).pc) && step == Commit(t) {
      forall m | j <= m < |run| ensures Dispatch.Wasted(run[m].db, id) && run[m].calls[id] == 0 {
        Dispatch.WastedHandleNeverRuns(run, j, m, id);
      }
    }
  }
}
