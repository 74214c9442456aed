/**
 The concurrency limit: with one writing transaction at a time, taken at the burn, the
 count after the burn keeps every workflow within its `max_concurrent`; and what a
 refused execute leaves behind.
 */
module ProtocolLimit {
  import opened Wrappers
  import opened StateMachine
  import opened OperationStore
  import opened Protocol
  import Logs = ProtocolLogs
  import Dispatch = ProtocolDispatch

  // ---------------------------------------------------------------- invariant

  ghost predicate Limited(cfg: Config, db: Db) {
    forall w :: |ExecutingIn(db, w)| <= cfg.limit(w)
  }

  /** A thread about to apply T10 has counted, and found room. */
  ghost predicate Room(cfg: Config, view: Db, pc: Pc) {
    (pc.Calling? || pc.Lost?) && pc.call.t == T10 ==>
      |ExecutingIn(view, pc.row.origin.workflow)| < cfg.limit(pc.row.origin.workflow)
  }

  ghost predicate OneWriter(locks: map<OpId, ThreadId>) {
    forall j, k | j in locks && k in locks :: locks[j] == locks[k]
  }

  ghost predicate ThreadLimit(cfg: Config, db: Db, th: Thread) {
    Limited(cfg, Visible(db, th.tx)) && Room(cfg, Visible(db, th.tx), th.pc)
  }

  ghost predicate Inv(s: System) {
    && Dispatch.Inv(s)
    && (s.cfg.single ==>
          && OneWriter(s.locks)
          && Limited(s.cfg, s.db)
          && forall t :: ThreadLimit(s.cfg, s.db, Of(s, t)))
  }

  // ---------------------------------------------------------------- counting

  /** Storing an operation that does not start executing adds no running operation. */
  lemma PutQuietly(cfg: Config, db: Db, id: OpId, op: Op, audit: seq<AuditRecord>)
    requires Limited(cfg, db)
    requires op.row.state == Executing ==>
               id in db.ops && db.ops[id].row.state == Executing && db.ops[id].row.origin == op.row.origin
    ensures Limited(cfg, Put(db, id, op, audit))
  {
    forall w ensures |ExecutingIn(Put(db, id, op, audit), w)| <= cfg.limit(w) {
      SmallerSet(ExecutingIn(Put(db, id, op, audit), w), ExecutingIn(db, w));
    }
  }

  /** Starting one operation takes one of the free places of its workflow. */
  lemma PutStarting(cfg: Config, db: Db, id: OpId, op: Op, audit: seq<AuditRecord>)
    requires Limited(cfg, db)
    requires |ExecutingIn(db, op.row.origin.workflow)| < cfg.limit(op.row.origin.workflow)
    requires id in db.ops ==> db.ops[id].row.origin == op.row.origin
    ensures Limited(cfg, Put(db, id, op, audit))
  {
    forall w ensures |ExecutingIn(Put(db, id, op, audit), w)| <= cfg.limit(w) {
      if w == op.row.origin.workflow {
        SmallerSet(ExecutingIn(Put(db, id, op, audit), w), ExecutingIn(db, w) + {id});
      } else {
        SmallerSet(ExecutingIn(Put(db, id, op, audit), w), ExecutingIn(db, w));
      }
    }
  }

  // ---------------------------------------------------------------- shapes

  lemma Facts(s: System, t: ThreadId)
    requires Inv(s)
    ensures s.cfg.single ==> ThreadLimit(s.cfg, s.db, Of(s, t))
    ensures Dispatch.ThreadCalls(s.db, s.calls, Of(s, t))
    ensures Logs.ThreadOk(s.db, Of(s, t)) && Logs.LockOk(s.locks, t, Of(s, t).tx)
  {
    hide Logs.ThreadOk, Logs.LockOk;
    Dispatch.Facts(s, t);
  }

  /** A step that changes nothing shared but `t`'s own thread, and takes locks only
      when `t` may. */
  lemma ThreadStep(s: System, t: ThreadId, th: Thread, s': System)
    requires Inv(s) && Dispatch.Inv(s')
    requires s'.db == s.db && s'.cfg == s.cfg && s'.threads == s.threads[t := th]
    requires s'.locks == s.locks || exists id :: CanLock(s, t, id) && s'.locks == s.locks[id := t]
    requires s.cfg.single ==> ThreadLimit(s.cfg, s.db, th)
    ensures Inv(s')
  {
    hide Dispatch.Inv, ThreadLimit, Limited;
    forall u ensures s.cfg.single ==> ThreadLimit(s'.cfg, s'.db, Of(s', u)) {
      assert s.cfg.single ==> ThreadLimit(s.cfg, s.db, Of(s, u));
    }
  }

  /** With one writer, an open transaction with writes is the only one. */
  lemma OtherIsEmpty(locks: map<OpId, ThreadId>, t: ThreadId, mine: Db, u: ThreadId, yours: Db)
    requires OneWriter(locks) && t != u && Logs.LockOk(locks, t, mine) && Logs.LockOk(locks, u, yours)
    ensures mine.ops == map[] || yours.ops == map[]
  {
  }

  lemma SameCounts(db: Db, db': Db)
    requires db.ops == db'.ops
    ensures forall w :: ExecutingIn(db, w) == ExecutingIn(db', w)
  {
    forall w ensures ExecutingIn(db, w) == ExecutingIn(db', w) {
      assert forall id :: id in ExecutingIn(db, w) <==> id in ExecutingIn(db', w);
    }
  }

  lemma CommitThread(cfg: Config, db: Db, mine: Db, calls: multiset<OpId>, th: Thread)
    requires Limited(cfg, Visible(db, mine)) && ThreadLimit(cfg, db, th)
    requires mine.ops == map[] || th.tx.ops == map[]
    requires Dispatch.Standing(db, calls, th.tx, th.pc)
    ensures ThreadLimit(cfg, Visible(db, mine), th)
  {
    hide Dispatch.CallOk;
    var after := Visible(Visible(db, mine), th.tx);
    if mine.ops == map[] {
      assert after.ops == Visible(db, th.tx).ops;
      SameCounts(after, Visible(db, th.tx));
    } else {
      assert after.ops == Visible(db, mine).ops;
      SameCounts(after, Visible(db, mine));
      assert !Dispatch.Spending(th.pc);
    }
  }

  lemma EmptyLimit(cfg: Config, db: Db, pc: Pc)
    requires Limited(cfg, db) && Logs.Quiet(pc)
    ensures ThreadLimit(cfg, db, Thread(pc, EMPTY))
  {
    Logs.VisibleEmpty(db);
  }

  lemma CloseStep(s: System, t: ThreadId, publish: bool, pc: Pc, s': System)
    requires Inv(s) && Dispatch.Inv(s') && Logs.Quiet(pc)
    requires s' == Closed(s, t, if publish then View(s, t) else s.db, pc)
    ensures Inv(s')
  {
    hide Dispatch.Inv, Limited, Logs.ThreadOk, Logs.LockOk, Dispatch.Standing, Dispatch.Staged, OneWriter;
    Facts(s, t);
    UnlockedOne(s.locks, t);
    if s.cfg.single {
      EmptyLimit(s.cfg, s'.db, pc);
      forall u ensures ThreadLimit(s'.cfg, s'.db, Of(s', u)) {
        Facts(s, u);
        if u != t {
          assert Of(s', u) == Of(s, u);
          OtherIsEmpty(s.locks, t, Of(s, t).tx, u, Of(s, u).tx);
          if publish { CommitThread(s.cfg, s.db, Of(s, t).tx, s.calls, Of(s, u)); }
        }
      }
    }
  }

  lemma UnlockedOne(locks: map<OpId, ThreadId>, t: ThreadId)
    ensures OneWriter(locks) ==> OneWriter(Unlocked(locks, t))
  {
  }

  // ---------------------------------------------------------------- steps

  lemma MovedLimit(cfg: Config, db: Db, th: Thread, op: Op, audit: seq<AuditRecord>)
    requires ThreadLimit(cfg, db, th) && th.pc.Calling? && th.pc.row.id in Visible(db, th.tx).ops
    requires Dispatch.Update(th.pc, Visible(db, th.tx).ops[th.pc.row.id], op)
    requires Visible(db, th.tx).ops[th.pc.row.id].row.origin == th.pc.row.origin
    ensures ThreadLimit(cfg, db, Thread(AfterMove(th.pc.req, op.row, th.pc.call), Put(th.tx, th.pc.row.id, op, audit)))
  {
    hide Limited, Visible, ExecutingIn, ValidateTransition;
    var pc := th.pc;
    var view := Visible(db, th.tx);
    Logs.VisiblePut(db, th.tx, pc.row.id, op, audit);
    assert op.row.origin == pc.row.origin && op.row.state == ById(pc.call.t).to;
    if pc.call.t == T10 {
      PutStarting(cfg, view, pc.row.id, op, audit);
    } else {
      PutQuietly(cfg, view, pc.row.id, op, audit);
    }
  }

  lemma UpdateKeeps(s: System, t: ThreadId, pc: Pc)
    requires Inv(s) && pc == Of(s, t).pc && pc.Calling? && pc.row.id in View(s, t).ops && CanLock(s, t, pc.row.id)
    requires Dispatch.Inv(Updated(s, t, pc.req, pc.row, pc.call))
    ensures Inv(Updated(s, t, pc.req, pc.row, pc.call))
  {
    hide Dispatch.Inv, Limited, Logs.ThreadOk, Logs.LockOk, Dispatch.ThreadCalls, ValidateTransition, ExecutingIn,
        OneWriter;
    var s' := Updated(s, t, pc.req, pc.row, pc.call);
    var op := View(s, t).ops[pc.row.id];
    Facts(s, t);
    HeldRow(s, t, pc.row.id);
    if ValidateTransition(pc.call.t, Some(pc.row.state)).Success? && op.row.version == pc.row.version {
      if s.cfg.single {
        MovedLimit(s.cfg, s.db, Of(s, t), Move(op, pc.row, pc.call.t, pc.call.actor, pc.call.up).value,
                   [MoveAudit(pc.row.id, pc.call.t, pc.call.actor)]);
      }
    }
    ThreadStep(s, t, Of(s', t), s');
  }

  lemma HeldRow(s: System, t: ThreadId, id: OpId)
    requires Inv(s) && id in View(s, t).ops && Of(s, t).pc.Calling? && Of(s, t).pc.row.id == id
    ensures View(s, t).ops[id].row.id == id && View(s, t).ops[id].row.origin == Of(s, t).pc.row.origin
    ensures View(s, t).ops[id].row.version == Of(s, t).pc.row.version ==>
              View(s, t).ops[id].row.state == Of(s, t).pc.row.state
  {
    Logs.SameRow(s, t, id);
  }

  /** Storing an operation without starting it. */
  lemma QuietPut(s: System, t: ThreadId, id: OpId, op: Op, audit: seq<AuditRecord>, pc: Pc)
    requires Inv(s) && CanLock(s, t, id) && Dispatch.Inv(WithPut(s, t, id, op, audit, pc))
    requires op.row.state == Executing ==>
               id in View(s, t).ops && View(s, t).ops[id].row.state == Executing
               && View(s, t).ops[id].row.origin == op.row.origin
    requires (pc.Calling? || pc.Lost?) ==> pc.call.t != T10
    ensures Inv(WithPut(s, t, id, op, audit, pc))
  {
    hide Dispatch.Inv, Limited, Dispatch.ThreadCalls, Logs.ThreadOk, Logs.LockOk, OneWriter;
    Facts(s, t);
    Logs.VisiblePut(s.db, Of(s, t).tx, id, op, audit);
    if s.cfg.single { PutQuietly(s.cfg, View(s, t), id, op, audit); }
    ThreadStep(s, t, Thread(pc, Put(Of(s, t).tx, id, op, audit)), WithPut(s, t, id, op, audit, pc));
  }

  /** Moving the program counter. */
  lemma PcStep(s: System, t: ThreadId, pc: Pc, s': System)
    requires Inv(s) && Dispatch.Inv(s')
    requires s'.db == s.db && s'.cfg == s.cfg && s'.threads == s.threads[t := Of(s, t).(pc := pc)]
    requires s'.locks == s.locks || exists id :: CanLock(s, t, id) && s'.locks == s.locks[id := t]
    requires s.cfg.single ==> Room(s.cfg, View(s, t), pc)
    ensures Inv(s')
  {
    hide Dispatch.Inv, Limited, Dispatch.ThreadCalls, Logs.ThreadOk, Logs.LockOk, OneWriter;
    Facts(s, t);
    ThreadStep(s, t, Of(s, t).(pc := pc), s');
  }

  lemma BurnKeeps(s: System, t: ThreadId, pc: Pc)
    requires Inv(s) && pc == Of(s, t).pc && pc.Settled? && pc.req.Execute? && pc.row.id in View(s, t).ops
    requires CanLock(s, t, pc.row.id) && Dispatch.Inv(BurnStep(s, t, pc.req, pc.row))
    ensures Inv(BurnStep(s, t, pc.req, pc.row))
  {
    hide Dispatch.Inv, Limited, OneWriter;
    var op := View(s, t).ops[pc.row.id];
    if pc.row.burned || pc.row.state != Approved || op.row.burned {
      PcStep(s, t, Finished(pc.req, pc.row.id, false), BurnStep(s, t, pc.req, pc.row));
    } else {
      QuietPut(s, t, pc.row.id, BurnHandle(op).value, [], Burned(pc.req.who, pc.row));
    }
  }

  lemma VoteKeeps(s: System, t: ThreadId, pc: Pc, deadline: Time)
    requires Inv(s) && pc == Of(s, t).pc && pc.Settled? && pc.req.Decide? && pc.row.policy.Some?
    requires pc.row.id in View(s, t).ops && CanLock(s, t, pc.row.id)
        && Dispatch.Inv(Voted(s, t, pc.req, pc.row, deadline))
    ensures Inv(Voted(s, t, pc.req, pc.row, deadline))
  {
    hide Dispatch.Inv, Limited, OneWriter;
    var op := View(s, t).ops[pc.row.id];
    var voted := RecordVote(op, pc.req.who, pc.req.verdict);
    if pc.req.who == pc.row.origin.principal || pc.req.who !in pc.row.policy.value.eligible || pc.req.who in op.votes {
      PcStep(s, t, Finished(pc.req, pc.row.id, false), Voted(s, t, pc.req, pc.row, deadline));
    } else {
      QuietPut(s, t, pc.row.id, voted, [], Of(Voted(s, t, pc.req, pc.row, deadline), t).pc);
    }
  }

  lemma DecidedRoom(s: System, step: Step)
    requires step.Settle? || step.Refuse? || step.Count? || step.FinishPrepare? || step.Proceed?
    requires Enabled(s, step)
    ensures Room(s.cfg, View(s, step.t), Logs.DecidedPc(s, step))
  {
    hide ExecutingIn, Visible;
  }

  lemma DecidedKeeps(s: System, step: Step)
    requires step.Settle? || step.Refuse? || step.Count? || step.FinishPrepare? || step.Proceed?
    requires Inv(s) && Enabled(s, step) && Dispatch.Inv(Apply(s, step))
    ensures Inv(Apply(s, step))
  {
    hide Dispatch.Inv, Room, Logs.Follows, OneWriter, Limited;
    DecidedRoom(s, step);
    Logs.DecidedFollows(s, step);
    PcStep(s, step.t, Logs.DecidedPc(s, step), Apply(s, step));
  }

  lemma RereadKeeps(s: System, t: ThreadId, pc: Pc)
    requires Inv(s) && pc == Of(s, t).pc && pc.Lost? && pc.row.id in View(s, t).ops
    requires Dispatch.Inv(WithPc(s, t, RereadPc(View(s, t), pc)))
    ensures Inv(WithPc(s, t, RereadPc(View(s, t), pc)))
  {
    hide Dispatch.Inv, OneWriter, Limited;
    PcStep(s, t, RereadPc(View(s, t), pc), WithPc(s, t, RereadPc(View(s, t), pc)));
  }

  lemma BeginKeeps(s: System, step: Step)
    requires Inv(s) && Enabled(s, step) && Dispatch.Inv(Apply(s, step))
    requires step.BeginGet? || step.BeginListing? || step.BeginPrepare? || step.BeginRecord?
    ensures Inv(Apply(s, step))
  {
    hide Dispatch.Inv, OneWriter, Limited;
    match step
    case BeginGet(t, req, id) => PcStep(s, t, Fetched(req, s.db.ops[id].row), Apply(s, step));
    case BeginListing(t, rows) => PcStep(s, t, Fetched(Listing(rows[1..]), rows[0]), Apply(s, step));
    case BeginPrepare(t, id, origin) =>
      QuietPut(s, t, id, NewOperation(id, origin), [AuditOf(id, CreationEvent(origin))],
               Created(NewOperation(id, origin).row));
    case BeginRecord(t) =>
      PcStep(s, t, Fetched(Record(Of(s, t).pc.reported), s.db.ops[Of(s, t).pc.id].row), Apply(s, step));
  }

  lemma StepKeeps(s: System, step: Step)
    requires Inv(s) && Enabled(s, step)
    ensures Inv(Apply(s, step))
  {
    hide Dispatch.Inv, OneWriter, Limited, ThreadLimit;
    assert Dispatch.Inv(s);
    Dispatch.StepKeeps(s, step);
    match step
    case Tick(now) => assert forall u :: Of(s.(clock := now), u) == Of(s, u);
    case Update(t) => UpdateKeeps(s, t, Of(s, t).pc);
    case Reread(t) => RereadKeeps(s, t, Of(s, t).pc);
    case Update2(t) => NoRetrying(s, t); assert false;
    case Vote(t, d) => VoteKeeps(s, t, Of(s, t).pc, d);
    case Burn(t) => BurnKeeps(s, t, Of(s, t).pc);
    case Commit(t) => CloseStep(s, t, true, Of(Apply(s, step), t).pc, Apply(s, step));
    case Rollback(t) => CloseStep(s, t, false, Idle, Apply(s, step));
    case Crash(t) => CloseStep(s, t, false, Idle, Apply(s, step));
    case EnterDispatch(t) => PcStep(s, t, Of(Apply(s, step), t).pc, Apply(s, step));
    case ExternalCall(t, o) => PcStep(s, t, Returned(Of(s, t).pc.id, o), Apply(s, step));
    case _ =>
      if step.BeginGet? || step.BeginListing? || step.BeginPrepare? || step.BeginRecord? {
        BeginKeeps(s, step);
      } else {
        DecidedKeeps(s, step);
      }
  }

  lemma NoRetrying(s: System, t: ThreadId)
    requires Dispatch.Inv(s)
    ensures !Of(s, t).pc.Retrying?
  {
    Logs.NoRetrying(s, t);
  }

  // ---------------------------------------------------------------- runs

  lemma InitOk(s: System)
    requires Init(s)
    ensures Inv(s)
  {
    Dispatch.InitOk(s);
    Logs.VisibleEmpty(EMPTY);
    assert forall w :: ExecutingIn(EMPTY, w) == {};
    assert forall t :: Of(s, t) == Thread(Idle, EMPTY);
  }

  lemma {:induction false} RunKeeps(run: seq<System>, i: nat)
    requires IsRun(run) && i < |run|
    ensures Inv(run[i])
  {
    hide Inv, Enabled;
    if i == 0 {
      InitOk(run[0]);
    } else {
      RunKeeps(run, i - 1);
      assert Next(run[i - 1], run[i]);
      var step :| Enabled(run[i - 1], step) && run[i] == Apply(run[i - 1], step);
      StepKeeps(run[i - 1], step);
    }
  }

  /** With one writing transaction at a time, every committed state of every run keeps
      every workflow within its limit. */
  lemma LimitHolds(run: seq<System>, i: nat, w: WorkflowId)
    requires IsRun(run) && i < |run| && run[i].cfg.single
    ensures |ExecutingIn(run[i].db, w)| <= run[i].cfg.limit(w)
  {
    RunKeeps(run, i);
  }

  // ---------------------------------------------------------------- refusals

  /** A thread that is about to burn the handle of an Approved row. */
  ghost predicate AboutToBurn(s: System, t: ThreadId, id: OpId) {
    var pc := Of(s, t).pc;
    && pc.Settled? && pc.req.Execute? && pc.row.id == id && Of(s, t).tx == EMPTY
    && id in s.db.ops && s.db.ops[id].row == pc.row
    && pc.row.state == Approved && !pc.row.burned
    && CanLock(s, t, id)
  }

  function Burnt(op: Op): Op {
    op.(row := op.row.(burned := true))
  }

  lemma BurnShape(s: System, t: ThreadId, id: OpId)
    requires AboutToBurn(s, t, id)
    ensures Enabled(s, Burn(t))
    ensures Apply(s, Burn(t))
            == WithPut(s, t, id, Burnt(s.db.ops[id]), [], Burned(Of(s, t).pc.req.who, s.db.ops[id].row))
    ensures View(Apply(s, Burn(t)), t) == Put(s.db, id, Burnt(s.db.ops[id]), [])
    ensures forall w :: ExecutingIn(View(Apply(s, Burn(t)), t), w) == ExecutingIn(s.db, w)
  {
    var op := Burnt(s.db.ops[id]);
    Logs.VisibleEmpty(s.db);
    Logs.VisiblePut(s.db, EMPTY, id, op, []);
    forall w ensures ExecutingIn(Put(s.db, id, op, []), w) == ExecutingIn(s.db, w) {
      assert forall k :: k in ExecutingIn(Put(s.db, id, op, []), w) <==> k in ExecutingIn(s.db, w);
    }
  }

  lemma CountShape(s: System, t: ThreadId)
    requires Of(s, t).pc.Burned?
    ensures var row := Of(s, t).pc.row; var req := Execute(Of(s, t).pc.who);
            && Enabled(s, Count(t))
            && Apply(s, Count(t)) == WithPc(s, t,
                 if |ExecutingIn(View(s, t), row.origin.workflow)| >= s.cfg.limit(row.origin.workflow)
                 then Finished(req, row.id, false)
                 else Calling(req, row, Call(T10, req.who, NO_UPDATES, Main)))
    ensures View(Apply(s, Count(t)), t) == View(s, t)
  {
    hide ExecutingIn;
  }

  lemma EndShape(s: System, t: ThreadId)
    requires Of(s, t).pc.Finished? && Of(s, t).pc.req.Execute?
    ensures Enabled(s, Commit(t)) && Apply(s, Commit(t)).db == View(s, t)
    ensures !Of(s, t).pc.ok ==> Enabled(s, Rollback(t)) && Apply(s, Rollback(t)).db == s.db
  {
  }

  /** Both endings of a refused execute are possible, from any state in which a thread is
      about to burn and no place is left: rolled back, the database is what it was;
      committed by a handler that caught the error, the handle is gone, the state and
      version are not, and the operation can never run. */
  lemma RefusedExecute(s: System, t: ThreadId, id: OpId)
    requires AboutToBurn(s, t, id)
    requires var w := s.db.ops[id].row.origin.workflow; |ExecutingIn(s.db, w)| >= s.cfg.limit(w)
    ensures exists refused ::
              && Reaches(s, refused) && Enabled(refused, Rollback(t)) && Enabled(refused, Commit(t))
              && Apply(refused, Rollback(t)).db == s.db
              && Apply(refused, Commit(t)).db == Put(s.db, id, Burnt(s.db.ops[id]), [])
              && Dispatch.Wasted(Apply(refused, Commit(t)).db, id)
  {
    hide Enabled, Apply, ExecutingIn, CanLock, View, Next;
    BurnShape(s, t, id);
    var burnt := Apply(s, Burn(t));
    CountShape(burnt, t);
    var refused := Apply(burnt, Count(t));
    EndShape(refused, t);
    StartReach(s);
    ReachStep(s, s, Burn(t));
    ReachStep(s, burnt, Count(t));
    assert Dispatch.Wasted(Apply(refused, Commit(t)).db, id);
  }

  // ---------------------------------------------------------------- why one writer

  /** Some run leads from `s` to `later`. */
  ghost predicate Reaches(s: System, later: System) {
    exists run: seq<System> :: Leads(run, s, later)
  }

  ghost predicate Leads(run: seq<System>, s: System, later: System) {
    && |run| > 0 && run[0] == s && run[|run| - 1] == later
    && forall i | 0 <= i < |run| - 1 :: Next(run[i], run[i + 1])
  }

  lemma StartReach(s: System)
    ensures Reaches(s, s)
  {
    assert Leads([s], s, s);
  }

  lemma ReachStep(s: System, middle: System, step: Step)
    requires Reaches(s, middle) && Enabled(middle, step)
    ensures Reaches(s, Apply(middle, step))
  {
    hide Enabled, Apply;
    var run :| Leads(run, s, middle);
    var longer := run + [Apply(middle, step)];
    forall i | 0 <= i < |longer| - 1 ensures Next(longer[i], longer[i + 1]) {
      if i < |run| - 1 { assert Next(run[i], run[i + 1]); }
    }
    assert Leads(longer, s, Apply(middle, step));
  }

  /** `t` has applied T10 to `id` and not committed yet. */
  ghost predicate Admitted(s: System, t: ThreadId, id: OpId, was: Op) {
    var th := Of(s, t);
    && th.pc.Finished? && th.pc.req.Execute? && th.pc.ok
    && (forall k | k in th.tx.ops :: k == id)
    && id in th.tx.ops && th.tx.ops[id].row.state == Executing && th.tx.ops[id].row.origin == was.row.origin
  }

  lemma T10Shape(s: System, t: ThreadId, id: OpId, row: Row, req: Request)
    requires req.Execute? && Of(s, t).pc == Calling(req, row, Call(T10, req.who, NO_UPDATES, Main))
    requires row.id == id && row.state == Approved && CanLock(s, t, id)
    requires id in View(s, t).ops && View(s, t).ops[id].row.version == row.version
    requires View(s, t).ops[id].row.id == id
    requires forall k | k in Of(s, t).tx.ops :: k == id
    ensures Enabled(s, Update(t))
    ensures Admitted(Apply(s, Update(t)), t, id, View(s, t).ops[id])
    ensures Apply(s, Update(t)).db == s.db && Apply(s, Update(t)).cfg == s.cfg
    ensures Apply(s, Update(t)).locks == s.locks[id := t]
    ensures forall u | u != t :: Of(Apply(s, Update(t)), u) == Of(s, u)
  {
  }

  /** One execute, alone, from the burn to the transition. */
  lemma AdmitAlone(s0: System, s: System, t: ThreadId, id: OpId) returns (later: System)
    requires Reaches(s0, s) && AboutToBurn(s, t, id) && s.db.ops[id].row.id == id
    requires var w := s.db.ops[id].row.origin.workflow; |ExecutingIn(s.db, w)| < s.cfg.limit(w)
    ensures Reaches(s0, later) && later.db == s.db && later.cfg == s.cfg && later.locks == s.locks[id := t]
    ensures Admitted(later, t, id, s.db.ops[id])
    ensures forall u | u != t :: Of(later, u) == Of(s, u)
  {
    hide Enabled, Apply, ExecutingIn, Reaches, Admitted, Put, Next;
    BurnShape(s, t, id);
    var burnt := Apply(s, Burn(t));
    ReachStep(s0, s, Burn(t));
    CountShape(burnt, t);
    var counted := Apply(burnt, Count(t));
    ReachStep(s0, burnt, Count(t));
    PutLooks(s.db, id, Burnt(s.db.ops[id]));
    OnlyOwnWrite(id, Burnt(s.db.ops[id]));
    T10Shape(counted, t, id, s.db.ops[id].row, Execute(Of(s, t).pc.req.who));
    later := Apply(counted, Update(t));
    ReachStep(s0, counted, Update(t));
    SameOrigin(later, t, id, View(counted, t).ops[id], s.db.ops[id]);
  }

  lemma SameOrigin(s: System, t: ThreadId, id: OpId, a: Op, b: Op)
    requires Admitted(s, t, id, a) && a.row.origin == b.row.origin
    ensures Admitted(s, t, id, b)
  {
  }

  lemma PutLooks(db: Db, id: OpId, op: Op)
    ensures id in Put(db, id, op, []).ops && Put(db, id, op, []).ops[id] == op
  {
  }

  lemma OnlyOwnWrite(id: OpId, op: Op)
    ensures forall k | k in Put(EMPTY, id, op, []).ops :: k == id
  {
  }

  /** Publishing one started operation. */
  lemma CommitStarts(s: System, t: ThreadId, id: OpId, was: Op)
    requires Admitted(s, t, id, was)
    ensures Enabled(s, Commit(t))
    ensures var s' := Apply(s, Commit(t));
            && s'.cfg == s.cfg
            && (forall u | u != t :: Of(s', u) == Of(s, u))
            && ExecutingIn(s'.db, was.row.origin.workflow) == ExecutingIn(s.db, was.row.origin.workflow) + {id}
  {
  }

  /** Without the single writer the count protects nothing: from any state in which two
      threads are about to execute two approved operations of a workflow with one place
      left, a run leads past the limit. */
  lemma RaceExceedsLimit(s: System, t: ThreadId, u: ThreadId, a: OpId, b: OpId)
    requires !s.cfg.single && t != u && a != b
    requires AboutToBurn(s, t, a) && AboutToBurn(s, u, b)
    requires s.db.ops[a].row.origin.workflow == s.db.ops[b].row.origin.workflow
    requires var w := s.db.ops[a].row.origin.workflow; |ExecutingIn(s.db, w)| + 1 == s.cfg.limit(w)
    ensures exists later :: Reaches(s, later)
                            && var w := s.db.ops[a].row.origin.workflow;
                               |ExecutingIn(later.db, w)| > later.cfg.limit(w)
  {
    hide Enabled, Apply, ExecutingIn, Reaches, Admitted, View;
    var w := s.db.ops[a].row.origin.workflow;
    StartReach(s);
    var s1 := AdmitAlone(s, s, t, a);
    assert AboutToBurn(s1, u, b);
    var s2 := AdmitAlone(s, s1, u, b);
    SameThread(s1, s2, t, a, s.db.ops[a]);
    CommitStarts(s2, t, a, s.db.ops[a]);
    var s3 := Apply(s2, Commit(t));
    ReachStep(s, s2, Commit(t));
    SameThread(s2, s3, u, b, s.db.ops[b]);
    CommitStarts(s3, u, b, s.db.ops[b]);
    var s4 := Apply(s3, Commit(u));
    ReachStep(s, s3, Commit(u));
    NotRunning(s.db, a, w);
    NotRunning(s.db, b, w);
    assert |ExecutingIn(s4.db, w)| == |ExecutingIn(s.db, w)| + 2;
  }

  lemma SameThread(s: System, s': System, t: ThreadId, id: OpId, was: Op)
    requires Admitted(s, t, id, was) && Of(s', t) == Of(s, t)
    ensures Admitted(s', t, id, was)
  {
  }

  lemma NotRunning(db: Db, id: OpId, w: WorkflowId)
    requires id in db.ops && db.ops[id].row.state != Executing
    ensures id !in ExecutingIn(db, w)
  {
  }
}
