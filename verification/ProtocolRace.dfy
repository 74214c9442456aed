/**
 When the concurrency limit holds at all: for every configuration and every workflow,
 exactly when one transaction writes at a time, or the limit is zero. Otherwise two
 executes race for the last place, in a run from the empty database.
 */
module ProtocolRace {
  import opened Wrappers
  import opened StateMachine
  import opened OperationStore
  import opened Protocol
  import Logs = ProtocolLogs
  import Dispatch = ProtocolDispatch
  import Limit = ProtocolLimit
  import Serves = ProtocolServes
  import Refusals = ProtocolRefusals
  import U = UseCases

  ghost predicate RunsUnder(cfg: Config, run: seq<System>) {
    IsRun(run) && run[0].cfg == cfg
  }

  /** Every committed state of the run keeps the workflow within its limit. */
  ghost predicate KeepsLimit(run: seq<System>, w: WorkflowId) {
    forall i | 0 <= i < |run| :: |ExecutingIn(run[i].db, w)| <= run[i].cfg.limit(w)
  }

  // ---------------------------------------------------------------- a limit of zero

  ghost predicate NoneRuns(db: Db, w: WorkflowId) {
    forall id | id in db.ops :: db.ops[id].row.origin.workflow == w ==> db.ops[id].row.state != Executing
  }

  predicate Starting(pc: Pc, w: WorkflowId) {
    (pc.Calling? || pc.Lost?) && pc.call.t == T10 && pc.row.origin.workflow == w
  }

  /** The thread neither runs nor is about to run an operation of the workflow. */
  ghost predicate Barred(th: Thread, w: WorkflowId) {
    NoneRuns(th.tx, w) && !Starting(th.pc, w)
  }

  ghost predicate Shut(s: System, w: WorkflowId) {
    && Logs.Inv(s) && s.cfg.limit(w) == 0 && NoneRuns(s.db, w)
    && forall t :: Barred(Of(s, t), w)
  }

  lemma PutNone(db: Db, id: OpId, op: Op, audit: seq<AuditRecord>, w: WorkflowId)
    requires NoneRuns(db, w) && (op.row.origin.workflow == w ==> op.row.state != Executing)
    ensures NoneRuns(Put(db, id, op, audit), w)
  {
  }

  lemma ViewNone(s: System, t: ThreadId, w: WorkflowId)
    requires NoneRuns(s.db, w) && NoneRuns(Of(s, t).tx, w)
    ensures NoneRuns(View(s, t), w)
  {
  }

  lemma MovedState(op: Op, held: Row, call: Call)
    ensures var m := Move(op, held, call.t, call.actor, call.up);
            m.Some? ==> m.value.row.origin == op.row.origin && (call.t != T10 ==> m.value.row.state != Executing)
  {
  }

  lemma UpdateShut(s: System, t: ThreadId, pc: Pc, w: WorkflowId)
    requires Barred(Of(s, t), w) && pc == Of(s, t).pc && pc.Calling? && pc.row.id in View(s, t).ops
    requires View(s, t).ops[pc.row.id].row.origin == pc.row.origin
    ensures Barred(Of(Updated(s, t, pc.req, pc.row, pc.call), t), w)
  {
    hide Move, ValidateTransition, NoneRuns, Put, View, BurnHandle;
    var op := View(s, t).ops[pc.row.id];
    var moved := Move(op, pc.row, pc.call.t, pc.call.actor, pc.call.up);
    MovedState(op, pc.row, pc.call);
    if moved.Some? && (pc.call.t != T10 || pc.row.origin.workflow != w) {
      PutNone(Of(s, t).tx, pc.row.id, moved.value, [MoveAudit(pc.row.id, pc.call.t, pc.call.actor)], w);
    }
  }

  lemma VoteShut(s: System, t: ThreadId, deadline: Time, w: WorkflowId)
    requires NoneRuns(s.db, w) && Barred(Of(s, t), w) && Enabled(s, Vote(t, deadline))
    ensures Barred(Of(Apply(s, Vote(t, deadline)), t), w)
  {
    hide NoneRuns, Put, View, CanLock, Voters;
    var pc := Of(s, t).pc;
    var op := View(s, t).ops[pc.row.id];
    ViewNone(s, t, w);
    NotRunningHere(View(s, t), pc.row.id, w);
    PutNone(Of(s, t).tx, pc.row.id, RecordVote(op, pc.req.who, pc.req.verdict), [], w);
  }

  lemma BurnShut(s: System, t: ThreadId, w: WorkflowId)
    requires NoneRuns(s.db, w) && Barred(Of(s, t), w) && Enabled(s, Burn(t))
    ensures Barred(Of(Apply(s, Burn(t)), t), w)
  {
    hide NoneRuns, Put, View, CanLock;
    var pc := Of(s, t).pc;
    var op := View(s, t).ops[pc.row.id];
    ViewNone(s, t, w);
    NotRunningHere(View(s, t), pc.row.id, w);
    PutNone(Of(s, t).tx, pc.row.id, op.(row := op.row.(burned := true)), [], w);
  }

  lemma NotRunningHere(db: Db, id: OpId, w: WorkflowId)
    requires NoneRuns(db, w) && id in db.ops
    ensures db.ops[id].row.origin.workflow == w ==> db.ops[id].row.state != Executing
  {
  }

  /** Steps that only move the program counter: only the count starts a T10, and with a
      limit of zero it never finds room. */
  lemma PcShut(s: System, step: Step, w: WorkflowId)
    requires s.cfg.limit(w) == 0 && Enabled(s, step)
    requires step.Settle? || step.Refuse? || step.Count? || step.FinishPrepare? || step.Proceed?
    requires Barred(Of(s, step.t), w)
    ensures Barred(Of(Apply(s, step), step.t), w)
  {
    hide NoneRuns, ExecutingIn, View, CanLock;
  }

  lemma BeginShut(s: System, step: Step, w: WorkflowId)
    requires Enabled(s, step) && !step.Tick? && Barred(Of(s, step.t), w)
    requires step.BeginGet? || step.BeginListing? || step.BeginRecord? || step.EnterDispatch? || step.ExternalCall?
             || step.BeginPrepare?
    ensures Barred(Of(Apply(s, step), step.t), w)
  {
    hide NoneRuns, View, CanLock, Put;
    if step.BeginPrepare? {
      PutNone(Of(s, step.t).tx, step.id, NewOperation(step.id, step.origin),
              [AuditOf(step.id, CreationEvent(step.origin))], w);
    }
  }

  lemma RereadShut(s: System, t: ThreadId, w: WorkflowId)
    requires Barred(Of(s, t), w) && Enabled(s, Reread(t)) && !Of(Apply(s, Reread(t)), t).pc.Retrying?
    ensures Barred(Of(Apply(s, Reread(t)), t), w)
  {
    hide NoneRuns, View;
  }

  lemma EndShut(s: System, step: Step, w: WorkflowId)
    requires Enabled(s, step) && (step.Commit? || step.Rollback? || step.Crash?)
    ensures Barred(Of(Apply(s, step), step.t), w)
  {
    hide View;
  }

  lemma OwnShut(s: System, step: Step, w: WorkflowId)
    requires Shut(s, w) && Enabled(s, step) && !step.Tick? && Logs.Inv(Apply(s, step))
    ensures Barred(Of(Apply(s, step), step.t), w)
  {
    hide Logs.Inv, Barred, NoneRuns, Apply;
    var t := step.t;
    assert Barred(Of(s, t), w);
    match step
    case Update(_) => UpdateOwn(s, t, w);
    case Vote(_, d) => VoteShut(s, t, d, w);
    case Burn(_) => BurnShut(s, t, w);
    case Reread(_) => Logs.NoRetrying(Apply(s, step), t); RereadShut(s, t, w);
    case Update2(_) => Logs.NoRetrying(s, t); assert false;
    case _ =>
      if step.Commit? || step.Rollback? || step.Crash? {
        EndShut(s, step, w);
      } else if step.Settle? || step.Refuse? || step.Count? || step.FinishPrepare? || step.Proceed? {
        PcShut(s, step, w);
      } else {
        BeginShut(s, step, w);
      }
  }

  lemma UpdateOwn(s: System, t: ThreadId, w: WorkflowId)
    requires Logs.Inv(s) && Barred(Of(s, t), w) && Enabled(s, Update(t))
    ensures Barred(Of(Apply(s, Update(t)), t), w)
  {
    hide Logs.Inv, CanLock, Barred, Updated;
    Logs.SameRow(s, t, Of(s, t).pc.row.id);
    UpdateShut(s, t, Of(s, t).pc, w);
  }

  lemma CfgStays(s: System, step: Step)
    requires Enabled(s, step)
    ensures Apply(s, step).cfg == s.cfg
  {
    hide ExecutingIn, View, CanLock, PrepareCall, Voters, ValidateTransition, Move;
  }

  lemma StepShut(s: System, step: Step, w: WorkflowId)
    requires Shut(s, w) && Enabled(s, step)
    ensures Shut(Apply(s, step), w)
  {
    hide Logs.Inv, Barred, NoneRuns, Apply, Enabled;
    var s' := Apply(s, step);
    Logs.StepKeeps(s, step);
    CfgStays(s, step);
    forall t ensures Barred(Of(s', t), w) {
      assert Barred(Of(s, t), w);
      if step.Tick? || step.t != t { Refusals.OthersLeave(s, step, t); } else { OwnShut(s, step, w); }
    }
    if step.Commit? {
      CommitShut(s, step.t, w);
    } else {
      Dispatch.OnlyCommitsPublish(s, step);
    }
  }

  lemma CommitShut(s: System, t: ThreadId, w: WorkflowId)
    requires NoneRuns(s.db, w) && Barred(Of(s, t), w) && Enabled(s, Commit(t))
    ensures NoneRuns(Apply(s, Commit(t)).db, w)
  {
    ViewNone(s, t, w);
    Refusals.CommitsVisible(s, t);
  }

  lemma InitShut(s: System, w: WorkflowId)
    requires Init(s) && s.cfg.limit(w) == 0
    ensures Shut(s, w)
  {
    Logs.InitOk(s);
    assert forall t :: Of(s, t) == Thread(Idle, EMPTY);
  }

  lemma {:induction false} RunShut(run: seq<System>, i: nat, w: WorkflowId)
    requires IsRun(run) && i < |run| && run[0].cfg.limit(w) == 0
    ensures Shut(run[i], w)
  {
    hide Shut, Enabled, Apply;
    if i == 0 {
      InitShut(run[0], w);
    } else {
      RunShut(run, i - 1, w);
      assert Next(run[i - 1], run[i]);
      var step :| Enabled(run[i - 1], step) && run[i] == Apply(run[i - 1], step);
      StepShut(run[i - 1], step, w);
    }
  }

  lemma NoneCounted(db: Db, w: WorkflowId)
    requires NoneRuns(db, w)
    ensures |ExecutingIn(db, w)| == 0
  {
    assert ExecutingIn(db, w) == {};
  }

  /** The safe half: one writer, or nothing ever starts. */
  lemma KeptWhen(run: seq<System>, w: WorkflowId)
    requires IsRun(run) && (run[0].cfg.single || run[0].cfg.limit(w) == 0)
    ensures KeepsLimit(run, w)
  {
    hide Shut, IsRun;
    forall i | 0 <= i < |run| ensures |ExecutingIn(run[i].db, w)| <= run[i].cfg.limit(w) {
      CfgOfRun(run, i);
      if run[0].cfg.single {
        Limit.LimitHolds(run, i, w);
      } else {
        RunShut(run, i, w);
        ShutCounted(run[i], w);
      }
    }
  }

  lemma ShutCounted(s: System, w: WorkflowId)
    requires Shut(s, w)
    ensures |ExecutingIn(s.db, w)| == 0
  {
    hide Logs.Inv;
    NoneCounted(s.db, w);
  }

  lemma {:induction false} CfgOfRun(run: seq<System>, i: nat)
    requires IsRun(run) && i < |run|
    ensures run[i].cfg == run[0].cfg
  {
    hide Enabled, Apply;
    if i > 0 {
      CfgOfRun(run, i - 1);
      assert Next(run[i - 1], run[i]);
      var step :| Enabled(run[i - 1], step) && run[i] == Apply(run[i - 1], step);
      CfgStays(run[i - 1], step);
    }
  }

  // ---------------------------------------------------------------- the race

  /** Reached from `s0` with no transaction open; operations and threads from `n` on are
      unused. */
  ghost predicate Stocked(s0: System, s: System, n: nat) {
    && Limit.Reaches(s0, s) && Logs.Inv(s) && s.cfg == s0.cfg && s.locks == map[]
    && (forall id | id in s.db.ops :: id < n)
    && (forall t: nat | t >= n :: Of(s, t) == Thread(Idle, EMPTY))
  }

  /** The operation is approved, its deadline not past, its handle unspent. */
  predicate Waiting(db: Db, now: Time, id: OpId, w: WorkflowId) {
    && id in db.ops
    && var row := db.ops[id].row;
       && row.id == id && row.origin.workflow == w && row.origin.principal == "p"
       && row.state == Approved && !row.burned && row.executionDeadline == Some(now)
  }

  /** A submission that needs no approval. */
  function Automatic(id: OpId, w: WorkflowId, now: Time, v2: bool): U.Effect {
    U.Intake(id, Origin("p", "", w, None, "", None, 0), U.Entry(None, 0, false, 0, [], 0, 0),
             U.Checks(true, true, true), now, v2)
  }

  lemma AutomaticWaits(db: Db, id: OpId, w: WorkflowId, now: Time, v2: bool)
    requires id !in db.ops
    ensures var after := U.PutEffect(db, id, Automatic(id, w, now, v2));
            && Waiting(after, now, id, w)
            && after.ops.Keys == db.ops.Keys + {id}
            && (forall k | k in db.ops :: after.ops[k] == db.ops[k])
            && ExecutingIn(after, w) == ExecutingIn(db, w)
  {
    hide ExecutingIn, Automatic;
    AutomaticRow(id, w, now, v2);
    PutQuiet(db, id, Automatic(id, w, now, v2).op, Automatic(id, w, now, v2).audit, w);
  }

  lemma AutomaticRow(id: OpId, w: WorkflowId, now: Time, v2: bool)
    ensures var row := Automatic(id, w, now, v2).op.row;
            && row.id == id && row.origin.workflow == w && row.origin.principal == "p"
            && row.state == Approved && !row.burned && row.executionDeadline == Some(now)
  {
    T05Legal();
  }

  lemma PutQuiet(db: Db, id: OpId, op: Op, audit: seq<AuditRecord>, w: WorkflowId)
    requires id !in db.ops && op.row.state != Executing
    ensures ExecutingIn(Put(db, id, op, audit), w) == ExecutingIn(db, w)
  {
    assert forall k :: k in ExecutingIn(Put(db, id, op, audit), w) <==> k in ExecutingIn(db, w);
  }

  lemma T05Legal()
    ensures ValidateTransition(T05, Some(Preparing)).Success? && ValidateTransition(T10, Some(Approved)).Success?
  {
  }

  /** Closing a transaction keeps the stock. */
  lemma StockedOn(s0: System, s: System, n: nat, t: ThreadId, db: Db, pc: Pc, m: nat)
    requires Stocked(s0, s, n) && n <= m
    requires Limit.Reaches(s, Serves.Closing(s, t, db, pc))
    requires forall id | id in db.ops :: id < m
    requires t < m || pc == Idle
    ensures Stocked(s0, Serves.Closing(s, t, db, pc), m)
    ensures Of(Serves.Closing(s, t, db, pc), t) == Thread(pc, EMPTY)
  {
    hide Logs.Inv, Limit.Reaches;
    var later := Serves.Closing(s, t, db, pc);
    Serves.ReachedInv(s, later);
    Serves.ReachOn(s0, s, later);
    forall u: nat | u >= m ensures Of(later, u) == Thread(Idle, EMPTY) {
      if u != t { assert Of(later, u) == Of(s, u); }
    }
  }

  /** Thread `n` prepares operation `n`. */
  lemma Supply(s0: System, s: System, n: nat, w: WorkflowId) returns (later: System)
    requires Stocked(s0, s, n)
    ensures Stocked(s0, later, n + 1) && Of(later, n) == Thread(Idle, EMPTY) && later.clock == s.clock
    ensures Waiting(later.db, later.clock, n, w) && ExecutingIn(later.db, w) == ExecutingIn(s.db, w)
    ensures forall id | id in s.db.ops :: id in later.db.ops && later.db.ops[id] == s.db.ops[id]
    ensures forall t | t != n :: Of(later, t) == Of(s, t)
  {
    hide Logs.Inv, Limit.Reaches, ExecutingIn, Waiting, U.Intake;
    var origin := Origin("p", "", w, None, "", None, 0);
    var db := U.PutEffect(s.db, n, Automatic(n, w, s.clock, s.cfg.v2));
    AutomaticWaits(s.db, n, w, s.clock, s.cfg.v2);
    Serves.PreparedAlone(s, n, n, origin, U.Entry(None, 0, false, 0, [], 0, 0), U.Checks(true, true, true));
    later := Serves.Closing(s, n, db, Idle);
    StockedOn(s0, s, n, n, db, Idle, n + 1);
  }

  function Launching(id: OpId, max: nat): U.Act {
    U.Execute("p", true, id, true, U.LiveOk, max)
  }

  lemma Launched(db: Db, now: Time, v2: bool, id: OpId, w: WorkflowId, max: nat)
    requires Waiting(db, now, id, w) && |ExecutingIn(db, w)| < max
    ensures var o := U.Perform(db, now, v2, U.OnOne(id, Launching(id, max)));
            && o.result.Success? && o.db.ops.Keys == db.ops.Keys && id !in ExecutingIn(db, w)
            && ExecutingIn(o.db, w) == ExecutingIn(db, w) + {id}
  {
    PutSame(db, id);
    T05Legal();
    var o := U.Perform(db, now, v2, U.OnOne(id, Launching(id, max)));
    LaunchedOne(db.ops[id], |ExecutingIn(db, w)|, now, v2, max);
    assert U.Expire(db, now, id) == db;
    assert forall k :: k in ExecutingIn(o.db, w) <==> k in ExecutingIn(db, w) + {id};
  }

  lemma LaunchedOne(op: Op, running: nat, now: Time, v2: bool, max: nat)
    requires op.row.state == Approved && !op.row.burned && op.row.origin.principal == "p" && running < max
    ensures var e := U.Acting(op, running, now, v2, Launching(op.row.id, max));
            e.result.Success? && e.op.row.state == Executing && e.op.row.origin == op.row.origin
  {
    T05Legal();
  }

  /** Thread `n` executes operation `n`. */
  lemma Launch(s0: System, s: System, n: nat, w: WorkflowId) returns (later: System)
    requires Stocked(s0, s, n + 1) && Of(s, n) == Thread(Idle, EMPTY) && Waiting(s.db, s.clock, n, w)
    requires |ExecutingIn(s.db, w)| < s.cfg.limit(w)
    ensures Stocked(s0, later, n + 1) && |ExecutingIn(later.db, w)| == |ExecutingIn(s.db, w)| + 1
  {
    hide Logs.Inv, Limit.Reaches, ExecutingIn, U.Perform;
    var act := Launching(n, s.cfg.limit(w));
    var o := U.Perform(s.db, s.clock, s.cfg.v2, U.OnOne(n, act));
    Launched(s.db, s.clock, s.cfg.v2, n, w, s.cfg.limit(w));
    Serves.ServedAlone(s, n, n, act, false);
    later := Serves.Closing(s, n, o.db, Started(n, "p"));
    StockedOn(s0, s, n + 1, n, o.db, Started(n, "p"), n + 1);
  }

  /** Any number of places short of the limit can be taken. */
  lemma {:induction false} Fill(s0: System, n: nat, w: WorkflowId) returns (s: System)
    requires Init(s0) && n < s0.cfg.limit(w)
    ensures Stocked(s0, s, n) && |ExecutingIn(s.db, w)| == n
  {
    hide Limit.Reaches, ExecutingIn, Stocked;
    if n == 0 {
      s := s0;
      StartStocked(s0, w);
    } else {
      var before := Fill(s0, n - 1, w);
      var ready := Supply(s0, before, n - 1, w);
      CfgOfStock(s0, ready, n);
      s := Launch(s0, ready, n - 1, w);
    }
  }

  lemma StartStocked(s0: System, w: WorkflowId)
    requires Init(s0)
    ensures Stocked(s0, s0, 0) && |ExecutingIn(s0.db, w)| == 0
  {
    hide Logs.Inv, Limit.Reaches;
    Logs.InitOk(s0);
    Limit.StartReach(s0);
    assert ExecutingIn(s0.db, w) == {};
  }

  lemma CfgOfStock(s0: System, s: System, n: nat)
    requires Stocked(s0, s, n)
    ensures s.cfg == s0.cfg && Limit.Reaches(s0, s) && s.locks == map[]
  {
  }

  /** A thread reads a waiting operation and finds it good to execute. */
  lemma Fetch(s0: System, s: System, t: ThreadId, id: OpId, w: WorkflowId) returns (later: System)
    requires Limit.Reaches(s0, s) && Of(s, t) == Thread(Idle, EMPTY) && s.locks == map[]
    requires Waiting(s.db, s.clock, id, w)
    ensures later == Serves.Solo(s, t, Settled(Execute("p"), s.db.ops[id].row), EMPTY, map[])
    ensures Limit.Reaches(s0, later)
    ensures Limit.AboutToBurn(later, t, id)
  {
    hide Limit.Reaches, Enabled, Apply;
    var req, row := Execute("p"), s.db.ops[id].row;
    Serves.FetchShape(s, t, req, id);
    Limit.ReachStep(s0, s, BeginGet(t, req, id));
    var fetched := Serves.Solo(s, t, Fetched(req, row), EMPTY, map[]);
    Serves.SettleShape(fetched, t);
    Limit.ReachStep(s0, fetched, Settle(t));
    Serves.SoloPc(s, t, Fetched(req, row), EMPTY, map[], Settled(req, row));
    later := Serves.Solo(s, t, Settled(req, row), EMPTY, map[]);
  }

  /** Two threads stand before the burn of two operations, one place left. */
  lemma Contenders(s0: System, w: WorkflowId) returns (s: System, a: nat, b: nat)
    requires Init(s0) && !s0.cfg.single && s0.cfg.limit(w) > 0
    ensures Limit.Reaches(s0, s) && s.cfg == s0.cfg && a != b
    ensures Limit.AboutToBurn(s, a, a) && Limit.AboutToBurn(s, b, b)
    ensures s.db.ops[a].row.origin.workflow == w && s.db.ops[b].row.origin.workflow == w
    ensures |ExecutingIn(s.db, w)| + 1 == s.cfg.limit(w)
  {
    hide Limit.Reaches, ExecutingIn, Stocked;
    a := s0.cfg.limit(w) - 1;
    b := a + 1;
    var filled := Fill(s0, a, w);
    var one := Supply(s0, filled, a, w);
    var two := Supply(s0, one, b, w);
    CfgOfStock(s0, two, b + 1);
    var first := Fetch(s0, two, a, a, w);
    s := Fetch(s0, first, b, b, w);
  }

  lemma RunTo(s: System, later: System) returns (run: seq<System>)
    requires Limit.Reaches(s, later) && Init(s)
    ensures IsRun(run) && run[0] == s && run[|run| - 1] == later
  {
    run :| Limit.Leads(run, s, later);
  }

  /** The unsafe half: several writers and a positive limit admit a run past it. */
  lemma RacePast(cfg: Config, w: WorkflowId) returns (run: seq<System>)
    requires !cfg.single && cfg.limit(w) > 0
    ensures RunsUnder(cfg, run) && !KeepsLimit(run, w)
  {
    hide ExecutingIn, Limit.AboutToBurn;
    var s0 := System(cfg, EMPTY, map[], map[], multiset{}, 0);
    var s, a, b := Contenders(s0, w);
    Limit.RaceExceedsLimit(s, a, b, a, b);
    var later :| Limit.Reaches(s, later) && |ExecutingIn(later.db, w)| > later.cfg.limit(w);
    Serves.ReachOn(s0, s, later);
    run :| Limit.Leads(run, s0, later);
  }

  /** For every configuration and workflow: the limit holds in every run exactly when one
      transaction writes at a time, or the limit is zero. */
  lemma LimitHoldsIff(cfg: Config, w: WorkflowId)
    ensures (forall run | RunsUnder(cfg, run) :: KeepsLimit(run, w)) <==> cfg.single || cfg.limit(w) == 0
  {
    hide KeepsLimit;
    if cfg.single || cfg.limit(w) == 0 {
      forall run | RunsUnder(cfg, run) ensures KeepsLimit(run, w) { KeptWhen(run, w); }
    } else {
      var run := RacePast(cfg, w);
    }
  }

  // ---------------------------------------------------------------- a burn for nothing

  /** Thread 1 is about to burn the handle of operation 0, whose row it read before the
      operation was canceled. */
  ghost predicate Overtaken(s: System, row: Row) {
    && Of(s, 1) == Thread(Settled(Execute("p"), row), EMPTY) && s.locks == map[]
    && row.id == 0 && row.state == Approved && !row.burned
    && 0 in s.db.ops
    && var now := s.db.ops[0].row;
       now.id == 0 && now.state == Canceled && !now.burned && now.version > row.version
  }

  lemma CanceledIsFinal()
    ensures ValidateTransition(T10, Some(Canceled)).Failure?
  {
  }

  /** The burn looks at nothing but the handle. */
  lemma LateBurn(s0: System, s: System, row: Row) returns (later: System)
    requires Limit.Reaches(s0, s) && Overtaken(s, row)
    ensures Limit.Reaches(s0, later)
    ensures var op := s.db.ops[0].(row := s.db.ops[0].row.(burned := true));
            later == WithPut(s, 1, 0, op, [], Burned("p", row))
  {
    hide Limit.Reaches;
    Logs.VisibleEmpty(s.db);
    later := Apply(s, Burn(1));
    Limit.ReachStep(s0, s, Burn(1));
  }

  lemma LateCount(s0: System, s: System, row: Row, w: WorkflowId) returns (later: System)
    requires Limit.Reaches(s0, s) && Of(s, 1).pc == Burned("p", row) && row.origin.workflow == w
    requires NoneRuns(View(s, 1), w) && s.cfg.limit(w) > 0
    ensures Limit.Reaches(s0, later)
    ensures later == WithPc(s, 1, Calling(Execute("p"), row, Call(T10, "p", NO_UPDATES, Main)))
  {
    hide Limit.Reaches, ExecutingIn;
    NoneCounted(View(s, 1), w);
    Limit.CountShape(s, 1);
    later := Apply(s, Count(1));
    Limit.ReachStep(s0, s, Count(1));
  }

  /** T10 is lost to the cancellation, and illegal on the row read again. */
  lemma LateUpdate(s0: System, s: System, row: Row) returns (later: System)
    requires Limit.Reaches(s0, s) && row.id == 0 && row.state == Approved
    requires Of(s, 1).pc == Calling(Execute("p"), row, Call(T10, "p", NO_UPDATES, Main)) && CanLock(s, 1, 0)
    requires 0 in View(s, 1).ops && View(s, 1).ops[0].row.state == Canceled
    requires View(s, 1).ops[0].row.version != row.version
    ensures Limit.Reaches(s0, later) && later.db == s.db && later.cfg == s.cfg
    ensures Of(later, 1) == Of(s, 1).(pc := Finished(Execute("p"), 0, false))
  {
    hide Limit.Reaches, ValidateTransition, CanLock, View;
    T05Legal();
    CanceledIsFinal();
    var call := Call(T10, "p", NO_UPDATES, Main);
    var lost := Apply(s, Update(1));
    Limit.ReachStep(s0, s, Update(1));
    assert lost == WithPc(s, 1, Lost(Execute("p"), row, call));
    SameView(s, 1, Lost(Execute("p"), row, call));
    later := Apply(lost, Reread(1));
    Limit.ReachStep(s0, lost, Reread(1));
  }

  lemma SameView(s: System, t: ThreadId, pc: Pc)
    ensures View(WithPc(s, t, pc), t) == View(s, t)
  {
  }

  /** From there the refused execute, committed, leaves the handle of a canceled operation
      burned. */
  lemma LateEnd(s0: System, s: System, row: Row, w: WorkflowId) returns (later: System)
    requires Limit.Reaches(s0, s) && Overtaken(s, row) && NoneRuns(s.db, w)
    requires row.origin.workflow == w && s.cfg.limit(w) > 0
    ensures Limit.Reaches(s0, later) && 0 in later.db.ops
    ensures later.db.ops[0].row.state == Canceled && later.db.ops[0].row.burned
  {
    hide Limit.Reaches, NoneRuns, Enabled, Apply;
    var op := s.db.ops[0].(row := s.db.ops[0].row.(burned := true));
    Logs.VisibleEmpty(s.db);
    var burned := LateBurn(s0, s, row);
    Logs.VisiblePut(s.db, EMPTY, 0, op, []);
    PutNone(s.db, 0, op, [], w);
    var counted := LateCount(s0, burned, row, w);
    var refused := LateUpdate(s0, counted, row);
    Limit.EndShape(refused, 1);
    later := Apply(refused, Commit(1));
    Limit.ReachStep(s0, refused, Commit(1));
  }

  /** A cancellation between the read and the burn. */
  lemma Overtake(s0: System, s: System, w: WorkflowId) returns (later: System, row: Row)
    requires Stocked(s0, s, 1) && Waiting(s.db, s.clock, 0, w) && NoneRuns(s.db, w)
    ensures Limit.Reaches(s0, later) && Overtaken(later, row) && NoneRuns(later.db, w) && later.cfg == s.cfg
    ensures row.origin.workflow == w
  {
    hide Limit.Reaches, Logs.Inv, U.Perform;
    Limit.StartReach(s);
    var held := Fetch(s, s, 1, 0, w);
    row := s.db.ops[0].row;
    Serves.ReachedInv(s, held);
    Serves.ReachOn(s0, s, held);
    assert Of(held, 2) == Of(s, 2);
    var act := U.Cancel("p", true);
    CancelWaiting(s.db, s.clock, s.cfg.v2, w);
    Serves.ServedAlone(held, 2, 0, act, false);
    later := Serves.Closing(held, 2, U.Perform(s.db, s.clock, s.cfg.v2, U.OnOne(0, act)).db, Idle);
    Serves.ReachOn(s0, held, later);
  }

  lemma CancelWaiting(db: Db, now: Time, v2: bool, w: WorkflowId)
    requires Waiting(db, now, 0, w) && NoneRuns(db, w)
    ensures var o := U.Perform(db, now, v2, U.OnOne(0, U.Cancel("p", true)));
            && o.result.Success? && 0 in o.db.ops && NoneRuns(o.db, w)
            && var row := o.db.ops[0].row;
               row.id == 0 && row.state == Canceled && !row.burned && row.version == db.ops[0].row.version + 1
  {
    hide ExecutingIn;
    PutSame(db, 0);
    T12Legal();
    assert U.Expire(db, now, 0) == db;
  }

  lemma T12Legal()
    ensures ValidateTransition(T12, Some(Approved)).Success?
  {
  }

  /** In every configuration with room, some run from the empty database burns the handle
      of an operation canceled after execute had read it, and commits that. */
  lemma BurnForNothing(cfg: Config, w: WorkflowId) returns (run: seq<System>)
    requires cfg.limit(w) > 0
    ensures RunsUnder(cfg, run)
    ensures var db := run[|run| - 1].db;
            0 in db.ops && db.ops[0].row.state == Canceled && db.ops[0].row.burned
  {
    hide ExecutingIn, Limit.Reaches, Stocked, Waiting, NoneRuns, Overtaken;
    var s0 := System(cfg, EMPTY, map[], map[], multiset{}, 0);
    StartStocked(s0, w);
    var s := Supply(s0, s0, 0, w);
    CfgOfStock(s0, s, 1);
    NoneCountedIff(s.db, w);
    var overtaken, row := Overtake(s0, s, w);
    var later := LateEnd(s0, overtaken, row, w);
    run := RunTo(s0, later);
  }

  lemma NoneCountedIff(db: Db, w: WorkflowId)
    requires |ExecutingIn(db, w)| == 0
    ensures NoneRuns(db, w)
  {
    assert ExecutingIn(db, w) == {};
    forall id | id in db.ops && db.ops[id].row.origin.workflow == w ensures db.ops[id].row.state != Executing {
      assert id !in ExecutingIn(db, w);
    }
  }
}
