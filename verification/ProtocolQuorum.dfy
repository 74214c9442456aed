/**
 Team approval under concurrency: deciders serialized by the operation's row lock
 keep the tally and the state in step, whatever else races on the row.
 */
module ProtocolQuorum {
  import opened Wrappers
  import opened StateMachine
  import opened OperationStore
  import opened Protocol
  import Logs = ProtocolLogs

  ghost predicate TookT06(log: seq<Event>) {
    exists k :: 0 <= k < |log| && log[k].transition == T06
  }

  // ---------------------------------------------------------------- invariant

  /** What votes and policy satisfy at every moment, committed or not. */
  ghost predicate Frozen(cfg: Config, op: Op) {
    && (op.row.policy.Some? ==>
          && cfg.v2
          && PolicyOk(op.row.policy.value, op.row.origin.principal)
          && forall p | p in op.votes :: p in op.row.policy.value.eligible)
    && (op.row.policy.None? ==> op.votes == map[])
    && (op.row.state == Preparing ==> op.row.policy.None?)
    && (cfg.v2 && (op.row.state == PendingApproval || TookT06(op.log)) ==> op.row.policy.Some?)
    && (op.row.policy.Some? && TookT06(op.log) ==> |Voters(op, ApproveIt)| >= op.row.policy.value.quorum)
  }

  /** What the tally says about the state once a decision is complete. */
  ghost predicate Decided(op: Op) {
    && (op.row.state == PendingApproval && op.row.policy.Some? ==>
          |Voters(op, ApproveIt)| < op.row.policy.value.quorum)
    && (Voters(op, RejectIt) != {} ==> op.row.state == Rejected)
  }

  /** Between recording a verdict and the transition it triggers; from here a failure
      can only roll back. */
  predicate Deciding(pc: Pc, id: OpId) {
    || ((pc.Calling? || pc.Lost?) && pc.req.Decide? && pc.call.goal == Main && pc.row.id == id)
    || (pc.Finished? && pc.req.Decide? && !pc.ok && pc.id == id)
  }

  ghost predicate OpVotes(cfg: Config, id: OpId, op: Op, pc: Pc) {
    Frozen(cfg, op) && (Deciding(pc, id) || Decided(op))
  }

  ghost predicate DbVotes(cfg: Config, db: Db) {
    forall id | id in db.ops :: Frozen(cfg, db.ops[id]) && Decided(db.ops[id])
  }

  /** Which transitions a thread may be applying, and with what columns. */
  ghost predicate CallOk(cfg: Config, pc: Pc) {
    (pc.Calling? || pc.Lost?) ==>
      && (pc.call.t == T06 || pc.call.t == T07 ==> pc.req.Decide? && pc.call.goal == Main)
      && (pc.req.Decide? && pc.call.goal == Main ==> pc.call.t == T06 || pc.call.t == T07)
      && (pc.call.up.policy.Some? ==>
            pc.call.t == T04 && cfg.v2 && PolicyOk(pc.call.up.policy.value, pc.row.origin.principal))
      && (pc.call.t == T04 && cfg.v2 ==> pc.call.up.policy.Some?)
  }

  /** A thread about to apply T06 under a policy has stored a full tally. */
  ghost predicate Tallied(th: Thread) {
    var pc := th.pc;
    pc.Calling? && pc.call.t == T06 && pc.row.policy.Some? ==>
      && pc.row.id in th.tx.ops
      && var op := th.tx.ops[pc.row.id];
         && |Voters(op, ApproveIt)| >= pc.row.policy.value.quorum
         && (op.row.state == PendingApproval ==> Voters(op, RejectIt) == {})
  }

  ghost predicate ThreadVotes(cfg: Config, th: Thread) {
    && (forall id | id in th.tx.ops :: OpVotes(cfg, id, th.tx.ops[id], th.pc))
    && CallOk(cfg, th.pc)
    && Tallied(th)
  }

  predicate HoldsDecision(pc: Pc) {
    (pc.Fetched? || pc.Calling? || pc.Lost? || pc.Settled?) && pc.req.Decide?
  }

  /** A decider holds the row lock, and its copy of the row is current. */
  ghost predicate Holding(db: Db, locks: map<OpId, ThreadId>, t: ThreadId, th: Thread) {
    HoldsDecision(th.pc) ==>
      && th.pc.row.id in locks && locks[th.pc.row.id] == t
      && th.pc.row.id in Visible(db, th.tx).ops
      && Visible(db, th.tx).ops[th.pc.row.id].row == th.pc.row
  }

  ghost predicate Inv(s: System) {
    && Logs.Inv(s)
    && DbVotes(s.cfg, s.db)
    && (forall t :: ThreadVotes(s.cfg, Of(s, t)))
    && (forall t :: Holding(s.db, s.locks, t, Of(s, t)))
  }

  // ---------------------------------------------------------------- shapes

  lemma Facts(s: System, t: ThreadId)
    requires Inv(s)
    ensures ThreadVotes(s.cfg, Of(s, t)) && Holding(s.db, s.locks, t, Of(s, t))
    ensures Logs.ThreadOk(s.db, Of(s, t)) && Logs.LockOk(s.locks, t, Of(s, t).tx)
  {
  }

  /** A step that changes nothing shared but `t`'s own thread and its locks. */
  lemma ThreadStep(s: System, t: ThreadId, th: Thread, s': System)
    requires Inv(s) && Logs.Inv(s')
    requires s'.db == s.db && s'.cfg == s.cfg && s'.threads == s.threads[t := th]
    requires forall k | k in s.locks :: k in s'.locks && s'.locks[k] == s.locks[k]
    requires ThreadVotes(s.cfg, th) && Holding(s.db, s'.locks, t, th)
    ensures Inv(s')
  {
    hide Logs.Inv, ThreadVotes, DbVotes;
    forall u ensures ThreadVotes(s'.cfg, Of(s', u)) && Holding(s'.db, s'.locks, u, Of(s', u)) {
      assert ThreadVotes(s.cfg, Of(s, u)) && Holding(s.db, s.locks, u, Of(s, u));
    }
  }

  lemma CommitHolding(db: Db, mine: Db, locks: map<OpId, ThreadId>, t: ThreadId, u: ThreadId, th: Thread)
    requires t != u && Logs.LockOk(locks, t, mine) && Holding(db, locks, u, th)
    ensures Holding(Visible(db, mine), Unlocked(locks, t), u, th)
  {
  }

  lemma CommitDb(cfg: Config, db: Db, th: Thread)
    requires DbVotes(cfg, db) && ThreadVotes(cfg, th)
    requires th.pc.Finished? && (th.pc.ok || !th.pc.req.Decide?)
    ensures DbVotes(cfg, Visible(db, th.tx))
  {
    hide Frozen, Decided;
    forall id | id in Visible(db, th.tx).ops
      ensures Frozen(cfg, Visible(db, th.tx).ops[id]) && Decided(Visible(db, th.tx).ops[id])
    {
      if id in th.tx.ops { assert OpVotes(cfg, id, th.tx.ops[id], th.pc); }
    }
  }

  /** A step of `t` that ends its transaction. */
  lemma CloseStep(s: System, t: ThreadId, publish: bool, pc: Pc, s': System)
    requires Inv(s) && Logs.Inv(s') && Logs.Quiet(pc)
    requires publish ==> Of(s, t).pc.Finished? && (Of(s, t).pc.ok || !Of(s, t).pc.req.Decide?)
    requires s' == Closed(s, t, if publish then View(s, t) else s.db, pc)
    ensures Inv(s')
  {
    hide Logs.Inv, ThreadVotes, DbVotes, Holding, Logs.ThreadOk, Logs.LockOk;
    Facts(s, t);
    if publish { CommitDb(s.cfg, s.db, Of(s, t)); }
    QuietVotes(s.cfg, s'.db, s'.locks, t, pc);
    forall u ensures ThreadVotes(s'.cfg, Of(s', u)) && Holding(s'.db, s'.locks, u, Of(s', u)) {
      Facts(s, u);
      if u != t {
        assert Of(s', u) == Of(s, u);
        if publish {
          CommitHolding(s.db, Of(s, t).tx, s.locks, t, u, Of(s, u));
        } else {
          DropHolding(s.db, s.locks, t, u, Of(s, u));
        }
      }
    }
  }

  lemma DropHolding(db: Db, locks: map<OpId, ThreadId>, t: ThreadId, u: ThreadId, th: Thread)
    requires t != u && Holding(db, locks, u, th)
    ensures Holding(db, Unlocked(locks, t), u, th)
  {
  }

  lemma QuietVotes(cfg: Config, db: Db, locks: map<OpId, ThreadId>, t: ThreadId, pc: Pc)
    requires Logs.Quiet(pc)
    ensures ThreadVotes(cfg, Thread(pc, EMPTY)) && Holding(db, locks, t, Thread(pc, EMPTY))
  {
  }

  // ---------------------------------------------------------------- one operation

  lemma TookAppend(log: seq<Event>, e: Event)
    ensures TookT06(log + [e]) <==> TookT06(log) || e.transition == T06
  {
    if TookT06(log) {
      var k :| 0 <= k < |log| && log[k].transition == T06;
      assert (log + [e])[k].transition == T06;
    }
    if e.transition == T06 {
      assert (log + [e])[|log|].transition == T06;
    }
  }

  /** A legal move of an operation whose tally and state agree, by any request other
      than a decision. */
  lemma OtherMove(cfg: Config, pc: Pc, was: Op, op: Op)
    requires Frozen(cfg, was) && Decided(was)
    requires pc.Calling? && CallOk(cfg, pc) && !(pc.req.Decide? && pc.call.goal == Main)
    requires was.row.state == pc.row.state && was.row.origin == pc.row.origin
    requires ValidateTransition(pc.call.t, Some(pc.row.state)).Success?
    requires Move(was, pc.row, pc.call.t, pc.call.actor, pc.call.up) == Some(op)
    ensures Frozen(cfg, op) && Decided(op)
  {
    TookAppend(was.log, Event(Some(pc.row.state), ById(pc.call.t).to, pc.call.t, pc.call.actor));
    assert op.votes == was.votes;
    assert Voters(op, ApproveIt) == Voters(was, ApproveIt) && Voters(op, RejectIt) == Voters(was, RejectIt);
    if was.votes == map[] {
      assert Voters(was, ApproveIt) == {};
    }
  }

  /** The move a completed tally, or a rejection, triggers. */
  lemma DecisionMove(cfg: Config, pc: Pc, was: Op, op: Op)
    requires pc.Calling? && CallOk(cfg, pc) && pc.req.Decide? && pc.call.goal == Main
    requires Frozen(cfg, was) && was.row == pc.row
    requires pc.call.t == T06 && pc.row.policy.Some? ==>
               |Voters(was, ApproveIt)| >= pc.row.policy.value.quorum
               && (was.row.state == PendingApproval ==> Voters(was, RejectIt) == {})
    requires ValidateTransition(pc.call.t, Some(pc.row.state)).Success?
    requires Move(was, pc.row, pc.call.t, pc.call.actor, pc.call.up) == Some(op)
    ensures Frozen(cfg, op) && Decided(op)
  {
    TookAppend(was.log, Event(Some(pc.row.state), ById(pc.call.t).to, pc.call.t, pc.call.actor));
    assert op.votes == was.votes;
    assert Voters(op, ApproveIt) == Voters(was, ApproveIt) && Voters(op, RejectIt) == Voters(was, RejectIt);
  }

  /** Recording one more verdict of an eligible principal. */
  lemma VoteKeepsFrozen(cfg: Config, op: Op, who: PrincipalId, v: Verdict)
    requires Frozen(cfg, op) && op.row.policy.Some?
    requires who in op.row.policy.value.eligible && who !in op.votes
    ensures Frozen(cfg, RecordVote(op, who, v))
  {
    VoteCounts(op, who, v);
    if v != ApproveIt {
      assert Voters(RecordVote(op, who, v), ApproveIt) == Voters(op, ApproveIt);
    }
  }

  // ---------------------------------------------------------------- threads

  /** The operation as a transaction in progress sees it. */
  lemma Seen(cfg: Config, db: Db, th: Thread, id: OpId)
    requires DbVotes(cfg, db) && ThreadVotes(cfg, th) && id in Visible(db, th.tx).ops
    ensures OpVotes(cfg, id, Visible(db, th.tx).ops[id], th.pc)
  {
    if id in th.tx.ops { assert OpVotes(cfg, id, th.tx.ops[id], th.pc); }
  }

  /** Moving the program counter; a decision in progress stays one. */
  lemma PcVotes(cfg: Config, th: Thread, pc: Pc)
    requires ThreadVotes(cfg, th)
    requires forall id | Deciding(th.pc, id) :: Deciding(pc, id)
    requires CallOk(cfg, pc) && Tallied(Thread(pc, th.tx))
    ensures ThreadVotes(cfg, Thread(pc, th.tx))
  {
    hide Frozen, Decided;
    forall id | id in th.tx.ops ensures OpVotes(cfg, id, th.tx.ops[id], pc) {
      assert OpVotes(cfg, id, th.tx.ops[id], th.pc);
    }
  }

  lemma PutVotes(cfg: Config, th: Thread, id: OpId, op: Op, audit: seq<AuditRecord>, pc: Pc)
    requires ThreadVotes(cfg, th)
    requires forall k | k != id && Deciding(th.pc, k) :: Deciding(pc, k)
    requires OpVotes(cfg, id, op, pc)
    requires CallOk(cfg, pc) && Tallied(Thread(pc, Put(th.tx, id, op, audit)))
    ensures ThreadVotes(cfg, Thread(pc, Put(th.tx, id, op, audit)))
  {
    hide Frozen, Decided;
    forall k | k in th.tx.ops && k != id ensures OpVotes(cfg, k, th.tx.ops[k], pc) {
      assert OpVotes(cfg, k, th.tx.ops[k], th.pc);
    }
  }

  lemma RaisedVotes(cfg: Config, view: Db, th: Thread)
    requires ThreadVotes(cfg, th) && (th.pc.Calling? || th.pc.Lost?)
    ensures ThreadVotes(cfg, Thread(AfterRaise(view, th.pc.req, th.pc.row, th.pc.call), th.tx))
  {
    PcVotes(cfg, th, AfterRaise(view, th.pc.req, th.pc.row, th.pc.call));
  }

  lemma RaisedHolding(db: Db, locks: map<OpId, ThreadId>, t: ThreadId, th: Thread)
    requires Holding(db, locks, t, th) && (th.pc.Calling? || th.pc.Lost?)
    ensures Holding(db, locks, t, Thread(AfterRaise(Visible(db, th.tx), th.pc.req, th.pc.row, th.pc.call), th.tx))
  {
  }

  lemma MovedVotes(cfg: Config, db: Db, th: Thread, op: Op, audit: seq<AuditRecord>)
    requires DbVotes(cfg, db) && ThreadVotes(cfg, th) && th.pc.Calling?
    requires th.pc.row.id in Visible(db, th.tx).ops
    requires var pc := th.pc; var was := Visible(db, th.tx).ops[pc.row.id];
             && was.row.id == pc.row.id && was.row.state == pc.row.state && was.row.origin == pc.row.origin
             && (HoldsDecision(pc) ==> was.row == pc.row)
             && ValidateTransition(pc.call.t, Some(pc.row.state)).Success?
             && Move(was, pc.row, pc.call.t, pc.call.actor, pc.call.up) == Some(op)
    ensures ThreadVotes(cfg, Thread(AfterMove(th.pc.req, op.row, th.pc.call), Put(th.tx, th.pc.row.id, op, audit)))
  {
    hide Frozen, Decided, ValidateTransition, DbVotes;
    var pc := th.pc;
    var was := Visible(db, th.tx).ops[pc.row.id];
    Seen(cfg, db, th, pc.row.id);
    if pc.req.Decide? && pc.call.goal == Main {
      DecisionMove(cfg, pc, was, op);
    } else {
      OtherMove(cfg, pc, was, op);
    }
    PutVotes(cfg, th, pc.row.id, op, audit, AfterMove(pc.req, op.row, pc.call));
  }

  // ---------------------------------------------------------------- steps

  lemma UpdateKeeps(s: System, t: ThreadId, pc: Pc)
    requires Inv(s) && pc == Of(s, t).pc && pc.Calling? && pc.row.id in View(s, t).ops && CanLock(s, t, pc.row.id)
    requires Logs.Inv(Updated(s, t, pc.req, pc.row, pc.call))
    ensures Inv(Updated(s, t, pc.req, pc.row, pc.call))
  {
    hide Logs.Inv, ThreadVotes, DbVotes, Logs.ThreadOk, Logs.LockOk, ValidateTransition;
    var s' := Updated(s, t, pc.req, pc.row, pc.call);
    var op := View(s, t).ops[pc.row.id];
    Logs.SameRow(s, t, pc.row.id);
    Facts(s, t);
    if ValidateTransition(pc.call.t, Some(pc.row.state)).Failure? {
      RaisedVotes(s.cfg, View(s, t), Of(s, t));
      RaisedHolding(s.db, s.locks, t, Of(s, t));
    } else if op.row.version == pc.row.version {
      var moved := Move(op, pc.row, pc.call.t, pc.call.actor, pc.call.up).value;
      assert moved.row.id == pc.row.id;
      MovedVotes(s.cfg, s.db, Of(s, t), moved, [MoveAudit(pc.row.id, pc.call.t, pc.call.actor)]);
    } else {
      LostVotes(s.cfg, Of(s, t));
    }
    ThreadStep(s, t, Of(s', t), s');
  }

  lemma LostVotes(cfg: Config, th: Thread)
    requires ThreadVotes(cfg, th) && th.pc.Calling?
    ensures ThreadVotes(cfg, Thread(Lost(th.pc.req, th.pc.row, th.pc.call), th.tx))
  {
    PcVotes(cfg, th, Lost(th.pc.req, th.pc.row, th.pc.call));
  }

  lemma RereadKeeps(s: System, t: ThreadId, pc: Pc)
    requires Inv(s) && pc == Of(s, t).pc && pc.Lost? && pc.row.id in View(s, t).ops
    requires Logs.Inv(WithPc(s, t, RereadPc(View(s, t), pc)))
    ensures Inv(WithPc(s, t, RereadPc(View(s, t), pc)))
  {
    hide Logs.Inv, ThreadVotes, DbVotes, Holding, Logs.LockOk;
    Facts(s, t);
    Logs.RetryIsDead(View(s, t), pc);
    RaisedVotes(s.cfg, View(s, t), Of(s, t));
    RaisedHolding(s.db, s.locks, t, Of(s, t));
    ThreadStep(s, t, Thread(RereadPc(View(s, t), pc), Of(s, t).tx), WithPc(s, t, RereadPc(View(s, t), pc)));
  }

  lemma NewVotes(cfg: Config, id: OpId, origin: Origin)
    ensures Frozen(cfg, NewOperation(id, origin)) && Decided(NewOperation(id, origin))
  {
    assert !TookT06([CreationEvent(origin)]);
    assert Voters(NewOperation(id, origin), RejectIt) == {};
  }

  lemma CreateKeeps(s: System, t: ThreadId, id: OpId, origin: Origin)
    requires Inv(s) && Of(s, t).pc.Idle? && CanLock(s, t, id) && Logs.Inv(Inserted(s, t, id, origin))
    ensures Inv(Inserted(s, t, id, origin))
  {
    hide Logs.Inv, DbVotes, Frozen, Decided, Logs.ThreadOk, Logs.LockOk;
    var s' := Inserted(s, t, id, origin);
    Facts(s, t);
    NewVotes(s.cfg, id, origin);
    PutVotes(s.cfg, Of(s, t), id, NewOperation(id, origin), [AuditOf(id, CreationEvent(origin))], Of(s', t).pc);
    ThreadStep(s, t, Of(s', t), s');
  }

  lemma BurnKeeps(s: System, t: ThreadId, pc: Pc)
    requires Inv(s) && pc == Of(s, t).pc && pc.Settled? && pc.req.Execute? && pc.row.id in View(s, t).ops
    requires CanLock(s, t, pc.row.id) && Logs.Inv(BurnStep(s, t, pc.req, pc.row))
    ensures Inv(BurnStep(s, t, pc.req, pc.row))
  {
    hide Logs.Inv, DbVotes, Frozen, Decided, Logs.ThreadOk, Logs.LockOk;
    var s' := BurnStep(s, t, pc.req, pc.row);
    var op := View(s, t).ops[pc.row.id];
    Facts(s, t);
    Seen(s.cfg, s.db, Of(s, t), pc.row.id);
    if pc.row.burned || pc.row.state != Approved || op.row.burned {
      PcVotes(s.cfg, Of(s, t), Finished(pc.req, pc.row.id, false));
    } else {
      BurnVotes(s.cfg, op);
      PutVotes(s.cfg, Of(s, t), pc.row.id, BurnHandle(op).value, [], Burned(pc.req.who, pc.row));
    }
    ThreadStep(s, t, Of(s', t), s');
  }

  lemma BurnVotes(cfg: Config, op: Op)
    requires Frozen(cfg, op) && Decided(op) && BurnHandle(op).Some?
    ensures Frozen(cfg, BurnHandle(op).value) && Decided(BurnHandle(op).value)
  {
    var burnt := BurnHandle(op).value;
    assert Voters(burnt, ApproveIt) == Voters(op, ApproveIt) && Voters(burnt, RejectIt) == Voters(op, RejectIt);
  }

  /** One vote and what follows it. */
  lemma VotedVotes(cfg: Config, db: Db, th: Thread, deadline: Time)
    requires DbVotes(cfg, db) && ThreadVotes(cfg, th)
    requires th.pc.Settled? && th.pc.req.Decide? && th.pc.row.policy.Some?
    requires th.pc.row.id in Visible(db, th.tx).ops && Visible(db, th.tx).ops[th.pc.row.id].row == th.pc.row
    requires th.pc.req.who in th.pc.row.policy.value.eligible
    requires th.pc.req.who !in Visible(db, th.tx).ops[th.pc.row.id].votes
    ensures var req, row := th.pc.req, th.pc.row;
            var voted := RecordVote(Visible(db, th.tx).ops[row.id], req.who, req.verdict);
            var tx := Put(th.tx, row.id, voted, []);
            if req.verdict == ApproveIt && |Voters(voted, ApproveIt)| < row.policy.value.quorum then
              ThreadVotes(cfg, Thread(Finished(req, row.id, true), tx))
            else ThreadVotes(cfg, Thread(DecisionCall(req, row, req.who, req.verdict, deadline), tx))
  {
    hide Frozen, DbVotes;
    var req, row := th.pc.req, th.pc.row;
    var was := Visible(db, th.tx).ops[row.id];
    var voted := RecordVote(was, req.who, req.verdict);
    Seen(cfg, db, th, row.id);
    VoteKeepsFrozen(cfg, was, req.who, req.verdict);
    VoteCounts(was, req.who, req.verdict);
    if req.verdict == ApproveIt && |Voters(voted, ApproveIt)| < row.policy.value.quorum {
      PutVotes(cfg, th, row.id, voted, [], Finished(req, row.id, true));
    } else {
      PutVotes(cfg, th, row.id, voted, [], DecisionCall(req, row, req.who, req.verdict, deadline));
    }
  }

  lemma VoteKeeps(s: System, t: ThreadId, pc: Pc, deadline: Time)
    requires Inv(s) && pc == Of(s, t).pc && pc.Settled? && pc.req.Decide? && pc.row.policy.Some?
    requires pc.row.id in View(s, t).ops && CanLock(s, t, pc.row.id) && Logs.Inv(Voted(s, t, pc.req, pc.row, deadline))
    ensures Inv(Voted(s, t, pc.req, pc.row, deadline))
  {
    hide Logs.Inv, ThreadVotes, DbVotes, Logs.ThreadOk, Logs.LockOk;
    var s' := Voted(s, t, pc.req, pc.row, deadline);
    var op := View(s, t).ops[pc.row.id];
    Facts(s, t);
    if pc.req.who == pc.row.origin.principal || pc.req.who !in pc.row.policy.value.eligible || pc.req.who in op.votes {
      PcFinished(s.cfg, Of(s, t));
    } else {
      VotedVotes(s.cfg, s.db, Of(s, t), deadline);
    }
    ThreadStep(s, t, Of(s', t), s');
  }

  lemma PcFinished(cfg: Config, th: Thread)
    requires ThreadVotes(cfg, th) && th.pc.Settled?
    ensures ThreadVotes(cfg, Thread(Finished(th.pc.req, th.pc.row.id, false), th.tx))
  {
    PcVotes(cfg, th, Finished(th.pc.req, th.pc.row.id, false));
  }

  lemma DecidedVotes(s: System, step: Step)
    requires step.Settle? || step.Refuse? || step.Count? || step.FinishPrepare? || step.Proceed?
    requires Enabled(s, step) && ThreadVotes(s.cfg, Of(s, step.t)) && DbVotes(s.cfg, s.db)
    requires Holding(s.db, s.locks, step.t, Of(s, step.t))
    ensures ThreadVotes(s.cfg, Thread(Logs.DecidedPc(s, step), Of(s, step.t).tx))
    ensures Holding(s.db, s.locks, step.t, Thread(Logs.DecidedPc(s, step), Of(s, step.t).tx))
  {
    hide Frozen, DbVotes, Decided, ThreadVotes, ExecutingIn, CanLock, ValidateTransition, PolicyOk;
    var th := Of(s, step.t);
    if step.Proceed? && th.pc.req.Decide? { PlainDecision(s.cfg, s.db, th); }
    PcVotes(s.cfg, th, Logs.DecidedPc(s, step));
  }

  /** A decision outside team approval is on an operation without a policy. */
  lemma PlainDecision(cfg: Config, db: Db, th: Thread)
    requires DbVotes(cfg, db) && ThreadVotes(cfg, th) && th.pc.Settled? && !ByQuorum(cfg, th.pc.row)
    requires th.pc.row.id in Visible(db, th.tx).ops && Visible(db, th.tx).ops[th.pc.row.id].row == th.pc.row
    ensures th.pc.row.policy.None?
  {
    Seen(cfg, db, th, th.pc.row.id);
  }

  lemma DecidedKeeps(s: System, step: Step)
    requires step.Settle? || step.Refuse? || step.Count? || step.FinishPrepare? || step.Proceed?
    requires Inv(s) && Enabled(s, step) && Logs.Inv(Apply(s, step))
    ensures Inv(Apply(s, step))
  {
    hide Logs.Inv, ThreadVotes, DbVotes, Holding, Logs.Follows, Logs.ThreadOk, Logs.LockOk;
    Facts(s, step.t);
    DecidedVotes(s, step);
    Logs.DecidedFollows(s, step);
    ThreadStep(s, step.t, Thread(Logs.DecidedPc(s, step), Of(s, step.t).tx), Apply(s, step));
  }

  /** Steps of a thread between transactions. */
  lemma QuietKeeps(s: System, t: ThreadId, pc: Pc, s': System)
    requires Inv(s) && Logs.Inv(s') && Logs.Quiet(Of(s, t).pc)
    requires s'.db == s.db && s'.cfg == s.cfg && s'.threads == s.threads[t := Of(s, t).(pc := pc)]
    requires forall k | k in s.locks :: k in s'.locks && s'.locks[k] == s.locks[k]
    requires Logs.Quiet(pc) || pc.Fetched?
    requires HoldsDecision(pc) ==>
               && pc.row.id in s'.locks && s'.locks[pc.row.id] == t
               && pc.row.id in s.db.ops && s.db.ops[pc.row.id].row == pc.row
    ensures Inv(s')
  {
    hide Logs.Inv, ThreadVotes, DbVotes;
    Facts(s, t);
    assert Of(s, t).tx == EMPTY;
    Logs.VisibleEmpty(s.db);
    QuietOrFetched(s.cfg, pc);
    ThreadStep(s, t, Of(s, t).(pc := pc), s');
  }

  lemma QuietOrFetched(cfg: Config, pc: Pc)
    requires Logs.Quiet(pc) || pc.Fetched?
    ensures ThreadVotes(cfg, Thread(pc, EMPTY))
  {
  }

  lemma BeginKeeps(s: System, step: Step)
    requires Inv(s) && Enabled(s, step) && Logs.Inv(Apply(s, step))
    requires step.BeginGet? || step.BeginListing? || step.BeginPrepare? || step.BeginRecord?
    ensures Inv(Apply(s, step))
  {
    hide Logs.Inv, ThreadVotes, DbVotes;
    match step
    case BeginGet(t, req, id) =>
      Logs.CommittedId(s, id);
      QuietKeeps(s, t, Fetched(req, s.db.ops[id].row), Apply(s, step));
    case BeginListing(t, rows) =>
      QuietKeeps(s, t, Fetched(Listing(rows[1..]), rows[0]), Apply(s, step));
    case BeginPrepare(t, id, origin) => CreateKeeps(s, t, id, origin);
    case BeginRecord(t) =>
      QuietKeeps(s, t, Fetched(Record(Of(s, t).pc.reported), s.db.ops[Of(s, t).pc.id].row), Apply(s, step));
  }

  lemma StepKeeps(s: System, step: Step)
    requires Inv(s) && Enabled(s, step)
    ensures Inv(Apply(s, step))
  {
    hide Logs.Inv, DbVotes, ThreadVotes, Holding;
    assert Logs.Inv(s);
    Logs.StepKeeps(s, step);
    match step
    case Tick(now) => assert forall u :: Of(s.(clock := now), u) == Of(s, u);
    case Update(t) => UpdateKeeps(s, t, Of(s, t).pc);
    case Reread(t) => RereadKeeps(s, t, Of(s, t).pc);
    case Update2(t) => Logs.NoRetrying(s, t); assert false;
    case Vote(t, d) => VoteKeeps(s, t, Of(s, t).pc, d);
    case Burn(t) => BurnKeeps(s, t, Of(s, t).pc);
    case Commit(t) => CloseStep(s, t, true, Of(Apply(s, step), t).pc, Apply(s, step));
    case Rollback(t) => CloseStep(s, t, false, Idle, Apply(s, step));
    case Crash(t) => CloseStep(s, t, false, Idle, Apply(s, step));
    case EnterDispatch(t) => QuietKeeps(s, t, Of(Apply(s, step), t).pc, Apply(s, step));
    case ExternalCall(t, o) => QuietKeeps(s, t, Returned(Of(s, t).pc.id, o), Apply(s, step));
    case _ =>
      if step.BeginGet? || step.BeginListing? || step.BeginPrepare? || step.BeginRecord? {
        BeginKeeps(s, step);
      } else {
        DecidedKeeps(s, step);
      }
  }

  // ---------------------------------------------------------------- runs

  lemma InitOk(s: System)
    requires Init(s)
    ensures Inv(s)
  {
    Logs.InitOk(s);
    assert forall t :: Of(s, t) == Thread(Idle, EMPTY);
  }

  lemma {:induction false} RunKeeps(run: seq<System>, i: nat)
    requires IsRun(run) && i < |run|
    ensures Inv(run[i])
  {
    hide Inv, Enabled;
    if i == 0 {
      InitOk(run[0]);
    } else {
      RunKeeps(run, i - 1);
      assert Next(run[i - 1], run[i]);
      var step :| Enabled(run[i - 1], step) && run[i] == Apply(run[i - 1], step);
      StepKeeps(run[i - 1], step);
    }
  }

  /** Every committed state of every run, for an operation under team approval: while
      it is pending, fewer than the quorum have approved and nobody has rejected; a
      committed rejection means Rejected; T06 was taken only with the quorum's worth of
      approvals; and every vote is one of a frozen approver who is not the requester. */
  lemma QuorumGuardsApproval(run: seq<System>, i: nat, id: OpId)
    requires IsRun(run) && i < |run| && id in run[i].db.ops && run[i].db.ops[id].row.policy.Some?
    ensures var op := run[i].db.ops[id];
            var policy := op.row.policy.value;
            && (op.row.state == PendingApproval ==>
                  |Voters(op, ApproveIt)| < policy.quorum && Voters(op, RejectIt) == {})
            && (Voters(op, RejectIt) != {} ==> op.row.state == Rejected)
            && (TookT06(op.log) ==> |Voters(op, ApproveIt)| >= policy.quorum)
            && (forall p | p in op.votes :: p in policy.eligible && p != op.row.origin.principal)
  {
    RunKeeps(run, i);
  }

  /** With team approval on, every operation that waits for approval or was approved by
      a decision carries a frozen policy. */
  lemma NoPlainApproval(run: seq<System>, i: nat, id: OpId)
    requires IsRun(run) && i < |run| && run[i].cfg.v2 && id in run[i].db.ops
    requires run[i].db.ops[id].row.state == PendingApproval || TookT06(run[i].db.ops[id].log)
    ensures run[i].db.ops[id].row.policy.Some?
  {
    RunKeeps(run, i);
  }

  lemma {:induction false} SubsetOfSeq(voters: set<PrincipalId>, list: seq<PrincipalId>)
    requires forall p | p in voters :: p in list
    ensures |voters| <= |list|
  {
    if list == [] {
      assert voters == {};
    } else {
      SubsetOfSeq(voters - {list[0]}, list[1..]);
    }
  }

  /** A frozen list shorter than the quorum can never approve: T06 is unreachable. */
  lemma ShortListNeverApproves(run: seq<System>, i: nat, id: OpId)
    requires IsRun(run) && i < |run| && id in run[i].db.ops && run[i].db.ops[id].row.policy.Some?
    requires |run[i].db.ops[id].row.policy.value.eligible| < run[i].db.ops[id].row.policy.value.quorum
    ensures !TookT06(run[i].db.ops[id].log)
  {
    QuorumGuardsApproval(run, i, id);
    var op := run[i].db.ops[id];
    SubsetOfSeq(Voters(op, ApproveIt), op.row.policy.value.eligible);
  }
}
