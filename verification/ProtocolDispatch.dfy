/**
 The single external side effect: under any interleaving and any crashes, an
 operation is dispatched at most once, only after its T10 committed, and never again
 once its handle was spent on a refused call.
 */
module ProtocolDispatch {
  import opened Wrappers
  import opened StateMachine
  import opened OperationStore
  import opened Protocol
  import Logs = ProtocolLogs

  /** Executing, or past it. */
  predicate Ran(s: State) {
    s == Executing || Done(s)
  }

  predicate Done(s: State) {
    s == Succeeded || s == Failed || s == Unknown
  }

  /** The thread holds a committed T10 whose external call it has not made yet. */
  predicate PreCall(pc: Pc, id: OpId) {
    (pc.Started? || pc.Ready?) && pc.id == id
  }

  function Req(pc: Pc): Request {
    if pc.Fetched? || pc.Calling? || pc.Lost? || pc.Retrying? || pc.Settled? || pc.Finished? then pc.req
    else if pc.Burned? then Execute(pc.who)
    else if pc.Created? then Prepare
    else Get
  }

  /** The thread has burned the handle of its row in its open transaction. */
  predicate Spending(pc: Pc) {
    pc.Burned? || ((pc.Calling? || pc.Lost?) && pc.call.t == T10)
  }

  predicate Moved(pc: Pc, id: OpId) {
    pc.Finished? && pc.req.Execute? && pc.ok && pc.id == id
  }

  // ---------------------------------------------------------------- invariant

  /** One committed operation and the calls made for it. */
  ghost predicate OpCalls(op: Op, made: nat) {
    && (Ran(op.row.state) ==> op.row.burned)
    && (Done(op.row.state) ==> made == 1)
    && (made > 0 ==> Ran(op.row.state))
    && made <= 1
  }

  ghost predicate DbCalls(db: Db, calls: multiset<OpId>) {
    && (forall id | id in db.ops :: OpCalls(db.ops[id], calls[id]))
    && (forall id | id in calls :: id in db.ops)
  }

  /** One operation as an open transaction has rewritten it. */
  ghost predicate Staged(db: Db, id: OpId, op: Op, made: nat, pc: Pc) {
    && (Ran(op.row.state) ==> op.row.burned)
    && (Done(op.row.state) ==> made == 1)
    && (id in db.ops && db.ops[id].row.burned ==> op.row.burned)
    && (id in db.ops && Ran(db.ops[id].row.state) ==> Ran(op.row.state))
    && (Ran(op.row.state) && !(id in db.ops && Ran(db.ops[id].row.state)) ==>
          Moved(pc, id) && op.row.state == Executing && id in db.ops && !db.ops[id].row.burned)
  }

  /** Which transitions which request applies. */
  ghost predicate CallOk(pc: Pc) {
    pc.Calling? || pc.Lost? ==>
      && (pc.call.t == T10 ==> pc.req.Execute? && pc.call.goal == Main)
      && (pc.call.t == T13 || pc.call.t == T14 || pc.call.t == T15 ==> pc.req.Record?)
      && (pc.req.Execute? && pc.call.goal == Main ==> pc.call.t == T10)
  }

  /** What the position of a thread says about the operation it works on. */
  ghost predicate Standing(db: Db, calls: multiset<OpId>, tx: Db, pc: Pc) {
    && CallOk(pc)
    && (pc.Started? || pc.Ready? ==> pc.id in db.ops && db.ops[pc.id].row.state == Executing && calls[pc.id] == 0)
    && (pc.Returned? ==> calls[pc.id] == 1)
    && (pc.Finished? && pc.req.Record? ==> calls[pc.id] == 1)
    && (Logs.HasRow(pc) && Req(pc).Record? ==> calls[pc.row.id] == 1)
    && (Logs.HasRow(pc) && Req(pc).Execute? ==> pc.row.id in db.ops)
    && (Spending(pc) ==> Spent(db, tx, pc.row.id))
    && (pc.Finished? && pc.req.Execute? && pc.ok ==>
          Spent(db, tx, pc.id) && tx.ops[pc.id].row.state == Executing && !Ran(db.ops[pc.id].row.state))
  }

  ghost predicate Spent(db: Db, tx: Db, id: OpId) {
    id in tx.ops && tx.ops[id].row.burned && id in db.ops && !db.ops[id].row.burned
  }

  ghost predicate ThreadCalls(db: Db, calls: multiset<OpId>, th: Thread) {
    && (forall id | id in th.tx.ops :: Staged(db, id, th.tx.ops[id], calls[id], th.pc))
    && Standing(db, calls, th.tx, th.pc)
  }

  /** At most one thread holds the right to call for one operation. */
  ghost predicate Exclusive(s: System) {
    forall t, u, id | PreCall(Of(s, t).pc, id) && PreCall(Of(s, u).pc, id) :: t == u
  }

  ghost predicate Inv(s: System) {
    && Logs.Inv(s)
    && DbCalls(s.db, s.calls)
    && (forall t :: ThreadCalls(s.db, s.calls, Of(s, t)))
    && Exclusive(s)
  }

  // ---------------------------------------------------------------- shapes

  lemma Facts(s: System, t: ThreadId)
    requires Inv(s)
    ensures ThreadCalls(s.db, s.calls, Of(s, t))
    ensures Logs.ThreadOk(s.db, Of(s, t)) && Logs.LockOk(s.locks, t, Of(s, t).tx)
  {
  }

  /** A step that changes nothing shared but `t`'s own thread. */
  lemma ThreadStep(s: System, t: ThreadId, th: Thread, s': System)
    requires Inv(s) && Logs.Inv(s')
    requires s'.db == s.db && s'.calls == s.calls && s'.threads == s.threads[t := th]
    requires ThreadCalls(s.db, s.calls, th)
    requires !th.pc.Started? && (th.pc.Ready? ==> PreCall(Of(s, t).pc, th.pc.id))
    ensures Inv(s')
  {
    hide Logs.Inv, Staged, Standing, DbCalls;
    forall u ensures ThreadCalls(s'.db, s'.calls, Of(s', u)) {
      assert ThreadCalls(s.db, s.calls, Of(s, u));
    }
    forall v, u, id | PreCall(Of(s', v).pc, id) && PreCall(Of(s', u).pc, id) ensures v == u {
      assert PreCall(Of(s, v).pc, id) && PreCall(Of(s, u).pc, id);
    }
  }

  /** What an open transaction may conclude after `t` commits its own operations. */
  lemma CommitThread(db: Db, mine: Db, calls: multiset<OpId>, pc: Pc, th: Thread)
    requires DbCalls(db, calls) && ThreadCalls(db, calls, Thread(pc, mine)) && ThreadCalls(db, calls, th)
    requires mine.ops.Keys !! th.tx.ops.Keys
    ensures ThreadCalls(Visible(db, mine), calls, th)
  {
    var after := Visible(db, mine);
    assert forall id | id in th.tx.ops :: id in db.ops <==> id in after.ops;
    forall id | id in th.tx.ops ensures Staged(after, id, th.tx.ops[id], calls[id], th.pc) {
      assert Staged(db, id, th.tx.ops[id], calls[id], th.pc);
    }
    if th.pc.Started? || th.pc.Ready? {
      assert th.pc.id in mine.ops ==> Staged(db, th.pc.id, mine.ops[th.pc.id], calls[th.pc.id], pc);
    }
  }

  lemma CommitDb(db: Db, mine: Db, calls: multiset<OpId>, pc: Pc)
    requires DbCalls(db, calls) && ThreadCalls(db, calls, Thread(pc, mine))
    ensures DbCalls(Visible(db, mine), calls)
  {
    var after := Visible(db, mine);
    forall id | id in after.ops ensures OpCalls(after.ops[id], calls[id]) {
      if id in mine.ops {
        assert Staged(db, id, mine.ops[id], calls[id], pc);
        if id in db.ops { assert OpCalls(db.ops[id], calls[id]); }
      } else {
        assert OpCalls(db.ops[id], calls[id]);
      }
    }
  }

  /** Committing a T10 hands out the right to call once. */
  lemma CommitExclusive(s: System, t: ThreadId, pc: Pc, next: Pc, s': System)
    requires Inv(s) && pc == Of(s, t).pc && pc.Finished?
    requires next == AfterCommit(pc)
    requires s' == Closed(s, t, View(s, t), next)
    ensures Exclusive(s')
  {
    hide Logs.Inv, Logs.ThreadOk, Logs.LockOk, Staged, DbCalls, View;
    Facts(s, t);
    forall v, u, id | PreCall(Of(s', v).pc, id) && PreCall(Of(s', u).pc, id) ensures v == u {
      if v != t && u != t {
        assert PreCall(Of(s, v).pc, id) && PreCall(Of(s, u).pc, id);
      } else if v != t {
        Facts(s, v);
      } else if u != t {
        Facts(s, u);
      }
    }
  }

  lemma CommitStep(s: System, t: ThreadId, pc: Pc)
    requires Inv(s) && pc == Of(s, t).pc && pc.Finished?
    requires Logs.Inv(Closed(s, t, View(s, t), AfterCommit(pc)))
    ensures Inv(Closed(s, t, View(s, t), AfterCommit(pc)))
  {
    hide Logs.Inv, Logs.ThreadOk, Staged, DbCalls, Exclusive;
    var next := AfterCommit(pc);
    var s' := Closed(s, t, View(s, t), next);
    Facts(s, t);
    CommitDb(s.db, Of(s, t).tx, s.calls, pc);
    CommitExclusive(s, t, pc, next, s');
    if next.Started? { NotYetCalled(s.db, s.calls, pc.id); }
    forall u ensures ThreadCalls(s'.db, s'.calls, Of(s', u)) {
      Facts(s, u);
      if u != t {
        assert Of(s', u) == Of(s, u);
        CommitThread(s.db, Of(s, t).tx, s.calls, pc, Of(s, u));
      }
    }
  }

  lemma NotYetCalled(db: Db, calls: multiset<OpId>, id: OpId)
    requires DbCalls(db, calls) && id in db.ops && !Ran(db.ops[id].row.state)
    ensures calls[id] == 0
  {
    assert OpCalls(db.ops[id], calls[id]);
  }

  lemma DropStep(s: System, t: ThreadId)
    requires Inv(s) && Logs.Inv(Closed(s, t, s.db, Idle))
    ensures Inv(Closed(s, t, s.db, Idle))
  {
    hide Logs.Inv, Staged, DbCalls;
    var s' := Closed(s, t, s.db, Idle);
    forall u ensures ThreadCalls(s'.db, s'.calls, Of(s', u)) {
      Facts(s, u);
    }
    forall v, u, id | PreCall(Of(s', v).pc, id) && PreCall(Of(s', u).pc, id) ensures v == u {
      assert PreCall(Of(s, v).pc, id) && PreCall(Of(s, u).pc, id);
    }
  }

  /** The external call itself. */
  lemma CallStep(s: System, t: ThreadId, id: OpId, o: CallOutcome)
    requires Inv(s) && Of(s, t).pc == Ready(id)
    requires Logs.Inv(Called(s, t, id, o))
    ensures Inv(Called(s, t, id, o))
  {
    hide Logs.Inv, DbCalls, Staged;
    var s' := Called(s, t, id, o);
    CallFacts(s.db, s.calls, id, Of(s, t));
    forall u ensures ThreadCalls(s'.db, s'.calls, Of(s', u)) {
      assert ThreadCalls(s.db, s.calls, Of(s, u));
      if u != t {
        assert !PreCall(Of(s, u).pc, id) by { assert PreCall(Of(s, t).pc, id); }
        CallSeen(s.db, s.calls, Of(s, u), id);
      } else {
        assert Of(s', t) == Thread(Returned(id, o), Of(s, t).tx);
        Logs.QuietIsEmpty(s, t);
      }
    }
    forall v, u, k | PreCall(Of(s', v).pc, k) && PreCall(Of(s', u).pc, k) ensures v == u {
      assert PreCall(Of(s, v).pc, k) && PreCall(Of(s, u).pc, k);
    }
  }

  lemma CallFacts(db: Db, calls: multiset<OpId>, id: OpId, th: Thread)
    requires DbCalls(db, calls) && ThreadCalls(db, calls, th) && th.pc == Ready(id)
    ensures id in db.ops && db.ops[id].row.state == Executing && calls[id] == 0
    ensures DbCalls(db, calls + multiset{id})
  {
    var calls' := calls + multiset{id};
    forall k | k in db.ops ensures OpCalls(db.ops[k], calls'[k]) {
      assert OpCalls(db.ops[k], calls[k]);
    }
  }

  lemma CallSeen(db: Db, calls: multiset<OpId>, th: Thread, id: OpId)
    requires DbCalls(db, calls) && ThreadCalls(db, calls, th) && !PreCall(th.pc, id)
    requires id in db.ops && db.ops[id].row.state == Executing && calls[id] == 0
    ensures ThreadCalls(db, calls + multiset{id}, th)
  {
    var calls' := calls + multiset{id};
    forall k | k in th.tx.ops ensures Staged(db, k, th.tx.ops[k], calls'[k], th.pc) {
      assert Staged(db, k, th.tx.ops[k], calls[k], th.pc);
    }
  }

  // ---------------------------------------------------------------- steps

  /** Moving the program counter of a thread that is not about to commit a T10. */
  lemma PcCalls(db: Db, calls: multiset<OpId>, th: Thread, pc: Pc)
    requires ThreadCalls(db, calls, th) && !th.pc.Finished?
    requires Standing(db, calls, th.tx, pc)
    ensures ThreadCalls(db, calls, Thread(pc, th.tx))
  {
    forall id | id in th.tx.ops ensures Staged(db, id, th.tx.ops[id], calls[id], pc) {
      assert Staged(db, id, th.tx.ops[id], calls[id], th.pc);
    }
  }

  /** Storing an operation that keeps every other operation of the overlay. */
  lemma PutCalls(db: Db, calls: multiset<OpId>, th: Thread, id: OpId, op: Op, audit: seq<AuditRecord>, pc: Pc)
    requires ThreadCalls(db, calls, th) && !th.pc.Finished?
    requires Staged(db, id, op, calls[id], pc)
    requires Standing(db, calls, Put(th.tx, id, op, audit), pc)
    ensures ThreadCalls(db, calls, Thread(pc, Put(th.tx, id, op, audit)))
  {
    forall k | k in th.tx.ops ensures k != id ==> Staged(db, k, th.tx.ops[k], calls[k], pc) {
      assert Staged(db, k, th.tx.ops[k], calls[k], th.pc);
    }
  }

  /** An operation as a transaction in progress sees it. */
  lemma Seen(db: Db, calls: multiset<OpId>, th: Thread, id: OpId)
    requires DbCalls(db, calls) && ThreadCalls(db, calls, th) && id in Visible(db, th.tx).ops && !th.pc.Finished?
    ensures Staged(db, id, Visible(db, th.tx).ops[id], calls[id], th.pc)
    ensures Ran(Visible(db, th.tx).ops[id].row.state) ==> id in db.ops && Ran(db.ops[id].row.state)
  {
    if id in th.tx.ops {
      assert Staged(db, id, th.tx.ops[id], calls[id], th.pc);
    } else {
      assert OpCalls(db.ops[id], calls[id]);
    }
  }

  lemma RaisedCalls(db: Db, calls: multiset<OpId>, th: Thread, call: Call)
    requires ThreadCalls(db, calls, th) && (th.pc.Calling? || th.pc.Lost?) && call == th.pc.call
    requires th.pc.row.id in Visible(db, th.tx).ops ==> Visible(db, th.tx).ops[th.pc.row.id].row.id == th.pc.row.id
    ensures ThreadCalls(db, calls, Thread(AfterRaise(Visible(db, th.tx), th.pc.req, th.pc.row, call), th.tx))
  {
    PcCalls(db, calls, th, AfterRaise(Visible(db, th.tx), th.pc.req, th.pc.row, call));
  }

  /** What the update did, in the terms the invariant speaks of. */
  ghost predicate Update(pc: Pc, was: Op, op: Op) {
    && pc.Calling?
    && was.row.id == pc.row.id
    && was.row.state == pc.row.state
    && ValidateTransition(pc.call.t, Some(pc.row.state)).Success?
    && Move(was, pc.row, pc.call.t, pc.call.actor, pc.call.up) == Some(op)
  }

  lemma UpdateShape(pc: Pc, was: Op, op: Op)
    requires Update(pc, was, op)
    ensures op.row.id == pc.row.id && op.row.burned == was.row.burned && op.row.state == ById(pc.call.t).to
    ensures Ran(op.row.state) <==> (Ran(was.row.state) || pc.call.t == T10)
    ensures Done(op.row.state) <==> (pc.call.t == T13 || pc.call.t == T14 || pc.call.t == T15)
    ensures !Done(was.row.state)
    ensures pc.call.t == T10 ==> op.row.state == Executing && was.row.state == Approved
  {
  }

  lemma MovedStaged(db: Db, calls: multiset<OpId>, th: Thread, was: Op, op: Op, after: Pc)
    requires Update(th.pc, was, op) && Standing(db, calls, th.tx, th.pc)
    requires Staged(db, th.pc.row.id, was, calls[th.pc.row.id], th.pc)
    requires Ran(was.row.state) ==> th.pc.row.id in db.ops && Ran(db.ops[th.pc.row.id].row.state)
    requires th.pc.row.id in th.tx.ops ==> th.tx.ops[th.pc.row.id] == was
    requires after == AfterMove(th.pc.req, op.row, th.pc.call)
    ensures Staged(db, th.pc.row.id, op, calls[th.pc.row.id], after)
  {
    hide Move, ValidateTransition, ById;
    UpdateShape(th.pc, was, op);
  }

  lemma MovedStanding(db: Db, calls: multiset<OpId>, th: Thread, was: Op, op: Op, audit: seq<AuditRecord>, after: Pc)
    requires Update(th.pc, was, op) && Standing(db, calls, th.tx, th.pc)
    requires Staged(db, th.pc.row.id, was, calls[th.pc.row.id], th.pc)
    requires th.pc.row.id in th.tx.ops ==> th.tx.ops[th.pc.row.id] == was
    requires after == AfterMove(th.pc.req, op.row, th.pc.call)
    ensures Standing(db, calls, Put(th.tx, th.pc.row.id, op, audit), after)
  {
    hide Move, ValidateTransition, ById, Update;
    UpdateShape(th.pc, was, op);
    assert th.pc.Calling? by { UpdateCalling(th.pc, was, op); }
  }

  lemma UpdateCalling(pc: Pc, was: Op, op: Op)
    requires Update(pc, was, op)
    ensures pc.Calling?
  {
  }

  lemma MovedCalls(db: Db, calls: multiset<OpId>, th: Thread, op: Op, audit: seq<AuditRecord>)
    requires DbCalls(db, calls) && ThreadCalls(db, calls, th) && th.pc.Calling?
    requires th.pc.row.id in Visible(db, th.tx).ops && Update(th.pc, Visible(db, th.tx).ops[th.pc.row.id], op)
    ensures ThreadCalls(db, calls, Thread(AfterMove(th.pc.req, op.row, th.pc.call),
        Put(th.tx, th.pc.row.id, op, audit)))
  {
    hide Staged, Standing, Update;
    var was := Visible(db, th.tx).ops[th.pc.row.id];
    var after := AfterMove(th.pc.req, op.row, th.pc.call);
    Seen(db, calls, th, th.pc.row.id);
    MovedStaged(db, calls, th, was, op, after);
    MovedStanding(db, calls, th, was, op, audit, after);
    PutCalls(db, calls, th, th.pc.row.id, op, audit, after);
  }

  lemma UpdateKeeps(s: System, t: ThreadId, pc: Pc)
    requires Inv(s) && pc == Of(s, t).pc && pc.Calling? && pc.row.id in View(s, t).ops
    requires Logs.Inv(Updated(s, t, pc.req, pc.row, pc.call))
    ensures Inv(Updated(s, t, pc.req, pc.row, pc.call))
  {
    hide Logs.Inv, Staged, Standing, DbCalls;
    var s' := Updated(s, t, pc.req, pc.row, pc.call);
    var op := View(s, t).ops[pc.row.id];
    Logs.SameRow(s, t, pc.row.id);
    assert ThreadCalls(s.db, s.calls, Of(s, t));
    if ValidateTransition(pc.call.t, Some(pc.row.state)).Failure? {
      RaisedCalls(s.db, s.calls, Of(s, t), pc.call);
    } else if op.row.version == pc.row.version {
      var moved := Move(op, pc.row, pc.call.t, pc.call.actor, pc.call.up).value;
      MovedCalls(s.db, s.calls, Of(s, t), moved, [MoveAudit(pc.row.id, pc.call.t, pc.call.actor)]);
    } else {
      LostCalls(s.db, s.calls, Of(s, t));
    }
    ThreadStep(s, t, Of(s', t), s');
  }

  lemma LostCalls(db: Db, calls: multiset<OpId>, th: Thread)
    requires ThreadCalls(db, calls, th) && th.pc.Calling?
    ensures ThreadCalls(db, calls, Thread(Lost(th.pc.req, th.pc.row, th.pc.call), th.tx))
  {
    PcCalls(db, calls, th, Lost(th.pc.req, th.pc.row, th.pc.call));
  }

  lemma RereadKeeps(s: System, t: ThreadId, pc: Pc)
    requires Inv(s) && pc == Of(s, t).pc && pc.Lost? && pc.row.id in View(s, t).ops
    requires Logs.Inv(WithPc(s, t, RereadPc(View(s, t), pc)))
    ensures Inv(WithPc(s, t, RereadPc(View(s, t), pc)))
  {
    hide Logs.Inv, Staged, Standing, DbCalls;
    Logs.SameRow(s, t, pc.row.id);
    NotRetried(s, t);
    assert ThreadCalls(s.db, s.calls, Of(s, t));
    RaisedCalls(s.db, s.calls, Of(s, t), pc.call);
    ThreadStep(s, t, Thread(RereadPc(View(s, t), pc), Of(s, t).tx), WithPc(s, t, RereadPc(View(s, t), pc)));
  }

  lemma NotRetried(s: System, t: ThreadId)
    requires Logs.Inv(s) && Of(s, t).pc.Lost? && Of(s, t).pc.row.id in View(s, t).ops
    ensures !RereadPc(View(s, t), Of(s, t).pc).Retrying?
  {
    assert Logs.ThreadOk(s.db, Of(s, t));
    Logs.RetryIsDead(View(s, t), Of(s, t).pc);
  }

  lemma CreateKeeps(s: System, t: ThreadId, id: OpId, origin: Origin)
    requires Inv(s) && Of(s, t).pc.Idle? && id !in View(s, t).ops && Logs.Inv(Inserted(s, t, id, origin))
    ensures Inv(Inserted(s, t, id, origin))
  {
    hide Logs.Inv, DbCalls;
    var s' := Inserted(s, t, id, origin);
    assert ThreadCalls(s.db, s.calls, Of(s, t));
    PutCalls(s.db, s.calls, Of(s, t), id, NewOperation(id, origin), [AuditOf(id, CreationEvent(origin))], Of(s', t).pc);
    ThreadStep(s, t, Of(s', t), s');
  }

  lemma BurnedCalls(db: Db, calls: multiset<OpId>, th: Thread, op: Op, who: PrincipalId)
    requires DbCalls(db, calls) && ThreadCalls(db, calls, th)
    requires th.pc.Settled? && th.pc.req.Execute? && th.pc.row.id in Visible(db, th.tx).ops
    requires BurnHandle(Visible(db, th.tx).ops[th.pc.row.id]) == Some(op)
    ensures ThreadCalls(db, calls, Thread(Burned(who, th.pc.row), Put(th.tx, th.pc.row.id, op, [])))
  {
    Seen(db, calls, th, th.pc.row.id);
    PutCalls(db, calls, th, th.pc.row.id, op, [], Burned(who, th.pc.row));
  }

  lemma FinishedCalls(db: Db, calls: multiset<OpId>, th: Thread)
    requires ThreadCalls(db, calls, th) && Logs.HasRow(th.pc) && !th.pc.Finished?
    ensures ThreadCalls(db, calls, Thread(Finished(Req(th.pc), th.pc.row.id, false), th.tx))
  {
    PcCalls(db, calls, th, Finished(Req(th.pc), th.pc.row.id, false));
  }

  lemma BurnKeeps(s: System, t: ThreadId, pc: Pc)
    requires Inv(s) && pc == Of(s, t).pc && pc.Settled? && pc.req.Execute? && pc.row.id in View(s, t).ops
    requires Logs.Inv(BurnStep(s, t, pc.req, pc.row))
    ensures Inv(BurnStep(s, t, pc.req, pc.row))
  {
    hide Logs.Inv, Staged, Standing, DbCalls;
    var s' := BurnStep(s, t, pc.req, pc.row);
    assert ThreadCalls(s.db, s.calls, Of(s, t));
    var op := View(s, t).ops[pc.row.id];
    if pc.row.burned || pc.row.state != Approved || op.row.burned {
      FinishedCalls(s.db, s.calls, Of(s, t));
    } else {
      BurnedCalls(s.db, s.calls, Of(s, t), BurnHandle(op).value, pc.req.who);
    }
    ThreadStep(s, t, Of(s', t), s');
  }

  lemma VotedCalls(db: Db, calls: multiset<OpId>, th: Thread, pc: Pc)
    requires DbCalls(db, calls) && ThreadCalls(db, calls, th)
    requires th.pc.Settled? && th.pc.req.Decide? && th.pc.row.id in Visible(db, th.tx).ops
    requires pc == Finished(th.pc.req, th.pc.row.id, true)
             || exists d :: pc == DecisionCall(th.pc.req, th.pc.row, th.pc.req.who, th.pc.req.verdict, d)
    ensures var voted := RecordVote(Visible(db, th.tx).ops[th.pc.row.id], th.pc.req.who, th.pc.req.verdict);
            ThreadCalls(db, calls, Thread(pc, Put(th.tx, th.pc.row.id, voted, [])))
  {
    Seen(db, calls, th, th.pc.row.id);
    PutCalls(db, calls, th, th.pc.row.id,
             RecordVote(Visible(db, th.tx).ops[th.pc.row.id], th.pc.req.who, th.pc.req.verdict), [], pc);
  }

  lemma VoteKeeps(s: System, t: ThreadId, pc: Pc, deadline: Time)
    requires Inv(s) && pc == Of(s, t).pc && pc.Settled? && pc.req.Decide? && pc.row.policy.Some?
    requires pc.row.id in View(s, t).ops && Logs.Inv(Voted(s, t, pc.req, pc.row, deadline))
    ensures Inv(Voted(s, t, pc.req, pc.row, deadline))
  {
    hide Logs.Inv, Staged, Standing, DbCalls;
    var s' := Voted(s, t, pc.req, pc.row, deadline);
    assert ThreadCalls(s.db, s.calls, Of(s, t));
    Logs.VotedShape(s, t, pc, deadline);
    FinishedCalls(s.db, s.calls, Of(s, t));
    VotedCalls(s.db, s.calls, Of(s, t), Finished(pc.req, pc.row.id, true));
    VotedCalls(s.db, s.calls, Of(s, t), DecisionCall(pc.req, pc.row, pc.req.who, pc.req.verdict, deadline));
    ThreadStep(s, t, Of(s', t), s');
  }

  lemma SettleStanding(db: Db, calls: multiset<OpId>, tx: Db, pc: Pc, now: Time)
    requires pc.Fetched? && Standing(db, calls, tx, pc)
    ensures Standing(db, calls, tx, SettledPc(pc, now))
  {
  }

  lemma DecisionStanding(db: Db, calls: multiset<OpId>, tx: Db, pc: Pc, deadline: Time)
    requires pc.Settled? && !pc.req.Execute? && Standing(db, calls, tx, pc)
    ensures Standing(db, calls, tx, Decision(pc.req, pc.row, deadline))
  {
  }

  lemma CountStanding(db: Db, calls: multiset<OpId>, tx: Db, view: Db, limit: WorkflowId -> nat, pc: Pc)
    requires pc.Burned? && Standing(db, calls, tx, pc)
    ensures Standing(db, calls, tx, CountedPc(view, limit, pc))
  {
    hide ExecutingIn;
  }

  lemma DecidedCalls(s: System, step: Step)
    requires step.Settle? || step.Refuse? || step.Count? || step.FinishPrepare? || step.Proceed?
    requires Enabled(s, step) && ThreadCalls(s.db, s.calls, Of(s, step.t))
    ensures ThreadCalls(s.db, s.calls, Thread(Logs.DecidedPc(s, step), Of(s, step.t).tx))
  {
    hide SettledPc, Decision, CountedPc, Staged, Spent;
    var th := Of(s, step.t);
    match step {
      case Settle(t) => SettleStanding(s.db, s.calls, th.tx, th.pc, s.clock);
      case Proceed(t, deadline) => DecisionStanding(s.db, s.calls, th.tx, th.pc, deadline);
      case Count(t) => CountStanding(s.db, s.calls, th.tx, View(s, t), s.cfg.limit, th.pc);
      case _ =>
    }
    PcCalls(s.db, s.calls, th, Logs.DecidedPc(s, step));
  }

  lemma DecidedKeeps(s: System, step: Step)
    requires Inv(s) && Enabled(s, step) && Logs.Inv(Apply(s, step))
    requires step.Settle? || step.Refuse? || step.Count? || step.FinishPrepare? || step.Proceed?
    ensures Inv(Apply(s, step))
  {
    hide Logs.Inv, Staged, Standing, DbCalls, Logs.Follows;
    assert ThreadCalls(s.db, s.calls, Of(s, step.t));
    DecidedCalls(s, step);
    Logs.DecidedFollows(s, step);
    ThreadStep(s, step.t, Thread(Logs.DecidedPc(s, step), Of(s, step.t).tx), Apply(s, step));
  }

  /** Steps of an idle thread, or of one between transactions, that read a row. */
  lemma FetchKeeps(s: System, t: ThreadId, pc: Pc, s': System)
    requires Inv(s) && Logs.Inv(s')
    requires s'.db == s.db && s'.calls == s.calls && s'.threads == s.threads[t := Of(s, t).(pc := pc)]
    requires pc.Fetched? && Logs.Quiet(Of(s, t).pc)
    requires pc.req.Execute? ==> pc.row.id in s.db.ops
    requires pc.req.Record? ==> Of(s, t).pc == Returned(pc.row.id, pc.req.reported)
    ensures Inv(s')
  {
    hide Logs.Inv, Staged, DbCalls;
    assert ThreadCalls(s.db, s.calls, Of(s, t));
    PcCalls(s.db, s.calls, Of(s, t), pc);
    ThreadStep(s, t, Of(s, t).(pc := pc), s');
  }

  lemma BeginKeeps(s: System, step: Step)
    requires Inv(s) && Enabled(s, step) && Logs.Inv(Apply(s, step))
    requires step.BeginGet? || step.BeginListing? || step.BeginPrepare? || step.BeginRecord?
    ensures Inv(Apply(s, step))
  {
    hide Logs.Inv, ThreadCalls, DbCalls;
    match step
    case BeginGet(t, req, id) =>
      Logs.CommittedId(s, id);
      FetchKeeps(s, t, Fetched(req, s.db.ops[id].row), Apply(s, step));
    case BeginListing(t, rows) =>
      FetchKeeps(s, t, Fetched(Listing(rows[1..]), rows[0]), Apply(s, step));
    case BeginPrepare(t, id, origin) => CreateKeeps(s, t, id, origin);
    case BeginRecord(t) =>
      Logs.CommittedId(s, Of(s, t).pc.id);
      FetchKeeps(s, t, Fetched(Record(Of(s, t).pc.reported), s.db.ops[Of(s, t).pc.id].row), Apply(s, step));
  }

  lemma EnterKeeps(s: System, t: ThreadId, s': System)
    requires Inv(s) && Of(s, t).pc.Started? && Of(s, t).pc.id in s.db.ops
    requires s' == WithPc(s, t, Entered(s.db.ops[Of(s, t).pc.id].row, Of(s, t).pc))
    requires Logs.Inv(s')
    ensures Inv(s')
  {
    hide Logs.Inv, Staged, DbCalls;
    assert ThreadCalls(s.db, s.calls, Of(s, t));
    PcCalls(s.db, s.calls, Of(s, t), Of(s', t).pc);
    ThreadStep(s, t, Of(s', t), s');
  }

  lemma StepKeeps(s: System, step: Step)
    requires Inv(s) && Enabled(s, step)
    ensures Inv(Apply(s, step))
  {
    hide Logs.Inv, DbCalls, ThreadCalls, Exclusive;
    assert Logs.Inv(s);
    Logs.StepKeeps(s, step);
    match step
    case Tick(now) => TickKeeps(s, now);
    case Update(t) => UpdateKeeps(s, t, Of(s, t).pc);
    case Reread(t) => RereadKeeps(s, t, Of(s, t).pc);
    case Update2(t) => Logs.NoRetrying(s, t); assert false;
    case Vote(t, d) => VoteKeeps(s, t, Of(s, t).pc, d);
    case Burn(t) => BurnKeeps(s, t, Of(s, t).pc);
    case Commit(t) => CommitStep(s, t, Of(s, t).pc);
    case Rollback(t) => DropStep(s, t);
    case Crash(t) => DropStep(s, t);
    case EnterDispatch(t) => EnterKeeps(s, t, Apply(s, step));
    case ExternalCall(t, o) => CallStep(s, t, Of(s, t).pc.id, o);
    case _ =>
      if step.BeginGet? || step.BeginListing? || step.BeginPrepare? || step.BeginRecord? {
        BeginKeeps(s, step);
      } else {
        DecidedKeeps(s, step);
      }
  }

  lemma TickKeeps(s: System, now: Time)
    requires Inv(s) && Logs.Inv(s.(clock := now))
    ensures Inv(s.(clock := now))
  {
    hide Logs.Inv, DbCalls, ThreadCalls;
    assert forall u :: Of(s.(clock := now), u) == Of(s, u);
  }

  // ---------------------------------------------------------------- runs

  lemma InitOk(s: System)
    requires Init(s)
    ensures Inv(s)
  {
    Logs.InitOk(s);
    assert forall t :: Of(s, t) == Thread(Idle, EMPTY);
  }

  lemma {:induction false} RunKeeps(run: seq<System>, i: nat)
    requires IsRun(run) && i < |run|
    ensures Inv(run[i])
  {
    hide Inv, Enabled;
    if i == 0 {
      InitOk(run[0]);
    } else {
      RunKeeps(run, i - 1);
      assert Next(run[i - 1], run[i]);
      var step :| Enabled(run[i - 1], step) && run[i] == Apply(run[i - 1], step);
      StepKeeps(run[i - 1], step);
    }
  }

  /** An operation that is executing, or done, has T10 in its log. */
  lemma RanTookT10(id: OpId, op: Op)
    requires OpOk(id, op) && Ran(op.row.state)
    ensures exists k :: 0 <= k < |op.log| && op.log[k].transition == T10
    ensures |op.log| > 0 && (op.row.state == Executing ==> op.log[|op.log| - 1].transition == T10)
  {
    var n := |op.log| - 1;
    assert op.log[n].to == ById(op.log[n].transition).to;
    if op.row.state == Executing {
      assert op.log[n].transition == T10;
    } else {
      assert op.log[n].from == Some(Executing) && n > 0;
      assert op.log[n - 1].to == ById(op.log[n - 1].transition).to;
      assert op.log[n - 1].transition == T10;
    }
  }

  /** In every state of every run: an operation was dispatched at most once; a
      dispatched one took T10 and is executing or done; one that succeeded, failed or
      ended unknown was dispatched exactly once; and one at or past Executing has its
      handle burned. */
  lemma DispatchedAtMostOnce(run: seq<System>, i: nat, id: OpId)
    requires IsRun(run) && i < |run|
    ensures run[i].calls[id] <= 1
    ensures run[i].calls[id] == 1 ==> id in run[i].db.ops
    ensures id in run[i].db.ops ==>
              var op := run[i].db.ops[id];
              && (Done(op.row.state) ==> run[i].calls[id] == 1)
              && (run[i].calls[id] == 1 ==> Ran(op.row.state))
              && (Ran(op.row.state) ==> op.row.burned)
              && (Ran(op.row.state) ==> exists k :: 0 <= k < |op.log| && op.log[k].transition == T10)
  {
    RunKeeps(run, i);
    if id in run[i].db.ops {
      assert OpCalls(run[i].db.ops[id], run[i].calls[id]);
      if Ran(run[i].db.ops[id].row.state) {
        assert OpOk(id, run[i].db.ops[id]);
        RanTookT10(id, run[i].db.ops[id]);
      }
    } else {
      assert id !in run[i].calls;
    }
  }

  /** The external call happens only while the committed row is Executing, its last
      committed event is T10, and nobody has made the call before. */
  lemma CalledOnlyAfterT10(run: seq<System>, i: nat, id: OpId)
    requires IsRun(run) && i + 1 < |run|
    requires run[i + 1].calls[id] != run[i].calls[id]
    ensures run[i].calls[id] == 0 && run[i + 1].calls[id] == 1
    ensures id in run[i].db.ops
    ensures var op := run[i].db.ops[id];
            op.row.state == Executing && op.row.burned && |op.log| > 0 && op.log[|op.log| - 1].transition == T10
  {
    hide Inv, Enabled, Apply, OpOk, Logs.ThreadOk, Logs.LockOk, Staged;
    RunKeeps(run, i);
    assert Next(run[i], run[i + 1]);
    var step :| Enabled(run[i], step) && run[i + 1] == Apply(run[i], step);
    OnlyCallsCall(run[i], step);
    Facts(run[i], step.t);
    CommittedOk(run[i], id);
    RanTookT10(id, run[i].db.ops[id]);
  }

  lemma CommittedOk(s: System, id: OpId)
    requires Inv(s) && id in s.db.ops
    ensures OpOk(id, s.db.ops[id]) && OpCalls(s.db.ops[id], s.calls[id])
  {
  }

  lemma OnlyCallsCall(s: System, step: Step)
    requires Enabled(s, step) && Apply(s, step).calls != s.calls
    ensures step.ExternalCall? && Of(s, step.t).pc.Ready?
    ensures Apply(s, step).calls == s.calls + multiset{Of(s, step.t).pc.id}
  {
  }

  /** The handle of `id` was burned, and the execution it was burned for never started. */
  predicate Wasted(db: Db, id: OpId) {
    id in db.ops && db.ops[id].row.burned && !Ran(db.ops[id].row.state)
  }

  lemma WastedStep(s: System, step: Step, id: OpId)
    requires Inv(s) && Enabled(s, step) && Wasted(s.db, id)
    ensures Wasted(Apply(s, step).db, id)
  {
    hide Logs.Inv, Exclusive, Standing;
    if step.Commit? {
      Facts(s, step.t);
      var tx := Of(s, step.t).tx;
      if id in tx.ops {
        assert Staged(s.db, id, tx.ops[id], s.calls[id], Of(s, step.t).pc);
      }
    } else {
      OnlyCommitsPublish(s, step);
    }
  }

  lemma OnlyCommitsPublish(s: System, step: Step)
    requires Enabled(s, step) && !step.Commit?
    ensures Apply(s, step).db == s.db
  {
  }

  /** A refused execute whose error was caught inside the session scope commits the
      burned handle without T10; from then on that operation never runs, so it is never
      dispatched, whoever asks. */
  lemma {:induction false} WastedHandleNeverRuns(run: seq<System>, i: nat, j: nat, id: OpId)
    requires IsRun(run) && i <= j < |run| && Wasted(run[i].db, id)
    ensures Wasted(run[j].db, id) && run[j].calls[id] == 0
  {
    hide Inv, Enabled, Apply;
    if i < j {
      WastedHandleNeverRuns(run, i, j - 1, id);
      RunKeeps(run, j - 1);
      assert Next(run[j - 1], run[j]);
      var step :| Enabled(run[j - 1], step) && run[j] == Apply(run[j - 1], step);
      WastedStep(run[j - 1], step, id);
    }
    DispatchedAtMostOnce(run, j, id);
  }
}
