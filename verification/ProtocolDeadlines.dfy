/**
 Deadlines in the concurrent system: whoever expires an operation, from however stale a
 row, its own deadline has passed by then.
 */
module ProtocolDeadlines {
  import opened Wrappers
  import opened StateMachine
  import opened OperationStore
  import opened Protocol
  import Dispatch = ProtocolDispatch
  import Logs = ProtocolLogs
  import Refusals = ProtocolRefusals

  predicate Past(deadline: Option<Time>, clock: Time) {
    deadline.Some? && deadline.value < clock
  }

  /** An operation that expired did so past the deadline in its own row. */
  ghost predicate Timely(clock: Time, op: Op) {
    |op.log| > 0 ==>
      && (op.log[|op.log| - 1].transition == T08 ==> Past(op.row.approvalExpiresAt, clock))
      && (op.log[|op.log| - 1].transition == T11 ==> Past(op.row.executionDeadline, clock))
  }

  // ---------------------------------------------------------------- invariant

  /** Within one version the deadlines stay. */
  predicate Kept(a: Row, b: Row) {
    a.version == b.version ==>
      a.approvalExpiresAt == b.approvalExpiresAt && a.executionDeadline == b.executionDeadline
  }

  ghost predicate HeldKept(view: Db, row: Row) {
    row.id in view.ops && Kept(row, view.ops[row.id].row)
  }

  /** The copies a thread holds. */
  ghost predicate RowsKept(view: Db, pc: Pc) {
    && (Logs.HasRow(pc) ==> HeldKept(view, pc.row))
    && (forall i | 0 <= i < |Logs.Rest(pc)| :: HeldKept(view, Logs.Rest(pc)[i]))
  }

  /** An expiry on its way was decided past the deadline, and writes no column. */
  ghost predicate CallTimely(clock: Time, pc: Pc) {
    pc.Calling? || pc.Lost? ==>
      && (pc.call.t == T08 ==> Past(pc.row.approvalExpiresAt, clock) && pc.call.up == NO_UPDATES)
      && (pc.call.t == T11 ==> Past(pc.row.executionDeadline, clock) && pc.call.up == NO_UPDATES)
  }

  ghost predicate Staged(db: Db, clock: Time, id: OpId, op: Op) {
    Timely(clock, op) && (id in db.ops ==> Kept(db.ops[id].row, op.row))
  }

  ghost predicate ThreadTimely(db: Db, clock: Time, th: Thread) {
    && (forall id | id in th.tx.ops :: Staged(db, clock, id, th.tx.ops[id]))
    && RowsKept(Visible(db, th.tx), th.pc) && CallTimely(clock, th.pc)
  }

  ghost predicate DbTimely(db: Db, clock: Time) {
    forall id | id in db.ops :: Timely(clock, db.ops[id])
  }

  ghost predicate Inv(s: System) {
    && Logs.Inv(s) && DbTimely(s.db, s.clock)
    && (forall t :: ThreadTimely(s.db, s.clock, Of(s, t)))
  }

  // ---------------------------------------------------------------- versions

  /** What a thread holds is no newer than what it sees. */
  lemma HeldIsOld(view: Db, row: Row)
    requires Consistent(view) && Logs.KnownIn(view, row)
    ensures row.version <= view.ops[row.id].row.version
  {
    assert OpOk(row.id, view.ops[row.id]);
  }

  lemma GrownIsLater(db: Db, view: Db, id: OpId)
    requires Consistent(db) && Consistent(view) && Logs.Grown(db, view) && id in db.ops
    ensures id in view.ops && db.ops[id].row.version <= view.ops[id].row.version
  {
    assert OpOk(id, db.ops[id]) && OpOk(id, view.ops[id]) && Logs.GrownOp(db.ops[id], view.ops[id]);
  }

  /** A held copy, after another transaction commits what it staged. */
  lemma CommitHeld(db: Db, mine: Db, tx: Db, clock: Time, row: Row)
    requires Consistent(db) && Consistent(Visible(db, mine)) && Consistent(Visible(db, tx))
    requires Logs.Grown(db, Visible(db, mine))
    requires forall id | id in mine.ops :: Staged(db, clock, id, mine.ops[id])
    requires Logs.KnownIn(Visible(db, tx), row) && HeldKept(Visible(db, tx), row)
    ensures HeldKept(Visible(Visible(db, mine), tx), row)
  {
    hide Consistent, Logs.Grown, Timely;
    var id := row.id;
    HeldIsOld(Visible(db, tx), row);
    if id !in tx.ops {
      GrownIsLater(db, Visible(db, mine), id);
      if id in mine.ops { assert Staged(db, clock, id, mine.ops[id]); }
    }
  }

  lemma CommitThread(db: Db, mine: Db, clock: Time, th: Thread)
    requires Consistent(db) && Consistent(Visible(db, mine)) && Logs.Grown(db, Visible(db, mine))
    requires forall id | id in mine.ops :: Staged(db, clock, id, mine.ops[id])
    requires mine.ops.Keys !! th.tx.ops.Keys
    requires Logs.ThreadOk(db, th) && ThreadTimely(db, clock, th)
    ensures ThreadTimely(Visible(db, mine), clock, th)
  {
    hide Consistent, Logs.Grown, Timely, HeldKept, Logs.KnownIn, Logs.RaceOk;
    var after := Visible(db, mine);
    forall id | id in th.tx.ops ensures Staged(after, clock, id, th.tx.ops[id]) {
      assert Staged(db, clock, id, th.tx.ops[id]);
    }
    if Logs.HasRow(th.pc) { CommitHeld(db, mine, th.tx, clock, th.pc.row); }
    forall i | 0 <= i < |Logs.Rest(th.pc)| ensures HeldKept(Visible(after, th.tx), Logs.Rest(th.pc)[i]) {
      CommitHeld(db, mine, th.tx, clock, Logs.Rest(th.pc)[i]);
    }
  }

  lemma LaterTimely(clock: Time, now: Time, op: Op)
    requires Timely(clock, op) && clock <= now
    ensures Timely(now, op)
  {
  }

  lemma LaterThread(db: Db, clock: Time, now: Time, th: Thread)
    requires ThreadTimely(db, clock, th) && clock <= now
    ensures ThreadTimely(db, now, th)
  {
    hide Timely, RowsKept, Kept;
    forall id | id in th.tx.ops ensures Staged(db, now, id, th.tx.ops[id]) {
      assert Staged(db, clock, id, th.tx.ops[id]);
      LaterTimely(clock, now, th.tx.ops[id]);
    }
  }

  // ---------------------------------------------------------------- one thread

  lemma Facts(s: System, t: ThreadId)
    requires Inv(s)
    ensures ThreadTimely(s.db, s.clock, Of(s, t)) && Logs.ThreadOk(s.db, Of(s, t)) && Consistent(s.db)
    ensures Logs.LockOk(s.locks, t, Of(s, t).tx)
  {
  }

  /** An operation as a thread sees it. */
  lemma Seen(s: System, t: ThreadId, id: OpId)
    requires Inv(s) && id in View(s, t).ops
    ensures var op := View(s, t).ops[id];
            && Timely(s.clock, op) && op.row.id == id && OpOk(id, op)
            && (id in s.db.ops ==> Kept(s.db.ops[id].row, op.row) && s.db.ops[id].row.version <= op.row.version)
  {
    hide Timely, Logs.RowsOk, Logs.RaceOk, RowsKept, OpOk, Logs.Grown, Consistent;
    Facts(s, t);
    if id in Of(s, t).tx.ops { assert Staged(s.db, s.clock, id, Of(s, t).tx.ops[id]); }
    if id in s.db.ops { GrownIsLater(s.db, View(s, t), id); }
    SeenOk(View(s, t), id);
  }

  lemma SeenOk(view: Db, id: OpId)
    requires Consistent(view) && id in view.ops
    ensures OpOk(id, view.ops[id]) && view.ops[id].row.id == id
  {
  }

  /** What a thread holds, against what it sees. */
  lemma SeenRows(s: System, t: ThreadId)
    requires Inv(s)
    ensures RowsKept(View(s, t), Of(s, t).pc) && CallTimely(s.clock, Of(s, t).pc)
    ensures View(s, t) == Visible(s.db, Of(s, t).tx) && Consistent(View(s, t)) && Logs.RowsOk(View(s, t), Of(s, t).pc)
    ensures ThreadTimely(s.db, s.clock, Of(s, t))
  {
    hide Timely, Consistent, HeldKept, Logs.KnownIn;
    Facts(s, t);
  }

  lemma PutTimely(db: Db, clock: Time, th: Thread, id: OpId, op: Op, audit: seq<AuditRecord>, pc: Pc)
    requires ThreadTimely(db, clock, th) && Staged(db, clock, id, op)
    requires RowsKept(Put(Visible(db, th.tx), id, op, audit), pc) && CallTimely(clock, pc)
    ensures ThreadTimely(db, clock, Thread(pc, Put(th.tx, id, op, audit)))
  {
    hide Timely, RowsKept, Kept, CallTimely;
    Logs.VisiblePut(db, th.tx, id, op, audit);
    forall k | k in th.tx.ops ensures Staged(db, clock, k, th.tx.ops[k]) {}
  }

  /** Copies held while an operation is stored: of a later version, or in the same one with
      the same deadlines. */
  lemma HeldOverPut(view: Db, id: OpId, op: Op, audit: seq<AuditRecord>, row: Row)
    requires Consistent(view) && Logs.KnownIn(view, row) && HeldKept(view, row) && id in view.ops
    requires view.ops[id].row.version < op.row.version
             || (view.ops[id].row.version == op.row.version && Kept(view.ops[id].row, op.row))
    ensures HeldKept(Put(view, id, op, audit), row)
  {
    hide Consistent;
    HeldIsOld(view, row);
  }

  lemma RestOverPut(view: Db, id: OpId, op: Op, audit: seq<AuditRecord>, pc: Pc)
    requires Consistent(view) && Logs.RowsOk(view, pc) && RowsKept(view, pc) && id in view.ops
    requires view.ops[id].row.version < op.row.version
             || (view.ops[id].row.version == op.row.version && Kept(view.ops[id].row, op.row))
    ensures RowsKept(Put(view, id, op, audit), pc)
  {
    hide Consistent, HeldKept, Logs.KnownIn, Kept;
    if Logs.HasRow(pc) { HeldOverPut(view, id, op, audit, pc.row); }
    forall i | 0 <= i < |Logs.Rest(pc)| ensures HeldKept(Put(view, id, op, audit), Logs.Rest(pc)[i]) {
      HeldOverPut(view, id, op, audit, Logs.Rest(pc)[i]);
    }
  }

  /** A program counter that holds no more than the one before, but for `row`. */
  lemma RowsFollow(view: Db, pc: Pc, after: Pc)
    requires RowsKept(view, pc)
    requires Logs.HasRow(after) ==> HeldKept(view, after.row)
    requires forall i | 0 <= i < |Logs.Rest(after)| :: Logs.Rest(after)[i] in Logs.Rest(pc)
    ensures RowsKept(view, after)
  {
    hide HeldKept;
    forall i | 0 <= i < |Logs.Rest(after)| ensures HeldKept(view, Logs.Rest(after)[i]) {
      var k :| 0 <= k < |Logs.Rest(pc)| && Logs.Rest(pc)[k] == Logs.Rest(after)[i];
    }
  }

  // ---------------------------------------------------------------- steps

  lemma MovedTimely(clock: Time, pc: Pc, was: Op, op: Op)
    requires pc.Calling? && CallTimely(clock, pc) && Kept(pc.row, was.row)
    requires Move(was, pc.row, pc.call.t, pc.call.actor, pc.call.up) == Some(op)
    ensures Timely(clock, op) && op.row.version == was.row.version + 1 && op.row.id == was.row.id
  {
  }

  lemma AfterMoveKept(view: Db, id: OpId, op: Op, audit: seq<AuditRecord>, pc: Pc)
    requires pc.Calling? && RowsKept(Put(view, id, op, audit), pc) && op.row.id == id
    ensures RowsKept(Put(view, id, op, audit), AfterMove(pc.req, op.row, pc.call))
    ensures forall clock :: CallTimely(clock, AfterMove(pc.req, op.row, pc.call))
  {
    hide Put, Kept;
    var after := AfterMove(pc.req, op.row, pc.call);
    assert HeldKept(Put(view, id, op, audit), op.row) by { PutHeld(view, id, op, audit); }
    assert Logs.Rest(after) == Logs.Rest(pc) || Logs.Rest(after) == [];
    RowsFollow(Put(view, id, op, audit), pc, after);
  }

  lemma PutHeld(view: Db, id: OpId, op: Op, audit: seq<AuditRecord>)
    requires op.row.id == id
    ensures HeldKept(Put(view, id, op, audit), op.row)
  {
  }

  lemma RaisedKept(view: Db, pc: Pc)
    requires (pc.Calling? || pc.Lost?) && RowsKept(view, pc)
    requires pc.row.id in view.ops ==> view.ops[pc.row.id].row.id == pc.row.id
    ensures RowsKept(view, AfterRaise(view, pc.req, pc.row, pc.call))
    ensures forall clock :: CallTimely(clock, AfterRaise(view, pc.req, pc.row, pc.call))
  {
    var after := AfterRaise(view, pc.req, pc.row, pc.call);
    assert Logs.Rest(after) == Logs.Rest(pc) || Logs.Rest(after) == [];
    RowsFollow(view, pc, after);
  }

  lemma UpdateTimely(s: System, t: ThreadId)
    requires Inv(s) && Enabled(s, Update(t))
    ensures ThreadTimely(s.db, s.clock, Of(Apply(s, Update(t)), t))
  {
    hide Logs.Inv, ValidateTransition, Move, AfterMove, AfterRaise, Put, CanLock, Timely, Kept, Logs.RaceOk, Consistent,
        OpOk, Logs.KnownIn, DbTimely, CallTimely, View;
    var th := Of(s, t);
    var pc, view := th.pc, View(s, t);
    var was := view.ops[pc.row.id];
    SeenRows(s, t);
    Seen(s, t, pc.row.id);
    RaisedKept(view, pc);
    var moved := Move(was, pc.row, pc.call.t, pc.call.actor, pc.call.up);
    var audit := [MoveAudit(pc.row.id, pc.call.t, pc.call.actor)];
    if moved.Some? {
      MovedTimely(s.clock, pc, was, moved.value);
      RestOverPut(view, pc.row.id, moved.value, audit, pc);
      AfterMoveKept(view, pc.row.id, moved.value, audit, pc);
      NewVersion(s.db, pc.row.id, was, moved.value);
      PutTimely(s.db, s.clock, th, pc.row.id, moved.value, audit, AfterMove(pc.req, moved.value.row, pc.call));
    }
    LostKept(view, s.clock, pc);
    PcTimely(s, t, AfterRaise(view, pc.req, pc.row, pc.call));
    PcTimely(s, t, Lost(pc.req, pc.row, pc.call));
  }

  lemma NewVersion(db: Db, id: OpId, was: Op, op: Op)
    requires op.row.version == was.row.version + 1
    requires id in db.ops ==> db.ops[id].row.version <= was.row.version
    ensures id in db.ops ==> Kept(db.ops[id].row, op.row)
  {
  }

  lemma LostKept(view: Db, clock: Time, pc: Pc)
    requires pc.Calling? && RowsKept(view, pc) && CallTimely(clock, pc)
    ensures RowsKept(view, Lost(pc.req, pc.row, pc.call)) && CallTimely(clock, Lost(pc.req, pc.row, pc.call))
  {
    RowsFollow(view, pc, Lost(pc.req, pc.row, pc.call));
  }

  /** A vote or a burn: same version, same log, same deadlines. */
  predicate SameButFor(op: Op, later: Op) {
    later.log == op.log && later.row.(burned := op.row.burned) == op.row
  }

  lemma SilentTimely(s: System, t: ThreadId, id: OpId, later: Op, after: Pc)
    requires Inv(s) && id in View(s, t).ops && SameButFor(View(s, t).ops[id], later)
    requires Logs.HasRow(Of(s, t).pc) && Logs.Rest(after) == []
    requires Logs.HasRow(after) ==> after.row == Of(s, t).pc.row
    requires CallTimely(s.clock, after)
    ensures ThreadTimely(s.db, s.clock, Thread(after, Put(Of(s, t).tx, id, later, [])))
  {
    hide Logs.Inv, Consistent, OpOk, Put, CallTimely, HeldKept, Logs.KnownIn, Logs.RaceOk;
    var pc, view := Of(s, t).pc, View(s, t);
    Facts(s, t);
    Seen(s, t, id);
    SilentStaged(s.db, s.clock, id, view.ops[id], later);
    RestOverPut(view, id, later, [], pc);
    RowsFollow(Put(view, id, later, []), pc, after);
    PutTimely(s.db, s.clock, Of(s, t), id, later, [], after);
  }

  lemma SilentStaged(db: Db, clock: Time, id: OpId, op: Op, later: Op)
    requires Timely(clock, op) && SameButFor(op, later) && (id in db.ops ==> Kept(db.ops[id].row, op.row))
    ensures Staged(db, clock, id, later)
  {
  }

  lemma VoteTimely(s: System, t: ThreadId, deadline: Time)
    requires Inv(s) && Enabled(s, Vote(t, deadline))
    ensures ThreadTimely(s.db, s.clock, Of(Apply(s, Vote(t, deadline)), t))
  {
    hide Logs.Inv, CanLock, View, Voters, Put, ThreadTimely, DecisionCall, DbTimely;
    var pc := Of(s, t).pc;
    var voted := RecordVote(View(s, t).ops[pc.row.id], pc.req.who, pc.req.verdict);
    assert ThreadTimely(s.db, s.clock, Of(s, t));
    Ends(s, t, pc.req, false);
    forall after: Pc
      | after == Finished(pc.req, pc.row.id, true)
        || after == DecisionCall(pc.req, pc.row, pc.req.who, pc.req.verdict, deadline)
      ensures ThreadTimely(s.db, s.clock, Thread(after, Put(Of(s, t).tx, pc.row.id, voted, [])))
    {
      DecidedShape(s.clock, pc, deadline);
      SilentTimely(s, t, pc.row.id, voted, after);
    }
  }

  lemma DecidedShape(clock: Time, pc: Pc, deadline: Time)
    requires pc.Settled? && pc.req.Decide?
    ensures var after := DecisionCall(pc.req, pc.row, pc.req.who, pc.req.verdict, deadline);
            after.Calling? && after.row == pc.row && Logs.Rest(after) == [] && CallTimely(clock, after)
  {
  }

  /** Ending without a write. */
  lemma Ends(s: System, t: ThreadId, req: Request, ok: bool)
    requires Inv(s) && Logs.HasRow(Of(s, t).pc)
    ensures ThreadTimely(s.db, s.clock, Thread(Finished(req, Of(s, t).pc.row.id, ok), Of(s, t).tx))
  {
    hide Logs.Inv, Timely, Kept;
    assert ThreadTimely(s.db, s.clock, Of(s, t));
    RowsFollow(View(s, t), Of(s, t).pc, Finished(req, Of(s, t).pc.row.id, ok));
  }

  lemma BurnTimely(s: System, t: ThreadId)
    requires Inv(s) && Enabled(s, Burn(t))
    ensures ThreadTimely(s.db, s.clock, Of(Apply(s, Burn(t)), t))
  {
    hide Logs.Inv, CanLock, View, Put, ThreadTimely, DbTimely;
    var pc := Of(s, t).pc;
    Ends(s, t, pc.req, false);
    var burnt := BurnHandle(View(s, t).ops[pc.row.id]);
    if burnt.Some? { SilentTimely(s, t, pc.row.id, burnt.value, Burned(pc.req.who, pc.row)); }
  }

  lemma CreateTimely(s: System, t: ThreadId, id: OpId, origin: Origin)
    requires Inv(s) && Enabled(s, BeginPrepare(t, id, origin))
    ensures ThreadTimely(s.db, s.clock, Of(Apply(s, BeginPrepare(t, id, origin)), t))
  {
    hide Logs.Inv, CanLock, Put;
    var op := NewOperation(id, origin);
    var audit := [AuditOf(id, CreationEvent(origin))];
    assert ThreadTimely(s.db, s.clock, Of(s, t));
    PutHeld(View(s, t), id, op, audit);
    PutTimely(s.db, s.clock, Of(s, t), id, op, audit, Created(op.row));
  }

  lemma EndTimely(s: System, step: Step)
    requires Enabled(s, step) && (step.Commit? || step.Rollback? || step.Crash?)
    ensures ThreadTimely(Apply(s, step).db, s.clock, Of(Apply(s, step), step.t))
  {
    hide View;
  }

  /** Fetching committed rows. */
  lemma FetchTimely(s: System, step: Step)
    requires step.BeginGet? || step.BeginListing? || step.BeginRecord?
    requires Inv(s) && Enabled(s, step)
    ensures var after := Of(Apply(s, step), step.t).pc; RowsKept(View(s, step.t), after) && CallTimely(s.clock, after)
  {
    hide Logs.Inv, CanLock, Timely, DbTimely, ThreadTimely;
    Logs.QuietIsEmpty(s, step.t);
    Logs.VisibleEmpty(s.db);
    if step.BeginRecord? { Logs.CommittedId(s, Of(s, step.t).pc.id); }
    if step.BeginGet? { Logs.CommittedId(s, step.id); }
  }

  /** Dispatch holds no row. */
  lemma DispatchTimely(s: System, step: Step)
    requires (step.EnterDispatch? || step.ExternalCall?) && Enabled(s, step)
    ensures var after := Of(Apply(s, step), step.t).pc; RowsKept(View(s, step.t), after) && CallTimely(s.clock, after)
  {
    hide View;
  }

  lemma SettleKept(view: Db, clock: Time, pc: Pc)
    requires pc.Fetched? && RowsKept(view, pc)
    ensures RowsKept(view, SettledPc(pc, clock)) && CallTimely(clock, SettledPc(pc, clock))
  {
    hide HeldKept;
    RowsFollow(view, pc, SettledPc(pc, clock));
  }

  lemma SettleTimely(s: System, t: ThreadId)
    requires Inv(s) && Enabled(s, Settle(t))
    ensures var after := SettledPc(Of(s, t).pc, s.clock); RowsKept(View(s, t), after) && CallTimely(s.clock, after)
  {
    hide Inv, View, RowsKept, CallTimely, SettledPc, ThreadTimely, Consistent, Logs.RowsOk;
    SeenRows(s, t);
    SettleKept(View(s, t), s.clock, Of(s, t).pc);
  }

  lemma NextKept(view: Db, pc: Pc)
    requires pc.Settled? && pc.req.Listing? && RowsKept(view, pc)
    ensures RowsKept(view, NextListed(pc.req.rest, pc.row.id))
  {
    hide HeldKept;
    var rest := Logs.Rest(pc);
    assert forall i | 0 <= i < |rest| - 1 :: rest[1..][i] == rest[i + 1];
  }

  lemma DecisionKept(view: Db, clock: Time, pc: Pc, deadline: Time)
    requires pc.Settled? && RowsKept(view, pc)
    ensures RowsKept(view, Decision(pc.req, pc.row, deadline)) && CallTimely(clock, Decision(pc.req, pc.row, deadline))
  {
    hide HeldKept;
    if pc.req.Listing? {
      NextKept(view, pc);
    } else {
      RowsFollow(view, pc, Decision(pc.req, pc.row, deadline));
    }
  }

  lemma ProceedTimely(s: System, t: ThreadId, deadline: Time)
    requires Inv(s) && Enabled(s, Proceed(t, deadline))
    ensures var after := Decision(Of(s, t).pc.req, Of(s, t).pc.row, deadline);
            RowsKept(View(s, t), after) && CallTimely(s.clock, after)
  {
    hide Inv, View, RowsKept, CallTimely, Decision, ThreadTimely, Consistent, Logs.RowsOk;
    SeenRows(s, t);
    DecisionKept(View(s, t), s.clock, Of(s, t).pc, deadline);
  }

  lemma CountKept(view: Db, seen: Db, limit: WorkflowId -> nat, clock: Time, pc: Pc)
    requires pc.Burned? && RowsKept(view, pc)
    ensures RowsKept(view, CountedPc(seen, limit, pc)) && CallTimely(clock, CountedPc(seen, limit, pc))
  {
    hide HeldKept, ExecutingIn;
    RowsFollow(view, pc, CountedPc(seen, limit, pc));
  }

  lemma PreparedKept(cfg: Config, view: Db, clock: Time, pc: Pc, call: Call)
    requires pc.Created? && RowsKept(view, pc) && PrepareCall(cfg, pc.row.origin, call)
    ensures RowsKept(view, Calling(Prepare, pc.row, call)) && CallTimely(clock, Calling(Prepare, pc.row, call))
  {
    hide HeldKept;
    RowsFollow(view, pc, Calling(Prepare, pc.row, call));
  }

  lemma LocalTimely(s: System, step: Step)
    requires step.Refuse? || step.Count? || step.FinishPrepare?
    requires Inv(s) && Enabled(s, step)
    ensures var after := Of(Apply(s, step), step.t).pc; RowsKept(View(s, step.t), after) && CallTimely(s.clock, after)
  {
    hide Inv, View, RowsKept, CallTimely, CountedPc, PrepareCall, ThreadTimely, Consistent, Logs.RowsOk;
    var view, pc := View(s, step.t), Of(s, step.t).pc;
    SeenRows(s, step.t);
    if step.Count? {
      CountKept(view, view, s.cfg.limit, s.clock, pc);
    } else if step.FinishPrepare? {
      PreparedKept(s.cfg, view, s.clock, pc, step.call);
    } else {
      NothingHeld(view, s.clock, pc.req, pc.row.id);
    }
  }

  lemma NothingHeld(view: Db, clock: Time, req: Request, id: OpId)
    ensures RowsKept(view, Finished(req, id, false)) && CallTimely(clock, Finished(req, id, false))
  {
  }

  lemma RereadTimely(s: System, t: ThreadId)
    requires Inv(s) && Enabled(s, Reread(t))
    ensures var after := RereadPc(View(s, t), Of(s, t).pc); RowsKept(View(s, t), after) && CallTimely(s.clock, after)
  {
    hide Logs.Inv, Timely, Kept, ThreadTimely, DbTimely, ValidateTransition, View;
    SeenRows(s, t);
    Logs.SameRow(s, t, Of(s, t).pc.row.id);
    RaisedKept(View(s, t), Of(s, t).pc);
    Dispatch.NotRetried(s, t);
  }

  /** The steps that only move the program counter. */
  lemma PcStepTimely(s: System, step: Step)
    requires Inv(s) && Enabled(s, step) && !step.Tick?
    requires !step.Update? && !step.Update2? && !step.Vote? && !step.Burn? && !step.BeginPrepare?
    requires !step.Commit? && !step.Rollback? && !step.Crash?
    ensures var after := Of(Apply(s, step), step.t).pc; RowsKept(View(s, step.t), after) && CallTimely(s.clock, after)
  {
    hide Inv, View, CanLock, RowsKept, CallTimely, SettledPc, Decision, RereadPc, CountedPc, PrepareCall;
    if step.Settle? {
      SettleTimely(s, step.t);
    } else if step.Proceed? {
      ProceedTimely(s, step.t, step.deadline);
    } else if step.Reread? {
      RereadTimely(s, step.t);
    } else if step.Refuse? || step.Count? || step.FinishPrepare? {
      LocalTimely(s, step);
    } else if step.EnterDispatch? || step.ExternalCall? {
      DispatchTimely(s, step);
    } else {
      FetchTimely(s, step);
    }
  }

  lemma PcTimely(s: System, t: ThreadId, after: Pc)
    requires Inv(s) && RowsKept(View(s, t), after) && CallTimely(s.clock, after)
    ensures ThreadTimely(s.db, s.clock, Thread(after, Of(s, t).tx))
  {
    assert ThreadTimely(s.db, s.clock, Of(s, t));
  }

  lemma OwnTimely(s: System, step: Step)
    requires Inv(s) && Enabled(s, step) && !step.Tick?
    ensures ThreadTimely(Apply(s, step).db, s.clock, Of(Apply(s, step), step.t))
  {
    hide Inv, Apply, Enabled, ThreadTimely, RowsKept, CallTimely, View;
    if step.Commit? || step.Rollback? || step.Crash? {
      EndTimely(s, step);
    } else {
      Dispatch.OnlyCommitsPublish(s, step);
      if step.Update? {
        UpdateTimely(s, step.t);
      } else if step.Update2? {
        NoSecond(s, step.t);
      } else if step.Vote? {
        VoteTimely(s, step.t, step.deadline);
      } else if step.Burn? {
        BurnTimely(s, step.t);
      } else if step.BeginPrepare? {
        CreateTimely(s, step.t, step.id, step.origin);
      } else {
        PcStepTimely(s, step);
        Refusals.SameWrites(s, step);
        PcTimely(s, step.t, Of(Apply(s, step), step.t).pc);
      }
    }
  }

  lemma NoSecond(s: System, t: ThreadId)
    requires Inv(s)
    ensures !Enabled(s, Update2(t))
  {
    Logs.NoRetrying(s, t);
  }

  /** Another thread's commit. */
  lemma OthersTimely(s: System, step: Step, t: ThreadId)
    requires Inv(s) && Enabled(s, step) && (step.Tick? || step.t != t)
    ensures ThreadTimely(Apply(s, step).db, s.clock, Of(s, t))
  {
    hide Logs.Inv, DbTimely, ThreadTimely, Logs.RowsOk, Logs.RaceOk, Consistent, Logs.Grown;
    Facts(s, t);
    if step.Commit? {
      Facts(s, step.t);
      Refusals.CommitsVisible(s, step.t);
      AllStaged(s, step.t);
      CommitThread(s.db, Of(s, step.t).tx, s.clock, Of(s, t));
    } else {
      Dispatch.OnlyCommitsPublish(s, step);
    }
  }

  lemma AllStaged(s: System, t: ThreadId)
    requires Inv(s)
    ensures forall id | id in Of(s, t).tx.ops :: Staged(s.db, s.clock, id, Of(s, t).tx.ops[id])
  {
    assert ThreadTimely(s.db, s.clock, Of(s, t));
  }

  lemma DbStaysTimely(s: System, step: Step)
    requires Inv(s) && Enabled(s, step)
    ensures DbTimely(Apply(s, step).db, s.clock)
  {
    hide Logs.Inv, Timely, RowsKept;
    if step.Commit? {
      Refusals.CommitsVisible(s, step.t);
      AllStaged(s, step.t);
    } else {
      Dispatch.OnlyCommitsPublish(s, step);
    }
  }

  lemma ClockRuns(s: System, step: Step)
    requires Enabled(s, step)
    ensures s.clock <= Apply(s, step).clock
  {
  }

  lemma StepKeeps(s: System, step: Step)
    requires Inv(s) && Enabled(s, step)
    ensures Inv(Apply(s, step))
  {
    hide Logs.Inv, Apply, Enabled, Timely, ThreadTimely;
    var s' := Apply(s, step);
    Logs.StepKeeps(s, step);
    DbStaysTimely(s, step);
    ClockRuns(s, step);
    forall id | id in s'.db.ops ensures Timely(s'.clock, s'.db.ops[id]) {
      LaterTimely(s.clock, s'.clock, s'.db.ops[id]);
    }
    forall t ensures ThreadTimely(s'.db, s'.clock, Of(s', t)) {
      if step.Tick? || step.t != t {
        Refusals.OthersLeave(s, step, t);
        OthersTimely(s, step, t);
      } else {
        OwnTimely(s, step);
      }
      LaterThread(s'.db, s.clock, s'.clock, Of(s', t));
    }
  }

  // ---------------------------------------------------------------- runs

  lemma InitOk(s: System)
    requires Init(s)
    ensures Inv(s)
  {
    Logs.InitOk(s);
    assert forall t :: Of(s, t) == Thread(Idle, EMPTY);
  }

  lemma {:induction false} RunKeeps(run: seq<System>, i: nat)
    requires IsRun(run) && i < |run|
    ensures Inv(run[i])
  {
    hide Inv, Enabled, Apply;
    if i == 0 {
      InitOk(run[0]);
    } else {
      RunKeeps(run, i - 1);
      assert Next(run[i - 1], run[i]);
      var step :| Enabled(run[i - 1], step) && run[i] == Apply(run[i - 1], step);
      StepKeeps(run[i - 1], step);
    }
  }

  /** In every state of every run an expired operation took T08 past its approval deadline
      or T11 past its execution deadline: nobody expires early, however stale the row. */
  lemma NobodyExpiresEarly(run: seq<System>, i: nat, id: OpId)
    requires IsRun(run) && i < |run| && id in run[i].db.ops && run[i].db.ops[id].row.state == Expired
    ensures var op := run[i].db.ops[id]; var clock := run[i].clock;
            && |op.log| > 0
            && var last := op.log[|op.log| - 1].transition;
               || (last == T08 && op.row.approvalExpiresAt.Some? && op.row.approvalExpiresAt.value < clock)
               || (last == T11 && op.row.executionDeadline.Some? && op.row.executionDeadline.value < clock)
  {
    hide IsRun, Consistent, Logs.ThreadOk;
    RunKeeps(run, i);
    Dispatch.RunKeeps(run, i);
    Dispatch.CommittedOk(run[i], id);
    LastReaches(run[i].db.ops[id].log);
    assert Timely(run[i].clock, run[i].db.ops[id]);
  }

  lemma LastReaches(log: seq<Event>)
    requires IsPath(log)
    ensures log[|log| - 1].to == ById(log[|log| - 1].transition).to
    ensures log[|log| - 1].to == Expired ==> log[|log| - 1].transition in {T08, T11}
  {
  }
}
