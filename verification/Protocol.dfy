/**
 The operation lifecycle as concurrent requests over one database.

 A thread serves one request at a time inside one transaction. What it reads may be
 stale by the time it writes; what it writes stays in a private overlay, under row
 locks, until it commits. Any thread may crash between any two steps, which drops
 its overlay and releases its locks. The execute handler spans several transactions
 with the external call to n8n between them.
 */
module Protocol {
  import opened Wrappers
  import opened StateMachine
  import opened OperationStore

  type ThreadId = nat

  datatype Request =
    | Get
    | Prepare
    | Listing(rest: seq<Row>)            // a sweep or a listing: rows still to be expired lazily
    | Cancel(who: PrincipalId)
    | Decide(who: PrincipalId, verdict: Verdict)
    | Execute(who: PrincipalId)
    | Record(reported: CallOutcome)

  /** Why a transition is being applied: lazy expiry absorbs a lost race, the
      request's own transition raises it. */
  datatype Goal = Expiry | Main

  datatype Call = Call(t: TransitionId, actor: string, up: Updates, goal: Goal)

  /** Where a thread stands. `row` is the copy of the operation it holds. */
  datatype Pc =
    | Idle
    | Fetched(req: Request, row: Row)              // read, lazy expiry not yet applied
    | Calling(req: Request, row: Row, call: Call)  // in the transition helper, before the update
    | Lost(req: Request, row: Row, call: Call)     // the update matched no row
    | Retrying(req: Request, row: Row, call: Call) // transition still legal on the row read again
    | Settled(req: Request, row: Row)              // lazy expiry resolved
    | Created(row: Row)                            // prepare: Preparing row inserted, T01 logged
    | Burned(who: PrincipalId, row: Row)           // execute: handle burned, limit not yet checked
    | Finished(req: Request, id: OpId, ok: bool)   // body returned or raised; transaction still open
    | Started(id: OpId, who: PrincipalId)          // T10 committed, dispatch not yet entered
    | Ready(id: OpId)                              // dispatch has seen Executing, and its requester
    | Returned(id: OpId, reported: CallOutcome)    // the external call has returned

  datatype Thread = Thread(pc: Pc, tx: Db)

  /** `single`: the database admits one writing transaction at a time (SQLite). `v2`:
      team approval is enabled. `limit`: each workflow's `max_concurrent`. */
  datatype Config = Config(single: bool, v2: bool, limit: WorkflowId -> nat)

  datatype System = System(
    cfg: Config,
    db: Db,                         // committed
    locks: map<OpId, ThreadId>,     // row locks of open transactions
    threads: map<ThreadId, Thread>,
    calls: multiset<OpId>,          // external calls made
    clock: Time)

  function Of(s: System, t: ThreadId): Thread {
    if t in s.threads then s.threads[t] else Thread(Idle, EMPTY)
  }

  /** The database as a transaction sees it: committed data under its own writes. */
  function Visible(db: Db, tx: Db): Db {
    Db(db.ops + tx.ops, db.audit + tx.audit)
  }

  function View(s: System, t: ThreadId): Db {
    Visible(s.db, Of(s, t).tx)
  }

  predicate CanLock(s: System, t: ThreadId, id: OpId) {
    && (id in s.locks ==> s.locks[id] == t)
    && (s.cfg.single ==> forall k | k in s.locks :: s.locks[k] == t)
  }

  // The four shapes every step takes.

  function WithPc(s: System, t: ThreadId, pc: Pc): System {
    s.(threads := s.threads[t := Of(s, t).(pc := pc)])
  }

  function Locking(s: System, t: ThreadId, id: OpId): System {
    s.(locks := s.locks[id := t])
  }

  function WithPut(s: System, t: ThreadId, id: OpId, op: Op, audit: seq<AuditRecord>, pc: Pc): System {
    s.(threads := s.threads[t := Thread(pc, Put(Of(s, t).tx, id, op, audit))], locks := s.locks[id := t])
  }

  function Unlocked(locks: map<OpId, ThreadId>, t: ThreadId): map<OpId, ThreadId> {
    map id | id in locks && locks[id] != t :: locks[id]
  }

  function Closed(s: System, t: ThreadId, db: Db, pc: Pc): System {
    s.(db := db, locks := Unlocked(s.locks, t), threads := s.threads[t := Thread(pc, EMPTY)])
  }

  // ---------------------------------------------------------------- steps

  datatype Step =
    | Tick(now: Time)
    | BeginGet(t: ThreadId, req: Request, id: OpId)
    | BeginListing(t: ThreadId, rows: seq<Row>)
    | BeginPrepare(t: ThreadId, id: OpId, origin: Origin)
    | FinishPrepare(t: ThreadId, call: Call)
    | Settle(t: ThreadId)
    | Update(t: ThreadId)
    | Reread(t: ThreadId)
    | Update2(t: ThreadId)
    | Refuse(t: ThreadId)
    | Proceed(t: ThreadId, deadline: Time)
    | Vote(t: ThreadId, deadline: Time)
    | Burn(t: ThreadId)
    | Count(t: ThreadId)
    | Commit(t: ThreadId)
    | Rollback(t: ThreadId)
    | Crash(t: ThreadId)
    | EnterDispatch(t: ThreadId)
    | ExternalCall(t: ThreadId, reported: CallOutcome)
    | BeginRecord(t: ThreadId)

  /** After the transition helper returned normally with the moved row. */
  function AfterMove(req: Request, row: Row, call: Call): Pc {
    if call.goal == Expiry then Settled(req, row) else Finished(req, row.id, true)
  }

  /** After the transition helper raised InvalidStateTransition: lazy expiry reads
      the row again, the request's own transition lets the error out. */
  function AfterRaise(view: Db, req: Request, row: Row, call: Call): Pc {
    if call.goal == Expiry && row.id in view.ops then Settled(req, view.ops[row.id].row)
    else Finished(req, row.id, false)
  }

  /** The next row of a listing, or the end of it. */
  function NextListed(rest: seq<Row>, id: OpId): Pc {
    if rest == [] then Finished(Listing([]), id, true) else Fetched(Listing(rest[1..]), rest[0])
  }

  /** What a request does with its lazily expired row, when that needs no write of
      its own: cancel, record, the listing's next row, and v1 decisions. */
  function Decision(req: Request, row: Row, deadline: Time): Pc {
    match req
    case Get => Finished(req, row.id, true)
    case Prepare => Finished(req, row.id, true)
    case Listing(rest) => NextListed(rest, row.id)
    case Cancel(who) =>
      if row.state == PendingApproval then Calling(req, row, Call(T09, who, NO_UPDATES, Main))
      else if row.state == Approved then Calling(req, row, Call(T12, who, NO_UPDATES, Main))
      else Finished(req, row.id, false)
    case Decide(who, v) =>
      DecisionCall(req, row, who, v, deadline)
    case Execute(who) =>
      // Reached only when a check before the burn refuses; see Burn for the rest.
      Finished(req, row.id, false)
    case Record(o) =>
      if row.state == Executing then Calling(req, row, Call(OutcomeTransition(o), "system", NO_UPDATES, Main))
      else Finished(req, row.id, false)
  }

  function DecisionCall(req: Request, row: Row, who: PrincipalId, v: Verdict, deadline: Time): Pc {
    if v == ApproveIt then Calling(req, row, Call(T06, who, Updates(None, Some(deadline), None), Main))
    else Calling(req, row, Call(T07, who, NO_UPDATES, Main))
  }

  /** Team approval governs this decision. */
  predicate ByQuorum(cfg: Config, row: Row) {
    cfg.v2 && row.policy.Some?
  }

  /** The transitions that take a prepared operation out of Preparing. */
  ghost predicate PrepareCall(cfg: Config, origin: Origin, call: Call) {
    && call.goal == Main && call.actor == "system"
    && (call.t == T02 || call.t == T03 || call.t == T04 || call.t == T05)
    && (call.up.policy.Some? <==> (call.t == T04 && cfg.v2))
    && (call.up.policy.Some? ==> PolicyOk(call.up.policy.value, origin.principal))
  }

  /** What the eligible-approver computation guarantees of a frozen policy
      (module Authorization), and the registry schema of its quorum. */
  ghost predicate PolicyOk(p: Policy, requester: PrincipalId) {
    && p.quorum >= 1
    && requester !in p.eligible
  }

  /** The operation a thread works on exists (module ProtocolLogs proves it does). */
  predicate Present(s: System, t: ThreadId)
    requires var pc := Of(s, t).pc; pc.Calling? || pc.Lost? || pc.Retrying? || pc.Settled?
  {
    Of(s, t).pc.row.id in View(s, t).ops
  }

  ghost predicate Enabled(s: System, step: Step) {
    match step
    case Tick(now) => s.clock <= now
    case BeginGet(t, req, id) =>
      && Of(s, t).pc.Idle? && id in s.db.ops
      && (req.Get? || req.Cancel? || req.Decide? || req.Execute?)
      && (req.Decide? ==> CanLock(s, t, id))
    case BeginListing(t, rows) =>
      && Of(s, t).pc.Idle? && rows != []
      && forall i | 0 <= i < |rows| :: rows[i].id in s.db.ops && rows[i] == s.db.ops[rows[i].id].row
    case BeginPrepare(t, id, origin) =>
      Of(s, t).pc.Idle? && id !in View(s, t).ops && CanLock(s, t, id)
    case FinishPrepare(t, call) =>
      Of(s, t).pc.Created? && PrepareCall(s.cfg, Of(s, t).pc.row.origin, call)
    case Settle(t) => Of(s, t).pc.Fetched?
    case Update(t) => Of(s, t).pc.Calling? && Present(s, t) && CanLock(s, t, Of(s, t).pc.row.id)
    case Reread(t) => Of(s, t).pc.Lost? && Present(s, t)
    case Update2(t) => Of(s, t).pc.Retrying? && Present(s, t) && CanLock(s, t, Of(s, t).pc.row.id)
    case Refuse(t) => Of(s, t).pc.Settled? && !Of(s, t).pc.req.Listing?
    case Proceed(t, deadline) =>
      && Of(s, t).pc.Settled? && !Of(s, t).pc.req.Execute?
      && !(Of(s, t).pc.req.Decide? && ByQuorum(s.cfg, Of(s, t).pc.row))
    case Vote(t, deadline) =>
      && Of(s, t).pc.Settled? && Of(s, t).pc.req.Decide? && ByQuorum(s.cfg, Of(s, t).pc.row)
      && Present(s, t) && CanLock(s, t, Of(s, t).pc.row.id)
    case Burn(t) =>
      && Of(s, t).pc.Settled? && Of(s, t).pc.req.Execute?
      && Present(s, t) && CanLock(s, t, Of(s, t).pc.row.id)
    case Count(t) => Of(s, t).pc.Burned?
    case Commit(t) =>
      // A raised error is committed only by a handler that catches it inside the
      // session scope; the decision channels and prepare let it out.
      && Of(s, t).pc.Finished?
      && (!Of(s, t).pc.ok ==> !Of(s, t).pc.req.Decide? && !Of(s, t).pc.req.Prepare?)
    case Rollback(t) => Of(s, t).pc.Finished? && !Of(s, t).pc.ok
    case Crash(t) => true
    case EnterDispatch(t) => Of(s, t).pc.Started? && Of(s, t).pc.id in s.db.ops
    case ExternalCall(t, o) => Of(s, t).pc.Ready?
    case BeginRecord(t) => Of(s, t).pc.Returned? && Of(s, t).pc.id in s.db.ops
  }

  /** The transition helper's first update: validate against the held row, then
      compare-and-set under the row lock. */
  function Updated(s: System, t: ThreadId, req: Request, row: Row, call: Call): System
    requires row.id in View(s, t).ops
  {
    if ValidateTransition(call.t, Some(row.state)).Failure? then
      WithPc(s, t, AfterRaise(View(s, t), req, row, call))
    else
      match Move(View(s, t).ops[row.id], row, call.t, call.actor, call.up)
      case None => WithPc(s, t, Lost(req, row, call))
      case Some(op) => Moved(s, t, req, row.id, call, op)
  }

  function Moved(s: System, t: ThreadId, req: Request, id: OpId, call: Call, op: Op): System {
    WithPut(s, t, id, op, [MoveAudit(id, call.t, call.actor)], AfterMove(req, op.row, call))
  }

  /** A quorum decision: membership of the frozen list, one verdict per principal,
      record the verdict, then tally. */
  function Voted(s: System, t: ThreadId, req: Request, row: Row, deadline: Time): System
    requires req.Decide? && row.policy.Some? && row.id in View(s, t).ops
  {
    var op := View(s, t).ops[row.id];
    if req.who == row.origin.principal || req.who !in row.policy.value.eligible || req.who in op.votes then
      WithPc(s, t, Finished(req, row.id, false))
    else
      var voted := RecordVote(op, req.who, req.verdict);
      if req.verdict == ApproveIt && |Voters(voted, ApproveIt)| < row.policy.value.quorum then
        WithPut(s, t, row.id, voted, [], Finished(req, row.id, true))
      else
        WithPut(s, t, row.id, voted, [], DecisionCall(req, row, req.who, req.verdict, deadline))
  }

  /** Execute up to the burn: the checks on the held row, then burn the handle. */
  function BurnStep(s: System, t: ThreadId, req: Request, row: Row): System
    requires req.Execute? && row.id in View(s, t).ops
  {
    if row.burned || row.state != Approved then WithPc(s, t, Finished(req, row.id, false))
    else
      match BurnHandle(View(s, t).ops[row.id])
      case None => WithPc(s, t, Finished(req, row.id, false))
      case Some(op) => WithPut(s, t, row.id, op, [], Burned(req.who, row))
  }

  /** Lazy expiry, first thing after a row is read. */
  function SettledPc(pc: Pc, now: Time): Pc
    requires pc.Fetched?
  {
    match OverdueExpiry(pc.row.state, now, pc.row.approvalExpiresAt, pc.row.executionDeadline)
    case None => Settled(pc.req, pc.row)
    case Some(x) => Calling(pc.req, pc.row, Call(x, "clock", NO_UPDATES, Expiry))
  }

  /** After a lost update the current row is read again and the transition validated
      against its state. */
  function RereadPc(view: Db, pc: Pc): Pc
    requires pc.Lost? && pc.row.id in view.ops
  {
    var current := view.ops[pc.row.id].row;
    if ValidateTransition(pc.call.t, Some(current.state)).Failure? then AfterRaise(view, pc.req, pc.row, pc.call)
    else Retrying(pc.req, current, pc.call)
  }

  /** The concurrency check, after the burn. */
  function CountedPc(view: Db, limit: WorkflowId -> nat, pc: Pc): Pc
    requires pc.Burned?
  {
    if |ExecutingIn(view, pc.row.origin.workflow)| >= limit(pc.row.origin.workflow) then
      Finished(Execute(pc.who), pc.row.id, false)
    else Calling(Execute(pc.who), pc.row, Call(T10, pc.who, NO_UPDATES, Main))
  }

  function Retried(s: System, t: ThreadId, pc: Pc): System
    requires pc.Retrying? && pc.row.id in View(s, t).ops
  {
    match Move(View(s, t).ops[pc.row.id], pc.row, pc.call.t, pc.call.actor, pc.call.up)
    case None => WithPc(s, t, Finished(pc.req, pc.row.id, false))
    case Some(op) => Moved(s, t, pc.req, pc.row.id, pc.call, op)
  }

  function Inserted(s: System, t: ThreadId, id: OpId, origin: Origin): System {
    WithPut(s, t, id, NewOperation(id, origin), [AuditOf(id, CreationEvent(origin))],
        Created(NewOperation(id, origin).row))
  }

  /** A committed execute goes on to dispatch; every other thread is done. */
  function AfterCommit(pc: Pc): Pc
    requires pc.Finished?
  {
    if pc.req.Execute? && pc.ok then Started(pc.id, pc.req.who) else Idle
  }

  /** Dispatch reads the row anew, as its owner, without team visibility: whoever did not
      request the operation is refused there, after T10. */
  function Entered(row: Row, pc: Pc): Pc
    requires pc.Started?
  {
    if row.origin.principal == pc.who && row.state == Executing then Ready(pc.id) else Idle
  }

  function Apply(s: System, step: Step): System
    requires Enabled(s, step)
  {
    match step
    case Tick(now) => s.(clock := now)
    case BeginGet(t, req, id) =>
      WithPc(if req.Decide? then Locking(s, t, id) else s, t, Fetched(req, s.db.ops[id].row))
    case BeginListing(t, rows) => WithPc(s, t, Fetched(Listing(rows[1..]), rows[0]))
    case BeginPrepare(t, id, origin) => Inserted(s, t, id, origin)
    case FinishPrepare(t, call) => WithPc(s, t, Calling(Prepare, Of(s, t).pc.row, call))
    case Settle(t) => WithPc(s, t, SettledPc(Of(s, t).pc, s.clock))
    case Update(t) => Updated(s, t, Of(s, t).pc.req, Of(s, t).pc.row, Of(s, t).pc.call)
    case Reread(t) => WithPc(s, t, RereadPc(View(s, t), Of(s, t).pc))
    case Update2(t) => Retried(s, t, Of(s, t).pc)
    case Refuse(t) => WithPc(s, t, Finished(Of(s, t).pc.req, Of(s, t).pc.row.id, false))
    case Proceed(t, deadline) => WithPc(s, t, Decision(Of(s, t).pc.req, Of(s, t).pc.row, deadline))
    case Vote(t, deadline) => Voted(s, t, Of(s, t).pc.req, Of(s, t).pc.row, deadline)
    case Burn(t) => BurnStep(s, t, Of(s, t).pc.req, Of(s, t).pc.row)
    case Count(t) => WithPc(s, t, CountedPc(View(s, t), s.cfg.limit, Of(s, t).pc))
    case Commit(t) =>
      Closed(s, t, View(s, t), AfterCommit(Of(s, t).pc))
    case Rollback(t) => Closed(s, t, s.db, Idle)
    case Crash(t) => Closed(s, t, s.db, Idle)
    case EnterDispatch(t) => WithPc(s, t, Entered(s.db.ops[Of(s, t).pc.id].row, Of(s, t).pc))
    case ExternalCall(t, o) => Called(s, t, Of(s, t).pc.id, o)
    case BeginRecord(t) => WithPc(s, t, Fetched(Record(Of(s, t).pc.reported), s.db.ops[Of(s, t).pc.id].row))
  }

  /** The one external side effect. */
  function Called(s: System, t: ThreadId, id: OpId, o: CallOutcome): System {
    WithPc(s, t, Returned(id, o)).(calls := s.calls + multiset{id})
  }

  // ---------------------------------------------------------------- runs

  ghost predicate Init(s: System) {
    s.db == EMPTY && s.locks == map[] && s.threads == map[] && s.calls == multiset{}
  }

  ghost predicate Next(s: System, s': System) {
    exists step :: Enabled(s, step) && s' == Apply(s, step)
  }

  /** The states a run passes through, starting from an empty database. */
  ghost predicate IsRun(run: seq<System>) {
    && |run| > 0
    && Init(run[0])
    && forall i | 0 <= i < |run| - 1 :: Next(run[i], run[i + 1])
  }
}
