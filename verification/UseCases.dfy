/**
 What each use case of the operation lifecycle does to the database, one request at a
 time: the specification the imperative service is proved against, and what the
 serial properties (sweeps, rate limit, retry lineage) are proved about.
 */
module UseCases {
  import opened Wrappers
  import opened StateMachine
  import opened OperationStore
  import Text

  const RATE_WINDOW: Time := 60
  const MAX_RETRY_CHAIN_DEPTH: nat := 10

  /** The resolved registry entry of a workflow, as far as the lifecycle reads it.
      `eligible` is what the approver computation gives for this requester. */
  datatype Entry = Entry(
    rateLimit: Option<nat>,
    maxConcurrent: nat,
    needsApproval: bool,
    quorum: nat,
    eligible: seq<PrincipalId>,
    approvalTtl: nat,
    executionTtl: nat)

  /** What the size check, the JSON Schema validator and preflight answer. */
  datatype Checks = Checks(sizeOk: bool, valid: bool, ready: bool)

  /** What execute finds out about the live workflow before it burns the handle. */
  datatype Live = LiveOk | Drifted | NotReady

  datatype Act =
    | Get(who: PrincipalId, visible: bool)
    | Approve(who: PrincipalId, allowed: bool, executionTtl: nat)
    | Reject(who: PrincipalId, allowed: bool)
    | Cancel(who: PrincipalId, visible: bool)
    | Execute(who: PrincipalId, visible: bool, handle: OpId, sameEnvironment: bool, live: Live, maxConcurrent: nat)
    | Record(reported: CallOutcome)

  /** What prepare and retry are given besides the workflow and its arguments. */
  datatype Submission = Submission(
    handle: OpId, who: PrincipalId, environment: string, key: Option<string>, stamp: Time, entry: Entry, checks: Checks)

  datatype Request =
    | OnOne(id: OpId, act: Act)
    | Prepare(sub: Submission, workflow: WorkflowId, arguments: string)
    | Retry(parent: OpId, visible: bool, sub: Submission)

  datatype Reply = Reply(row: Row, replayed: bool)

  /** What one operation becomes, what is audited about it, and the answer. */
  datatype Effect = Effect(op: Op, audit: seq<AuditRecord>, result: Result<Reply>)

  /** `base` is what a rollback returns to; `db` what a commit keeps. */
  datatype Outcome = Outcome(db: Db, base: Db, result: Result<Reply>)

  // ---------------------------------------------------------------- one operation

  /** A transition on an operation read in this transaction, with its audit entry. */
  function Moving(op: Op, t: TransitionId, actor: string, up: Updates): Effect {
    if ValidateTransition(t, Some(op.row.state)).Failure? then Effect(op, [], Failure(InvalidStateTransition))
    else
      var moved := Move(op, op.row, t, actor, up).value;
      Effect(moved, [MoveAudit(op.row.id, t, actor)], Success(Reply(moved.row, false)))
  }

  predicate Overdue(row: Row, now: Time) {
    OverdueExpiry(row.state, now, row.approvalExpiresAt, row.executionDeadline).Some?
  }

  /** Lazy expiry: T08 or T11 first, when the deadline has passed. */
  function Expiry(op: Op, now: Time): Effect {
    match OverdueExpiry(op.row.state, now, op.row.approvalExpiresAt, op.row.executionDeadline)
    case None => Effect(op, [], Success(Reply(op.row, false)))
    case Some(x) => Moving(op, x, "clock", NO_UPDATES)
  }

  /** An operation as every read shows it at `now`. */
  function LazyOp(op: Op, now: Time): Op {
    Expiry(op, now).op
  }

  function Refusal(op: Op, e: Error): Effect {
    Effect(op, [], Failure(e))
  }

  predicate Sees(op: Op, who: PrincipalId, visible: bool, v2: bool) {
    op.row.origin.principal == who || (v2 && visible)
  }

  function Approving(op: Op, who: PrincipalId, now: Time, ttl: nat): Effect {
    Moving(op, T06, who, Updates(None, Some(now + ttl), None))
  }

  /** A decision under a frozen policy: record the verdict, then tally. */
  function Voting(op: Op, who: PrincipalId, v: Verdict, now: Time, ttl: nat): Effect
    requires op.row.policy.Some?
  {
    if who == op.row.origin.principal || who !in op.row.policy.value.eligible then Refusal(op, OperationNotFound)
    else if who in op.votes then Refusal(op, ApprovalAlreadyDecided)
    else
      var voted := RecordVote(op, who, v);
      if v == RejectIt then Moving(voted, T07, who, NO_UPDATES)
      else if |Voters(voted, ApproveIt)| < op.row.policy.value.quorum then
        Effect(voted, [], Success(Reply(voted.row, false)))
      else Approving(voted, who, now, ttl)
  }

  /** Why execute stops before the burn, if it does: its checks, in order. */
  function BarredBy(row: Row, sameEnvironment: bool, live: Live, v2: bool): Option<Error> {
    if !v2 && !sameEnvironment then Some(OperationNotFound)
    else if row.burned then Some(HandleAlreadyUsed)
    else if row.state == PendingApproval then Some(ApprovalRequired)
    else if row.state == Expired then Some(OperationExpired)
    else if row.state == Canceled then Some(OperationCanceled)
    else if row.state != Approved then Some(HandleInvalid)
    else if live == Drifted then Some(DefinitionDrift)
    else if live == NotReady then Some(PreflightFailed)
    else None
  }

  /** Execute: the checks, then the burn, the count, and T10. */
  function Executing(
    op: Op, running: nat, sameEnvironment: bool, live: Live, maxConcurrent: nat, who: PrincipalId, v2: bool
  ): Effect {
    match BarredBy(op.row, sameEnvironment, live, v2)
    case Some(e) => Refusal(op, e)
    case None =>
      var burnt := BurnHandle(op).value;
      if running >= maxConcurrent then Refusal(burnt, ConcurrencyLimitReached)
      else Moving(burnt, T10, who, NO_UPDATES)
  }

  /** One request on one operation, lazily expired already; `running` is how many
      operations of its workflow are executing. */
  function Acting(op: Op, running: nat, now: Time, v2: bool, act: Act): Effect {
    match act
    case Get(who, visible) =>
      if Sees(op, who, visible, v2) then Effect(op, [], Success(Reply(op.row, false)))
          else Refusal(op, OperationNotFound)
    case Approve(who, allowed, ttl) =>
      if v2 && op.row.policy.Some? then Voting(op, who, ApproveIt, now, ttl)
      else if v2 && !allowed then Refusal(op, OperationNotFound)
      else Approving(op, who, now, ttl)
    case Reject(who, allowed) =>
      if v2 && op.row.policy.Some? then Voting(op, who, RejectIt, now, 0)
      else if v2 && !allowed then Refusal(op, OperationNotFound)
      else Moving(op, T07, who, NO_UPDATES)
    case Cancel(who, visible) =>
      if !Sees(op, who, visible, v2) then Refusal(op, OperationNotFound)
      else if op.row.state == PendingApproval then Moving(op, T09, who, NO_UPDATES)
      else if op.row.state == Approved then Moving(op, T12, who, NO_UPDATES)
      else Refusal(op, InvalidStateTransition)
    case Execute(who, visible, _, sameEnvironment, live, maxConcurrent) =>
      if !Sees(op, who, visible, v2) then Refusal(op, OperationNotFound)
      else Executing(op, running, sameEnvironment, live, maxConcurrent, who, v2)
    case Record(o) =>
      if op.row.state != State.Executing then Refusal(op, InvalidStateTransition)
      else Moving(op, OutcomeTransition(o), "system", NO_UPDATES)
  }

  /** A new operation, from T01 to where its checks send it. */
  function Intake(handle: OpId, origin: Origin, entry: Entry, checks: Checks, now: Time, v2: bool): Effect {
    var op := NewOperation(handle, origin);
    var next :=
      if !checks.valid then Moving(op, T02, "system", NO_UPDATES)
      else if !checks.ready then Moving(op, T03, "system", NO_UPDATES)
      else if !entry.needsApproval then Moving(op, T05, "system", Updates(None, Some(now + entry.executionTtl), None))
      else
        Moving(op, T04, "system",
               Updates(Some(now + entry.approvalTtl), None,
                       if v2 then Some(Policy(entry.quorum, entry.eligible)) else None));
    next.(audit := [AuditOf(handle, CreationEvent(origin))] + next.audit)
  }

  lemma IntakeRow(handle: OpId, origin: Origin, entry: Entry, checks: Checks, now: Time, v2: bool)
    ensures Intake(handle, origin, entry, checks, now, v2).op.row.origin == origin
    ensures Intake(handle, origin, entry, checks, now, v2).op.row.id == handle
  {
  }

  // ---------------------------------------------------------------- the database

  function PutEffect(db: Db, id: OpId, e: Effect): Db {
    Put(db, id, e.op, e.audit)
  }

  function Expire(db: Db, now: Time, id: OpId): Db
    requires id in db.ops
  {
    PutEffect(db, id, Expiry(db.ops[id], now))
  }

  /** Lazy expiry of the rows a sweep found, in the order it found them. */
  function ExpireAll(db: Db, now: Time, ids: seq<OpId>): (after: Db)
    requires forall i | 0 <= i < |ids| :: ids[i] in db.ops
    ensures after.ops.Keys == db.ops.Keys
  {
    if ids == [] then db else Expire(ExpireAll(db, now, ids[..|ids| - 1]), now, ids[|ids| - 1])
  }

  /** The operations of a workflow created at or after `since`. */
  function RecentIn(db: Db, w: WorkflowId, since: Time): set<OpId> {
    set id | id in db.ops && db.ops[id].row.origin.workflow == w && db.ops[id].row.origin.createdAt >= since
  }

  /** `id` holds the idempotency slot that `origin` names. */
  predicate HoldsKey(db: Db, id: OpId, origin: Origin) {
    && id in db.ops
    && origin.idempotencyKey.Some?
    && var held := db.ops[id].row.origin;
       && held.idempotencyKey == origin.idempotencyKey
       && held.principal == origin.principal
       && held.environment == origin.environment
       && held.workflow == origin.workflow
  }

  ghost function FindKey(db: Db, origin: Origin): Option<OpId> {
    if exists id :: HoldsKey(db, id, origin) then
      var id :| HoldsKey(db, id, origin);
      Some(id)
    else None
  }

  lemma FoundKey(db: Db, origin: Origin)
    requires FindKey(db, origin).Some?
    ensures HoldsKey(db, FindKey(db, origin).value, origin) && FindKey(db, origin).value in db.ops
  {
  }

  function Denying(db: Db, origin: Origin, e: Error): Outcome {
    var audited := Db(db.ops, db.audit + [AuditRecord(origin.principal, Annotation("operation.prepare_denied"),
                                                      OnWorkflow(origin.workflow), Denied)]);
    Outcome(audited, audited, Failure(e))
  }

  /** The shared body of prepare and retry. `base` is the last commit. */
  ghost function Submit(
    db: Db, base: Db, now: Time, v2: bool, handle: OpId, origin: Origin, entry: Entry, checks: Checks
  ): Outcome {
    if !checks.sizeOk then Denying(db, origin, ArgumentsTooLarge)
    else if entry.rateLimit.Some? && |RecentIn(db, origin.workflow, now - RATE_WINDOW)| >= entry.rateLimit.value then
      Denying(db, origin, RateLimited)
    else
      match FindKey(db, origin)
      case Some(id) =>
        if db.ops[id].row.origin.arguments != origin.arguments then Outcome(db, base, Failure(IdempotencyConflict))
        else
          var seen := Expire(db, now, id);
          Outcome(seen, base, Success(Reply(seen.ops[id].row, true)))
      case None =>
        if handle in db.ops then Outcome(db, base, Failure(IntegrityViolation))
        else
          var e := Intake(handle, origin, entry, checks, now, v2);
          Outcome(PutEffect(db, handle, e), base, e.result)
  }

  /** The `k`-th ancestor of `id` in the retry lineage. */
  function AncestorAt(db: Db, id: OpId, k: nat): Option<OpId> {
    if k == 0 then Some(id)
    else
      match AncestorAt(db, id, k - 1)
      case None => None
      case Some(a) => if a in db.ops then db.ops[a].row.origin.parent else None
  }

  predicate Retryable(s: State) {
    s == Failed || s == Unknown || s == Blocked || s == Expired || s == Rejected
  }

  /** A retry's key carries its parent. */
  function RetryKey(parent: OpId, key: Option<string>): Option<string> {
    match key
    case None => None
    case Some(k) => Some("retry:" + Text.Decimal(parent) + ":" + k)
  }

  function RetryOrigin(parent: Row, sub: Submission): Origin {
    Origin(sub.who, sub.environment, parent.origin.workflow, RetryKey(parent.id, sub.key),
           parent.origin.arguments, Some(parent.id), sub.stamp)
  }

  function PrepareOrigin(sub: Submission, workflow: WorkflowId, arguments: string): Origin {
    Origin(sub.who, sub.environment, workflow, sub.key, arguments, None, sub.stamp)
  }

  ghost function Retrying(db: Db, base: Db, now: Time, v2: bool, parent: Op, visible: bool, sub: Submission): Outcome {
    if !Sees(parent, sub.who, visible, v2) then Outcome(db, base, Failure(OperationNotFound))
    else if !Retryable(parent.row.state) then Outcome(db, base, Failure(RetryNotApplicable))
    else if AncestorAt(db, parent.row.id, MAX_RETRY_CHAIN_DEPTH).Some? then
        Outcome(db, base, Failure(RetryNotApplicable))
    else Submit(db, base, now, v2, sub.handle, RetryOrigin(parent.row, sub), sub.entry, sub.checks)
  }

  /** Execute names the operation twice; the two must agree before anything is read. */
  predicate Mismatched(id: OpId, act: Act) {
    act.Execute? && act.handle != id
  }

  /** One request in one transaction. */
  ghost function Perform(db: Db, now: Time, v2: bool, request: Request): Outcome {
    match request
    case OnOne(id, act) =>
      if Mismatched(id, act) then Outcome(db, db, Failure(ArgumentMismatch))
      else if id !in db.ops then Outcome(db, db, Failure(OperationNotFound))
      else
        var seen := Expire(db, now, id);
        var op := seen.ops[id];
        var e := Acting(op, |ExecutingIn(seen, op.row.origin.workflow)|, now, v2, act);
        Outcome(PutEffect(seen, id, e), db, e.result)
    case Prepare(sub, workflow, arguments) =>
      Submit(db, db, now, v2, sub.handle, PrepareOrigin(sub, workflow, arguments), sub.entry, sub.checks)
    case Retry(parent, visible, sub) =>
      if parent !in db.ops then Outcome(db, db, Failure(OperationNotFound))
      else
        var seen := Expire(db, now, parent);
        Retrying(seen, db, now, v2, seen.ops[parent], visible, sub)
  }

  /** What the session scope leaves behind: a raised error rolls back unless the
      caller catches it inside the scope. */
  function Scoped(o: Outcome, caught: bool): Db {
    if o.result.Failure? && !caught then o.base else o.db
  }

  // ---------------------------------------------------------------- runs

  datatype Timed =
    | Do(now: Time, request: Request, caught: bool)
    | Sweep(now: Time, ids: seq<OpId>)

  ghost predicate Possible(db: Db, step: Timed) {
    step.Sweep? ==> forall i | 0 <= i < |step.ids| :: step.ids[i] in db.ops
  }

  ghost function After(db: Db, v2: bool, step: Timed): Db
    requires Possible(db, step)
  {
    match step
    case Do(now, request, caught) => Scoped(Perform(db, now, v2, request), caught)
    case Sweep(now, ids) => ExpireAll(db, now, ids)
  }

  /** The databases a serial history passes through, from an empty one. */
  ghost predicate IsHistory(dbs: seq<Db>, steps: seq<Timed>, v2: bool) {
    && |dbs| == |steps| + 1
    && dbs[0] == EMPTY
    && forall i | 0 <= i < |steps| :: Possible(dbs[i], steps[i]) && dbs[i + 1] == After(dbs[i], v2, steps[i])
  }
}
