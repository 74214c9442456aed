/**
 What a prepare or a retry answers and leaves, in columns, events and audit entries; and
 that an operation submitted for approval starts only once it was approved.
 */
module Submissions {
  import opened Wrappers
  import opened StateMachine
  import opened OperationStore
  import opened UseCases
  import opened Histories
  import Acts
  import Deadlines
  import Text

  // ---------------------------------------------------------------- the new operation

  /** Where the checks send a new operation, and by which transition. */
  predicate SentTo(s: State, t: TransitionId, entry: Entry, checks: Checks) {
    && (s == Invalid <==> !checks.valid)
    && (s == Blocked <==> checks.valid && !checks.ready)
    && (s == PendingApproval <==> checks.valid && checks.ready && entry.needsApproval)
    && (s == Approved <==> checks.valid && checks.ready && !entry.needsApproval)
    && (s == Invalid <==> t == T02) && (s == Blocked <==> t == T03)
    && (s == PendingApproval <==> t == T04) && (s == Approved <==> t == T05)
  }

  /** The columns of a new operation, its two events, no votes. */
  ghost predicate IsNew(op: Op, handle: OpId, origin: Origin, entry: Entry, checks: Checks, now: Time, v2: bool) {
    exists t: TransitionId ::
      && SentTo(op.row.state, t, entry, checks)
      && op.log == [Event(None, Preparing, T01, origin.principal), Event(Some(Preparing), op.row.state, t, "system")]
      && op.votes == map[]
      && var waits, runs := op.row.state == PendingApproval, op.row.state == Approved;
         op.row == Row(handle, origin, op.row.state, 2, false,
                       if waits then Some(now + entry.approvalTtl) else None,
                       if runs then Some(now + entry.executionTtl) else None,
                       if waits && v2 then Some(Policy(entry.quorum, entry.eligible)) else None)
  }

  /** The two audit entries of a creation. */
  predicate IsAudited(audit: seq<AuditRecord>, handle: OpId, origin: Origin, s: State) {
    && |audit| == 2
    && audit[0] == AuditRecord(origin.principal, OperationPrepared, OnOperation(handle), AuditOutcome.Allowed)
    && audit[1].actor == "system" && audit[1].subject == OnOperation(handle)
    && (s == Invalid ==> audit[1].action == OperationInvalid && audit[1].outcome == Denied)
    && (s == Blocked ==> audit[1].action == OperationBlocked && audit[1].outcome == Denied)
    && (s == PendingApproval ==> audit[1].action == OperationPendingApproval
                                 && audit[1].outcome == AuditOutcome.Allowed)
    && (s == Approved ==> audit[1].action == OperationAutoApproved && audit[1].outcome == AuditOutcome.Allowed)
  }

  lemma IntakeIsNew(handle: OpId, origin: Origin, entry: Entry, checks: Checks, now: Time, v2: bool)
    ensures var e := Intake(handle, origin, entry, checks, now, v2);
            && IsNew(e.op, handle, origin, entry, checks, now, v2)
            && IsAudited(e.audit, handle, origin, e.op.row.state)
            && e.result == Success(Reply(e.op.row, false))
  {
    var e := Intake(handle, origin, entry, checks, now, v2);
    assert SentTo(e.op.row.state, e.op.log[1].transition, entry, checks);
  }

  // ---------------------------------------------------------------- one submission

  /** Two submissions name the same idempotency slot. */
  predicate SameSlot(a: Origin, b: Origin) {
    && a.idempotencyKey.Some? && a.idempotencyKey == b.idempotencyKey
    && a.principal == b.principal && a.environment == b.environment && a.workflow == b.workflow
  }

  predicate Holder(db: Db, id: OpId, origin: Origin) {
    id in db.ops && SameSlot(db.ops[id].row.origin, origin)
  }

  /** The operations of the workflow created in the last sixty seconds. */
  function LastMinute(db: Db, w: WorkflowId, now: Time): set<OpId> {
    set id | id in db.ops && db.ops[id].row.origin.workflow == w && db.ops[id].row.origin.createdAt >= now - 60
  }

  predicate OverLimit(db: Db, w: WorkflowId, now: Time, entry: Entry) {
    entry.rateLimit.Some? && |LastMinute(db, w, now)| >= entry.rateLimit.value
  }

  /** Refused before anything is stored, with an audit entry that no rollback undoes. */
  predicate Denies(db: Db, origin: Origin, o: Outcome, e: Error) {
    && o.result == Failure(e) && o.base == o.db && o.db.ops == db.ops
    && o.db.audit == db.audit + [AuditRecord(origin.principal, Annotation("operation.prepare_denied"),
                                             OnWorkflow(origin.workflow), Denied)]
  }

  ghost predicate Creates(db: Db, base: Db, now: Time, v2: bool, sub: Submission, origin: Origin, o: Outcome) {
    && o.base == base
    && o.db.ops.Keys == db.ops.Keys + {sub.handle}
    && (forall id | id in db.ops :: o.db.ops[id] == db.ops[id])
    && IsNew(o.db.ops[sub.handle], sub.handle, origin, sub.entry, sub.checks, now, v2)
    && o.result == Success(Reply(o.db.ops[sub.handle].row, false))
    && |o.db.audit| == |db.audit| + 2 && db.audit <= o.db.audit
    && IsAudited(o.db.audit[|db.audit|..], sub.handle, origin, o.db.ops[sub.handle].row.state)
  }

  /** Answered with the operation that holds the slot, as a read shows it; or a conflict
      when that was given other arguments. */
  ghost predicate AnswersWith(db: Db, base: Db, now: Time, id: OpId, origin: Origin, o: Outcome)
    requires id in db.ops
  {
    if db.ops[id].row.origin.arguments == origin.arguments then
      && o.base == base && o.db.ops == db.ops[id := Acts.Shown(db.ops[id], now)]
      && o.result == Success(Reply(Acts.Shown(db.ops[id], now).row, true))
    else o == Outcome(db, base, Failure(IdempotencyConflict))
  }

  /** What becomes of a submission: size, rate, slot, handle, creation, in this order. */
  ghost predicate Submitted(db: Db, base: Db, now: Time, v2: bool, sub: Submission, origin: Origin, o: Outcome) {
    var passes := sub.checks.sizeOk && !OverLimit(db, origin.workflow, now, sub.entry);
    && (!sub.checks.sizeOk ==> Denies(db, origin, o, ArgumentsTooLarge))
    && (sub.checks.sizeOk && OverLimit(db, origin.workflow, now, sub.entry) ==> Denies(db, origin, o, RateLimited))
    && (passes && (exists id :: Holder(db, id, origin)) ==>
          exists id :: Holder(db, id, origin) && AnswersWith(db, base, now, id, origin, o))
    && (passes && !(exists id :: Holder(db, id, origin)) ==>
          if sub.handle in db.ops then o == Outcome(db, base, Failure(IntegrityViolation))
          else Creates(db, base, now, v2, sub, origin, o))
  }

  lemma SlotIsHeld(db: Db, origin: Origin)
    ensures (exists id :: Holder(db, id, origin)) <==> FindKey(db, origin).Some?
    ensures FindKey(db, origin).Some? ==> Holder(db, FindKey(db, origin).value, origin)
  {
    if id :| Holder(db, id, origin) { assert HoldsKey(db, id, origin); }
    if FindKey(db, origin).Some? {
      FoundKey(db, origin);
      assert Holder(db, FindKey(db, origin).value, origin);
    }
  }

  lemma CreatesIs(db: Db, base: Db, now: Time, v2: bool, sub: Submission, origin: Origin)
    requires sub.handle !in db.ops
    ensures var e := Intake(sub.handle, origin, sub.entry, sub.checks, now, v2);
            Creates(db, base, now, v2, sub, origin, Outcome(PutEffect(db, sub.handle, e), base, e.result))
  {
    hide Intake, IsNew;
    IntakeIsNew(sub.handle, origin, sub.entry, sub.checks, now, v2);
    var e := Intake(sub.handle, origin, sub.entry, sub.checks, now, v2);
    assert (db.audit + e.audit)[|db.audit|..] == e.audit;
  }

  lemma SubmitIs(db: Db, base: Db, now: Time, v2: bool, sub: Submission, origin: Origin)
    ensures Submitted(db, base, now, v2, sub, origin,
                      Submit(db, base, now, v2, sub.handle, origin, sub.entry, sub.checks))
  {
    hide Intake, FindKey, Holder, Creates, Expiry, Acts.Shown;
    var o := Submit(db, base, now, v2, sub.handle, origin, sub.entry, sub.checks);
    assert RecentIn(db, origin.workflow, now - RATE_WINDOW) == LastMinute(db, origin.workflow, now);
    SlotIsHeld(db, origin);
    if FindKey(db, origin).Some? {
      var id := FindKey(db, origin).value;
      FoundKey(db, origin);
      ShownIs(db, now, id);
      assert sub.checks.sizeOk && !OverLimit(db, origin.workflow, now, sub.entry) ==>
          AnswersWith(db, base, now, id, origin, o);
    } else if sub.handle !in db.ops {
      CreatesIs(db, base, now, v2, sub, origin);
    }
  }

  lemma ShownIs(db: Db, now: Time, id: OpId)
    requires id in db.ops
    ensures Expire(db, now, id).ops == db.ops[id := Acts.Shown(db.ops[id], now)]
  {
    Deadlines.LazyIff(db.ops[id], now);
    Deadlines.Seen(db, now, id);
  }

  /** A prepare, from the request alone. */
  lemma PrepareIs(db: Db, now: Time, v2: bool, sub: Submission, w: WorkflowId, arguments: string)
    ensures var origin := Origin(sub.who, sub.environment, w, sub.key, arguments, None, sub.stamp);
            Submitted(db, db, now, v2, sub, origin, Perform(db, now, v2, Prepare(sub, w, arguments)))
  {
    hide Submitted, Submit;
    SubmitIs(db, db, now, v2, sub, PrepareOrigin(sub, w, arguments));
  }

  // ---------------------------------------------------------------- retries

  /** `chain` climbs from an operation, parent by parent. */
  ghost predicate Climbs(db: Db, chain: seq<OpId>) {
    forall i | 0 <= i < |chain| - 1 :: chain[i] in db.ops && db.ops[chain[i]].row.origin.parent == Some(chain[i + 1])
  }

  ghost predicate ChainFrom(db: Db, id: OpId, n: nat, chain: seq<OpId>) {
    |chain| == n + 1 && chain[0] == id && Climbs(db, chain)
  }

  /** The operation has `n` ancestors. */
  ghost predicate HasAncestors(db: Db, id: OpId, n: nat) {
    exists chain :: ChainFrom(db, id, n, chain)
  }

  lemma {:induction false} AncestorsClimb(db: Db, id: OpId, n: nat)
    ensures AncestorAt(db, id, n).Some? ==>
              exists chain :: ChainFrom(db, id, n, chain) && chain[n] == AncestorAt(db, id, n).value
  {
    if n == 0 {
      assert ChainFrom(db, id, 0, [id]);
    } else if AncestorAt(db, id, n).Some? {
      AncestorsClimb(db, id, n - 1);
      var chain :| ChainFrom(db, id, n - 1, chain) && chain[n - 1] == AncestorAt(db, id, n - 1).value;
      assert ChainFrom(db, id, n, chain + [AncestorAt(db, id, n).value]);
    }
  }

  lemma {:induction false} ClimbsToAncestor(db: Db, id: OpId, n: nat, chain: seq<OpId>)
    requires ChainFrom(db, id, n, chain)
    ensures AncestorAt(db, id, n) == Some(chain[n])
  {
    if n > 0 {
      assert ChainFrom(db, id, n - 1, chain[..n]);
      ClimbsToAncestor(db, id, n - 1, chain[..n]);
    }
  }

  lemma AncestorsIff(db: Db, id: OpId, n: nat)
    ensures AncestorAt(db, id, n).Some? <==> HasAncestors(db, id, n)
  {
    hide AncestorAt;
    AncestorsClimb(db, id, n);
    if chain :| ChainFrom(db, id, n, chain) { ClimbsToAncestor(db, id, n, chain); }
  }

  /** Only what failed to run or ended badly may be retried. */
  predicate EndedBadly(s: State) {
    s in {Failed, Unknown, Blocked, Expired, Rejected}
  }

  function RetriedOrigin(op: Op, parent: OpId, sub: Submission): Origin {
    Origin(sub.who, sub.environment, op.row.origin.workflow,
           match sub.key case None => None case Some(k) => Some("retry:" + Text.Decimal(parent) + ":" + k),
           op.row.origin.arguments, Some(parent), sub.stamp)
  }

  /** What becomes of a retry, given the parent as a read shows it: not found for
      strangers, refused unless the parent ended badly and has fewer than ten ancestors,
      and otherwise a submission of the parent's workflow and arguments. */
  ghost predicate Retried(
    db: Db, base: Db, now: Time, v2: bool, parent: OpId, visible: bool, sub: Submission, o: Outcome)
    requires parent in db.ops
  {
    var seen := Expire(db, now, parent); var op := Acts.Shown(db.ops[parent], now);
    var entitled := Acts.Entitled(op, sub.who, visible, v2);
    var retryable := EndedBadly(op.row.state) && !HasAncestors(db, parent, 10);
    && seen.ops == db.ops[parent := op]
    && (!entitled ==> o == Outcome(seen, base, Failure(OperationNotFound)))
    && (entitled && !retryable ==> o == Outcome(seen, base, Failure(RetryNotApplicable)))
    && (entitled && retryable ==> Submitted(seen, base, now, v2, sub, RetriedOrigin(op, parent, sub), o))
  }

  lemma RetryingIs(db: Db, base: Db, now: Time, v2: bool, parent: OpId, visible: bool, sub: Submission)
    requires parent in db.ops && db.ops[parent].row.id == parent
    ensures var seen := Expire(db, now, parent);
            && parent in seen.ops
            && Retried(db, base, now, v2, parent, visible, sub,
                       Retrying(seen, base, now, v2, seen.ops[parent], visible, sub))
  {
    hide Submitted, Submit, HasAncestors, Expiry, AncestorAt, Climbs;
    var seen := Expire(db, now, parent);
    ShownIs(db, now, parent);
    ExpireEvolves(db, now, parent);
    AncestorsAgree(db, seen, parent, MAX_RETRY_CHAIN_DEPTH);
    AncestorsIff(db, parent, MAX_RETRY_CHAIN_DEPTH);
    SubmitIs(seen, base, now, v2, sub, RetryOrigin(seen.ops[parent].row, sub));
  }

  /** A retry, from the request alone. */
  lemma RetryIs(db: Db, now: Time, v2: bool, parent: OpId, visible: bool, sub: Submission)
    requires parent in db.ops ==> db.ops[parent].row.id == parent
    ensures var o := Perform(db, now, v2, Retry(parent, visible, sub));
            && (parent !in db.ops ==> o == Outcome(db, db, Failure(OperationNotFound)))
            && (parent in db.ops ==> Retried(db, db, now, v2, parent, visible, sub, o))
  {
    hide Retried, Retrying;
    if parent in db.ops { RetryingIs(db, db, now, v2, parent, visible, sub); }
  }
}
