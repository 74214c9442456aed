/**
 What each request on one operation answers and leaves, in rows, events, votes and audit
 entries: when it succeeds, what moved, and which error everything else gets.
 */
module Acts {
  import opened Wrappers
  import opened StateMachine
  import opened OperationStore
  import opened UseCases
  import Deadlines

  /** The operation one version on, in `to`, with one event more. */
  function Advanced(op: Op, t: TransitionId, to: State, actor: string): Op {
    Op(op.row.(state := to, version := op.row.version + 1),
       op.log + [Event(Some(op.row.state), to, t, actor)], op.votes)
  }

  /** The answer is the operation as it stands afterwards. */
  predicate Answers(e: Effect) {
    e.result == Success(Reply(e.op.row, false))
  }

  /** Refused, and nothing written. */
  predicate Refuses(e: Effect, op: Op, error: Error) {
    e.op == op && e.audit == [] && e.result == Failure(error)
  }

  predicate Entitled(op: Op, who: PrincipalId, visible: bool, v2: bool) {
    if v2 then visible || who == op.row.origin.principal else who == op.row.origin.principal
  }

  /** A read is for the requester, and under team approval for whoever is authorized. */
  lemma GetIff(op: Op, running: nat, now: Time, v2: bool, who: PrincipalId, visible: bool)
    ensures var e := Acting(op, running, now, v2, Get(who, visible));
            && (e.result.Success? <==> Entitled(op, who, visible, v2))
            && (e.result.Success? ==> e.op == op && e.audit == [] && Answers(e))
            && (e.result.Failure? ==> Refuses(e, op, OperationNotFound))
  {
  }

  /** Cancellation succeeds for an entitled caller while the operation waits or is
      approved, and never later; a stranger learns nothing. */
  lemma CancelIff(op: Op, running: nat, now: Time, v2: bool, who: PrincipalId, visible: bool)
    ensures var e := Acting(op, running, now, v2, Cancel(who, visible)); var s := op.row.state;
            && (e.result.Success? <==> Entitled(op, who, visible, v2) && s in {PendingApproval, Approved})
            && (e.result.Success? ==>
                  && Answers(e)
                  && e.op == Advanced(op, if s == Approved then T12 else T09, Canceled, who)
                  && e.audit == [AuditRecord(who, OperationCanceledAction, OnOperation(op.row.id), Denied)])
            && (!Entitled(op, who, visible, v2) ==> Refuses(e, op, OperationNotFound))
            && (Entitled(op, who, visible, v2) && e.result.Failure? ==> Refuses(e, op, InvalidStateTransition))
  {
  }

  /** An approved operation may run until `deadline`. */
  function ApprovedBy(op: Op, who: PrincipalId, deadline: Time): Op {
    Op(op.row.(state := Approved, version := op.row.version + 1, executionDeadline := Some(deadline)),
       op.log + [Event(Some(PendingApproval), Approved, T06, who)], op.votes)
  }

  /** Without a frozen policy one authorized decision settles a pending operation. */
  lemma PlainDecisionIff(op: Op, running: nat, now: Time, v2: bool, who: PrincipalId, allowed: bool, ttl: nat)
    requires !(v2 && op.row.policy.Some?)
    ensures var e := Acting(op, running, now, v2, Approve(who, allowed, ttl)); var id := op.row.id;
            && (e.result.Success? <==> (v2 ==> allowed) && op.row.state == PendingApproval)
            && (e.result.Success? ==>
                  && Answers(e) && e.op == ApprovedBy(op, who, now + ttl)
                  && e.audit == [AuditRecord(who, OperationApproved, OnOperation(id), AuditOutcome.Allowed)])
            && (v2 && !allowed ==> Refuses(e, op, OperationNotFound))
            && ((v2 ==> allowed) && op.row.state != PendingApproval ==> Refuses(e, op, InvalidStateTransition))
    ensures var e := Acting(op, running, now, v2, Reject(who, allowed)); var id := op.row.id;
            && (e.result.Success? <==> (v2 ==> allowed) && op.row.state == PendingApproval)
            && (e.result.Success? ==>
                  && Answers(e) && e.op == Advanced(op, T07, Rejected, who)
                  && e.audit == [AuditRecord(who, OperationRejected, OnOperation(id), Denied)])
            && (v2 && !allowed ==> Refuses(e, op, OperationNotFound))
            && ((v2 ==> allowed) && op.row.state != PendingApproval ==> Refuses(e, op, InvalidStateTransition))
  {
  }

  function WithVote(op: Op, who: PrincipalId, v: Verdict): Op {
    Op(op.row, op.log, op.votes[who := v])
  }

  /** How many approvals are recorded, counting the one of `who`. */
  function ApprovalsWith(op: Op, who: PrincipalId): set<PrincipalId> {
    (set p | p in op.votes && op.votes[p] == ApproveIt) + {who}
  }

  predicate OnTheList(op: Op, who: PrincipalId)
    requires op.row.policy.Some?
  {
    who in op.row.policy.value.eligible && who != op.row.origin.principal
  }

  /** Under a frozen policy: an approval is recorded; the quorum's approval also approves,
      a first rejection rejects. */
  lemma QuorumDecisionIff(op: Op, running: nat, now: Time, who: PrincipalId, allowed: bool, ttl: nat)
    requires op.row.policy.Some?
    ensures var e := Acting(op, running, now, true, Approve(who, allowed, ttl));
            var enough := |ApprovalsWith(op, who)| >= op.row.policy.value.quorum; var id := op.row.id;
            && (!OnTheList(op, who) ==> Refuses(e, op, OperationNotFound))
            && (OnTheList(op, who) && who in op.votes ==> Refuses(e, op, ApprovalAlreadyDecided))
            && (OnTheList(op, who) && who !in op.votes ==>
                  && (!enough ==> Answers(e) && e.op == WithVote(op, who, ApproveIt) && e.audit == [])
                  && (enough && op.row.state == PendingApproval ==>
                        && Answers(e) && e.op == ApprovedBy(WithVote(op, who, ApproveIt), who, now + ttl)
                        && e.audit == [AuditRecord(who, OperationApproved, OnOperation(id), AuditOutcome.Allowed)])
                  && (enough && op.row.state != PendingApproval ==> e.result == Failure(InvalidStateTransition)))
  {
    if who !in op.votes { TallyWith(op, who); }
  }

  lemma TallyWith(op: Op, who: PrincipalId)
    requires who !in op.votes
    ensures Voters(RecordVote(op, who, ApproveIt), ApproveIt) == ApprovalsWith(op, who)
  {
    var voted := RecordVote(op, who, ApproveIt);
    assert forall p :: p in Voters(voted, ApproveIt) <==> p in ApprovalsWith(op, who);
  }

  lemma QuorumRejectionIff(op: Op, running: nat, now: Time, who: PrincipalId, allowed: bool)
    requires op.row.policy.Some?
    ensures var e := Acting(op, running, now, true, Reject(who, allowed)); var id := op.row.id;
            && (!OnTheList(op, who) ==> Refuses(e, op, OperationNotFound))
            && (OnTheList(op, who) && who in op.votes ==> Refuses(e, op, ApprovalAlreadyDecided))
            && (OnTheList(op, who) && who !in op.votes ==>
                  && (op.row.state == PendingApproval ==>
                        && Answers(e) && e.op == Advanced(WithVote(op, who, RejectIt), T07, Rejected, who)
                        && e.audit == [AuditRecord(who, OperationRejected, OnOperation(id), Denied)])
                  && (op.row.state != PendingApproval ==> e.result == Failure(InvalidStateTransition)))
  {
  }

  /** Why an execute is refused, in the documented order, and what starts otherwise. */
  lemma ExecuteAnswers(op: Op, running: nat, now: Time, v2: bool, act: Act)
    requires act.Execute?
    ensures var e := Acting(op, running, now, v2, act); var row := op.row;
            var entitled := Entitled(op, act.who, act.visible, v2) && (v2 || act.sameEnvironment);
            var unspent := entitled && !row.burned; var approved := unspent && row.state == Approved;
            && (!entitled <==> e.result == Failure(OperationNotFound))
            && (entitled && row.burned <==> e.result == Failure(HandleAlreadyUsed))
            && (unspent && row.state == PendingApproval <==> e.result == Failure(ApprovalRequired))
            && (unspent && row.state == Expired <==> e.result == Failure(OperationExpired))
            && (unspent && row.state == Canceled <==> e.result == Failure(OperationCanceled))
            && (unspent && row.state !in {PendingApproval, Expired, Canceled, Approved}
                <==> e.result == Failure(HandleInvalid))
            && (approved && act.live == Drifted <==> e.result == Failure(DefinitionDrift))
            && (approved && act.live == NotReady <==> e.result == Failure(PreflightFailed))
            && (approved && act.live == LiveOk && running >= act.maxConcurrent
                <==> e.result == Failure(ConcurrencyLimitReached))
            && (approved && act.live == LiveOk && running < act.maxConcurrent <==> e.result.Success?)
            && (e.result.Success? ==>
                  && Answers(e)
                  && e.op == Advanced(op.(row := row.(burned := true)), T10, State.Executing, act.who)
                  && e.audit == [AuditRecord(act.who, OperationExecutionStarted, OnOperation(row.id),
                                             AuditOutcome.Allowed)])
            && (e.result == Failure(ConcurrencyLimitReached) ==>
                  e.op == op.(row := row.(burned := true)) && e.audit == [])
            && (e.result.Failure? && e.result != Failure(ConcurrencyLimitReached) ==>
                  Refuses(e, op, e.result.error))
  {
  }

  /** What n8n reported is what is recorded, and only on an executing operation. */
  lemma RecordIff(op: Op, running: nat, now: Time, v2: bool, reported: CallOutcome)
    ensures var e := Acting(op, running, now, v2, Record(reported)); var id := op.row.id;
            && (e.result.Success? <==> op.row.state == State.Executing)
            && (e.result.Success? ==> Answers(e))
            && (e.result.Success? && reported == CallSucceeded ==>
                  && e.op == Advanced(op, T13, Succeeded, "system")
                  && e.audit == [AuditRecord("system", OperationSucceeded, OnOperation(id), AuditOutcome.Allowed)])
            && (e.result.Success? && reported == CallFailed ==>
                  && e.op == Advanced(op, T14, Failed, "system")
                  && e.audit == [AuditRecord("system", OperationFailed, OnOperation(id), Errored)])
            && (e.result.Success? && reported == CallIndeterminate ==>
                  && e.op == Advanced(op, T15, Unknown, "system")
                  && e.audit == [AuditRecord("system", OperationIndeterminate, OnOperation(id), Errored)])
            && (e.result.Failure? ==> Refuses(e, op, InvalidStateTransition))
  {
  }

  // ---------------------------------------------------------------- the database

  /** The operations of the same workflow that are executing. */
  function AlsoRunning(db: Db, id: OpId): set<OpId>
    requires id in db.ops
  {
    set k | k in db.ops && db.ops[k].row.state == State.Executing
            && db.ops[k].row.origin.workflow == db.ops[id].row.origin.workflow
  }

  /** The operation as lazy expiry shows it to a request at `now`. */
  function Shown(op: Op, now: Time): Op {
    if Deadlines.ApprovalLapsed(op.row, now) then Deadlines.ExpiredBy(op, T08)
    else if Deadlines.ExecutionLapsed(op.row, now) then Deadlines.ExpiredBy(op, T11)
    else op
  }

  /** A request on one operation: an execute must name it twice, an unknown one is not
      found; otherwise the act on the operation as shown is the answer, that operation is
      all that changes, and a rollback returns to the database as it was. */
  lemma OneOperation(db: Db, now: Time, v2: bool, id: OpId, act: Act)
    ensures var o := Perform(db, now, v2, OnOne(id, act)); var strayed := act.Execute? && act.handle != id;
            && o.base == db
            && (strayed ==> o.db == db && o.result == Failure(ArgumentMismatch))
            && (!strayed && id !in db.ops ==> o.db == db && o.result == Failure(OperationNotFound))
            && (!strayed && id in db.ops ==>
                  var e := Acting(Shown(db.ops[id], now), |AlsoRunning(db, id)|, now, v2, act);
                  && o.result == e.result && o.db.ops == db.ops[id := e.op]
                  && |db.audit| <= |o.db.audit| && o.db.audit[..|db.audit|] == db.audit
                  && (!Deadlines.Lapsed(db.ops[id].row, now) ==> o.db.audit == db.audit + e.audit))
  {
    hide Acting, ExecutingIn;
    if id in db.ops {
      Deadlines.LazyIff(db.ops[id], now);
      Deadlines.Seen(db, now, id);
      RunningSame(db, now, id);
    }
  }

  lemma RunningSame(db: Db, now: Time, id: OpId)
    requires id in db.ops
    ensures var seen := Expire(db, now, id);
            && id in seen.ops && seen.ops[id] == Shown(db.ops[id], now)
            && ExecutingIn(seen, seen.ops[id].row.origin.workflow) == AlsoRunning(db, id)
  {
    Deadlines.LazyIff(db.ops[id], now);
    var seen := Expire(db, now, id);
    assert forall k :: k in ExecutingIn(seen, seen.ops[id].row.origin.workflow) <==> k in AlsoRunning(db, id);
  }

  /** Past the approval deadline an approval succeeds only as one more verdict below the
      quorum, which approves nothing. */
  lemma LateApprovalIff(db: Db, now: Time, v2: bool, id: OpId, act: Act)
    requires act.Approve? && id in db.ops && Deadlines.ApprovalLapsed(db.ops[id].row, now)
    ensures var op := db.ops[id]; var o := Perform(db, now, v2, OnOne(id, act));
            && (o.result.Success?
                <==> && v2 && op.row.policy.Some? && OnTheList(op, act.who) && act.who !in op.votes
                     && |ApprovalsWith(op, act.who)| < op.row.policy.value.quorum)
            && id in o.db.ops && o.db.ops[id].row.state == Expired
  {
    hide Acting, Perform, AlsoRunning;
    OneOperation(db, now, v2, id, act);
    Deadlines.NoLateApproval(db, now, v2, id, act);
    var shown := Shown(db.ops[id], now);
    if v2 && shown.row.policy.Some? {
      QuorumDecisionIff(shown, |AlsoRunning(db, id)|, now, act.who, act.allowed, act.executionTtl);
    } else {
      PlainDecisionIff(shown, |AlsoRunning(db, id)|, now, v2, act.who, act.allowed, act.executionTtl);
    }
  }

  /** What a session scope leaves: an error rolls back unless it was caught inside. */
  lemma ScopeIff(o: Outcome, caught: bool)
    ensures (o.result.Success? || caught) ==> Scoped(o, caught) == o.db
    ensures (o.result.Failure? && !caught) ==> Scoped(o, caught) == o.base
  {
  }
}
