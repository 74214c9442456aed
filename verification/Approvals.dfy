/**
 Over serial histories: what was submitted for approval is approved by somebody's approve
 request or not at all, and starts only after that.
 */
module Approvals {
  import opened Wrappers
  import opened StateMachine
  import opened OperationStore
  import opened UseCases
  import opened Histories
  import opened Submissions
  import Deadlines

  /** Every row agrees with its log. */
  ghost predicate Intact(db: Db) {
    forall id | id in db.ops :: OpOk(id, db.ops[id])
  }

  // ---------------------------------------------------------------- logs stay intact

  lemma MovingIntact(id: OpId, op: Op, t: TransitionId, actor: string, up: Updates)
    requires OpOk(id, op)
    ensures OpOk(id, Moving(op, t, actor, up).op)
  {
    if ValidateTransition(t, Some(op.row.state)).Success? {
      MoveKeepsOp(id, op, op.row, t, actor, up, Move(op, op.row, t, actor, up).value);
    }
  }

  lemma SameLogIntact(id: OpId, op: Op, later: Op)
    requires OpOk(id, op) && later.log == op.log && later.row.(burned := op.row.burned) == op.row
    ensures OpOk(id, later)
  {
  }

  lemma LazyIntact(id: OpId, op: Op, now: Time)
    requires OpOk(id, op)
    ensures OpOk(id, LazyOp(op, now))
  {
    hide OpOk, Moving;
    forall t: TransitionId ensures OpOk(id, Moving(op, t, "clock", NO_UPDATES).op) {
      MovingIntact(id, op, t, "clock", NO_UPDATES);
    }
  }

  lemma ActingIntact(id: OpId, op: Op, running: nat, now: Time, v2: bool, act: Act)
    requires OpOk(id, op)
    ensures OpOk(id, Acting(op, running, now, v2, act).op)
  {
    hide OpOk, Moving, Voters;
    var voted := match act case Approve(who, _, _) => RecordVote(op, who, ApproveIt)
                           case Reject(who, _) => RecordVote(op, who, RejectIt)
                           case _ => op;
    SameLogIntact(id, op, voted);
    SameLogIntact(id, op, op.(row := op.row.(burned := true)));
    forall x: Op, t: TransitionId, actor: string, up: Updates | OpOk(id, x)
      ensures OpOk(id, Moving(x, t, actor, up).op)
    {
      MovingIntact(id, x, t, actor, up);
    }
  }

  lemma ExpireIntact(db: Db, now: Time, id: OpId)
    requires Intact(db) && id in db.ops
    ensures Intact(Expire(db, now, id))
  {
    LazyIntact(id, db.ops[id], now);
  }

  lemma {:induction false} SweepIntact(db: Db, now: Time, ids: seq<OpId>)
    requires Intact(db) && forall i | 0 <= i < |ids| :: ids[i] in db.ops
    ensures Intact(ExpireAll(db, now, ids))
  {
    hide Expire;
    if ids != [] {
      SweepIntact(db, now, ids[..|ids| - 1]);
      ExpireIntact(ExpireAll(db, now, ids[..|ids| - 1]), now, ids[|ids| - 1]);
    }
  }

  lemma IntakeIntact(handle: OpId, origin: Origin, entry: Entry, checks: Checks, now: Time, v2: bool)
    ensures OpOk(handle, Intake(handle, origin, entry, checks, now, v2).op)
  {
    hide OpOk, Moving;
    var op := NewOperation(handle, origin);
    NewOperationOk(handle, origin);
    forall t: TransitionId, up: Updates ensures OpOk(handle, Moving(op, t, "system", up).op) {
      MovingIntact(handle, op, t, "system", up);
    }
  }

  lemma SubmitIntact(
    db: Db, base: Db, now: Time, v2: bool, handle: OpId, origin: Origin, entry: Entry, checks: Checks)
    requires Intact(db) && Intact(base)
    ensures var o := Submit(db, base, now, v2, handle, origin, entry, checks); Intact(o.db) && Intact(o.base)
  {
    hide OpOk, Intake, Expire, HoldsKey, FindKey, RecentIn;
    IntakeIntact(handle, origin, entry, checks, now, v2);
    if FindKey(db, origin).Some? {
      FoundKey(db, origin);
      ExpireIntact(db, now, FindKey(db, origin).value);
    }
  }

  lemma PerformIntact(db: Db, now: Time, v2: bool, request: Request)
    requires Intact(db)
    ensures var o := Perform(db, now, v2, request); Intact(o.db) && Intact(o.base)
  {
    hide OpOk, Acting, Expire, Submit, ExecutingIn, AncestorAt;
    match request
    case OnOne(id, act) =>
      if id in db.ops {
        ExpireIntact(db, now, id);
        var seen := Expire(db, now, id);
        ExpireKeepsKeys(db, now, id);
        ActingIntact(id, seen.ops[id], |ExecutingIn(seen, seen.ops[id].row.origin.workflow)|, now, v2, act);
      }
    case Prepare(sub, w, args) =>
      SubmitIntact(db, db, now, v2, sub.handle, PrepareOrigin(sub, w, args), sub.entry, sub.checks);
    case Retry(parent, visible, sub) =>
      if parent in db.ops {
        ExpireIntact(db, now, parent);
        var seen := Expire(db, now, parent);
        ExpireKeepsKeys(db, now, parent);
        SubmitIntact(seen, db, now, v2, sub.handle, RetryOrigin(seen.ops[parent].row, sub), sub.entry, sub.checks);
      }
  }

  lemma ExpireKeepsKeys(db: Db, now: Time, id: OpId)
    requires id in db.ops
    ensures Expire(db, now, id).ops.Keys == db.ops.Keys
  {
  }

  lemma {:induction false} HistoryIntact(dbs: seq<Db>, steps: seq<Timed>, v2: bool, i: nat)
    requires IsHistory(dbs, steps, v2) && i < |dbs|
    ensures Intact(dbs[i]) && Keyed(dbs[i])
  {
    hide Perform, OpOk;
    if i > 0 {
      HistoryIntact(dbs, steps, v2, i - 1);
      var db, step := dbs[i - 1], steps[i - 1];
      assert Possible(db, step) && dbs[i] == After(db, v2, step);
      AfterSteps(db, v2, step);
      match step
      case Do(now, request, _) => PerformIntact(db, now, v2, request);
      case Sweep(now, ids) => SweepIntact(db, now, ids);
    }
  }

  // ---------------------------------------------------------------- where operations come from

  /** What a request stores under an unused handle is the new operation it submits. */
  lemma OnlyCreationsAdd(db: Db, now: Time, v2: bool, request: Request, caught: bool, id: OpId)
    requires Keyed(db) && id !in db.ops && id in Scoped(Perform(db, now, v2, request), caught).ops
    ensures (request.Prepare? || request.Retry?) && id == request.sub.handle
    ensures var op := Scoped(Perform(db, now, v2, request), caught).ops[id];
            IsNew(op, id, op.row.origin, request.sub.entry, request.sub.checks, now, v2)
  {
    hide IsNew, Submitted, Perform, Evolves, OverLimit, Acts.Entitled, HasAncestors, Acts.Shown;
    match request
    case OnOne(k, act) => OneSteps(db, now, v2, k, act); assert false;
    case Prepare(sub, w, args) =>
      var origin := Origin(sub.who, sub.environment, w, sub.key, args, None, sub.stamp);
      PrepareIs(db, now, v2, sub, w, args);
      SubmittedAdds(db, db, now, v2, sub, origin, Perform(db, now, v2, request), id);
    case Retry(parent, visible, sub) =>
      RetryIs(db, now, v2, parent, visible, sub);
      if parent in db.ops && Submitted(Expire(db, now, parent), db, now, v2, sub,
                                       RetriedOrigin(Acts.Shown(db.ops[parent], now), parent, sub),
                                       Perform(db, now, v2, request)) {
        SubmittedAdds(Expire(db, now, parent), db, now, v2, sub,
                      RetriedOrigin(Acts.Shown(db.ops[parent], now), parent, sub), Perform(db, now, v2, request), id);
      }
  }

  lemma SubmittedAdds(
    db: Db, base: Db, now: Time, v2: bool, sub: Submission, origin: Origin, o: Outcome, id: OpId)
    requires Submitted(db, base, now, v2, sub, origin, o) && id !in db.ops && id !in base.ops
    ensures id !in o.base.ops
    ensures id in o.db.ops ==> id == sub.handle && o.db.ops[id].row.origin == origin
                               && IsNew(o.db.ops[id], id, origin, sub.entry, sub.checks, now, v2)
  {
    hide OverLimit, Acts.Shown;
  }

  // ---------------------------------------------------------------- who approves

  /** Nothing after the old log is an approval, except by one of `who`. */
  ghost predicate ApprovedOnlyBy(op: Op, later: Op, who: set<PrincipalId>) {
    op.log <= later.log
    && forall k | |op.log| <= k < |later.log| && later.log[k].transition == T06 :: later.log[k].actor in who
  }

  ghost predicate AllApprovedOnlyBy(db: Db, after: Db, id: Option<OpId>, who: set<PrincipalId>) {
    forall k | k in db.ops ::
      k in after.ops && ApprovedOnlyBy(db.ops[k], after.ops[k], if id == Some(k) then who else {})
  }

  lemma MovingApproves(op: Op, t: TransitionId, actor: string, up: Updates, who: set<PrincipalId>)
    requires t == T06 ==> actor in who
    ensures ApprovedOnlyBy(op, Moving(op, t, actor, up).op, who)
  {
  }

  lemma LazyApproves(op: Op, now: Time)
    ensures ApprovedOnlyBy(op, LazyOp(op, now), {})
  {
    hide ApprovedOnlyBy;
    Deadlines.LazyIff(op, now);
    SameLogApproves(op, op, {});
    MovingApproves(op, T08, "clock", NO_UPDATES, {});
    MovingApproves(op, T11, "clock", NO_UPDATES, {});
  }

  lemma SameLogApproves(op: Op, later: Op, who: set<PrincipalId>)
    requires op.log == later.log
    ensures ApprovedOnlyBy(op, later, who)
  {
  }

  lemma ApprovesOn(a: Op, b: Op, c: Op, who: set<PrincipalId>)
    requires ApprovedOnlyBy(a, b, {}) && ApprovedOnlyBy(b, c, who)
    ensures ApprovedOnlyBy(a, c, who)
  {
  }

  function Approver(act: Act): set<PrincipalId> {
    if act.Approve? then {act.who} else {}
  }

  lemma ActingApproves(op: Op, running: nat, now: Time, v2: bool, act: Act)
    ensures ApprovedOnlyBy(op, Acting(op, running, now, v2, act).op, Approver(act))
  {
    hide ApprovedOnlyBy, Moving, Voters;
    forall x: Op | x.log == op.log ensures ApprovedOnlyBy(op, x, Approver(act)) {
      SameLogApproves(op, x, Approver(act));
    }
    forall x: Op, t: TransitionId, actor: string, up: Updates
      | x.log == op.log && (t == T06 ==> actor in Approver(act))
      ensures ApprovedOnlyBy(op, Moving(x, t, actor, up).op, Approver(act))
    {
      MovingApproves(x, t, actor, up, Approver(act));
      LogsAlike(x, op, Moving(x, t, actor, up).op, Approver(act));
    }
  }

  lemma LogsAlike(a: Op, b: Op, later: Op, who: set<PrincipalId>)
    requires a.log == b.log && ApprovedOnlyBy(a, later, who)
    ensures ApprovedOnlyBy(b, later, who)
  {
  }

  lemma SameApproves(db: Db)
    ensures forall id: Option<OpId>, who: set<PrincipalId> :: AllApprovedOnlyBy(db, db, id, who)
  {
    forall who: set<PrincipalId>, k | k in db.ops ensures ApprovedOnlyBy(db.ops[k], db.ops[k], who) {
      SameLogApproves(db.ops[k], db.ops[k], who);
    }
  }

  lemma PutApproves(db: Db, id: OpId, op: Op, audit: seq<AuditRecord>, who: set<PrincipalId>)
    requires id in db.ops ==> ApprovedOnlyBy(db.ops[id], op, who)
    ensures AllApprovedOnlyBy(db, Put(db, id, op, audit), Some(id), who)
  {
    hide ApprovedOnlyBy;
    forall k | k in db.ops ensures ApprovedOnlyBy(db.ops[k], db.ops[k], {}) {
      SameLogApproves(db.ops[k], db.ops[k], {});
    }
  }

  lemma AllApprovesOn(a: Db, b: Db, c: Db, x: Option<OpId>, id: Option<OpId>, who: set<PrincipalId>)
    requires AllApprovedOnlyBy(a, b, x, {}) && AllApprovedOnlyBy(b, c, id, who)
    ensures AllApprovedOnlyBy(a, c, id, who)
  {
    hide ApprovedOnlyBy;
    forall k | k in a.ops ensures ApprovedOnlyBy(a.ops[k], c.ops[k], if id == Some(k) then who else {}) {
      ApprovesOn(a.ops[k], b.ops[k], c.ops[k], if id == Some(k) then who else {});
    }
  }

  lemma ExpireApproves(db: Db, now: Time, id: OpId)
    requires id in db.ops
    ensures AllApprovedOnlyBy(db, Expire(db, now, id), Some(id), {})
  {
    hide ApprovedOnlyBy;
    LazyApproves(db.ops[id], now);
    PutApproves(db, id, LazyOp(db.ops[id], now), Expiry(db.ops[id], now).audit, {});
  }

  lemma {:induction false} SweepApproves(db: Db, now: Time, ids: seq<OpId>)
    requires forall i | 0 <= i < |ids| :: ids[i] in db.ops
    ensures AllApprovedOnlyBy(db, ExpireAll(db, now, ids), None, {})
  {
    hide Expire, ApprovedOnlyBy;
    SameApproves(db);
    if ids != [] {
      var n := |ids| - 1;
      SweepApproves(db, now, ids[..n]);
      ExpireApproves(ExpireAll(db, now, ids[..n]), now, ids[n]);
      AllApprovesOn(db, ExpireAll(db, now, ids[..n]), ExpireAll(db, now, ids), None, Some(ids[n]), {});
    }
  }

  lemma SubmitApproves(
    db: Db, base: Db, now: Time, v2: bool, handle: OpId, origin: Origin, entry: Entry, checks: Checks)
    requires AllApprovedOnlyBy(base, db, None, {})
    ensures var o := Submit(db, base, now, v2, handle, origin, entry, checks);
            AllApprovedOnlyBy(base, o.db, None, {}) && AllApprovedOnlyBy(base, o.base, None, {})
  {
    hide ApprovedOnlyBy, Intake, Expire, HoldsKey, FindKey, RecentIn;
    SameApproves(base);
    if FindKey(db, origin).Some? {
      var id := FindKey(db, origin).value;
      FoundKey(db, origin);
      ExpireApproves(db, now, id);
      AllApprovesOn(base, db, Expire(db, now, id), None, Some(id), {});
    }
    if handle !in db.ops {
      var e := Intake(handle, origin, entry, checks, now, v2);
      PutApproves(db, handle, e.op, e.audit, {});
      AllApprovesOn(base, db, PutEffect(db, handle, e), None, Some(handle), {});
    }
  }

  lemma PerformApproves(db: Db, now: Time, v2: bool, request: Request)
    ensures var o := Perform(db, now, v2, request);
            && (request.OnOne? ==> AllApprovedOnlyBy(db, o.db, Some(request.id), Approver(request.act)))
            && (!request.OnOne? ==> AllApprovedOnlyBy(db, o.db, None, {}))
            && AllApprovedOnlyBy(db, o.base, None, {})
  {
    hide ApprovedOnlyBy, Acting, Expire, Submit, ExecutingIn, AncestorAt;
    SameApproves(db);
    match request
    case OnOne(id, act) =>
      if id in db.ops {
        ExpireApproves(db, now, id);
        var seen := Expire(db, now, id);
        var running := |ExecutingIn(seen, seen.ops[id].row.origin.workflow)|;
        ActingApproves(seen.ops[id], running, now, v2, act);
        var e := Acting(seen.ops[id], running, now, v2, act);
        PutApproves(seen, id, e.op, e.audit, Approver(act));
        AllApprovesOn(db, seen, PutEffect(seen, id, e), Some(id), Some(id), Approver(act));
      }
    case Prepare(sub, w, args) =>
      SubmitApproves(db, db, now, v2, sub.handle, PrepareOrigin(sub, w, args), sub.entry, sub.checks);
    case Retry(parent, visible, sub) =>
      if parent in db.ops {
        ExpireApproves(db, now, parent);
        var seen := Expire(db, now, parent);
        AllApprovesOn(db, db, seen, None, Some(parent), {});
        SubmitApproves(seen, db, now, v2, sub.handle, RetryOrigin(seen.ops[parent].row, sub), sub.entry, sub.checks);
      }
  }

  /** Somebody asked to approve `id` between the two moments. */
  ghost predicate AskedToApprove(steps: seq<Timed>, i: nat, j: nat, id: OpId, who: PrincipalId) {
    exists k :: i <= k < j && k < |steps| && IsApproval(steps[k], id, who)
  }

  predicate IsApproval(step: Timed, id: OpId, who: PrincipalId) {
    step.Do? && step.request.OnOne? && step.request.id == id && step.request.act.Approve? && step.request.act.who == who
  }

  lemma StepApproves(db: Db, v2: bool, step: Timed, id: OpId)
    requires Possible(db, step) && id in db.ops
    ensures var after := After(db, v2, step);
            && id in after.ops && db.ops[id].log <= after.ops[id].log
            && forall k | |db.ops[id].log| <= k < |after.ops[id].log| && after.ops[id].log[k].transition == T06 ::
                 IsApproval(step, id, after.ops[id].log[k].actor)
  {
    hide Perform;
    match step
    case Do(now, request, caught) => PerformApproves(db, now, v2, request);
    case Sweep(now, ids) => SweepApproves(db, now, ids);
  }

  /** Every approval in a log since `i` was asked for since then. */
  lemma {:induction false} ApprovalsAreAsked(dbs: seq<Db>, steps: seq<Timed>, v2: bool, i: nat, j: nat, id: OpId)
    requires IsHistory(dbs, steps, v2) && i <= j < |dbs| && id in dbs[i].ops
    ensures id in dbs[j].ops && dbs[i].ops[id].log <= dbs[j].ops[id].log
    ensures forall k | |dbs[i].ops[id].log| <= k < |dbs[j].ops[id].log| && dbs[j].ops[id].log[k].transition == T06 ::
              AskedToApprove(steps, i, j, id, dbs[j].ops[id].log[k].actor)
  {
    hide After, IsApproval;
    if i < j {
      ApprovalsAreAsked(dbs, steps, v2, i, j - 1, id);
      assert Possible(dbs[j - 1], steps[j - 1]) && dbs[j] == After(dbs[j - 1], v2, steps[j - 1]);
      StepApproves(dbs[j - 1], v2, steps[j - 1], id);
      var was, now := dbs[j - 1].ops[id].log, dbs[j].ops[id].log;
      forall k | |dbs[i].ops[id].log| <= k < |now| && now[k].transition == T06
        ensures AskedToApprove(steps, i, j, id, now[k].actor)
      {
        if k < |was| { assert was[k] == now[k]; }
      }
    }
  }

  lemma NextEvent(log: seq<Event>, i: nat)
    requires IsPath(log) && i < |log|
    ensures log[i].to == ById(log[i].transition).to
    ensures i + 1 < |log| ==> ById(log[i + 1].transition).from == Some(log[i].to)
  {
    if i + 1 < |log| { assert log[i + 1].from == Some(log[i].to); }
  }

  /** A log that was sent on by T02, T03 or T04, and got to Approved, has T06 third. */
  lemma ThirdIsT06(log: seq<Event>)
    requires IsPath(log) && |log| >= 2 && log[1].transition in {T02, T03, T04}
    requires log[|log| - 1].to in {Approved, Executing, Succeeded, Failed, Unknown}
    ensures |log| >= 3 && log[2].transition == T06
    ensures log[|log| - 1].to != Approved ==> |log| >= 4 && log[3].transition == T10
  {
    hide IsPath;
    NextEvent(log, 1);
    if |log| >= 3 { NextEvent(log, 2); }
    if |log| >= 4 { NextEvent(log, 3); }
  }

  /** In every history, an operation submitted under an entry that needs approval is
      approved, executing or done only with T06 as its third event, by a principal whose
      approve request came after the submission; and executing or done only with T10 next. */
  lemma NeedsApproval(dbs: seq<Db>, steps: seq<Timed>, v2: bool, i: nat, j: nat, id: OpId)
    requires IsHistory(dbs, steps, v2) && i < j < |dbs| && id !in dbs[i].ops && id in dbs[i + 1].ops
    ensures steps[i].Do? && !steps[i].request.OnOne? && id == steps[i].request.sub.handle && id in dbs[j].ops
    ensures var op := dbs[j].ops[id];
            steps[i].request.sub.entry.needsApproval
            && op.row.state in {Approved, Executing, Succeeded, Failed, Unknown} ==>
              && |op.log| >= 3 && op.log[2].transition == T06
              && AskedToApprove(steps, i + 1, j, id, op.log[2].actor)
              && (op.row.state != Approved ==> |op.log| >= 4 && op.log[3].transition == T10)
  {
    hide Perform, After, AskedToApprove, Evolves, IsPath;
    HistoryIntact(dbs, steps, v2, i);
    HistoryIntact(dbs, steps, v2, j);
    CreatedAt(dbs, steps, v2, i, id);
    ApprovalsAreAsked(dbs, steps, v2, i + 1, j, id);
    var op := dbs[j].ops[id];
    if steps[i].request.sub.entry.needsApproval
       && op.row.state in {Approved, Executing, Succeeded, Failed, Unknown} {
      assert op.log[1] == dbs[i + 1].ops[id].log[1];
      ThirdIsT06(op.log);
    }
  }

  lemma CreatedAt(dbs: seq<Db>, steps: seq<Timed>, v2: bool, i: nat, id: OpId)
    requires IsHistory(dbs, steps, v2) && i < |steps| && id !in dbs[i].ops && id in dbs[i + 1].ops && Keyed(dbs[i])
    ensures steps[i].Do? && !steps[i].request.OnOne? && id == steps[i].request.sub.handle
    ensures |dbs[i + 1].ops[id].log| == 2
    ensures steps[i].request.sub.entry.needsApproval ==> dbs[i + 1].ops[id].log[1].transition in {T02, T03, T04}
  {
    hide Perform, Evolves;
    assert Possible(dbs[i], steps[i]) && dbs[i + 1] == After(dbs[i], v2, steps[i]);
    match steps[i]
    case Do(now, request, caught) => OnlyCreationsAdd(dbs[i], now, v2, request, caught, id);
    case Sweep(now, ids) => SweepSteps(dbs[i], now, ids); assert false;
  }
}
