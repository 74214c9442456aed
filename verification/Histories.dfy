/** What any request, in any serial history, may do to the set of operations. */
module Histories {
  import opened Wrappers
  import opened StateMachine
  import opened OperationStore
  import opened UseCases

  /** The operation keeps its identity and its log; a burned handle stays burned, and a
      terminal state is kept for good. */
  ghost predicate Evolves(op: Op, later: Op) {
    && later.row.id == op.row.id && later.row.origin == op.row.origin && op.log <= later.log
    && (op.row.burned ==> later.row.burned)
    && (IsTerminal(op.row.state) ==> later.row.state == op.row.state)
  }

  ghost predicate AllEvolve(db: Db, after: Db) {
    forall id | id in db.ops :: id in after.ops && Evolves(db.ops[id], after.ops[id])
  }

  ghost predicate SameOps(db: Db, after: Db) {
    after.ops.Keys == db.ops.Keys && AllEvolve(db, after)
  }

  ghost predicate Adds(db: Db, after: Db, id: OpId, origin: Origin) {
    && id !in db.ops && after.ops.Keys == db.ops.Keys + {id} && AllEvolve(db, after)
    && after.ops[id].row.id == id && after.ops[id].row.origin == origin
  }

  /** Every row is stored under its own id. */
  ghost predicate Keyed(db: Db) {
    forall id | id in db.ops :: db.ops[id].row.id == id
  }

  /** The origin of the operation a prepare or a retry would create. */
  function NewOrigin(db: Db, request: Request): Origin
    requires request.Prepare? || (request.Retry? && request.parent in db.ops)
  {
    match request
    case Prepare(sub, workflow, arguments) => PrepareOrigin(sub, workflow, arguments)
    case Retry(parent, visible, sub) => RetryOrigin(db.ops[parent].row, sub)
  }

  /** The checks a request must have passed to create an operation. */
  ghost predicate Passed(db: Db, now: Time, request: Request) {
    && (request.Prepare? || (request.Retry? && request.parent in db.ops))
    && (request.Retry? ==>
          && Retryable(LazyOp(db.ops[request.parent], now).row.state)
          && AncestorAt(db, request.parent, MAX_RETRY_CHAIN_DEPTH).None?)
    && (request.sub.entry.rateLimit.Some? ==>
          |RecentIn(db, NewOrigin(db, request).workflow, now - RATE_WINDOW)| < request.sub.entry.rateLimit.value)
  }

  /** Either no operation appears, or exactly the requested one, checks passed. */
  ghost predicate Step(db: Db, after: Db, now: Time, request: Request) {
    || SameOps(db, after)
    || (Passed(db, now, request)
        && Adds(db, after, request.sub.handle, NewOrigin(db, request))
        && (request.Retry? ==> Retryable(after.ops[request.parent].row.state)))
  }

  // ---------------------------------------------------------------- operations evolve

  lemma MovingEvolves(op: Op, t: TransitionId, actor: string, up: Updates)
    ensures Evolves(op, Moving(op, t, actor, up).op)
  {
    if ValidateTransition(t, Some(op.row.state)).Success? {
      assert ById(t).from == Some(op.row.state);
    }
  }

  lemma LazyEvolves(op: Op, now: Time)
    ensures Evolves(op, LazyOp(op, now))
  {
    var x := OverdueExpiry(op.row.state, now, op.row.approvalExpiresAt, op.row.executionDeadline);
    if x.Some? { MovingEvolves(op, x.value, "clock", NO_UPDATES); }
  }

  lemma VotingEvolves(op: Op, who: PrincipalId, v: Verdict, now: Time, ttl: nat)
    requires op.row.policy.Some?
    ensures Evolves(op, Voting(op, who, v, now, ttl).op)
  {
    hide Moving, Evolves, Voters;
    var voted := RecordVote(op, who, v);
    SameRowEvolves(op, op);
    SameRowEvolves(op, voted);
    MovingEvolves(voted, T07, who, NO_UPDATES);
    MovingEvolves(voted, T06, who, Updates(None, Some(now + ttl), None));
    EvolvesOn(op, voted, Moving(voted, T07, who, NO_UPDATES).op);
    EvolvesOn(op, voted, Moving(voted, T06, who, Updates(None, Some(now + ttl), None)).op);
  }

  lemma SameRowEvolves(op: Op, later: Op)
    requires later.row.(burned := op.row.burned) == op.row && (op.row.burned ==> later.row.burned)
    requires later.log == op.log
    ensures Evolves(op, later)
  {
  }

  lemma EvolvesOn(a: Op, b: Op, c: Op)
    requires Evolves(a, b) && Evolves(b, c)
    ensures Evolves(a, c)
  {
  }

  lemma ActingEvolves(op: Op, running: nat, now: Time, v2: bool, act: Act)
    ensures Evolves(op, Acting(op, running, now, v2, act).op)
  {
    hide Moving, Evolves, Voting, Voters;
    SameRowEvolves(op, op);
    forall t: TransitionId, actor: string, up: Updates ensures Evolves(op, Moving(op, t, actor, up).op) {
      MovingEvolves(op, t, actor, up);
    }
    if op.row.policy.Some? {
      forall who: PrincipalId, v: Verdict, ttl: nat ensures Evolves(op, Voting(op, who, v, now, ttl).op) {
        VotingEvolves(op, who, v, now, ttl);
      }
    }
    if act.Execute? && !op.row.burned {
      var burnt := BurnHandle(op).value;
      SameRowEvolves(op, burnt);
      MovingEvolves(burnt, T10, act.who, NO_UPDATES);
      EvolvesOn(op, burnt, Moving(burnt, T10, act.who, NO_UPDATES).op);
    }
  }

  // ---------------------------------------------------------------- databases step

  lemma EvolveSelf(db: Db)
    ensures AllEvolve(db, db) && SameOps(db, db)
  {
  }

  lemma PutEvolves(db: Db, id: OpId, op: Op, audit: seq<AuditRecord>)
    requires id in db.ops && Evolves(db.ops[id], op)
    ensures SameOps(db, Put(db, id, op, audit))
  {
  }

  lemma ExpireEvolves(db: Db, now: Time, id: OpId)
    requires id in db.ops
    ensures SameOps(db, Expire(db, now, id)) && Expire(db, now, id).ops[id] == LazyOp(db.ops[id], now)
  {
    LazyEvolves(db.ops[id], now);
    PutEvolves(db, id, LazyOp(db.ops[id], now), Expiry(db.ops[id], now).audit);
  }

  lemma SameOpsOn(a: Db, b: Db, c: Db)
    requires SameOps(a, b) && SameOps(b, c)
    ensures SameOps(a, c)
  {
    forall id | id in a.ops ensures Evolves(a.ops[id], c.ops[id]) {
      EvolvesOn(a.ops[id], b.ops[id], c.ops[id]);
    }
  }

  lemma {:induction false} AncestorsAgree(a: Db, b: Db, id: OpId, k: nat)
    requires SameOps(a, b)
    ensures AncestorAt(a, id, k) == AncestorAt(b, id, k)
  {
    if k > 0 { AncestorsAgree(a, b, id, k - 1); }
  }

  lemma RecentAgree(a: Db, b: Db, w: WorkflowId, since: Time)
    requires SameOps(a, b)
    ensures RecentIn(a, w, since) == RecentIn(b, w, since)
  {
    assert forall id :: id in RecentIn(a, w, since) <==> id in RecentIn(b, w, since);
  }

  /** The shared body of prepare and retry. */
  lemma SubmitSteps(
    db: Db, base: Db, now: Time, v2: bool, handle: OpId, origin: Origin, entry: Entry, checks: Checks)
    requires SameOps(base, db)
    ensures var o := Submit(db, base, now, v2, handle, origin, entry, checks);
            && (o.base == base || SameOps(base, o.base))
            && (|| SameOps(db, o.db)
                || (&& Adds(db, o.db, handle, origin)
                    && (entry.rateLimit.Some? ==>
                          |RecentIn(db, origin.workflow, now - RATE_WINDOW)| < entry.rateLimit.value)))
  {
    hide Intake, Expire, HoldsKey, FindKey, RecentIn, Evolves;
    EvolveSelf(db);
    EvolveSelf(base);
    var o := Submit(db, base, now, v2, handle, origin, entry, checks);
    if FindKey(db, origin).Some? && FindKey(db, origin).value in db.ops {
      ExpireEvolves(db, now, FindKey(db, origin).value);
    } else if FindKey(db, origin).Some? {
      FoundKey(db, origin);
    }
    IntakeRow(handle, origin, entry, checks, now, v2);
    if handle !in db.ops {
      AddsNew(db, handle, Intake(handle, origin, entry, checks, now, v2).op,
          Intake(handle, origin, entry, checks, now, v2).audit);
    }
  }

  lemma AddsNew(db: Db, id: OpId, op: Op, audit: seq<AuditRecord>)
    requires id !in db.ops && op.row.id == id
    ensures Adds(db, Put(db, id, op, audit), id, op.row.origin)
  {
  }

  lemma OneSteps(db: Db, now: Time, v2: bool, id: OpId, act: Act)
    ensures SameOps(db, Perform(db, now, v2, OnOne(id, act)).db)
    ensures Perform(db, now, v2, OnOne(id, act)).base == db
  {
    hide Acting, Expire, Evolves, ExecutingIn;
    EvolveSelf(db);
    if !Mismatched(id, act) && id in db.ops {
      ExpireEvolves(db, now, id);
      var seen := Expire(db, now, id);
      var running := |ExecutingIn(seen, seen.ops[id].row.origin.workflow)|;
      ActingEvolves(seen.ops[id], running, now, v2, act);
      var e := Acting(seen.ops[id], running, now, v2, act);
      PutEvolves(seen, id, e.op, e.audit);
      SameOpsOn(db, seen, PutEffect(seen, id, e));
    }
  }

  lemma PrepareSteps(db: Db, now: Time, v2: bool, sub: Submission, w: WorkflowId, args: string)
    ensures Step(db, Perform(db, now, v2, Prepare(sub, w, args)).db, now, Prepare(sub, w, args))
    ensures SameOps(db, Perform(db, now, v2, Prepare(sub, w, args)).base)
  {
    hide Submit, Evolves, RecentIn;
    EvolveSelf(db);
    SubmitSteps(db, db, now, v2, sub.handle, PrepareOrigin(sub, w, args), sub.entry, sub.checks);
  }

  lemma AddsAfter(a: Db, b: Db, c: Db, id: OpId, origin: Origin)
    requires SameOps(a, b) && Adds(b, c, id, origin)
    ensures Adds(a, c, id, origin)
  {
    forall k | k in a.ops ensures Evolves(a.ops[k], c.ops[k]) {
      EvolvesOn(a.ops[k], b.ops[k], c.ops[k]);
    }
  }

  lemma RetrySteps(db: Db, now: Time, v2: bool, parent: OpId, visible: bool, sub: Submission)
    requires Keyed(db)
    ensures Step(db, Perform(db, now, v2, Retry(parent, visible, sub)).db, now, Retry(parent, visible, sub))
    ensures SameOps(db, Perform(db, now, v2, Retry(parent, visible, sub)).base)
  {
    hide Submit, Evolves, RecentIn, Expire, LazyOp, AncestorAt;
    EvolveSelf(db);
    if parent in db.ops {
      ExpireEvolves(db, now, parent);
      var seen := Expire(db, now, parent);
      var row := seen.ops[parent].row;
      SameOrigin(db.ops[parent], seen.ops[parent]);
      AncestorsAgree(db, seen, parent, MAX_RETRY_CHAIN_DEPTH);
      RecentAgree(db, seen, row.origin.workflow, now - RATE_WINDOW);
      SubmitSteps(seen, db, now, v2, sub.handle, RetryOrigin(row, sub), sub.entry, sub.checks);
      var o := Submit(seen, db, now, v2, sub.handle, RetryOrigin(row, sub), sub.entry, sub.checks);
      if Adds(seen, o.db, sub.handle, RetryOrigin(row, sub)) {
        AddsAfter(db, seen, o.db, sub.handle, RetryOrigin(row, sub));
        if Retryable(row.state) { RetryableStays(seen.ops[parent], o.db.ops[parent]); }
      }
      if SameOps(seen, o.db) { SameOpsOn(db, seen, o.db); }
    }
  }

  lemma SameOrigin(op: Op, later: Op)
    requires Evolves(op, later)
    ensures later.row.origin == op.row.origin && later.row.id == op.row.id
  {
  }

  lemma RetryableStays(op: Op, later: Op)
    requires Evolves(op, later) && Retryable(op.row.state)
    ensures later.row.state == op.row.state
  {
    TerminalStates(op.row.state);
  }

  /** Whatever a request does and however its transaction ends. */
  lemma ScopedSteps(db: Db, now: Time, v2: bool, request: Request, caught: bool)
    requires Keyed(db)
    ensures Step(db, Scoped(Perform(db, now, v2, request), caught), now, request)
  {
    hide Perform, Passed, Adds, SameOps;
    EvolveSelf(db);
    match request
    case OnOne(id, act) => OneSteps(db, now, v2, id, act);
    case Prepare(sub, w, args) => PrepareSteps(db, now, v2, sub, w, args);
    case Retry(parent, visible, sub) => RetrySteps(db, now, v2, parent, visible, sub);
  }

  lemma {:induction false} SweepSteps(db: Db, now: Time, ids: seq<OpId>)
    requires forall i | 0 <= i < |ids| :: ids[i] in db.ops
    ensures SameOps(db, ExpireAll(db, now, ids))
  {
    hide Expire, SameOps;
    EvolveSelf(db);
    if ids != [] {
      SweepSteps(db, now, ids[..|ids| - 1]);
      ExpireEvolves(ExpireAll(db, now, ids[..|ids| - 1]), now, ids[|ids| - 1]);
      SameOpsOn(db, ExpireAll(db, now, ids[..|ids| - 1]), ExpireAll(db, now, ids));
    }
  }

  lemma KeyedSame(db: Db, after: Db)
    requires Keyed(db) && SameOps(db, after)
    ensures Keyed(after)
  {
  }

  lemma KeyedAdds(db: Db, after: Db, id: OpId, origin: Origin)
    requires Keyed(db) && Adds(db, after, id, origin)
    ensures Keyed(after)
  {
  }

  lemma KeyedStep(db: Db, after: Db, now: Time, request: Request)
    requires Keyed(db) && Step(db, after, now, request)
    ensures Keyed(after)
  {
    hide SameOps, Adds, Keyed, LazyOp, RecentIn;
    if SameOps(db, after) {
      KeyedSame(db, after);
    } else {
      KeyedAdds(db, after, request.sub.handle, NewOrigin(db, request));
    }
  }

  lemma AfterSteps(db: Db, v2: bool, step: Timed)
    requires Keyed(db) && Possible(db, step)
    ensures Keyed(After(db, v2, step))
    ensures step.Sweep? ==> SameOps(db, After(db, v2, step))
    ensures step.Do? ==> Step(db, After(db, v2, step), step.now, step.request)
  {
    hide Perform, Step, SameOps, Keyed;
    match step
    case Do(now, request, caught) =>
      ScopedSteps(db, now, v2, request, caught);
      KeyedStep(db, After(db, v2, step), now, request);
    case Sweep(now, ids) =>
      SweepSteps(db, now, ids);
      KeyedSame(db, After(db, v2, step));
  }
}
