/**
 Sweeps are invisible: expiring overdue rows eagerly, whenever and however partially,
 changes no answer and nothing a later read shows; it only decides when the expiry is
 logged.
 */
module Sweeps {
  import opened Wrappers
  import opened StateMachine
  import opened OperationStore
  import opened UseCases

  // ---------------------------------------------------------------- what reads show

  /** Both databases show the same operations to every read at `now`: same rows, same
      votes, and the same logs once the pending expiries are written. */
  ghost predicate SameSeen(a: Db, b: Db, now: Time) {
    && a.ops.Keys == b.ops.Keys
    && forall id | id in a.ops :: LazyOp(a.ops[id], now) == LazyOp(b.ops[id], now)
  }

  lemma LazyShape(op: Op, now: Time)
    ensures LazyOp(op, now).row.origin == op.row.origin && LazyOp(op, now).row.id == op.row.id
    ensures LazyOp(op, now).row.state == Executing <==> op.row.state == Executing
    ensures !Overdue(op.row, now) ==> LazyOp(op, now) == op
    ensures Overdue(op.row, now) ==>
              LazyOp(op, now).row.state == Expired && LazyOp(op, now).row.version == op.row.version + 1
    ensures !Overdue(LazyOp(op, now).row, now)
  {
  }

  /** A deadline that has passed stays passed, and expiry happens once. */
  lemma LazyLater(op: Op, now: Time, later: Time)
    requires now <= later
    ensures LazyOp(LazyOp(op, now), later) == LazyOp(op, later)
  {
  }

  lemma SeenLater(a: Db, b: Db, now: Time, later: Time)
    requires SameSeen(a, b, now) && now <= later
    ensures SameSeen(a, b, later)
  {
    hide LazyOp;
    forall id | id in a.ops ensures LazyOp(a.ops[id], later) == LazyOp(b.ops[id], later) {
      LazyLater(a.ops[id], now, later);
      LazyLater(b.ops[id], now, later);
    }
  }

  lemma ExpireSeen(db: Db, now: Time, id: OpId)
    requires id in db.ops
    ensures SameSeen(db, Expire(db, now, id), now) && Expire(db, now, id).ops[id] == LazyOp(db.ops[id], now)
  {
    LazyLater(db.ops[id], now, now);
  }

  lemma {:induction false} SweepSeen(db: Db, now: Time, ids: seq<OpId>)
    requires forall i | 0 <= i < |ids| :: ids[i] in db.ops
    ensures SameSeen(db, ExpireAll(db, now, ids), now)
  {
    hide LazyOp, Expire;
    if ids != [] {
      SweepSeen(db, now, ids[..|ids| - 1]);
      ExpireSeen(ExpireAll(db, now, ids[..|ids| - 1]), now, ids[|ids| - 1]);
    }
  }

  lemma SeenPut(a: Db, b: Db, now: Time, id: OpId, op: Op, x: seq<AuditRecord>, y: seq<AuditRecord>)
    requires SameSeen(a, b, now)
    ensures SameSeen(Put(a, id, op, x), Put(b, id, op, y), now)
  {
    hide LazyOp;
  }

  lemma SeenTransitive(a: Db, b: Db, c: Db, now: Time)
    requires SameSeen(a, b, now) && SameSeen(b, c, now)
    ensures SameSeen(a, c, now)
  {
    hide LazyOp;
  }

  // ---------------------------------------------------------------- what actions read

  lemma SameOrigins(a: Db, b: Db, now: Time)
    requires SameSeen(a, b, now)
    ensures forall id | id in a.ops :: a.ops[id].row.origin == b.ops[id].row.origin
    ensures forall id | id in a.ops :: a.ops[id].row.id == b.ops[id].row.id
  {
    hide LazyOp;
    forall id | id in a.ops
      ensures a.ops[id].row.origin == b.ops[id].row.origin && a.ops[id].row.id == b.ops[id].row.id
    {
      LazyShape(a.ops[id], now);
      LazyShape(b.ops[id], now);
    }
  }

  lemma SameExecuting(a: Db, b: Db, now: Time, w: WorkflowId)
    requires SameSeen(a, b, now)
    ensures ExecutingIn(a, w) == ExecutingIn(b, w)
  {
    hide LazyOp;
    SameOrigins(a, b, now);
    forall id ensures id in ExecutingIn(a, w) <==> id in ExecutingIn(b, w) {
      if id in a.ops {
        LazyShape(a.ops[id], now);
        LazyShape(b.ops[id], now);
      }
    }
  }

  lemma SameRecent(a: Db, b: Db, now: Time, w: WorkflowId, since: Time)
    requires SameSeen(a, b, now)
    ensures RecentIn(a, w, since) == RecentIn(b, w, since)
  {
    SameOrigins(a, b, now);
    assert forall id :: id in RecentIn(a, w, since) <==> id in RecentIn(b, w, since);
  }

  lemma {:induction false} SameAncestor(a: Db, b: Db, now: Time, id: OpId, k: nat)
    requires SameSeen(a, b, now)
    ensures AncestorAt(a, id, k) == AncestorAt(b, id, k)
  {
    if k > 0 {
      SameAncestor(a, b, now, id, k - 1);
      SameOrigins(a, b, now);
    }
  }

  /** The uniqueness constraint on idempotency slots. */
  ghost predicate UniqueKeys(db: Db) {
    forall i, j, origin: Origin :: HoldsKey(db, i, origin) && HoldsKey(db, j, origin) ==> i == j
  }

  lemma SameKey(a: Db, b: Db, now: Time, origin: Origin)
    requires SameSeen(a, b, now) && UniqueKeys(a)
    ensures FindKey(a, origin) == FindKey(b, origin)
  {
    SameOrigins(a, b, now);
    assert forall id :: HoldsKey(a, id, origin) <==> HoldsKey(b, id, origin);
    if exists id :: HoldsKey(a, id, origin) {
      var id :| HoldsKey(a, id, origin);
      assert HoldsKey(b, id, origin);
    }
  }

  // ---------------------------------------------------------------- actions

  ghost predicate SameOutcome(x: Outcome, y: Outcome, now: Time) {
    x.result == y.result && SameSeen(x.db, y.db, now) && SameSeen(x.base, y.base, now)
  }

  lemma DeniedSame(a: Db, b: Db, now: Time, origin: Origin, e: Error)
    requires SameSeen(a, b, now)
    ensures SameOutcome(Denying(a, origin, e), Denying(b, origin, e), now)
  {
    hide LazyOp;
  }

  lemma ExpireSame(a: Db, b: Db, now: Time, id: OpId)
    requires SameSeen(a, b, now) && id in a.ops
    ensures SameSeen(Expire(a, now, id), Expire(b, now, id), now)
    ensures id in Expire(a, now, id).ops && id in Expire(b, now, id).ops
    ensures Expire(a, now, id).ops[id] == Expire(b, now, id).ops[id]
  {
    hide LazyOp;
    ExpireSeen(a, now, id);
    ExpireSeen(b, now, id);
    SeenPut(a, b, now, id, Expiry(a.ops[id], now).op, Expiry(a.ops[id], now).audit, Expiry(b.ops[id], now).audit);
  }

  lemma SubmitSame(
    a: Db, b: Db, baseA: Db, baseB: Db, now: Time, v2: bool, handle: OpId, origin: Origin, entry: Entry, checks: Checks)
    requires SameSeen(a, b, now) && SameSeen(baseA, baseB, now) && UniqueKeys(a)
    ensures SameOutcome(Submit(a, baseA, now, v2, handle, origin, entry, checks),
                        Submit(b, baseB, now, v2, handle, origin, entry, checks), now)
  {
    hide LazyOp, Intake, Expire, HoldsKey, FindKey, SameSeen, RecentIn;
    SameRecent(a, b, now, origin.workflow, now - RATE_WINDOW);
    SameKey(a, b, now, origin);
    DeniedSame(a, b, now, origin, ArgumentsTooLarge);
    DeniedSame(a, b, now, origin, RateLimited);
    if FindKey(a, origin).Some? {
      FoundKey(a, origin);
      SameOrigins(a, b, now);
      SameKeys(a, b, now);
      ExpireSame(a, b, now, FindKey(a, origin).value);
    } else {
      var e := Intake(handle, origin, entry, checks, now, v2);
      SameKeys(a, b, now);
      SeenPut(a, b, now, handle, e.op, e.audit, e.audit);
    }
  }

  lemma SameKeys(a: Db, b: Db, now: Time)
    requires SameSeen(a, b, now)
    ensures a.ops.Keys == b.ops.Keys
  {
  }

  lemma OneSame(a: Db, b: Db, now: Time, v2: bool, id: OpId, act: Act)
    requires SameSeen(a, b, now)
    ensures SameOutcome(Perform(a, now, v2, OnOne(id, act)), Perform(b, now, v2, OnOne(id, act)), now)
  {
    hide LazyOp, Acting, Expire, ExecutingIn, SameSeen;
    SameKeys(a, b, now);
    if !Mismatched(id, act) && id in a.ops {
      ExpireSame(a, b, now, id);
      var sa, sb := Expire(a, now, id), Expire(b, now, id);
      SameExecuting(sa, sb, now, sa.ops[id].row.origin.workflow);
      var e := Acting(sa.ops[id], |ExecutingIn(sa, sa.ops[id].row.origin.workflow)|, now, v2, act);
      SeenPut(sa, sb, now, id, e.op, e.audit, e.audit);
    }
  }

  lemma RetrySame(a: Db, b: Db, now: Time, v2: bool, parent: OpId, visible: bool, sub: Submission)
    requires SameSeen(a, b, now) && UniqueKeys(a)
    ensures SameOutcome(Perform(a, now, v2, Retry(parent, visible, sub)),
        Perform(b, now, v2, Retry(parent, visible, sub)), now)
  {
    hide LazyOp, Submit, Expire, SameSeen, AncestorAt, UniqueKeys;
    SameKeys(a, b, now);
    if parent in a.ops {
      ExpireSame(a, b, now, parent);
      var sa, sb := Expire(a, now, parent), Expire(b, now, parent);
      var row := sa.ops[parent].row;
      SameAncestor(sa, sb, now, row.id, MAX_RETRY_CHAIN_DEPTH);
      ExpireKeepsKeys(a, now, parent);
      SubmitSame(sa, sb, a, b, now, v2, sub.handle, RetryOrigin(row, sub), sub.entry, sub.checks);
    }
  }

  lemma ExpireKeepsKeys(db: Db, now: Time, id: OpId)
    requires UniqueKeys(db) && id in db.ops
    ensures UniqueKeys(Expire(db, now, id)) && id in Expire(db, now, id).ops
  {
    hide LazyOp, Expire, SameSeen;
    ExpireSeen(db, now, id);
    SameOrigins(db, Expire(db, now, id), now);
    SameKeys(db, Expire(db, now, id), now);
    KeysFollowOrigins(db, Expire(db, now, id));
  }

  lemma KeysFollowOrigins(a: Db, b: Db)
    requires UniqueKeys(a) && a.ops.Keys == b.ops.Keys
    requires forall id | id in a.ops :: a.ops[id].row.origin == b.ops[id].row.origin
    ensures UniqueKeys(b)
  {
    forall i, j, origin: Origin | HoldsKey(b, i, origin) && HoldsKey(b, j, origin) ensures i == j {
      assert HoldsKey(a, i, origin) && HoldsKey(a, j, origin);
    }
  }

  /** Databases that show the same give every request the same answer, and show the
      same afterwards, committed or rolled back. */
  lemma PerformSame(a: Db, b: Db, now: Time, v2: bool, request: Request)
    requires SameSeen(a, b, now) && UniqueKeys(a)
    ensures SameOutcome(Perform(a, now, v2, request), Perform(b, now, v2, request), now)
  {
    hide Submit, Retrying, Acting, SameSeen, UniqueKeys;
    match request
    case OnOne(id, act) => OneSame(a, b, now, v2, id, act);
    case Prepare(sub, w, args) =>
      SubmitSame(a, b, a, b, now, v2, sub.handle, PrepareOrigin(sub, w, args), sub.entry, sub.checks);
    case Retry(parent, visible, sub) => RetrySame(a, b, now, v2, parent, visible, sub);
  }

  // ---------------------------------------------------------------- unique slots

  lemma ActingKeepsOrigin(op: Op, running: nat, now: Time, v2: bool, act: Act)
    ensures Acting(op, running, now, v2, act).op.row.origin == op.row.origin
  {
  }

  lemma InsertKeepsKeys(db: Db, id: OpId, op: Op, audit: seq<AuditRecord>)
    requires UniqueKeys(db) && id !in db.ops && FindKey(db, op.row.origin).None?
    ensures UniqueKeys(Put(db, id, op, audit))
  {
    var after := Put(db, id, op, audit);
    forall i, j, origin: Origin | HoldsKey(after, i, origin) && HoldsKey(after, j, origin) ensures i == j {
      if i != j {
        assert i != id ==> HoldsKey(db, i, origin);
        assert j != id ==> HoldsKey(db, j, origin);
        var k := if i == id then j else i;
        assert i == id || j == id ==> HoldsKey(db, k, op.row.origin);
      }
    }
  }

  lemma SubmitKeepsKeys(
    db: Db, base: Db, now: Time, v2: bool, handle: OpId, origin: Origin, entry: Entry, checks: Checks)
    requires UniqueKeys(db)
    ensures UniqueKeys(Submit(db, base, now, v2, handle, origin, entry, checks).db)
    ensures UniqueKeys(base) ==> UniqueKeys(Submit(db, base, now, v2, handle, origin, entry, checks).base)
  {
    hide Intake, Expire, HoldsKey, FindKey, RecentIn, UniqueKeys;
    KeysFollowOrigins(db, Denying(db, origin, RateLimited).db);
    KeysFollowOrigins(db, Denying(db, origin, ArgumentsTooLarge).db);
    if FindKey(db, origin).Some? {
      FoundKey(db, origin);
      ExpireKeepsKeys(db, now, FindKey(db, origin).value);
    } else if handle !in db.ops {
      IntakeRow(handle, origin, entry, checks, now, v2);
      var e := Intake(handle, origin, entry, checks, now, v2);
      InsertKeepsKeys(db, handle, e.op, e.audit);
    }
  }

  lemma PerformKeepsKeys(db: Db, now: Time, v2: bool, request: Request)
    requires UniqueKeys(db)
    ensures UniqueKeys(Perform(db, now, v2, request).db) && UniqueKeys(Perform(db, now, v2, request).base)
  {
    hide Submit, Acting, Expire, UniqueKeys, HoldsKey, AncestorAt, ExecutingIn, Sees, Retryable, RetryOrigin,
        PrepareOrigin;
    match request
    case OnOne(id, act) =>
      if !Mismatched(id, act) && id in db.ops {
        ExpireKeepsKeys(db, now, id);
        var seen := Expire(db, now, id);
        var running := |ExecutingIn(seen, seen.ops[id].row.origin.workflow)|;
        ActingKeepsOrigin(seen.ops[id], running, now, v2, act);
        KeysFollowOrigins(seen, PutEffect(seen, id, Acting(seen.ops[id], running, now, v2, act)));
      }
    case Prepare(sub, w, args) =>
      SubmitKeepsKeys(db, db, now, v2, sub.handle, PrepareOrigin(sub, w, args), sub.entry, sub.checks);
    case Retry(parent, visible, sub) =>
      if parent in db.ops {
        ExpireKeepsKeys(db, now, parent);
        var seen := Expire(db, now, parent);
        SubmitKeepsKeys(seen, db, now, v2, sub.handle, RetryOrigin(seen.ops[parent].row, sub), sub.entry, sub.checks);
      }
  }

  lemma AfterKeepsKeys(db: Db, v2: bool, step: Timed)
    requires UniqueKeys(db) && Possible(db, step)
    ensures UniqueKeys(After(db, v2, step))
  {
    hide UniqueKeys, Perform;
    match step
    case Do(now, request, caught) => PerformKeepsKeys(db, now, v2, request);
    case Sweep(now, ids) =>
      SweepSeen(db, now, ids);
      SameOrigins(db, ExpireAll(db, now, ids), now);
      KeysFollowOrigins(db, ExpireAll(db, now, ids));
  }

  // ---------------------------------------------------------------- timed runs

  ghost predicate Runnable(db: Db, v2: bool, steps: seq<Timed>)
    decreases |steps|, 0
  {
    steps == [] || (Runnable(db, v2, steps[..|steps| - 1])
                    && Possible(RunTo(db, v2, steps[..|steps| - 1]), steps[|steps| - 1]))
  }

  /** The database after the steps. */
  ghost function RunTo(db: Db, v2: bool, steps: seq<Timed>): Db
    requires Runnable(db, v2, steps)
    decreases |steps|, 1
  {
    if steps == [] then db else After(RunTo(db, v2, steps[..|steps| - 1]), v2, steps[|steps| - 1])
  }

  /** What the requests among the steps were answered. */
  ghost function Answers(db: Db, v2: bool, steps: seq<Timed>): seq<Result<Reply>>
    requires Runnable(db, v2, steps)
  {
    if steps == [] then []
    else
      var last := steps[|steps| - 1];
      Answers(db, v2, steps[..|steps| - 1])
      + (if last.Do? then [Perform(RunTo(db, v2, steps[..|steps| - 1]), last.now, v2, last.request).result] else [])
  }

  function WithoutSweeps(steps: seq<Timed>): seq<Timed> {
    if steps == [] then []
    else
      WithoutSweeps(steps[..|steps| - 1]) + (if steps[|steps| - 1].Do? then [steps[|steps| - 1]] else [])
  }

  ghost predicate Timely(steps: seq<Timed>, until: Time) {
    && (forall i, j | 0 <= i < j < |steps| :: steps[i].now <= steps[j].now)
    && (forall i | 0 <= i < |steps| :: steps[i].now <= until)
  }

  lemma {:induction false} RunKeepsKeys(db: Db, v2: bool, steps: seq<Timed>)
    requires UniqueKeys(db) && Runnable(db, v2, steps)
    ensures UniqueKeys(RunTo(db, v2, steps))
  {
    hide UniqueKeys, After;
    if steps != [] {
      RunKeepsKeys(db, v2, steps[..|steps| - 1]);
      AfterKeepsKeys(RunTo(db, v2, steps[..|steps| - 1]), v2, steps[|steps| - 1]);
    }
  }

  lemma WithoutLast(steps: seq<Timed>)
    requires steps != []
    ensures var init, last := steps[..|steps| - 1], steps[|steps| - 1];
            && (last.Sweep? ==> WithoutSweeps(steps) == WithoutSweeps(init))
            && (last.Do? ==>
                  && WithoutSweeps(steps) != []
                  && WithoutSweeps(steps)[..|WithoutSweeps(steps)| - 1] == WithoutSweeps(init)
                  && WithoutSweeps(steps)[|WithoutSweeps(steps)| - 1] == last)
  {
  }

  /** Deleting every sweep from a timed run changes no answer, and no read at any later
      time can tell the two databases apart. */
  lemma {:induction false} SweepsAreInvisible(db: Db, v2: bool, steps: seq<Timed>, until: Time)
    requires UniqueKeys(db) && Runnable(db, v2, steps) && Timely(steps, until)
    ensures Runnable(db, v2, WithoutSweeps(steps))
    ensures Answers(db, v2, steps) == Answers(db, v2, WithoutSweeps(steps))
    ensures SameSeen(RunTo(db, v2, steps), RunTo(db, v2, WithoutSweeps(steps)), until)
  {
    hide UniqueKeys, SameSeen, After, Perform, HoldsKey, LazyOp, SameOutcome;
    if steps == [] {
      SeenSelf(db, until);
    } else {
      var init, last := steps[..|steps| - 1], steps[|steps| - 1];
      SweepsAreInvisible(db, v2, init, last.now);
      WithoutLast(steps);
      var a, b := RunTo(db, v2, init), RunTo(db, v2, WithoutSweeps(init));
      if last.Do? {
        RunKeepsKeys(db, v2, init);
        AfterSame(a, b, v2, last);
        SeenLater(After(a, v2, last), After(b, v2, last), last.now, until);
      } else {
        SweepSame(a, b, v2, last);
        SeenLater(After(a, v2, last), b, last.now, until);
      }
    }
  }

  lemma SeenSelf(db: Db, now: Time)
    ensures SameSeen(db, db, now)
  {
  }

  lemma AfterSame(a: Db, b: Db, v2: bool, step: Timed)
    requires step.Do? && SameSeen(a, b, step.now) && UniqueKeys(a)
    ensures SameSeen(After(a, v2, step), After(b, v2, step), step.now)
    ensures Perform(a, step.now, v2, step.request).result == Perform(b, step.now, v2, step.request).result
  {
    hide UniqueKeys, SameSeen, Perform;
    PerformSame(a, b, step.now, v2, step.request);
  }

  lemma SweepSame(a: Db, b: Db, v2: bool, step: Timed)
    requires step.Sweep? && Possible(a, step) && SameSeen(a, b, step.now)
    ensures SameSeen(After(a, v2, step), b, step.now)
  {
    SweepSeen(a, step.now, step.ids);
    SeenTransitive(After(a, v2, step), a, b, step.now);
  }

  /** Adding sweeps or deleting them: runs of the same requests at the same times give
      the same answers, and show the same from then on. */
  lemma SameRequestsSameAnswers(db: Db, v2: bool, steps: seq<Timed>, other: seq<Timed>, until: Time)
    requires UniqueKeys(db) && Runnable(db, v2, steps) && Runnable(db, v2, other)
    requires Timely(steps, until) && Timely(other, until)
    requires WithoutSweeps(steps) == WithoutSweeps(other)
    ensures Answers(db, v2, steps) == Answers(db, v2, other)
    ensures SameSeen(RunTo(db, v2, steps), RunTo(db, v2, other), until)
  {
    hide UniqueKeys, After, Perform, HoldsKey, LazyOp, Runnable, RunTo, Answers;
    SweepsAreInvisible(db, v2, steps, until);
    SweepsAreInvisible(db, v2, other, until);
  }

  // ---------------------------------------------------------------- once each

  /** Operations a sweep at `now` would expire. */
  function OverdueIn(db: Db, now: Time): set<OpId> {
    set id | id in db.ops && Overdue(db.ops[id].row, now)
  }

  /** A sweep over a list that names every overdue operation, in any order and however
      often, expires each of them exactly once and touches nothing else. */
  lemma {:induction false} SweepExpiresOnce(db: Db, now: Time, ids: seq<OpId>)
    requires forall i | 0 <= i < |ids| :: ids[i] in db.ops
    ensures var after := ExpireAll(db, now, ids);
            && (forall id | id in db.ops :: after.ops[id] == if id in ids then LazyOp(db.ops[id], now) else db.ops[id])
            && OverdueIn(after, now) == set id | id in OverdueIn(db, now) && id !in ids
  {
    hide LazyOp, Overdue, Expire;
    if ids == [] {
      assert forall id :: id in OverdueIn(db, now) <==> id in (set k | k in OverdueIn(db, now) && k !in ids);
    } else {
      var init, last := ids[..|ids| - 1], ids[|ids| - 1];
      SweepExpiresOnce(db, now, init);
      var before := ExpireAll(db, now, init);
      var after := Expire(before, now, last);
      ExpireOnly(before, now, last);
      LazyLater(db.ops[last], now, now);
      assert ids == init + [last];
      forall id | id in db.ops
        ensures after.ops[id] == (if id in ids then LazyOp(db.ops[id], now) else db.ops[id])
      {
      }
      forall id ensures id in OverdueIn(after, now) <==> id in OverdueIn(db, now) && id !in ids {
        if id in db.ops { LazyShape(db.ops[id], now); }
      }
    }
  }

  lemma ExpireOnly(db: Db, now: Time, id: OpId)
    requires id in db.ops
    ensures Expire(db, now, id).ops == db.ops[id := LazyOp(db.ops[id], now)]
  {
  }
}
