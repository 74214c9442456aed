/** The per-workflow rate limit, over every window of every history. */
module RateLimit {
  import opened Wrappers
  import opened StateMachine
  import opened OperationStore
  import opened UseCases
  import opened Histories

  /** The operations of a workflow created within the closed minute that starts at `a`. */
  function Window(db: Db, w: WorkflowId, a: Time): set<OpId> {
    set id | id in db.ops && db.ops[id].row.origin.workflow == w
        && a <= db.ops[id].row.origin.createdAt <= a + 60
  }

  ghost predicate Within(db: Db, w: WorkflowId, k: nat) {
    forall a: Time :: |Window(db, w, a)| <= k
  }

  /** A request that creates an operation of `w` is held to `k`, and stamps it no
      earlier than it counted. */
  ghost predicate HeldTo(db: Db, step: Timed, w: WorkflowId, k: nat) {
    step.Do? && Passed(db, step.now, step.request) && NewOrigin(db, step.request).workflow == w ==>
      step.request.sub.entry.rateLimit == Some(k) && step.request.sub.stamp >= step.now
  }

  lemma SameWindow(db: Db, after: Db, w: WorkflowId, k: nat)
    requires SameOps(db, after) && Within(db, w, k)
    ensures Within(after, w, k)
  {
    forall a: Time ensures |Window(after, w, a)| <= k {
      assert Window(after, w, a) == Window(db, w, a);
    }
  }

  lemma AddedWindow(db: Db, after: Db, w: WorkflowId, k: nat, id: OpId, origin: Origin, now: Time)
    requires Adds(db, after, id, origin) && Within(db, w, k)
    requires origin.workflow == w ==>
               origin.createdAt >= now && |RecentIn(db, w, now - RATE_WINDOW)| < k
    ensures Within(after, w, k)
  {
    forall a: Time ensures |Window(after, w, a)| <= k {
      if id in Window(after, w, a) {
        assert Window(after, w, a) <= RecentIn(db, w, now - RATE_WINDOW) + {id};
        SmallerSet(Window(after, w, a), RecentIn(db, w, now - RATE_WINDOW) + {id});
      } else {
        assert Window(after, w, a) <= Window(db, w, a);
        SmallerSet(Window(after, w, a), Window(db, w, a));
      }
    }
  }

  lemma StepWithin(db: Db, v2: bool, step: Timed, w: WorkflowId, k: nat)
    requires Keyed(db) && Possible(db, step) && HeldTo(db, step, w, k) && Within(db, w, k)
    ensures Within(After(db, v2, step), w, k)
  {
    hide After, Adds, SameOps, Keyed, RecentIn, Within;
    AfterSteps(db, v2, step);
    var after := After(db, v2, step);
    if SameOps(db, after) {
      SameWindow(db, after, w, k);
    } else {
      AddedWindow(db, after, w, k, step.request.sub.handle, NewOrigin(db, step.request), step.now);
    }
  }

  lemma {:induction false} HistoryKeyed(dbs: seq<Db>, steps: seq<Timed>, v2: bool, i: nat)
    requires IsHistory(dbs, steps, v2) && i < |dbs|
    ensures Keyed(dbs[i])
  {
    hide After;
    if i > 0 {
      HistoryKeyed(dbs, steps, v2, i - 1);
      assert Possible(dbs[i - 1], steps[i - 1]) && dbs[i] == After(dbs[i - 1], v2, steps[i - 1]);
      AfterSteps(dbs[i - 1], v2, steps[i - 1]);
    }
  }

  /** With a fixed limit `k` and creation stamps no earlier than their check, every
      window of a minute, anywhere in any history, holds at most `k` created operations
      of the workflow. */
  lemma {:induction false} EveryWindowHolds(dbs: seq<Db>, steps: seq<Timed>, v2: bool, i: nat, w: WorkflowId, k: nat)
    requires IsHistory(dbs, steps, v2) && i < |dbs|
    requires forall j | 0 <= j < i :: HeldTo(dbs[j], steps[j], w, k)
    ensures Within(dbs[i], w, k)
  {
    hide After, HeldTo;
    if i == 0 {
      assert forall a: Time :: Window(EMPTY, w, a) == {};
    } else {
      EveryWindowHolds(dbs, steps, v2, i - 1, w, k);
      HistoryKeyed(dbs, steps, v2, i - 1);
      assert Possible(dbs[i - 1], steps[i - 1]) && dbs[i] == After(dbs[i - 1], v2, steps[i - 1]);
      StepWithin(dbs[i - 1], v2, steps[i - 1], w, k);
    }
  }
}
