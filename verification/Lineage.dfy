/** Retry lineage: parents come first, stay settled, and chains stay short. */
module Lineage {
  import opened Wrappers
  import opened StateMachine
  import opened OperationStore
  import opened UseCases
  import opened Histories
  import Submissions

  /** The parent link of `id`, if any, points at an operation that failed to run or
      ended badly, and carries its workflow and arguments over. */
  ghost predicate LinkOk(db: Db, id: OpId)
    requires id in db.ops
  {
    var origin := db.ops[id].row.origin;
    origin.parent.Some? ==>
      && origin.parent.value in db.ops
      && var parent := db.ops[origin.parent.value].row;
         && Retryable(parent.state)
         && parent.origin.workflow == origin.workflow
         && parent.origin.arguments == origin.arguments
  }

  ghost predicate Shallow(db: Db, id: OpId) {
    AncestorAt(db, id, MAX_RETRY_CHAIN_DEPTH + 1).None?
  }

  ghost predicate LineageOk(db: Db) {
    && Keyed(db)
    && (forall id | id in db.ops :: LinkOk(db, id))
    && (forall id | id in db.ops :: Shallow(db, id))
  }

  // ---------------------------------------------------------------- walking up

  lemma {:induction false} AncestorPlus(db: Db, id: OpId, j: nat, k: nat)
    requires AncestorAt(db, id, j).Some?
    ensures AncestorAt(db, id, j + k) == AncestorAt(db, AncestorAt(db, id, j).value, k)
  {
    if k > 0 { AncestorPlus(db, id, j, k - 1); }
  }

  lemma {:induction false} NoneAbove(db: Db, id: OpId, j: nat, k: nat)
    requires j <= k && AncestorAt(db, id, j).None?
    ensures AncestorAt(db, id, k).None?
    decreases k
  {
    if j < k { NoneAbove(db, id, j, k - 1); }
  }

  lemma {:induction false} AncestorStored(db: Db, id: OpId, k: nat)
    requires id in db.ops && (forall i | i in db.ops :: LinkOk(db, i))
    ensures AncestorAt(db, id, k).Some? ==> AncestorAt(db, id, k).value in db.ops
  {
    if k > 0 {
      AncestorStored(db, id, k - 1);
      var a := AncestorAt(db, id, k - 1);
      if a.Some? { assert LinkOk(db, a.value); }
    }
  }

  /** A cycle through `id` would give it an ancestor at every multiple of its length. */
  lemma {:induction false} CycleClimbs(db: Db, id: OpId, k: nat, times: nat)
    requires AncestorAt(db, id, k) == Some(id)
    ensures AncestorAt(db, id, k * times) == Some(id)
  {
    if times > 0 {
      CycleClimbs(db, id, k, times - 1);
      assert k * times == k * (times - 1) + k;
      AncestorPlus(db, id, k * (times - 1), k);
    }
  }

  lemma NoCycle(db: Db, id: OpId, k: nat)
    requires Shallow(db, id) && k > 0
    ensures AncestorAt(db, id, k) != Some(id)
  {
    if AncestorAt(db, id, k) == Some(id) {
      var n := MAX_RETRY_CHAIN_DEPTH + 1;
      CycleClimbs(db, id, k, n);
      assert k * n >= n by { assert (k - 1) * n >= 0; }
      NoneAbove(db, id, n, k * n);
    }
  }

  // ---------------------------------------------------------------- steps

  lemma SameKeepsLinks(db: Db, after: Db)
    requires LineageOk(db) && SameOps(db, after)
    ensures LineageOk(after)
  {
    forall id | id in after.ops ensures LinkOk(after, id) && Shallow(after, id) {
      assert LinkOk(db, id) && Shallow(db, id);
      AncestorsAgree(db, after, id, MAX_RETRY_CHAIN_DEPTH + 1);
      if db.ops[id].row.origin.parent.Some? {
        RetryableStays(db.ops[db.ops[id].row.origin.parent.value], after.ops[db.ops[id].row.origin.parent.value]);
      }
    }
  }

  lemma {:induction false} OldAncestors(db: Db, after: Db, id: OpId, k: nat)
    requires id in db.ops && (forall i | i in db.ops :: LinkOk(db, i)) && AllEvolve(db, after)
    ensures AncestorAt(after, id, k) == AncestorAt(db, id, k)
  {
    if k > 0 {
      OldAncestors(db, after, id, k - 1);
      AncestorStored(db, id, k - 1);
      var a := AncestorAt(db, id, k - 1);
      if a.Some? { assert Evolves(db.ops[a.value], after.ops[a.value]); }
    }
  }

  lemma OldLink(db: Db, after: Db, id: OpId)
    requires LineageOk(db) && AllEvolve(db, after) && id in db.ops
    ensures id in after.ops && LinkOk(after, id) && Shallow(after, id)
  {
    hide AncestorAt;
    assert LinkOk(db, id) && Shallow(db, id) && Evolves(db.ops[id], after.ops[id]);
    OldAncestors(db, after, id, MAX_RETRY_CHAIN_DEPTH + 1);
    if db.ops[id].row.origin.parent.Some? {
      var p := db.ops[id].row.origin.parent.value;
      RetryableStays(db.ops[p], after.ops[p]);
    }
  }

  lemma OneUp(db: Db, id: OpId)
    requires id in db.ops
    ensures AncestorAt(db, id, 1) == db.ops[id].row.origin.parent
  {
    assert AncestorAt(db, id, 0) == Some(id);
  }

  /** A child is one deeper than its parent. */
  lemma ChildIsShallow(db: Db, id: OpId)
    requires id in db.ops
    requires var p := db.ops[id].row.origin.parent; p.Some? ==> AncestorAt(db, p.value, MAX_RETRY_CHAIN_DEPTH).None?
    ensures Shallow(db, id)
  {
    hide AncestorAt;
    OneUp(db, id);
    var p := db.ops[id].row.origin.parent;
    if p.Some? {
      AncestorPlus(db, id, 1, MAX_RETRY_CHAIN_DEPTH);
    } else {
      NoneAbove(db, id, 1, MAX_RETRY_CHAIN_DEPTH + 1);
    }
  }

  lemma NewLink(db: Db, after: Db, now: Time, request: Request)
    requires LineageOk(db) && Passed(db, now, request)
    requires Adds(db, after, request.sub.handle, NewOrigin(db, request))
    requires request.Retry? ==> Retryable(after.ops[request.parent].row.state)
    ensures LinkOk(after, request.sub.handle) && Shallow(after, request.sub.handle)
  {
    hide RecentIn, LazyOp, AncestorAt, Shallow;
    if request.Retry? {
      var p := request.parent;
      assert Evolves(db.ops[p], after.ops[p]);
      OldAncestors(db, after, p, MAX_RETRY_CHAIN_DEPTH);
    }
    ChildIsShallow(after, request.sub.handle);
  }

  lemma StepKeeps(db: Db, v2: bool, step: Timed)
    requires LineageOk(db) && Possible(db, step)
    ensures LineageOk(After(db, v2, step))
  {
    hide After, Passed, LinkOk, Shallow, SameOps;
    AfterSteps(db, v2, step);
    var after := After(db, v2, step);
    if SameOps(db, after) {
      SameKeepsLinks(db, after);
    } else {
      NewLink(db, after, step.now, step.request);
      forall id | id in db.ops ensures LinkOk(after, id) && Shallow(after, id) {
        OldLink(db, after, id);
      }
    }
  }

  // ---------------------------------------------------------------- histories

  lemma {:induction false} HistoryKeeps(dbs: seq<Db>, steps: seq<Timed>, v2: bool, i: nat)
    requires IsHistory(dbs, steps, v2) && i < |dbs|
    ensures LineageOk(dbs[i])
  {
    hide After;
    if i > 0 {
      HistoryKeeps(dbs, steps, v2, i - 1);
      assert Possible(dbs[i - 1], steps[i - 1]) && dbs[i] == After(dbs[i - 1], v2, steps[i - 1]);
      StepKeeps(dbs[i - 1], v2, steps[i - 1]);
    }
  }

  /** In every database of every history: no operation is its own ancestor, none has
      more than ten, and every parent failed to run or ended badly, for good, and shares
      its child's workflow and arguments. */
  lemma LineageHolds(dbs: seq<Db>, steps: seq<Timed>, v2: bool, i: nat, id: OpId)
    requires IsHistory(dbs, steps, v2) && i < |dbs| && id in dbs[i].ops
    ensures var origin := dbs[i].ops[id].row.origin;
            origin.parent.Some? ==>
              && origin.parent.value in dbs[i].ops
              && var parent := dbs[i].ops[origin.parent.value].row;
                 && parent.state in {Failed, Unknown, Blocked, Expired, Rejected}
                 && parent.origin.workflow == origin.workflow && parent.origin.arguments == origin.arguments
    ensures !Submissions.HasAncestors(dbs[i], id, 11)
    ensures forall k: nat | k > 0 :: AncestorAt(dbs[i], id, k) != Some(id)
  {
    hide IsHistory, AncestorAt, Submissions.HasAncestors;
    HistoryKeeps(dbs, steps, v2, i);
    assert LinkOk(dbs[i], id) && Shallow(dbs[i], id);
    Submissions.AncestorsIff(dbs[i], id, 11);
    forall k: nat | k > 0 ensures AncestorAt(dbs[i], id, k) != Some(id) {
      NoCycle(dbs[i], id, k);
    }
  }

  /** A parent was stored before its child, when the child first appears. */
  lemma ParentComesFirst(dbs: seq<Db>, steps: seq<Timed>, v2: bool, i: nat, id: OpId)
    requires IsHistory(dbs, steps, v2) && i < |steps| && id !in dbs[i].ops && id in dbs[i + 1].ops
    ensures dbs[i + 1].ops[id].row.origin.parent.Some? ==> dbs[i + 1].ops[id].row.origin.parent.value in dbs[i].ops
  {
    hide After, Passed;
    HistoryKeeps(dbs, steps, v2, i);
    assert Possible(dbs[i], steps[i]) && dbs[i + 1] == After(dbs[i], v2, steps[i]);
    AfterSteps(dbs[i], v2, steps[i]);
    assert !SameOps(dbs[i], dbs[i + 1]);
    PassedParent(dbs[i], steps[i].now, steps[i].request);
  }

  lemma PassedParent(db: Db, now: Time, request: Request)
    requires Passed(db, now, request) && Keyed(db)
    ensures NewOrigin(db, request).parent.Some? ==> NewOrigin(db, request).parent.value in db.ops
  {
  }

  lemma ParentKept(db: Db, v2: bool, step: Timed, id: OpId)
    requires LineageOk(db) && Possible(db, step) && id in db.ops && db.ops[id].row.origin.parent.Some?
    ensures var after := After(db, v2, step); var p := db.ops[id].row.origin.parent.value;
            && id in after.ops && after.ops[id].row.origin == db.ops[id].row.origin
            && p in db.ops && p in after.ops && after.ops[p].row.state == db.ops[p].row.state
  {
    hide After, Passed, AncestorAt;
    AfterSteps(db, v2, step);
    assert LinkOk(db, id);
    var after := After(db, v2, step);
    var p := db.ops[id].row.origin.parent.value;
    assert AllEvolve(db, after);
    assert Evolves(db.ops[id], after.ops[id]) && Evolves(db.ops[p], after.ops[p]);
    RetryableStays(db.ops[p], after.ops[p]);
  }

  /** A parent's state never changes again, and neither does the link. */
  lemma {:induction false} ParentStaysPut(dbs: seq<Db>, steps: seq<Timed>, v2: bool, i: nat, j: nat, id: OpId)
    requires IsHistory(dbs, steps, v2) && i <= j < |dbs| && id in dbs[i].ops
    requires dbs[i].ops[id].row.origin.parent.Some?
    ensures id in dbs[j].ops && dbs[j].ops[id].row.origin == dbs[i].ops[id].row.origin
    ensures var p := dbs[i].ops[id].row.origin.parent.value;
            p in dbs[i].ops && p in dbs[j].ops && dbs[j].ops[p].row.state == dbs[i].ops[p].row.state
  {
    hide After, AncestorAt;
    HistoryKeeps(dbs, steps, v2, i);
    assert LinkOk(dbs[i], id);
    if i < j {
      ParentStaysPut(dbs, steps, v2, i, j - 1, id);
      HistoryKeeps(dbs, steps, v2, j - 1);
      assert Possible(dbs[j - 1], steps[j - 1]) && dbs[j] == After(dbs[j - 1], v2, steps[j - 1]);
      ParentKept(dbs[j - 1], v2, steps[j - 1], id);
    }
  }
}
