/**
 When a verdict under a frozen policy is stored: exactly, over every operation and every
 principal, and not only while the operation waits for approval.
 */
module Ballots {
  import opened Wrappers
  import opened StateMachine
  import opened OperationStore
  import opened UseCases

  /** The frozen policy lets the principal decide, and it has not decided yet. */
  predicate MayVote(op: Op, who: PrincipalId)
    requires op.row.policy.Some?
  {
    who != op.row.origin.principal && who in op.row.policy.value.eligible && who !in op.votes
  }

  /** A decision is answered with success exactly when it is the approver's first, and
      either the operation waits for approval or the verdict is an approval that stays
      below the quorum: that one is not checked against the state. */
  lemma VoteAcceptedIff(op: Op, who: PrincipalId, v: Verdict, now: Time, ttl: nat)
    requires op.row.policy.Some?
    ensures var e := Voting(op, who, v, now, ttl);
            && (e.result.Success? <==>
                  && MayVote(op, who)
                  && (op.row.state == PendingApproval
                      || (v == ApproveIt && |Voters(op, ApproveIt)| + 1 < op.row.policy.value.quorum)))
            && (MayVote(op, who) ==> e.op.votes == op.votes[who := v])
            && (!MayVote(op, who) ==> e.op == op)
  {
    hide Voters;
    if who !in op.votes { VoteCounts(op, who, v); }
    if who != op.row.origin.principal && who in op.row.policy.value.eligible && who !in op.votes {
      MovingVoted(RecordVote(op, who, v), T06, who, Updates(None, Some(now + ttl), None));
      MovingVoted(RecordVote(op, who, v), T07, who, NO_UPDATES);
    }
  }

  lemma MovingVoted(op: Op, t: TransitionId, actor: string, up: Updates)
    requires t == T06 || t == T07
    ensures Moving(op, t, actor, up).op.votes == op.votes
    ensures Moving(op, t, actor, up).result.Success? <==> op.row.state == PendingApproval
  {
  }

  function Deciding(who: PrincipalId, v: Verdict, ttl: nat): Act {
    if v == ApproveIt then Approve(who, false, ttl) else Reject(who, false)
  }

  /** On the database, through a channel that lets every error out: the verdict is there
      afterwards exactly under that condition, on the operation as lazy expiry leaves it. */
  lemma VoteStoredIff(db: Db, now: Time, id: OpId, who: PrincipalId, v: Verdict, ttl: nat)
    requires id in db.ops && db.ops[id].row.policy.Some? && who !in db.ops[id].votes
    ensures var op := LazyOp(db.ops[id], now);
            var after := Scoped(Perform(db, now, true, OnOne(id, Deciding(who, v, ttl))), false);
            && op.row.policy == db.ops[id].row.policy && op.votes == db.ops[id].votes
            && id in after.ops
            && (who in after.ops[id].votes <==>
                  && MayVote(op, who)
                  && (op.row.state == PendingApproval
                      || (v == ApproveIt && |Voters(op, ApproveIt)| + 1 < op.row.policy.value.quorum)))
  {
    hide Voters, Voting, ExecutingIn, LazyOp, MayVote, Expire;
    var op := LazyOp(db.ops[id], now);
    LazySeen(db, now, id);
    LazyKeepsVotes(db.ops[id], now);
    VoteAcceptedIff(op, who, v, now, if v == ApproveIt then ttl else 0);
  }

  lemma LazySeen(db: Db, now: Time, id: OpId)
    requires id in db.ops
    ensures Expire(db, now, id).ops.Keys == db.ops.Keys && Expire(db, now, id).ops[id] == LazyOp(db.ops[id], now)
  {
  }

  lemma LazyKeepsVotes(op: Op, now: Time)
    ensures LazyOp(op, now).row.policy == op.row.policy && LazyOp(op, now).votes == op.votes
  {
  }

  const TWO_OF_TWO := Entry(None, 1, true, 2, ["b", "c"], 60, 60)
  const REQUEST := Prepare(Submission(0, "a", "prod", None, 0, TWO_OF_TWO, Checks(true, true, true)), "w", "{}")

  lemma RequestWaits()
    ensures var o := Perform(EMPTY, 0, true, REQUEST);
            && o.result.Success? && 0 in o.db.ops
            && o.db.ops[0].row.origin.principal == "a" && o.db.ops[0].row.state == PendingApproval
            && o.db.ops[0].row.approvalExpiresAt == Some(60) && o.db.ops[0].votes == map[]
            && o.db.ops[0].row.policy == Some(Policy(2, ["b", "c"]))
  {
    hide ValidateTransition, RecentIn;
    var origin := PrepareOrigin(REQUEST.sub, "w", "{}");
    assert FindKey(EMPTY, origin).None?;
    assert ValidateTransition(T04, Some(Preparing)).Success? by { T04Legal(); }
  }

  lemma T04Legal()
    ensures ValidateTransition(T04, Some(Preparing)).Success?
  {
  }

  lemma LateIsExpired(op: Op)
    requires op.row.state == PendingApproval && op.row.approvalExpiresAt == Some(60)
    ensures LazyOp(op, 61).row.state == Expired && LazyOp(op, 61).row.origin == op.row.origin
  {
  }

  /** So an approval can land on an operation that expired: prepared under a policy of two
      approvals, approved by one of them after the approval deadline. */
  lemma ExpiredVoteIsStored()
    ensures exists dbs: seq<Db>, steps: seq<Timed> ::
              && IsHistory(dbs, steps, true) && |steps| == 2
              && 0 in dbs[2].ops && dbs[2].ops[0].row.state == Expired && "b" in dbs[2].ops[0].votes
  {
    hide Perform, Expire, LazyOp, Voters;
    RequestWaits();
    var first := Do(0, REQUEST, false);
    var later := Do(61, OnOne(0, Deciding("b", ApproveIt, 60)), false);
    var db1 := After(EMPTY, true, first);
    var db2 := After(db1, true, later);
    var op := db1.ops[0];
    LateIsExpired(op);
    NoVotes(op);
    VoteStoredIff(db1, 61, 0, "b", ApproveIt, 60);
    VoteLeavesState(db1, 61, 0, "b", 60);
    assert IsHistory([EMPTY, db1, db2], [first, later], true);
  }

  lemma NoVotes(op: Op)
    requires op.votes == map[]
    ensures forall now: Time :: |Voters(LazyOp(op, now), ApproveIt)| == 0
  {
    hide LazyOp;
    forall now: Time ensures |Voters(LazyOp(op, now), ApproveIt)| == 0 {
      LazyKeepsVotes(op, now);
      assert Voters(LazyOp(op, now), ApproveIt) == {};
    }
  }

  /** An approval that stays below the quorum moves nothing. */
  lemma VoteLeavesState(db: Db, now: Time, id: OpId, who: PrincipalId, ttl: nat)
    requires id in db.ops && db.ops[id].row.policy.Some? && who !in db.ops[id].votes
    requires |Voters(LazyOp(db.ops[id], now), ApproveIt)| + 1 < db.ops[id].row.policy.value.quorum
    requires MayVote(db.ops[id], who)
    ensures var after := Scoped(Perform(db, now, true, OnOne(id, Deciding(who, ApproveIt, ttl))), false);
            id in after.ops && after.ops[id].row == LazyOp(db.ops[id], now).row
  {
    hide Voters, ExecutingIn, LazyOp, Expire;
    var op := LazyOp(db.ops[id], now);
    LazySeen(db, now, id);
    LazyKeepsVotes(db.ops[id], now);
    LazyKeepsOrigin(db.ops[id], now);
    VoteCounts(op, who, ApproveIt);
  }

  lemma LazyKeepsOrigin(op: Op, now: Time)
    ensures LazyOp(op, now).row.origin == op.row.origin
  {
  }
}
