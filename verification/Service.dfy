/**
 The operation service over a database session, in the form the program has: methods
 that read a row, update it in place, append events and audit entries, and raise.
 Every method is proved against what module UseCases says the request does.
 */
module Service {
  import opened Wrappers
  import opened StateMachine
  import opened OperationStore
  import opened UseCases
  import Acts
  import Deadlines
  import Lineage
  import Submissions
  import Sweeps

  // ---------------------------------------------------------------- integrity

  /** The constraints of the schema, and agreement of rows, events and audit. */
  ghost predicate Sound(db: Db) {
    && Consistent(db)
    && Sweeps.UniqueKeys(db)
    && (forall id | id in db.ops && db.ops[id].row.origin.parent.Some? :: db.ops[id].row.origin.parent.value in db.ops)
  }

  lemma RowId(db: Db, id: OpId)
    requires Sound(db) && id in db.ops
    ensures OpOk(id, db.ops[id]) && db.ops[id].row.id == id && Known(db.ops[id], db.ops[id].row)
  {
  }

  /** Storing an operation again, with at most one new event, documented. */
  lemma PutKeepsSound(db: Db, id: OpId, op: Op, added: seq<Event>)
    requires Sound(db) && id in db.ops && OpOk(id, op) && op.row.origin == db.ops[id].row.origin
    requires |added| <= 1 && op.log == db.ops[id].log + added
    ensures Sound(Put(db, id, op, AuditsOf(id, added)))
  {
    hide OpOk, HoldsKey, Trail;
    PutKeeps(db, id, op, added);
    Sweeps.KeysFollowOrigins(db, Put(db, id, op, AuditsOf(id, added)));
  }

  lemma MoveKeepsSound(db: Db, held: Row, t: TransitionId, actor: string, up: Updates, moved: Op)
    requires Sound(db) && held.id in db.ops && Known(db.ops[held.id], held)
    requires ValidateTransition(t, Some(held.state)).Success?
    requires Move(db.ops[held.id], held, t, actor, up) == Some(moved)
    ensures Sound(Put(db, held.id, moved, [MoveAudit(held.id, t, actor)]))
    ensures moved.row.id == held.id
  {
    RowId(db, held.id);
    var op := db.ops[held.id];
    MoveKeepsOp(held.id, op, held, t, actor, up, moved);
    var e := Event(Some(op.row.state), ById(t).to, t, actor);
    assert AuditsOf(held.id, [e]) == [MoveAudit(held.id, t, actor)];
    PutKeepsSound(db, held.id, moved, [e]);
  }

  /** Storing an operation whose log and position do not change. */
  lemma SilentKeepsSound(db: Db, id: OpId, op: Op)
    requires Sound(db) && id in db.ops && op.log == db.ops[id].log
    requires op.row.(burned := db.ops[id].row.burned) == db.ops[id].row
    ensures Sound(Put(db, id, op, []))
  {
    RowId(db, id);
    assert AuditsOf(id, []) == [] && op.log == db.ops[id].log + [];
    PutKeepsSound(db, id, op, []);
  }

  lemma CreationKeepsSound(db: Db, id: OpId, origin: Origin)
    requires Sound(db) && id !in db.ops && FindKey(db, origin).None?
    requires origin.parent.Some? ==> origin.parent.value in db.ops
    ensures Sound(Put(db, id, NewOperation(id, origin), [AuditOf(id, CreationEvent(origin))]))
  {
    hide HoldsKey, Trail;
    NewOperationOk(id, origin);
    assert AuditsOf(id, [CreationEvent(origin)]) == [AuditOf(id, CreationEvent(origin))];
    assert [] + [CreationEvent(origin)] == [CreationEvent(origin)];
    PutKeeps(db, id, NewOperation(id, origin), [CreationEvent(origin)]);
    Sweeps.InsertKeepsKeys(db, id, NewOperation(id, origin), [AuditOf(id, CreationEvent(origin))]);
  }

  lemma AnnotationKeepsSound(db: Db, record: AuditRecord)
    requires Sound(db) && record.action.Annotation?
    ensures Sound(Db(db.ops, db.audit + [record]))
  {
    var after := Db(db.ops, db.audit + [record]);
    forall id ensures TrailOk(after, id) {
      TrailConcat(db.audit, [record], id);
      TrailOne(record, id);
      assert TrailOk(db, id);
    }
    Sweeps.KeysFollowOrigins(db, after);
  }

  lemma EmptySound()
    ensures Sound(EMPTY)
  {
  }

  // ---------------------------------------------------------------- the session

  /** One database session: the working copy, and what a rollback returns to. */
  class Store {
    var ops: map<OpId, Op>
    var audit: seq<AuditRecord>
    var committed: Db
    const v2: bool

    ghost function Contents(): Db
      reads this
    {
      Db(ops, audit)
    }

    ghost predicate Valid()
      reads this
    {
      Sound(Contents()) && Sound(committed)
    }

    constructor (v2: bool)
      ensures Valid() && Contents() == EMPTY == committed && this.v2 == v2
    {
      ops, audit, committed := map[], [], EMPTY;
      this.v2 := v2;
      EmptySound();
    }

    method Commit()
      requires Valid()
      modifies this`committed
      ensures Valid() && committed == Contents()
    {
      committed := Db(ops, audit);
    }

    method Rollback()
      requires Valid()
      modifies this`ops, this`audit
      ensures Valid() && Contents() == committed
    {
      ops, audit := committed.ops, committed.audit;
    }

    // ------------------------------------------------------------ repository

    method UpdateState(id: OpId, expected: nat, to: State, up: Updates) returns (r: Result<Row>)
      requires id in ops
      modifies this`ops
      ensures match CompareAndSetState(old(ops)[id], expected, to, up)
              case None => ops == old(ops) && r == Failure(OptimisticLock)
              case Some(op) => ops == old(ops)[id := op] && r == Success(op.row)
    {
      var op := ops[id];
      if op.row.version != expected {
        return Failure(OptimisticLock);
      }
      var row := op.row.(state := to, version := expected + 1);
      if up.approvalExpiresAt.Some? { row := row.(approvalExpiresAt := up.approvalExpiresAt); }
      if up.executionDeadline.Some? { row := row.(executionDeadline := up.executionDeadline); }
      if up.policy.Some? { row := row.(policy := up.policy); }
      ops := ops[id := op.(row := row)];
      return Success(row);
    }

    method AppendEvent(id: OpId, e: Event)
      requires id in ops
      modifies this`ops
      ensures ops == old(ops)[id := old(ops)[id].(log := old(ops)[id].log + [e])]
    {
      ops := ops[id := ops[id].(log := ops[id].log + [e])];
    }

    /** The compare-and-set and its event: both, or neither. */
    method UpdateWithEvent(id: OpId, expected: nat, t: TransitionId, from: Option<State>, actor: string, up: Updates)
      returns (r: Result<Row>)
      requires id in ops
      modifies this`ops
      ensures match ApplyTransition(old(ops)[id], expected, t, from, actor, up)
              case None => ops == old(ops) && r == Failure(OptimisticLock)
              case Some(op) => ops == old(ops)[id := op] && r == Success(op.row)
    {
      r := UpdateState(id, expected, ById(t).to, up);
      if r.Failure? { return; }
      AppendEvent(id, Event(from, ById(t).to, t, actor));
    }

    method Burn(id: OpId) returns (burned: bool)
      requires id in ops
      modifies this`ops
      ensures match BurnHandle(old(ops)[id])
              case None => ops == old(ops) && !burned
              case Some(op) => ops == old(ops)[id := op] && burned
    {
      var op := ops[id];
      if op.row.burned { return false; }
      ops := ops[id := op.(row := op.row.(burned := true))];
      return true;
    }

    method WriteAudit(record: AuditRecord)
      modifies this`audit
      ensures audit == old(audit) + [record]
    {
      audit := audit + [record];
    }

    /** The operation that holds the idempotency slot `origin` names, if any. */
    method FindByIdempotency(origin: Origin) returns (found: Option<OpId>)
      requires Sweeps.UniqueKeys(Contents())
      ensures found == FindKey(Contents(), origin)
    {
      var ids := ops.Keys;
      while ids != {}
        invariant ids <= ops.Keys
        invariant forall id | id in ops && id !in ids :: !HoldsKey(Contents(), id, origin)
        decreases |ids|
      {
        var id :| id in ids;
        if HoldsKey(Db(ops, audit), id, origin) {
          KeyIsFound(Contents(), id, origin);
          return Some(id);
        }
        ids := ids - {id};
      }
      return None;
    }

    /** The overdue rows, each once, in whatever order the database gives them. */
    method ListOverdue(now: Time) returns (rows: seq<OpId>)
      ensures forall i | 0 <= i < |rows| :: rows[i] in ops && Overdue(ops[rows[i]].row, now)
      ensures forall id | id in Sweeps.OverdueIn(Contents(), now) :: id in rows
      ensures forall i, j | 0 <= i < j < |rows| :: rows[i] != rows[j]
      ensures |rows| == |Sweeps.OverdueIn(Contents(), now)|
    {
      rows := [];
      var ids := Sweeps.OverdueIn(Db(ops, audit), now);
      while ids != {}
        invariant ids <= Sweeps.OverdueIn(Contents(), now)
        invariant |rows| + |ids| == |Sweeps.OverdueIn(Contents(), now)|
        invariant forall id | id in Sweeps.OverdueIn(Contents(), now) :: id in ids || id in rows
        invariant forall i | 0 <= i < |rows| :: rows[i] in ops && Overdue(ops[rows[i]].row, now) && rows[i] !in ids
        invariant forall i, j | 0 <= i < j < |rows| :: rows[i] != rows[j]
        decreases |ids|
      {
        var id :| id in ids;
        ids := ids - {id};
        rows := rows + [id];
      }
    }

    // ------------------------------------------------------------ transitions

    /** Validate, apply and audit one transition on a row read earlier, possibly stale.
        A lost race is raised as the state error it is; the defensive retry after it is
        never taken. */
    method ApplyAndAudit(held: Row, t: TransitionId, actor: string, up: Updates) returns (r: Result<Row>)
      requires Valid() && held.id in ops && Known(ops[held.id], held)
      modifies this`ops, this`audit
      ensures Valid()
      ensures var was := old(ops)[held.id];
              if ValidateTransition(t, Some(held.state)).Success? && was.row.version == held.version then
                var moved := Move(was, held, t, actor, up).value;
                && Contents() == Put(old(Contents()), held.id, moved, [MoveAudit(held.id, t, actor)])
                && r == Success(moved.row)
              else Contents() == old(Contents()) && r == Failure(InvalidStateTransition)
    {
      hide Sound, Known, OpOk;
      if ValidateTransition(t, Some(held.state)).Failure? {
        return Failure(InvalidStateTransition);
      }
      ghost var was := ops[held.id];
      RowId(Contents(), held.id);
      r := UpdateWithEvent(held.id, held.version, t, Some(held.state), actor, up);
      if r.Failure? {
        var current := ops[held.id].row;
        if ValidateTransition(t, Some(current.state)).Failure? {
          return Failure(InvalidStateTransition);
        }
        r := UpdateWithEvent(current.id, current.version, t, Some(current.state), actor, up);
        StaleIsPast(held.id, was, held, t);
        assert false;
      } else {
        MoveKeepsSound(old(Contents()), held, t, actor, up, Move(was, held, t, actor, up).value);
      }
      WriteAudit(MoveAudit(held.id, t, actor));
      assert Contents() == Put(old(Contents()), held.id, Move(was, held, t, actor, up).value,
          [MoveAudit(held.id, t, actor)]);
    }

    /** As `ApplyAndAudit`, on the row as it stands. */
    method MoveCurrent(id: OpId, t: TransitionId, actor: string, up: Updates) returns (r: Result<Reply>)
      requires Valid() && id in ops
      modifies this`ops, this`audit
      ensures Valid()
      ensures var e := Moving(old(ops)[id], t, actor, up);
              Contents() == PutEffect(old(Contents()), id, e) && r == e.result
    {
      RowId(Contents(), id);
      var moved := ApplyAndAudit(ops[id].row, t, actor, up);
      if moved.Failure? {
        PutSame(Contents(), id);
        return Failure(moved.error);
      }
      return Success(Reply(moved.value, false));
    }

    /** Lazy expiry of a row read earlier: apply it, or find it already settled. */
    method ApplyLazyExpiry(held: Row, now: Time) returns (row: Row)
      requires Valid() && held.id in ops && Known(ops[held.id], held)
      modifies this`ops, this`audit
      ensures Valid() && ops.Keys == old(ops).Keys
      ensures held == old(ops)[held.id].row ==> Contents() == Expire(old(Contents()), now, held.id)
      ensures held.version != old(ops)[held.id].row.version ==> Contents() == old(Contents())
      ensures Overdue(held, now) ==> row == ops[held.id].row
      ensures !Overdue(held, now) ==> row == held && Contents() == old(Contents())
      ensures held == old(ops)[held.id].row ==> ops == old(ops)[held.id := Acts.Shown(old(ops)[held.id], now)]
      ensures if Deadlines.Lapsed(held, now) then row == ops[held.id].row else row == held
    {
      hide Sound;
      Deadlines.LazyIff(ops[held.id], now);
      RowId(Contents(), held.id);
      PutSame(Contents(), held.id);
      var x := OverdueExpiry(held.state, now, held.approvalExpiresAt, held.executionDeadline);
      if x.None? {
        return held;
      }
      var r := ApplyAndAudit(held, x.value, "clock", NO_UPDATES);
      if r.Failure? {
        row := ops[held.id].row;
      } else {
        row := r.value;
      }
    }

    /** Read one operation, lazily expired. */
    method GetRow(id: OpId, now: Time) returns (r: Result<Row>)
      requires Valid()
      modifies this`ops, this`audit
      ensures Valid()
      ensures id !in old(ops) ==> Contents() == old(Contents()) && r == Failure(OperationNotFound)
      ensures id in old(ops) ==> Contents() == Expire(old(Contents()), now, id) && r == Success(ops[id].row)
    {
      if id !in ops {
        return Failure(OperationNotFound);
      }
      RowId(Contents(), id);
      var row := ApplyLazyExpiry(ops[id].row, now);
      return Success(row);
    }

    /** As `GetRow`, and only for a caller who may see the operation. */
    method GetOwned(id: OpId, who: PrincipalId, visible: bool, now: Time) returns (r: Result<Row>)
      requires Valid()
      modifies this`ops, this`audit
      ensures Valid()
      ensures id !in old(ops) ==> Contents() == old(Contents()) && r == Failure(OperationNotFound)
      ensures id in old(ops) ==> Contents() == Expire(old(Contents()), now, id)
      ensures id in old(ops) ==>
                r == if Sees(ops[id], who, visible, v2) then Success(ops[id].row) else Failure(OperationNotFound)
    {
      r := GetRow(id, now);
      if r.Failure? || r.value.origin.principal == who { return; }
      if !v2 { return Failure(OperationNotFound); }
      if !visible { return Failure(OperationNotFound); }
    }

    // ------------------------------------------------------------ use cases

    method GetOperation(id: OpId, who: PrincipalId, visible: bool, now: Time) returns (r: Result<Reply>)
      requires Valid()
      modifies this`ops, this`audit
      ensures Valid()
      ensures var o := Perform(old(Contents()), now, v2, OnOne(id, Get(who, visible)));
              Contents() == o.db && r == o.result
    {
      hide Sound, Known, OpOk, ExecutingIn, Voters, Moving, Expiry;
      var row := GetOwned(id, who, visible, now);
      if id in ops { PutSame(Contents(), id); }
      if row.Failure? { return Failure(row.error); }
      return Success(Reply(row.value, false));
    }

    method CancelOperation(id: OpId, who: PrincipalId, visible: bool, now: Time) returns (r: Result<Reply>)
      requires Valid()
      modifies this`ops, this`audit
      ensures Valid()
      ensures var o := Perform(old(Contents()), now, v2, OnOne(id, Cancel(who, visible)));
              Contents() == o.db && r == o.result
    {
      hide Sound, Known, OpOk, ExecutingIn, Voters, Moving, Expiry;
      var owned := GetOwned(id, who, visible, now);
      if id in ops { PutSame(Contents(), id); }
      if owned.Failure? { return Failure(owned.error); }
      var row := owned.value;
      if row.state == PendingApproval {
        r := MoveCurrent(id, T09, who, NO_UPDATES);
      } else if row.state == Approved {
        r := MoveCurrent(id, T12, who, NO_UPDATES);
      } else {
        return Failure(InvalidStateTransition);
      }
    }

    /** Record one approver's verdict in their own approval row. */
    method RecordDecision(id: OpId, who: PrincipalId, v: Verdict)
      requires Valid() && id in ops
      modifies this`ops
      ensures Valid() && Contents() == Put(old(Contents()), id, RecordVote(old(ops)[id], who, v), [])
    {
      SilentKeepsSound(Contents(), id, RecordVote(ops[id], who, v));
      ops := ops[id := ops[id].(votes := ops[id].votes[who := v])];
      assert Contents() == Put(old(Contents()), id, RecordVote(old(ops)[id], who, v), []);
    }

    /** A decision under a frozen policy: eligibility, one verdict each, then the tally. */
    method DecideByQuorum(id: OpId, who: PrincipalId, v: Verdict, now: Time, ttl: nat) returns (r: Result<Reply>)
      requires Valid() && id in ops && ops[id].row.policy.Some?
      modifies this`ops, this`audit
      ensures Valid()
      ensures var e := Voting(old(ops)[id], who, v, now, ttl);
              Contents() == PutEffect(old(Contents()), id, e) && r == e.result
    {
      PutSame(Contents(), id);
      var row := ops[id].row;
      if who == row.origin.principal || who !in row.policy.value.eligible {
        return Failure(OperationNotFound);
      }
      if who in ops[id].votes {
        return Failure(ApprovalAlreadyDecided);
      }
      RecordDecision(id, who, v);
      PutTwice(old(Contents()), id, ops[id]);
      if v == RejectIt {
        r := MoveCurrent(id, T07, who, NO_UPDATES);
        return;
      }
      var approved := |Voters(ops[id], ApproveIt)|;
      if approved < row.policy.value.quorum {
        return Success(Reply(row, false));
      }
      r := MoveCurrent(id, T06, who, Updates(None, Some(now + ttl), None));
    }

    method ApproveOperation(id: OpId, who: PrincipalId, allowed: bool, ttl: nat, now: Time) returns (r: Result<Reply>)
      requires Valid()
      modifies this`ops, this`audit
      ensures Valid()
      ensures var o := Perform(old(Contents()), now, v2, OnOne(id, Approve(who, allowed, ttl)));
              Contents() == o.db && r == o.result
    {
      hide Sound, Known, OpOk, ExecutingIn, Voters, Moving, Expiry;
      var row := GetRow(id, now);
      if row.Failure? { return Failure(row.error); }
      PutSame(Contents(), id);
      if v2 && row.value.policy.Some? {
        r := DecideByQuorum(id, who, ApproveIt, now, ttl);
      } else if v2 && !allowed {
        return Failure(OperationNotFound);
      } else {
        r := MoveCurrent(id, T06, who, Updates(None, Some(now + ttl), None));
      }
    }

    method RejectOperation(id: OpId, who: PrincipalId, allowed: bool, now: Time) returns (r: Result<Reply>)
      requires Valid()
      modifies this`ops, this`audit
      ensures Valid()
      ensures var o := Perform(old(Contents()), now, v2, OnOne(id, Reject(who, allowed)));
              Contents() == o.db && r == o.result
    {
      hide Sound, Known, OpOk, ExecutingIn, Voters, Moving, Expiry;
      var row := GetRow(id, now);
      if row.Failure? { return Failure(row.error); }
      PutSame(Contents(), id);
      if v2 && row.value.policy.Some? {
        r := DecideByQuorum(id, who, RejectIt, now, 0);
      } else if v2 && !allowed {
        return Failure(OperationNotFound);
      } else {
        r := MoveCurrent(id, T07, who, NO_UPDATES);
      }
    }

    /** The checks of execute before the burn, in order. */
    method CheckExecutable(row: Row, sameEnvironment: bool, live: Live) returns (refusal: Option<Error>)
      ensures refusal == BarredBy(row, sameEnvironment, live, v2)
      ensures refusal.None? <==>
                (v2 || sameEnvironment) && !row.burned && row.state == Approved && live == LiveOk
    {
      if !v2 && !sameEnvironment { return Some(OperationNotFound); }
      if row.burned { return Some(HandleAlreadyUsed); }
      match row.state {
        case PendingApproval => return Some(ApprovalRequired);
        case Expired => return Some(OperationExpired);
        case Canceled => return Some(OperationCanceled);
        case Approved =>
        case _ => return Some(HandleInvalid);
      }
      match live {
        case Drifted => return Some(DefinitionDrift);
        case NotReady => return Some(PreflightFailed);
        case LiveOk => return None;
      }
    }

    /** Burn the handle, then count, then T10; a refusal leaves the burn in the open
        transaction. */
    method ExecuteOperation(
      id: OpId, handle: OpId, who: PrincipalId, visible: bool, sameEnvironment: bool, live: Live,
      maxConcurrent: nat, now: Time)
      returns (r: Result<Reply>)
      requires Valid()
      modifies this`ops, this`audit
      ensures Valid()
      ensures var o := Perform(old(Contents()), now, v2,
                               OnOne(id, Execute(who, visible, handle, sameEnvironment, live, maxConcurrent)));
              Contents() == o.db && r == o.result
    {
      hide Sound, Known, OpOk, ExecutingIn, Voters, Moving, Expiry;
      if handle != id { return Failure(ArgumentMismatch); }
      var owned := GetOwned(id, who, visible, now);
      if id in ops { PutSame(Contents(), id); }
      if owned.Failure? { return Failure(owned.error); }
      ghost var seen := Contents();
      var refusal := CheckExecutable(owned.value, sameEnvironment, live);
      if refusal.Some? { return Failure(refusal.value); }
      SilentKeepsSound(Contents(), id, BurnHandle(ops[id]).value);
      var burned := Burn(id);
      assert burned;
      assert Contents() == Put(seen, id, BurnHandle(seen.ops[id]).value, []);
      BurnRunsNothing(seen, id);
      var running := |ExecutingIn(Db(ops, audit), owned.value.origin.workflow)|;
      if running >= maxConcurrent { return Failure(ConcurrencyLimitReached); }
      PutTwice(seen, id, ops[id]);
      r := MoveCurrent(id, T10, who, NO_UPDATES);
    }

    method RecordOutcome(id: OpId, reported: CallOutcome, now: Time) returns (r: Result<Reply>)
      requires Valid()
      modifies this`ops, this`audit
      ensures Valid()
      ensures var o := Perform(old(Contents()), now, v2, OnOne(id, Record(reported)));
              Contents() == o.db && r == o.result
      ensures r.Success? <==> id in old(ops) && old(ops)[id].row.state == State.Executing
      ensures r.Success? ==>
                && id in ops
                && (reported == CallSucceeded ==> ops[id] == Acts.Advanced(old(ops)[id], T13, Succeeded, "system"))
                && (reported == CallFailed ==> ops[id] == Acts.Advanced(old(ops)[id], T14, Failed, "system"))
                && (reported == CallIndeterminate ==>
                      ops[id] == Acts.Advanced(old(ops)[id], T15, Unknown, "system"))
    {
      hide Sound, Known, OpOk, ExecutingIn, Voters, Moving, Expiry, Acts.Advanced;
      if id in ops { Recorded(Contents(), now, v2, id, reported); }
      var row := GetRow(id, now);
      if row.Failure? { return Failure(row.error); }
      PutSame(Contents(), id);
      if row.value.state != State.Executing { return Failure(InvalidStateTransition); }
      r := MoveCurrent(id, OutcomeTransition(reported), "system", NO_UPDATES);
    }

    /** The maintenance sweep: every overdue operation expires, once; the rest is
        untouched; the answer is how many there were. */
    method ExpireOverdueOperations(now: Time) returns (changed: nat)
      requires Valid()
      modifies this`ops, this`audit
      ensures Valid()
      ensures ops.Keys == old(ops).Keys
      ensures forall id | id in ops :: ops[id] == LazyOp(old(ops)[id], now)
      ensures Sweeps.OverdueIn(Contents(), now) == {}
      ensures changed == |Sweeps.OverdueIn(old(Contents()), now)|
      ensures forall id | id in ops ::
                ops[id] == Acts.Shown(old(ops)[id], now) && !Deadlines.Lapsed(ops[id].row, now)
      ensures changed == |set id | id in old(ops) && Deadlines.Lapsed(old(ops)[id].row, now)|
    {
      hide Sound, Known, OpOk, LazyOp, ExpireAll, Expire, Overdue, Acts.Shown, Deadlines.Lapsed;
      ghost var before := Contents();
      var candidates := ListOverdue(now);
      changed := 0;
      SweepStarts(before, now, candidates);
      for i := 0 to |candidates|
        invariant Valid() && changed == i
        invariant Contents() == ExpireAll(before, now, candidates[..i])
      {
        SweepNext(before, now, candidates, i);
        RowId(Contents(), candidates[i]);
        var row := ops[candidates[i]].row;
        var after := ApplyLazyExpiry(row, now);
        if after.state != row.state { changed := changed + 1; }
      }
      assert candidates[..|candidates|] == candidates;
      SweepEnds(before, now, candidates);
      SweepShows(before, now);
    }

    // ------------------------------------------------------------ prepare and retry

    /** A refused request is still audited: the denial is committed, then raised. */
    method Deny(origin: Origin, e: Error) returns (r: Result<Reply>)
      requires Valid()
      modifies this`audit, this`committed
      ensures Valid()
      ensures var o := Denying(old(Contents()), origin, e); Contents() == o.db && committed == o.base && r == o.result
    {
      var record := AuditRecord(origin.principal, Annotation("operation.prepare_denied"), OnWorkflow(origin.workflow),
          Denied);
      AnnotationKeepsSound(Contents(), record);
      WriteAudit(record);
      Commit();
      return Failure(e);
    }

    /** Insert the row in Preparing and record T01. */
    method CreateOperation(handle: OpId, origin: Origin)
      requires Valid() && handle !in ops && FindKey(Contents(), origin).None?
      requires origin.parent.Some? ==> origin.parent.value in ops
      modifies this`ops, this`audit
      ensures Valid() && handle in ops
      ensures Contents() == Put(old(Contents()), handle, NewOperation(handle, origin),
          [AuditOf(handle, CreationEvent(origin))])
    {
      hide Sound, HoldsKey, FindKey;
      CreationKeepsSound(Contents(), handle, origin);
      ops := ops[handle := Op(Row(handle, origin, Preparing, 1, false, None, None, None), [], map[])];
      AppendEvent(handle, Event(None, Preparing, T01, origin.principal));
      WriteAudit(AuditRecord(origin.principal, ActionOf(T01), OnOperation(handle), OutcomeOf(T01)));
      assert [] + [CreationEvent(origin)] == [CreationEvent(origin)];
      assert ops[handle] == NewOperation(handle, origin);
      assert ops == old(ops)[handle := NewOperation(handle, origin)];
    }

    /** Create, validate, preflight, and approve or wait for approval. */
    method TakeIn(handle: OpId, origin: Origin, entry: Entry, checks: Checks, now: Time) returns (r: Result<Reply>)
      requires Valid() && handle !in ops && FindKey(Contents(), origin).None?
      requires origin.parent.Some? ==> origin.parent.value in ops
      modifies this`ops, this`audit
      ensures Valid()
      ensures var e := Intake(handle, origin, entry, checks, now, v2);
              Contents() == PutEffect(old(Contents()), handle, e) && r == e.result
      ensures handle in ops && ops == old(ops)[handle := ops[handle]]
      ensures Submissions.IsNew(ops[handle], handle, origin, entry, checks, now, v2)
      ensures r == Success(Reply(ops[handle].row, false))
    {
      hide Sound, Voters, ValidateTransition, FindKey, HoldsKey, Submissions.IsNew;
      Submissions.IntakeIsNew(handle, origin, entry, checks, now, v2);
      CreateOperation(handle, origin);
      if !checks.valid {
        r := MoveCurrent(handle, T02, "system", NO_UPDATES);
      } else if !checks.ready {
        r := MoveCurrent(handle, T03, "system", NO_UPDATES);
      } else if !entry.needsApproval {
        r := MoveCurrent(handle, T05, "system", Updates(None, Some(now + entry.executionTtl), None));
      } else {
        var policy := if v2 then Some(Policy(entry.quorum, entry.eligible)) else None;
        r := MoveCurrent(handle, T04, "system", Updates(Some(now + entry.approvalTtl), None, policy));
      }
      IntakeJoins(old(Contents()), handle, origin, entry, checks, now, v2);
    }

    /** The shared body of prepare and retry. */
    method PrepareOrRetry(handle: OpId, origin: Origin, entry: Entry, checks: Checks, now: Time)
        returns (r: Result<Reply>)
      requires Valid()
      requires origin.parent.Some? ==> origin.parent.value in ops
      modifies this
      ensures Valid()
      ensures var o := Submit(old(Contents()), old(committed), now, v2, handle, origin, entry, checks);
              Contents() == o.db && committed == o.base && r == o.result
    {
      hide Sound, Intake, HoldsKey, FindKey, Expire;
      if !checks.sizeOk {
        r := Deny(origin, ArgumentsTooLarge);
        return;
      }
      if entry.rateLimit.Some? {
        var recent := |RecentIn(Db(ops, audit), origin.workflow, now - RATE_WINDOW)|;
        if recent >= entry.rateLimit.value {
          r := Deny(origin, RateLimited);
          return;
        }
      }
      UniqueIn(Contents());
      var found := FindByIdempotency(origin);
      if found.Some? {
        FoundKey(Contents(), origin);
        if ops[found.value].row.origin.arguments != origin.arguments { return Failure(IdempotencyConflict); }
        var seen := GetRow(found.value, now);
        return Success(Reply(seen.value, true));
      }
      if handle in ops { return Failure(IntegrityViolation); }
      r := TakeIn(handle, origin, entry, checks, now);
    }

    method PrepareOperation(sub: Submission, workflow: WorkflowId, arguments: string, now: Time)
        returns (r: Result<Reply>)
      requires Valid()
      modifies this
      ensures Valid()
      ensures var o := Submit(old(Contents()), old(committed), now, v2, sub.handle,
          PrepareOrigin(sub, workflow, arguments),
                              sub.entry, sub.checks);
              Contents() == o.db && committed == o.base && r == o.result
      ensures Submissions.Submitted(old(Contents()), old(committed), now, v2, sub,
                                    Origin(sub.who, sub.environment, workflow, sub.key, arguments, None, sub.stamp),
                                    Outcome(Contents(), committed, r))
    {
      hide Submissions.Submitted, Submit;
      Submissions.SubmitIs(Contents(), committed, now, v2, sub, PrepareOrigin(sub, workflow, arguments));
      r := PrepareOrRetry(sub.handle, Origin(sub.who, sub.environment, workflow, sub.key, arguments, None, sub.stamp),
                          sub.entry, sub.checks, now);
    }

    /** Walk up the lineage, at most ten links. */
    method ChainTooDeep(id: OpId) returns (tooDeep: bool)
      requires Valid() && id in ops
      ensures tooDeep <==> AncestorAt(Contents(), id, MAX_RETRY_CHAIN_DEPTH).Some?
    {
      hide Sound, AncestorAt;
      var depth := 0;
      var ancestor := ops[id].row.origin.parent;
      ParentStored(Contents(), id);
      Lineage.OneUp(Contents(), id);
      while ancestor.Some?
        invariant depth < MAX_RETRY_CHAIN_DEPTH
        invariant ancestor == AncestorAt(Contents(), id, depth + 1)
        invariant ancestor.Some? ==> ancestor.value in ops
        decreases MAX_RETRY_CHAIN_DEPTH - depth
      {
        depth := depth + 1;
        if depth >= MAX_RETRY_CHAIN_DEPTH { return true; }
        ParentStored(Contents(), ancestor.value);
        Lineage.OneUp(Contents(), ancestor.value);
        Lineage.AncestorPlus(Contents(), id, depth, 1);
        ancestor := ops[ancestor.value].row.origin.parent;
      }
      Lineage.NoneAbove(Contents(), id, depth + 1, MAX_RETRY_CHAIN_DEPTH);
      return false;
    }

    /** A new operation with the workflow and arguments of its parent, which is only
        read, and lazily expired. */
    method RetryOperation(parent: OpId, visible: bool, sub: Submission, now: Time) returns (r: Result<Reply>)
      requires Valid()
      modifies this
      ensures Valid()
      ensures parent !in old(ops) ==>
                Contents() == old(Contents()) && committed == old(committed) && r == Failure(OperationNotFound)
      ensures parent in old(ops) ==>
                var seen := Expire(old(Contents()), now, parent);
                var o := Retrying(seen, old(committed), now, v2, seen.ops[parent], visible, sub);
                Contents() == o.db && committed == o.base && r == o.result
      ensures parent in old(ops) ==>
                Submissions.Retried(old(Contents()), old(committed), now, v2, parent, visible, sub,
                                    Outcome(Contents(), committed, r))
    {
      hide Sound, Known, OpOk, LazyOp, Overdue, Expire, AncestorAt, Submit, Submissions.Retried;
      ghost var before := Contents();
      if parent in ops {
        RowId(before, parent);
        Submissions.RetryingIs(before, committed, now, v2, parent, visible, sub);
      }
      var owned := GetOwned(parent, sub.who, visible, now);
      if owned.Failure? { return Failure(owned.error); }
      Sweeps.ExpireSeen(before, now, parent);
      Sweeps.LazyShape(before.ops[parent], now);
      RowId(Contents(), parent);
      var row := ApplyLazyExpiry(owned.value, now);
      if !Retryable(row.state) { return Failure(RetryNotApplicable); }
      var tooDeep := ChainTooDeep(parent);
      if tooDeep { return Failure(RetryNotApplicable); }
      r := PrepareOrRetry(sub.handle, RetryOrigin(row, sub), sub.entry, sub.checks, now);
    }

    // ------------------------------------------------------------ the scope

    /** One request in one session scope: committed if it returns, or if the caller
        catches its error inside the scope; rolled back if the error leaves the scope. */
    method Serve(request: Request, now: Time, caught: bool) returns (r: Result<Reply>)
      requires Valid() && committed == Contents()
      modifies this
      ensures Valid() && committed == Contents()
      ensures Contents() == Scoped(Perform(old(Contents()), now, v2, request), caught)
      ensures r == Perform(old(Contents()), now, v2, request).result
    {
      hide Sound, Acting, Submit, Retrying, ExecutingIn, Expire;
      match request {
        case OnOne(id, act) =>
          match act {
            case Get(who, visible) => r := GetOperation(id, who, visible, now);
            case Approve(who, allowed, ttl) => r := ApproveOperation(id, who, allowed, ttl, now);
            case Reject(who, allowed) => r := RejectOperation(id, who, allowed, now);
            case Cancel(who, visible) => r := CancelOperation(id, who, visible, now);
            case Execute(who, visible, handle, sameEnvironment, live, maxConcurrent) =>
              r := ExecuteOperation(id, handle, who, visible, sameEnvironment, live, maxConcurrent, now);
            case Record(reported) => r := RecordOutcome(id, reported, now);
          }
        case Prepare(sub, workflow, arguments) => r := PrepareOperation(sub, workflow, arguments, now);
        case Retry(parent, visible, sub) => r := RetryOperation(parent, visible, sub, now);
      }
      if r.Failure? && !caught {
        Rollback();
      } else {
        Commit();
      }
    }
  }

  // ---------------------------------------------------------------- small facts

  /** From a row its operation has left behind, whatever was legal is no longer. */
  lemma StaleIsPast(id: OpId, op: Op, held: Row, t: TransitionId)
    requires OpOk(id, op) && Known(op, held) && op.row.version != held.version
    requires ValidateTransition(t, Some(held.state)).Success?
    ensures ValidateTransition(t, Some(op.row.state)).Failure?
  {
    VersionDecidesState(id, op, held, op.row);
  }

  lemma SweepStarts(db: Db, now: Time, ids: seq<OpId>)
    ensures ExpireAll(db, now, ids[..0]) == db
  {
  }

  lemma SweepNext(db: Db, now: Time, ids: seq<OpId>, i: nat)
    requires i < |ids| && forall k | 0 <= k < |ids| :: ids[k] in db.ops && Overdue(db.ops[ids[k]].row, now)
    requires forall j, k | 0 <= j < k < |ids| :: ids[j] != ids[k]
    ensures var before := ExpireAll(db, now, ids[..i]);
            && ids[i] in before.ops && before.ops[ids[i]] == db.ops[ids[i]]
            && Expire(before, now, ids[i]) == ExpireAll(db, now, ids[..i + 1])
            && Expire(before, now, ids[i]).ops[ids[i]].row.state != db.ops[ids[i]].row.state
  {
    hide Expire, LazyOp, Overdue;
    Sweeps.SweepExpiresOnce(db, now, ids[..i]);
    var before := ExpireAll(db, now, ids[..i]);
    Sweeps.LazyShape(db.ops[ids[i]], now);
    Sweeps.ExpireSeen(before, now, ids[i]);
    assert ids[..i + 1][..i] == ids[..i];
    NotYetExpired(db.ops[ids[i]].row, now);
  }

  lemma NotYetExpired(row: Row, now: Time)
    requires Overdue(row, now)
    ensures row.state != Expired
  {
  }

  lemma SweepEnds(db: Db, now: Time, ids: seq<OpId>)
    requires forall k | 0 <= k < |ids| :: ids[k] in db.ops
    requires forall id | id in Sweeps.OverdueIn(db, now) :: id in ids
    ensures var after := ExpireAll(db, now, ids);
            && (forall id | id in db.ops :: after.ops[id] == LazyOp(db.ops[id], now))
            && Sweeps.OverdueIn(after, now) == {}
  {
    hide LazyOp;
    Sweeps.SweepExpiresOnce(db, now, ids);
    forall id | id in db.ops ensures ExpireAll(db, now, ids).ops[id] == LazyOp(db.ops[id], now) {
      Sweeps.LazyShape(db.ops[id], now);
    }
  }

  /** The same, in the columns of the rows. */
  lemma SweepShows(db: Db, now: Time)
    ensures forall id | id in db.ops ::
              LazyOp(db.ops[id], now) == Acts.Shown(db.ops[id], now)
              && !Deadlines.Lapsed(LazyOp(db.ops[id], now).row, now)
    ensures Sweeps.OverdueIn(db, now) == set id | id in db.ops && Deadlines.Lapsed(db.ops[id].row, now)
  {
    forall id | id in db.ops
      ensures LazyOp(db.ops[id], now) == Acts.Shown(db.ops[id], now)
      ensures !Deadlines.Lapsed(LazyOp(db.ops[id], now).row, now)
    {
      Deadlines.LazyIff(db.ops[id], now);
    }
  }

  lemma Recorded(db: Db, now: Time, v2: bool, id: OpId, reported: CallOutcome)
    requires id in db.ops
    ensures var o := Perform(db, now, v2, OnOne(id, Record(reported))); var was := db.ops[id];
            && (o.result.Success? <==> was.row.state == State.Executing)
            && (o.result.Success? ==>
                  && id in o.db.ops
                  && (reported == CallSucceeded ==> o.db.ops[id] == Acts.Advanced(was, T13, Succeeded, "system"))
                  && (reported == CallFailed ==> o.db.ops[id] == Acts.Advanced(was, T14, Failed, "system"))
                  && (reported == CallIndeterminate ==> o.db.ops[id] == Acts.Advanced(was, T15, Unknown, "system")))
  {
    hide Acts.Advanced, Acting, Perform;
    var op := Acts.Shown(db.ops[id], now);
    Acts.OneOperation(db, now, v2, id, Record(reported));
    Acts.RecordIff(op, |Acts.AlsoRunning(db, id)|, now, v2, reported);
  }

  lemma KeyIsFound(db: Db, id: OpId, origin: Origin)
    requires Sweeps.UniqueKeys(db) && HoldsKey(db, id, origin)
    ensures FindKey(db, origin) == Some(id)
  {
  }

  lemma UniqueIn(db: Db)
    requires Sound(db)
    ensures Sweeps.UniqueKeys(db)
  {
  }

  lemma ParentStored(db: Db, id: OpId)
    requires Sound(db) && id in db.ops
    ensures var p := db.ops[id].row.origin.parent; p.Some? ==> p.value in db.ops
  {
  }

  /** Creation and the first transition, stored one after the other. */
  lemma IntakeJoins(db: Db, handle: OpId, origin: Origin, entry: Entry, checks: Checks, now: Time, v2: bool)
    ensures var op := NewOperation(handle, origin);
            var first := Put(db, handle, op, [AuditOf(handle, CreationEvent(origin))]);
            var e := Intake(handle, origin, entry, checks, now, v2);
            forall rest | e.audit == [AuditOf(handle, CreationEvent(origin))] + rest ::
              Put(first, handle, e.op, rest) == PutEffect(db, handle, e)
  {
    var op := NewOperation(handle, origin);
    var e := Intake(handle, origin, entry, checks, now, v2);
    var one := [AuditOf(handle, CreationEvent(origin))];
    forall rest | e.audit == one + rest
      ensures Put(Put(db, handle, op, one), handle, e.op, rest) == PutEffect(db, handle, e)
    {
      PutJoin(db, handle, op, one, e.op, rest);
    }
  }
}
