/**
 Event logs under any interleaving: every operation's log walks the table to its
 current state, one audit entry per event, whatever the number of writers holding
 stale rows and wherever they crash.
 */
module ProtocolLogs {
  import opened Wrappers
  import opened StateMachine
  import opened OperationStore
  import opened Protocol

  /** `later` only extends the operation: same origin, a log that continues. */
  ghost predicate GrownOp(op: Op, later: Op) {
    op.row.id == later.row.id && op.row.origin == later.row.origin && op.log <= later.log
  }

  ghost predicate Grown(db: Db, later: Db) {
    forall id | id in db.ops :: id in later.ops && GrownOp(db.ops[id], later.ops[id])
  }

  ghost predicate KnownIn(db: Db, held: Row) {
    held.id in db.ops && Known(db.ops[held.id], held)
  }

  predicate HasRow(pc: Pc) {
    pc.Fetched? || pc.Calling? || pc.Lost? || pc.Retrying? || pc.Settled? || pc.Created? || pc.Burned?
  }

  /** The rows of a listing still to be visited. */
  function Rest(pc: Pc): seq<Row> {
    if (pc.Fetched? || pc.Calling? || pc.Lost? || pc.Retrying? || pc.Settled?) && pc.req.Listing? then pc.req.rest
    else []
  }

  /** The rows a thread holds copies of. */
  ghost predicate RowsOk(view: Db, pc: Pc) {
    && (HasRow(pc) ==> KnownIn(view, pc.row))
    && (forall i | 0 <= i < |Rest(pc)| :: KnownIn(view, Rest(pc)[i]))
  }

  /** A thread that lost its update holds a row whose operation has moved on; the
      defensive retry after that is never entered. */
  ghost predicate RaceOk(view: Db, pc: Pc) {
    && !pc.Retrying?
    && (pc.Lost? ==>
          && ValidateTransition(pc.call.t, Some(pc.row.state)).Success?
          && pc.row.id in view.ops
          && pc.row.version < |view.ops[pc.row.id].log|)
  }

  ghost predicate Quiet(pc: Pc) {
    pc.Idle? || pc.Started? || pc.Ready? || pc.Returned?
  }

  ghost predicate ViewOk(db: Db, view: Db, pc: Pc) {
    Consistent(view) && Grown(db, view) && RowsOk(view, pc) && RaceOk(view, pc)
  }

  ghost predicate ThreadOk(db: Db, th: Thread) {
    && ViewOk(db, Visible(db, th.tx), th.pc)
    && (Quiet(th.pc) ==> th.tx == EMPTY)
  }

  ghost predicate LockOk(locks: map<OpId, ThreadId>, t: ThreadId, tx: Db) {
    forall id | id in tx.ops :: id in locks && locks[id] == t
  }

  ghost predicate Inv(s: System) {
    && Consistent(s.db)
    && (forall t :: LockOk(s.locks, t, Of(s, t).tx))
    && (forall t :: ThreadOk(s.db, Of(s, t)))
  }

  // ---------------------------------------------------------------- frames

  lemma VisibleEmpty(db: Db)
    ensures Visible(db, EMPTY) == db
  {
    assert db.audit + [] == db.audit;
    assert db.ops + map[] == db.ops;
  }

  lemma VisiblePut(db: Db, tx: Db, id: OpId, op: Op, audit: seq<AuditRecord>)
    ensures Visible(db, Put(tx, id, op, audit)) == Put(Visible(db, tx), id, op, audit)
  {
    assert db.audit + (tx.audit + audit) == (db.audit + tx.audit) + audit;
    assert db.ops + tx.ops[id := op] == (db.ops + tx.ops)[id := op];
  }

  lemma GrownPc(view: Db, later: Db, pc: Pc)
    requires RowsOk(view, pc) && RaceOk(view, pc) && Grown(view, later)
    ensures RowsOk(later, pc) && RaceOk(later, pc)
  {
    forall i | 0 <= i < |Rest(pc)| ensures KnownIn(later, Rest(pc)[i]) {
      assert KnownIn(view, Rest(pc)[i]);
    }
  }

  /** A step that changes nothing shared but `t`'s own thread and its locks. */
  lemma ThreadStep(s: System, t: ThreadId, th: Thread, s': System)
    requires Inv(s)
    requires s'.db == s.db && s'.threads == s.threads[t := th]
    requires forall k | k in s.locks :: k in s'.locks && s'.locks[k] == s.locks[k]
    requires ThreadOk(s.db, th) && LockOk(s'.locks, t, th.tx)
    ensures Inv(s')
  {
    hide Consistent, Grown, RowsOk, RaceOk, OpOk;
    forall u ensures ThreadOk(s'.db, Of(s', u)) && LockOk(s'.locks, u, Of(s', u).tx) {
      assert ThreadOk(s.db, Of(s, u)) && LockOk(s.locks, u, Of(s, u).tx);
    }
  }

  /** A step of `t` that only moves its program counter. */
  lemma PcStep(s: System, t: ThreadId, pc: Pc, s': System)
    requires Inv(s)
    requires s'.db == s.db && s'.threads == s.threads[t := Of(s, t).(pc := pc)]
    requires forall k | k in s.locks :: k in s'.locks && s'.locks[k] == s.locks[k]
    requires RowsOk(View(s, t), pc) && RaceOk(View(s, t), pc)
    requires Quiet(pc) ==> Of(s, t).tx == EMPTY
    ensures Inv(s')
  {
    hide Consistent, Grown, RowsOk, RaceOk, OpOk;
    assert ThreadOk(s.db, Of(s, t)) && LockOk(s.locks, t, Of(s, t).tx);
    ThreadStep(s, t, Of(s, t).(pc := pc), s');
  }

  lemma GrownPut(db: Db, view: Db, id: OpId, op: Op, audit: seq<AuditRecord>)
    requires Grown(db, view)
    requires id in view.ops ==> GrownOp(view.ops[id], op)
    ensures Grown(view, Put(view, id, op, audit)) && Grown(db, Put(view, id, op, audit))
  {
    forall k | k in db.ops ensures GrownOp(db.ops[k], Put(view, id, op, audit).ops[k]) {
      assert GrownOp(db.ops[k], view.ops[k]);
    }
  }

  /** A step of `t` that stores one operation in its overlay. */
  lemma PutStep(s: System, t: ThreadId, id: OpId, op: Op, added: seq<Event>, pc: Pc)
    requires Inv(s) && CanLock(s, t, id)
    requires OpOk(id, op) && |added| <= 1
    requires op.log == (if id in View(s, t).ops then View(s, t).ops[id].log else []) + added
    requires id in View(s, t).ops ==> GrownOp(View(s, t).ops[id], op)
    requires var after := Put(View(s, t), id, op, AuditsOf(id, added)); RowsOk(after, pc) && RaceOk(after, pc)
    requires !Quiet(pc)
    ensures Inv(WithPut(s, t, id, op, AuditsOf(id, added), pc))
  {
    hide Consistent, Grown, RowsOk, RaceOk, OpOk;
    assert ThreadOk(s.db, Of(s, t)) && LockOk(s.locks, t, Of(s, t).tx);
    PutThread(s.db, Of(s, t).tx, id, op, added, pc);
    ThreadStep(s, t, Thread(pc, Put(Of(s, t).tx, id, op, AuditsOf(id, added))),
        WithPut(s, t, id, op, AuditsOf(id, added), pc));
  }

  lemma PutThread(db: Db, tx: Db, id: OpId, op: Op, added: seq<Event>, pc: Pc)
    requires Consistent(Visible(db, tx)) && Grown(db, Visible(db, tx))
    requires OpOk(id, op) && |added| <= 1
    requires op.log == (if id in Visible(db, tx).ops then Visible(db, tx).ops[id].log else []) + added
    requires id in Visible(db, tx).ops ==> GrownOp(Visible(db, tx).ops[id], op)
    requires var after := Put(Visible(db, tx), id, op, AuditsOf(id, added)); RowsOk(after, pc) && RaceOk(after, pc)
    requires !Quiet(pc)
    ensures ThreadOk(db, Thread(pc, Put(tx, id, op, AuditsOf(id, added))))
  {
    hide Consistent, Grown, RowsOk, RaceOk, OpOk;
    VisiblePut(db, tx, id, op, AuditsOf(id, added));
    GrownPut(db, Visible(db, tx), id, op, AuditsOf(id, added));
    PutKeeps(Visible(db, tx), id, op, added);
  }

  lemma SeesTrail(db: Db, mine: Db, yours: Db, id: OpId)
    requires TrailOk(db, id) && TrailOk(Visible(db, mine), id) && TrailOk(Visible(db, yours), id)
    requires mine.ops.Keys !! yours.ops.Keys
    ensures TrailOk(Visible(Visible(db, mine), yours), id)
  {
    TrailConcat(db.audit, mine.audit, id);
    TrailConcat(db.audit, yours.audit, id);
    TrailConcat(db.audit + mine.audit, yours.audit, id);
  }

  /** What another transaction sees after one commits is still consistent, and
      continues what it saw before. */
  lemma SeesCommit(db: Db, mine: Db, yours: Db)
    requires Consistent(db) && Consistent(Visible(db, mine)) && Consistent(Visible(db, yours))
    requires Grown(db, Visible(db, mine)) && Grown(db, Visible(db, yours))
    requires mine.ops.Keys !! yours.ops.Keys
    ensures Consistent(Visible(Visible(db, mine), yours))
    ensures Grown(Visible(db, mine), Visible(Visible(db, mine), yours))
    ensures Grown(Visible(db, yours), Visible(Visible(db, mine), yours))
  {
    var a, b, after := Visible(db, mine), Visible(db, yours), Visible(Visible(db, mine), yours);
    hide Grown;
    SeesGrown(db, mine, yours);
    forall id ensures TrailOk(after, id) {
      SeesTrail(db, mine, yours, id);
    }
    forall id | id in after.ops ensures OpOk(id, after.ops[id]) {
      assert id in yours.ops ==> OpOk(id, b.ops[id]);
      assert id !in yours.ops ==> OpOk(id, a.ops[id]);
    }
  }

  lemma SeesGrown(db: Db, mine: Db, yours: Db)
    requires Grown(db, Visible(db, mine)) && Grown(db, Visible(db, yours))
    requires mine.ops.Keys !! yours.ops.Keys
    ensures Grown(Visible(db, mine), Visible(Visible(db, mine), yours))
    ensures Grown(Visible(db, yours), Visible(Visible(db, mine), yours))
  {
    var a, b, after := Visible(db, mine), Visible(db, yours), Visible(Visible(db, mine), yours);
    forall id | id in a.ops ensures GrownOp(a.ops[id], after.ops[id]) {
      if id in yours.ops { assert id in db.ops && GrownOp(db.ops[id], b.ops[id]); }
    }
    forall id | id in b.ops ensures id in after.ops && GrownOp(b.ops[id], after.ops[id]) {
      if id !in yours.ops { assert GrownOp(db.ops[id], a.ops[id]); }
    }
  }

  lemma CommitThread(db: Db, mine: Db, th: Thread)
    requires Consistent(db) && Consistent(Visible(db, mine)) && Grown(db, Visible(db, mine))
    requires mine.ops.Keys !! th.tx.ops.Keys
    requires ThreadOk(db, th)
    ensures ThreadOk(Visible(db, mine), th)
  {
    hide Consistent, Grown, RowsOk, RaceOk, OpOk;
    SeesCommit(db, mine, th.tx);
    GrownPc(Visible(db, th.tx), Visible(Visible(db, mine), th.tx), th.pc);
  }

  lemma QuietThread(db: Db, pc: Pc)
    requires Consistent(db) && Quiet(pc)
    ensures ThreadOk(db, Thread(pc, EMPTY))
  {
    VisibleEmpty(db);
  }

  /** A step of `t` that ends its transaction, publishing or dropping its writes. */
  lemma CloseStep(s: System, t: ThreadId, publish: bool, pc: Pc)
    requires Inv(s) && Quiet(pc)
    ensures Inv(Closed(s, t, if publish then View(s, t) else s.db, pc))
  {
    hide Consistent, Grown, RowsOk, RaceOk, OpOk;
    var s' := Closed(s, t, if publish then View(s, t) else s.db, pc);
    assert ThreadOk(s.db, Of(s, t)) && LockOk(s.locks, t, Of(s, t).tx);
    QuietThread(s'.db, pc);
    forall u ensures ThreadOk(s'.db, Of(s', u)) && LockOk(s'.locks, u, Of(s', u).tx) {
      assert ThreadOk(s.db, Of(s, u)) && LockOk(s.locks, u, Of(s, u).tx);
      if u != t {
        assert Of(s', u) == Of(s, u);
        if publish {
          CommitThread(s.db, Of(s, t).tx, Of(s, u));
        }
      }
    }
  }

  // ---------------------------------------------------------------- steps

  lemma Facts(s: System, t: ThreadId)
    requires Inv(s)
    ensures ThreadOk(s.db, Of(s, t)) && LockOk(s.locks, t, Of(s, t).tx)
  {
  }

  lemma NoRetrying(s: System, t: ThreadId)
    requires Inv(s)
    ensures !Of(s, t).pc.Retrying?
  {
    Facts(s, t);
  }

  lemma QuietIsEmpty(s: System, t: ThreadId)
    requires Inv(s) && Quiet(Of(s, t).pc)
    ensures Of(s, t).tx == EMPTY
  {
    Facts(s, t);
  }

  lemma CommittedId(s: System, id: OpId)
    requires Inv(s) && id in s.db.ops
    ensures s.db.ops[id].row.id == id
  {
    assert OpOk(id, s.db.ops[id]);
  }

  /** A held row agrees with the operation's, at the same version. */
  lemma SameRow(s: System, t: ThreadId, id: OpId)
    requires Inv(s) && id in View(s, t).ops
    ensures View(s, t).ops[id].row.id == id
    ensures var pc := Of(s, t).pc;
            HasRow(pc) && pc.row.id == id ==>
              && View(s, t).ops[id].row.origin == pc.row.origin
              && (View(s, t).ops[id].row.version == pc.row.version ==> View(s, t).ops[id].row.state == pc.row.state)
  {
    Facts(s, t);
    assert OpOk(id, View(s, t).ops[id]);
  }

  lemma CurrentKnown(db: Db, id: OpId)
    requires Consistent(db) && id in db.ops
    ensures KnownIn(db, db.ops[id].row)
  {
    assert OpOk(id, db.ops[id]);
  }

  /** A row read from the committed data is known to the transaction that read it. */
  lemma CommittedKnown(db: Db, view: Db, id: OpId)
    requires Consistent(db) && Grown(db, view) && id in db.ops
    ensures KnownIn(view, db.ops[id].row)
  {
    CurrentKnown(db, id);
    assert GrownOp(db.ops[id], view.ops[id]);
  }

  lemma RaisedOk(view: Db, req: Request, row: Row, call: Call, pc: Pc)
    requires Consistent(view) && RowsOk(view, pc)
    requires (pc == Calling(req, row, call) || pc == Lost(req, row, call))
    ensures RowsOk(view, AfterRaise(view, req, row, call)) && RaceOk(view, AfterRaise(view, req, row, call))
  {
    var after := AfterRaise(view, req, row, call);
    CurrentKnown(view, row.id);
    assert Rest(after) == Rest(pc) || Rest(after) == [];
  }

  lemma MovedOk(view: Db, pc: Pc, op: Op, added: seq<Event>)
    requires pc.Calling? && Consistent(view) && RowsOk(view, pc)
    requires view.ops[pc.row.id].row.version == pc.row.version
    requires ValidateTransition(pc.call.t, Some(pc.row.state)).Success?
    requires Move(view.ops[pc.row.id], pc.row, pc.call.t, pc.call.actor, pc.call.up) == Some(op)
    requires added == [Event(Some(pc.row.state), ById(pc.call.t).to, pc.call.t, pc.call.actor)]
    ensures OpOk(pc.row.id, op) && op.log == view.ops[pc.row.id].log + added
    ensures GrownOp(view.ops[pc.row.id], op)
    ensures AuditsOf(pc.row.id, added) == [MoveAudit(pc.row.id, pc.call.t, pc.call.actor)]
    ensures var after := Put(view, pc.row.id, op, AuditsOf(pc.row.id, added));
            RowsOk(after, AfterMove(pc.req, op.row, pc.call)) && RaceOk(after, AfterMove(pc.req, op.row, pc.call))
  {
    var id := pc.row.id;
    assert OpOk(id, view.ops[id]);
    MoveKeepsOp(id, view.ops[id], pc.row, pc.call.t, pc.call.actor, pc.call.up, op);
    var after := Put(view, id, op, AuditsOf(id, added));
    var next := AfterMove(pc.req, op.row, pc.call);
    forall i | 0 <= i < |Rest(next)| ensures KnownIn(after, Rest(next)[i]) {
      assert KnownIn(view, Rest(pc)[i]);
    }
  }

  lemma LostOk(view: Db, pc: Pc)
    requires Consistent(view) && pc.Calling? && RowsOk(view, pc)
    requires ValidateTransition(pc.call.t, Some(pc.row.state)).Success?
    requires view.ops[pc.row.id].row.version != pc.row.version
    ensures RowsOk(view, Lost(pc.req, pc.row, pc.call)) && RaceOk(view, Lost(pc.req, pc.row, pc.call))
  {
    assert OpOk(pc.row.id, view.ops[pc.row.id]);
    assert Rest(Lost(pc.req, pc.row, pc.call)) == Rest(pc);
  }

  lemma UpdateStep(s: System, t: ThreadId, pc: Pc)
    requires Inv(s) && pc == Of(s, t).pc && pc.Calling? && pc.row.id in View(s, t).ops && CanLock(s, t, pc.row.id)
    ensures Inv(Updated(s, t, pc.req, pc.row, pc.call))
  {
    hide Consistent, Grown, OpOk, RowsOk, RaceOk;
    Facts(s, t);
    var op := View(s, t).ops[pc.row.id];
    var s' := Updated(s, t, pc.req, pc.row, pc.call);
    if ValidateTransition(pc.call.t, Some(pc.row.state)).Failure? {
      RaisedOk(View(s, t), pc.req, pc.row, pc.call, pc);
      PcStep(s, t, AfterRaise(View(s, t), pc.req, pc.row, pc.call), s');
    } else if op.row.version == pc.row.version {
      var moved := Move(op, pc.row, pc.call.t, pc.call.actor, pc.call.up).value;
      var added := [Event(Some(pc.row.state), ById(pc.call.t).to, pc.call.t, pc.call.actor)];
      MovedOk(View(s, t), pc, moved, added);
      PutStep(s, t, pc.row.id, moved, added, AfterMove(pc.req, moved.row, pc.call));
    } else {
      LostOk(View(s, t), pc);
      PcStep(s, t, Lost(pc.req, pc.row, pc.call), s');
    }
  }

  /** A lost compare-and-set is never retried: the row the loser reads again is in a
      later state, from which its transition is not legal. */
  lemma RetryIsDead(view: Db, pc: Pc)
    requires Consistent(view) && pc.Lost? && RowsOk(view, pc) && RaceOk(view, pc)
    ensures ValidateTransition(pc.call.t, Some(view.ops[pc.row.id].row.state)).Failure?
  {
    var op := view.ops[pc.row.id];
    assert OpOk(pc.row.id, op);
    VersionDecidesState(pc.row.id, op, pc.row, op.row);
  }

  lemma RereadStep(s: System, t: ThreadId, pc: Pc)
    requires Inv(s) && pc == Of(s, t).pc && pc.Lost? && pc.row.id in View(s, t).ops
    ensures Inv(WithPc(s, t, RereadPc(View(s, t), pc)))
  {
    hide Consistent, Grown, OpOk;
    Facts(s, t);
    RetryIsDead(View(s, t), pc);
    RaisedOk(View(s, t), pc.req, pc.row, pc.call, pc);
    PcStep(s, t, RereadPc(View(s, t), pc), WithPc(s, t, RereadPc(View(s, t), pc)));
  }

  lemma CreateStep(s: System, t: ThreadId, id: OpId, origin: Origin)
    requires Inv(s) && id !in View(s, t).ops && CanLock(s, t, id)
    ensures Inv(Inserted(s, t, id, origin))
  {
    hide Inv, Consistent, Grown, OpOk, Known, CanLock, View, IsPath;
    var op := NewOperation(id, origin);
    NewOperationOk(id, origin);
    CreationAudit(id, origin);
    PutStep(s, t, id, op, [CreationEvent(origin)], Created(op.row));
  }

  lemma CreationAudit(id: OpId, origin: Origin)
    ensures AuditsOf(id, [CreationEvent(origin)]) == [AuditOf(id, CreationEvent(origin))]
    ensures NewOperation(id, origin).log == [] + [CreationEvent(origin)]
  {
  }

  /** Storing an operation whose log does not change. */
  lemma SilentPut(s: System, t: ThreadId, op: Op, pc: Pc)
    requires Inv(s) && HasRow(Of(s, t).pc) && Of(s, t).pc.row.id in View(s, t).ops
    requires CanLock(s, t, Of(s, t).pc.row.id)
    requires var was := View(s, t).ops[Of(s, t).pc.row.id];
             && op.log == was.log && op.row.id == was.row.id && op.row.origin == was.row.origin
             && op.row.state == was.row.state && op.row.version == was.row.version
    requires !Quiet(pc) && !pc.Retrying? && !pc.Lost? && Rest(pc) == []
    requires HasRow(pc) ==> pc.row == Of(s, t).pc.row
    ensures Inv(WithPut(s, t, Of(s, t).pc.row.id, op, [], pc))
  {
    hide Consistent, Grown, OpOk, RowsOk, RaceOk;
    Facts(s, t);
    SilentOk(View(s, t), Of(s, t).pc, op, pc);
    PutStep(s, t, Of(s, t).pc.row.id, op, [], pc);
  }

  lemma SilentOk(view: Db, pc: Pc, op: Op, after: Pc)
    requires Consistent(view) && RowsOk(view, pc) && HasRow(pc)
    requires var was := view.ops[pc.row.id];
             && op.log == was.log && op.row.id == was.row.id && op.row.origin == was.row.origin
             && op.row.state == was.row.state && op.row.version == was.row.version
    requires !after.Retrying? && !after.Lost? && Rest(after) == []
    requires HasRow(after) ==> after.row == pc.row
    ensures OpOk(pc.row.id, op) && GrownOp(view.ops[pc.row.id], op)
    ensures AuditsOf(pc.row.id, []) == [] && op.log == view.ops[pc.row.id].log + []
    ensures RowsOk(Put(view, pc.row.id, op, []), after) && RaceOk(Put(view, pc.row.id, op, []), after)
  {
    assert OpOk(pc.row.id, view.ops[pc.row.id]);
  }

  /** Steps that start a request by reading a committed row. */
  lemma FetchStep(s: System, t: ThreadId, req: Request, id: OpId, s': System)
    requires Inv(s) && id in s.db.ops && !req.Listing?
    requires s'.db == s.db && s'.threads == s.threads[t := Of(s, t).(pc := Fetched(req, s.db.ops[id].row))]
    requires forall k | k in s.locks :: k in s'.locks && s'.locks[k] == s.locks[k]
    ensures Inv(s')
  {
    hide Consistent, Grown, OpOk;
    Facts(s, t);
    CommittedKnown(s.db, View(s, t), id);
    PcStep(s, t, Fetched(req, s.db.ops[id].row), s');
  }

  lemma ListStep(s: System, t: ThreadId, rows: seq<Row>)
    requires Inv(s) && rows != []
    requires forall i | 0 <= i < |rows| :: rows[i].id in s.db.ops && rows[i] == s.db.ops[rows[i].id].row
    ensures Inv(WithPc(s, t, Fetched(Listing(rows[1..]), rows[0])))
  {
    hide Consistent, Grown, OpOk;
    Facts(s, t);
    forall i | 0 <= i < |rows| ensures KnownIn(View(s, t), rows[i]) {
      CommittedKnown(s.db, View(s, t), rows[i].id);
    }
    PcStep(s, t, Fetched(Listing(rows[1..]), rows[0]), WithPc(s, t, Fetched(Listing(rows[1..]), rows[0])));
  }

  /** Moving to `after` needs no row the thread does not hold already. */
  ghost predicate Follows(pc: Pc, after: Pc) {
    && (HasRow(after) ==> (HasRow(pc) && after.row == pc.row) || after.row in Rest(pc))
    && (forall row | row in Rest(after) :: row in Rest(pc))
    && !after.Lost? && !after.Retrying?
  }

  lemma FollowsOk(view: Db, pc: Pc, after: Pc)
    requires RowsOk(view, pc) && Follows(pc, after)
    ensures RowsOk(view, after) && RaceOk(view, after)
  {
    forall i | 0 <= i < |Rest(after)| ensures KnownIn(view, Rest(after)[i]) {
      assert Rest(after)[i] in Rest(pc);
    }
  }

  /** Steps that decide or call out, on the rows already in hand. */
  lemma LocalStep(s: System, t: ThreadId, after: Pc, s': System)
    requires Inv(s) && Follows(Of(s, t).pc, after)
    requires s'.db == s.db && s'.threads == s.threads[t := Of(s, t).(pc := after)] && s'.locks == s.locks
    requires Quiet(after) ==> Of(s, t).tx == EMPTY
    ensures Inv(s')
  {
    hide Consistent, Grown, RowsOk, RaceOk, OpOk, Follows;
    Facts(s, t);
    FollowsOk(View(s, t), Of(s, t).pc, after);
    PcStep(s, t, after, s');
  }

  lemma DecisionFollows(pc: Pc, deadline: Time)
    requires pc.Settled?
    ensures Follows(pc, Decision(pc.req, pc.row, deadline)) && !Quiet(Decision(pc.req, pc.row, deadline))
  {
  }

  lemma SettledFollows(pc: Pc, now: Time)
    requires pc.Fetched?
    ensures Follows(pc, SettledPc(pc, now)) && !Quiet(SettledPc(pc, now))
  {
  }

  /** The steps that only decide what a thread does next. */
  function DecidedPc(s: System, step: Step): Pc
    requires Enabled(s, step)
    requires step.Settle? || step.Refuse? || step.Count? || step.FinishPrepare? || step.Proceed?
  {
    var pc := Of(s, step.t).pc;
    match step
    case Settle(t) => SettledPc(pc, s.clock)
    case Refuse(t) => Finished(pc.req, pc.row.id, false)
    case Count(t) => CountedPc(View(s, t), s.cfg.limit, pc)
    case FinishPrepare(t, call) => Calling(Prepare, pc.row, call)
    case Proceed(t, deadline) => Decision(pc.req, pc.row, deadline)
  }

  lemma DecidedFollows(s: System, step: Step)
    requires Enabled(s, step)
    requires step.Settle? || step.Refuse? || step.Count? || step.FinishPrepare? || step.Proceed?
    ensures Follows(Of(s, step.t).pc, DecidedPc(s, step)) && !Quiet(DecidedPc(s, step))
    ensures Apply(s, step) == WithPc(s, step.t, DecidedPc(s, step))
  {
    match step
    case Settle(t) => SettledFollows(Of(s, t).pc, s.clock);
    case Proceed(t, deadline) => DecisionFollows(Of(s, t).pc, deadline);
    case _ =>
  }

  /** What a quorum decision does: refuse, or store the vote and go on. */
  lemma VotedShape(s: System, t: ThreadId, pc: Pc, deadline: Time)
    requires pc == Of(s, t).pc && pc.Settled? && pc.row.id in View(s, t).ops
    requires pc.req.Decide? && pc.row.policy.Some?
    ensures var voted := RecordVote(View(s, t).ops[pc.row.id], pc.req.who, pc.req.verdict);
            var s' := Voted(s, t, pc.req, pc.row, deadline);
            || s' == WithPc(s, t, Finished(pc.req, pc.row.id, false))
            || s' == WithPut(s, t, pc.row.id, voted, [], Finished(pc.req, pc.row.id, true))
            || s' == WithPut(s, t, pc.row.id, voted, [],
                DecisionCall(pc.req, pc.row, pc.req.who, pc.req.verdict, deadline))
  {
  }

  lemma VoteStep(s: System, t: ThreadId, pc: Pc, after: Pc)
    requires Inv(s) && pc == Of(s, t).pc && pc.Settled? && pc.row.id in View(s, t).ops && CanLock(s, t, pc.row.id)
    requires pc.req.Decide?
    requires after.Finished? || (after.Calling? && after.row == pc.row)
    requires Rest(after) == []
    ensures Inv(WithPut(s, t, pc.row.id, RecordVote(View(s, t).ops[pc.row.id], pc.req.who, pc.req.verdict), [], after))
  {
    hide Consistent, Grown, RowsOk, RaceOk, OpOk;
    var was := View(s, t).ops[pc.row.id];
    var voted := RecordVote(was, pc.req.who, pc.req.verdict);
    assert voted.log == was.log && voted.row == was.row;
    assert HasRow(after) ==> after.row == pc.row;
    SilentPut(s, t, voted, after);
  }

  lemma RefusedStep(s: System, t: ThreadId, pc: Pc)
    requires Inv(s) && pc == Of(s, t).pc && pc.Settled?
    ensures Inv(WithPc(s, t, Finished(pc.req, pc.row.id, false)))
  {
    hide Consistent, Grown, RowsOk, RaceOk, OpOk;
    var no := Finished(pc.req, pc.row.id, false);
    assert Follows(pc, no);
    LocalStep(s, t, no, WithPc(s, t, no));
  }

  lemma BurnHandleStep(s: System, t: ThreadId, pc: Pc)
    requires Inv(s) && pc == Of(s, t).pc && pc.Settled? && pc.row.id in View(s, t).ops && CanLock(s, t, pc.row.id)
    requires pc.req.Execute?
    ensures Inv(BurnStep(s, t, pc.req, pc.row))
  {
    hide Consistent, Grown, RowsOk, RaceOk, OpOk;
    var op := View(s, t).ops[pc.row.id];
    if pc.row.burned || pc.row.state != Approved || op.row.burned {
      RefusedStep(s, t, pc);
    } else {
      SilentPut(s, t, BurnHandle(op).value, Burned(pc.req.who, pc.row));
    }
  }

  lemma DispatchStep(s: System, t: ThreadId, step: Step)
    requires Inv(s) && Enabled(s, step)
    requires step == EnterDispatch(t) || (step.ExternalCall? && step.t == t)
    ensures Inv(Apply(s, step))
  {
    hide Consistent, Grown, RowsOk, RaceOk, OpOk;
    Facts(s, t);
    LocalStep(s, t, Of(Apply(s, step), t).pc, Apply(s, step));
  }

  lemma BeginKeeps(s: System, step: Step)
    requires Inv(s) && Enabled(s, step)
    requires step.BeginGet? || step.BeginListing? || step.BeginPrepare? || step.BeginRecord?
    ensures Inv(Apply(s, step))
  {
    hide Consistent, Grown, RowsOk, RaceOk, OpOk, Follows;
    match step
    case BeginGet(t, req, id) => FetchStep(s, t, req, id, Apply(s, step));
    case BeginListing(t, rows) => ListStep(s, t, rows);
    case BeginPrepare(t, id, origin) => CreateStep(s, t, id, origin);
    case BeginRecord(t) => FetchStep(s, t, Record(Of(s, t).pc.reported), Of(s, t).pc.id, Apply(s, step));
  }

  lemma WriteKeeps(s: System, step: Step)
    requires Inv(s) && Enabled(s, step)
    requires step.Update? || step.Reread? || step.Update2? || step.Vote? || step.Burn?
    ensures Inv(Apply(s, step))
  {
    hide Consistent, Grown, RowsOk, OpOk, Follows;
    match step
    case Update(t) => UpdateStep(s, t, Of(s, t).pc);
    case Reread(t) => RereadStep(s, t, Of(s, t).pc);
    case Update2(t) => Facts(s, t); assert false;
    case Vote(t, d) => VoteKeeps(s, t, Of(s, t).pc, d);
    case Burn(t) => BurnHandleStep(s, t, Of(s, t).pc);
  }

  lemma VoteKeeps(s: System, t: ThreadId, pc: Pc, deadline: Time)
    requires Inv(s) && pc == Of(s, t).pc && pc.Settled? && pc.row.id in View(s, t).ops && CanLock(s, t, pc.row.id)
    requires pc.req.Decide? && pc.row.policy.Some?
    ensures Inv(Voted(s, t, pc.req, pc.row, deadline))
  {
    hide Consistent, Grown, RowsOk, RaceOk, OpOk, Follows;
    VotedShape(s, t, pc, deadline);
    RefusedStep(s, t, pc);
    VoteStep(s, t, pc, Finished(pc.req, pc.row.id, true));
    VoteStep(s, t, pc, DecisionCall(pc.req, pc.row, pc.req.who, pc.req.verdict, deadline));
  }

  lemma EndKeeps(s: System, step: Step)
    requires Inv(s) && Enabled(s, step)
    requires step.Commit? || step.Rollback? || step.Crash? || step.EnterDispatch? || step.ExternalCall?
    ensures Inv(Apply(s, step))
  {
    hide Consistent, Grown, RowsOk, RaceOk, OpOk, Follows;
    match step
    case Commit(t) => CloseStep(s, t, true, Of(Apply(s, step), t).pc);
    case Rollback(t) => CloseStep(s, t, false, Idle);
    case Crash(t) => CloseStep(s, t, false, Idle);
    case EnterDispatch(t) => DispatchStep(s, t, step);
    case ExternalCall(t, o) => DispatchStep(s, t, step);
  }

  lemma TickKeeps(s: System, now: Time)
    requires Inv(s)
    ensures Inv(s.(clock := now))
  {
    hide Consistent, Grown, RowsOk, RaceOk, OpOk, Follows;
    assert forall u :: Of(s.(clock := now), u) == Of(s, u);
  }

  lemma StepKeeps(s: System, step: Step)
    requires Inv(s) && Enabled(s, step)
    ensures Inv(Apply(s, step))
  {
    hide Consistent, Grown, RowsOk, RaceOk, OpOk, Follows;
    if step.Tick? {
      TickKeeps(s, step.now);
    } else if step.BeginGet? || step.BeginListing? || step.BeginPrepare? || step.BeginRecord? {
      BeginKeeps(s, step);
    } else if step.Update? || step.Reread? || step.Update2? || step.Vote? || step.Burn? {
      WriteKeeps(s, step);
    } else if step.Commit? || step.Rollback? || step.Crash? || step.EnterDispatch? || step.ExternalCall? {
      EndKeeps(s, step);
    } else {
      DecidedFollows(s, step);
      LocalStep(s, step.t, DecidedPc(s, step), Apply(s, step));
    }
  }

  // ---------------------------------------------------------------- runs

  lemma {:induction false} RunKeeps(run: seq<System>, i: nat)
    requires IsRun(run) && i < |run|
    ensures Inv(run[i])
  {
    if i == 0 {
      InitOk(run[0]);
    } else {
      RunKeeps(run, i - 1);
      assert Next(run[i - 1], run[i]);
      var step :| Enabled(run[i - 1], step) && run[i] == Apply(run[i - 1], step);
      StepKeeps(run[i - 1], step);
    }
  }

  lemma InitOk(s: System)
    requires Init(s)
    ensures Inv(s)
  {
    VisibleEmpty(EMPTY);
    assert forall t :: Of(s, t) == Thread(Idle, EMPTY);
  }

  /** In every state of every run, from every interleaving: each operation's log walks
      the table from T01 to the operation's state, its length is the row's version and
      at most five, nothing follows a terminal state, and the audit log holds exactly
      one matching entry per event, in order. */
  lemma LogsWalkTheTable(run: seq<System>, i: nat, id: OpId)
    requires IsRun(run) && i < |run| && id in run[i].db.ops
    ensures var op := run[i].db.ops[id];
            && IsPath(op.log)
            && op.log[|op.log| - 1].to == op.row.state
            && |op.log| == op.row.version <= 5
            && (forall k | 0 <= k < |op.log| - 1 :: !IsTerminal(op.log[k].to))
            && Trail(run[i].db.audit, id) == AuditsOf(id, op.log)
  {
    RunKeeps(run, i);
    var op := run[i].db.ops[id];
    assert OpOk(id, op) && TrailOk(run[i].db, id);
    PathsAreShort(op.log);
  }

  /** No audit entry claims a transition of an operation that is not stored. */
  lemma NoOrphanAudit(run: seq<System>, i: nat, id: OpId)
    requires IsRun(run) && i < |run| && id !in run[i].db.ops
    ensures Trail(run[i].db.audit, id) == []
  {
    RunKeeps(run, i);
    assert TrailOk(run[i].db, id);
  }

  /** Nobody ever enters the defensive second compare-and-set. */
  lemma NoRetryInAnyRun(run: seq<System>, i: nat, t: ThreadId)
    requires IsRun(run) && i < |run|
    ensures !Of(run[i], t).pc.Retrying?
  {
    RunKeeps(run, i);
    NoRetrying(run[i], t);
  }

  /** However sweeps and reads race, an operation's deadline is logged at most once, and
      as its last event. */
  lemma ExpiredAtMostOnce(run: seq<System>, i: nat, id: OpId)
    requires IsRun(run) && i < |run| && id in run[i].db.ops
    ensures var log := run[i].db.ops[id].log;
            forall k | 0 <= k < |log| && (log[k].transition == T08 || log[k].transition == T11) :: k == |log| - 1
  {
    LogsWalkTheTable(run, i, id);
    var log := run[i].db.ops[id].log;
    forall k | 0 <= k < |log| && (log[k].transition == T08 || log[k].transition == T11) ensures k == |log| - 1 {
      assert log[k].to == Expired;
      TerminalStates(Expired);
    }
  }
}
