/**
 The operations database: rows moved by compare-and-set, their append-only event
 logs and approval votes, and the audit trail that documents every event.
 */
module OperationStore {
  import opened Wrappers
  import opened StateMachine

  /** An operation's ULID handle, read as the number it encodes. */
  type OpId = nat
  type PrincipalId = string
  type WorkflowId = string

  datatype Verdict = ApproveIt | RejectIt

  /** The approval policy frozen onto an operation when it enters PendingApproval. */
  datatype Policy = Policy(quorum: nat, eligible: seq<PrincipalId>)

  /** The columns of an operation that no statement ever updates. */
  datatype Origin = Origin(
    principal: PrincipalId,
    environment: string,
    workflow: WorkflowId,
    idempotencyKey: Option<string>,
    arguments: string,
    parent: Option<OpId>,
    createdAt: Time)

  datatype Row = Row(
    id: OpId,
    origin: Origin,
    state: State,
    version: nat,
    burned: bool,
    approvalExpiresAt: Option<Time>,
    executionDeadline: Option<Time>,
    policy: Option<Policy>)

  /** The optional columns a transition may set in the same statement. */
  datatype Updates = Updates(
    approvalExpiresAt: Option<Time>,
    executionDeadline: Option<Time>,
    policy: Option<Policy>)

  const NO_UPDATES := Updates(None, None, None)

  datatype Action =
    | OperationPrepared | OperationInvalid | OperationBlocked | OperationPendingApproval
    | OperationAutoApproved | OperationApproved | OperationRejected | OperationExpiredAction
    | OperationCanceledAction | OperationExecutionStarted | OperationSucceeded
    | OperationFailed | OperationIndeterminate
    | Annotation(name: string)

  datatype AuditOutcome = Allowed | Denied | Errored

  datatype Subject = OnOperation(id: OpId) | OnWorkflow(workflow: WorkflowId)

  datatype AuditRecord = AuditRecord(actor: string, action: Action, subject: Subject, outcome: AuditOutcome)

  /** Everything stored under one operation id: its row, its rows of
      `operation_events`, and the verdicts in its rows of `approvals`. */
  datatype Op = Op(row: Row, log: seq<Event>, votes: map<PrincipalId, Verdict>)

  datatype Db = Db(ops: map<OpId, Op>, audit: seq<AuditRecord>)

  const EMPTY := Db(map[], [])

  // ---------------------------------------------------------------- vocabulary

  function ActionOf(t: TransitionId): (a: Action)
    ensures !a.Annotation?
  {
    match t
    case T01 => OperationPrepared
    case T02 => OperationInvalid
    case T03 => OperationBlocked
    case T04 => OperationPendingApproval
    case T05 => OperationAutoApproved
    case T06 => OperationApproved
    case T07 => OperationRejected
    case T08 => OperationExpiredAction
    case T09 => OperationCanceledAction
    case T10 => OperationExecutionStarted
    case T11 => OperationExpiredAction
    case T12 => OperationCanceledAction
    case T13 => OperationSucceeded
    case T14 => OperationFailed
    case T15 => OperationIndeterminate
  }

  function OutcomeOf(t: TransitionId): AuditOutcome {
    match t
    case T01 | T04 | T05 | T06 | T10 | T13 => Allowed
    case T02 | T03 | T07 | T08 | T09 | T11 | T12 => Denied
    case T14 | T15 => Errored
  }

  /** What the external call reported. */
  datatype CallOutcome = CallSucceeded | CallFailed | CallIndeterminate

  function OutcomeTransition(o: CallOutcome): TransitionId {
    match o
    case CallSucceeded => T13
    case CallFailed => T14
    case CallIndeterminate => T15
  }

  /** The audit entry that documents one event of one operation. */
  function AuditOf(id: OpId, e: Event): AuditRecord {
    AuditRecord(e.actor, ActionOf(e.transition), OnOperation(id), OutcomeOf(e.transition))
  }

  function AuditsOf(id: OpId, log: seq<Event>): seq<AuditRecord> {
    seq(|log|, i requires 0 <= i < |log| => AuditOf(id, log[i]))
  }

  /** The transition entries of the audit log about one operation, in order. */
  function Trail(audit: seq<AuditRecord>, id: OpId): seq<AuditRecord> {
    if audit == [] then []
    else
      var last := audit[|audit| - 1];
      Trail(audit[..|audit| - 1], id)
      + (if last.subject == OnOperation(id) && !last.action.Annotation? then [last] else [])
  }

  /** The principals whose recorded verdict is `v`. */
  function Voters(op: Op, v: Verdict): set<PrincipalId> {
    set p | p in op.votes && op.votes[p] == v
  }

  /** Store one operation and append to the audit log. */
  function Put(db: Db, id: OpId, op: Op, audit: seq<AuditRecord>): Db {
    Db(db.ops[id := op], db.audit + audit)
  }

  /** The operations of one workflow that sit in Executing. */
  function ExecutingIn(db: Db, w: WorkflowId): set<OpId> {
    set id | id in db.ops && db.ops[id].row.origin.workflow == w && db.ops[id].row.state == Executing
  }

  // ---------------------------------------------------------------- statements

  /** `UPDATE operations ... WHERE id = :id AND state_version = :expected`; None when
      no row matches. */
  function CompareAndSetState(op: Op, expected: nat, to: State, up: Updates): Option<Op> {
    if op.row.version != expected then None
    else
      Some(op.(row := op.row.(
                 state := to,
                 version := expected + 1,
                 approvalExpiresAt := OrElse(up.approvalExpiresAt, op.row.approvalExpiresAt),
                 executionDeadline := OrElse(up.executionDeadline, op.row.executionDeadline),
                 policy := OrElse(up.policy, op.row.policy))))
  }

  /** The compare-and-set and its event row, together. */
  function ApplyTransition(
    op: Op, expected: nat, t: TransitionId, from: Option<State>, actor: string, up: Updates
  ): Option<Op> {
    match CompareAndSetState(op, expected, ById(t).to, up)
    case None => None
    case Some(moved) => Some(moved.(log := moved.log + [Event(from, ById(t).to, t, actor)]))
  }

  /** A transition on the row the caller holds, at the version it holds. */
  function Move(op: Op, held: Row, t: TransitionId, actor: string, up: Updates): Option<Op> {
    ApplyTransition(op, held.version, t, Some(held.state), actor, up)
  }

  /** The audit entry written beside a transition. */
  function MoveAudit(id: OpId, t: TransitionId, actor: string): AuditRecord {
    AuditRecord(actor, ActionOf(t), OnOperation(id), OutcomeOf(t))
  }

  /** `UPDATE operations SET handle_burned_at ... WHERE handle_burned_at IS NULL`. */
  function BurnHandle(op: Op): Option<Op> {
    if op.row.burned then None else Some(op.(row := op.row.(burned := true)))
  }

  /** A Preparing row at version 1 and its T01 event. */
  function NewOperation(id: OpId, origin: Origin): Op {
    Op(Row(id, origin, Preparing, 1, false, None, None, None), [CreationEvent(origin)], map[])
  }

  function CreationEvent(origin: Origin): Event {
    Event(None, Preparing, T01, origin.principal)
  }

  function RecordVote(op: Op, who: PrincipalId, v: Verdict): Op {
    op.(votes := op.votes[who := v])
  }

  /** A first verdict adds its voter to the tally of that verdict, and to no other. */
  lemma VoteCounts(op: Op, who: PrincipalId, v: Verdict)
    requires who !in op.votes
    ensures Voters(RecordVote(op, who, v), v) == Voters(op, v) + {who}
    ensures forall w: Verdict :: w != v ==> Voters(RecordVote(op, who, v), w) == Voters(op, w)
    ensures |Voters(RecordVote(op, who, v), v)| == |Voters(op, v)| + 1
  {
    var voted := RecordVote(op, who, v);
    assert Voters(voted, v) == Voters(op, v) + {who};
    forall w: Verdict | w != v ensures Voters(voted, w) == Voters(op, w) {
      assert forall p :: p in Voters(voted, w) <==> p in Voters(op, w);
    }
  }

  // ---------------------------------------------------------------- integrity

  /** One operation's row and event log agree: the log is a walk through the table
      that ends in the row's state, and its length is the row's version. */
  ghost predicate OpOk(id: OpId, op: Op) {
    && op.row.id == id
    && IsPath(op.log)
    && |op.log| == op.row.version
    && op.log[|op.log| - 1].to == op.row.state
  }

  /** The audit log documents exactly the events of operation `id`, in order. */
  ghost predicate TrailOk(db: Db, id: OpId) {
    Trail(db.audit, id) == if id in db.ops then AuditsOf(id, db.ops[id].log) else []
  }

  /** Every operation's row, log and audit trail agree. */
  ghost predicate Consistent(db: Db) {
    && (forall id | id in db.ops :: OpOk(id, db.ops[id]))
    && (forall id :: TrailOk(db, id))
  }

  /** `held` was the operation's row at some moment up to now: the log says the
      operation was in that state when it had that version. */
  ghost predicate Known(op: Op, held: Row) {
    && held.id == op.row.id
    && held.origin == op.row.origin
    && 1 <= held.version <= |op.log|
    && op.log[held.version - 1].to == held.state
  }

  lemma {:induction false} TrailConcat(a: seq<AuditRecord>, b: seq<AuditRecord>, id: OpId)
    ensures Trail(a + b, id) == Trail(a, id) + Trail(b, id)
  {
    if b == [] {
      assert a + b == a;
    } else {
      var n := |b| - 1;
      TrailConcat(a, b[..n], id);
      assert (a + b)[..|a + b| - 1] == a + b[..n];
    }
  }

  lemma TrailOne(r: AuditRecord, id: OpId)
    ensures Trail([r], id) == if r.subject == OnOperation(id) && !r.action.Annotation? then [r] else []
  {
    assert [r][..0] == [];
  }

  lemma TrailAdd(audit: seq<AuditRecord>, id: OpId, added: seq<Event>, k: OpId)
    requires |added| <= 1
    ensures Trail(audit + AuditsOf(id, added), k) == Trail(audit, k) + (if k == id then AuditsOf(id, added) else [])
  {
    if added == [] {
      assert audit + AuditsOf(id, added) == audit;
    } else {
      var r := AuditOf(id, added[0]);
      assert AuditsOf(id, added) == [r];
      TrailConcat(audit, [r], k);
      TrailOne(r, k);
    }
  }

  lemma AuditsOfConcat(id: OpId, a: seq<Event>, b: seq<Event>)
    ensures AuditsOf(id, a + b) == AuditsOf(id, a) + AuditsOf(id, b)
  {
  }

  /** Among the rows of one operation's past, the version decides the state, and a
      later version is a state further along. */
  lemma VersionDecidesState(id: OpId, op: Op, a: Row, b: Row)
    requires OpOk(id, op) && Known(op, a) && Known(op, b)
    ensures a.version == b.version ==> a.state == b.state
    ensures a.version < b.version ==> Stage(a.state) < Stage(b.state)
  {
    if a.version < b.version {
      StagesRise(op.log, a.version - 1, b.version - 1);
    }
  }

  /** A legal transition on a known row that has not moved since keeps row and log
      in agreement. */
  lemma MoveKeepsOp(id: OpId, op: Op, held: Row, t: TransitionId, actor: string, up: Updates, moved: Op)
    requires OpOk(id, op) && Known(op, held)
    requires ValidateTransition(t, Some(held.state)).Success?
    requires Move(op, held, t, actor, up) == Some(moved)
    ensures OpOk(id, moved) && Known(moved, moved.row)
    ensures moved.log == op.log + [Event(Some(op.row.state), ById(t).to, t, actor)]
    ensures moved.row.state == ById(t).to && moved.row.origin == op.row.origin
  {
    assert moved.log[..|op.log|] == op.log;
  }

  lemma NewOperationOk(id: OpId, origin: Origin)
    ensures OpOk(id, NewOperation(id, origin)) && Known(NewOperation(id, origin), NewOperation(id, origin).row)
  {
  }

  /** Storing an operation with at most one new event, documented in the same write,
      keeps the database consistent. */
  lemma PutKeeps(db: Db, id: OpId, op: Op, added: seq<Event>)
    requires Consistent(db) && OpOk(id, op) && |added| <= 1
    requires op.log == (if id in db.ops then db.ops[id].log else []) + added
    ensures Consistent(Put(db, id, op, AuditsOf(id, added)))
  {
    var after := Put(db, id, op, AuditsOf(id, added));
    forall k ensures TrailOk(after, k) {
      PutTrail(db, id, op, added, k);
    }
  }

  lemma PutTrail(db: Db, id: OpId, op: Op, added: seq<Event>, k: OpId)
    requires TrailOk(db, k) && |added| <= 1
    requires op.log == (if id in db.ops then db.ops[id].log else []) + added
    ensures TrailOk(Put(db, id, op, AuditsOf(id, added)), k)
  {
    TrailAdd(db.audit, id, added, k);
    if k == id {
      AuditsOfConcat(id, if id in db.ops then db.ops[id].log else [], added);
    }
  }

  // ---------------------------------------------------------------- storing twice

  /** Storing an operation as it stands changes nothing. */
  lemma PutSame(db: Db, id: OpId)
    requires id in db.ops
    ensures Put(db, id, db.ops[id], []) == db
  {
    assert db.ops[id := db.ops[id]] == db.ops;
    assert db.audit + [] == db.audit;
  }

  /** The second of two stores of one operation covers the first. */
  lemma PutJoin(db: Db, id: OpId, op: Op, first: seq<AuditRecord>, later: Op, rest: seq<AuditRecord>)
    ensures Put(Put(db, id, op, first), id, later, rest) == Put(db, id, later, first + rest)
  {
    assert db.ops[id := op][id := later] == db.ops[id := later];
    assert (db.audit + first) + rest == db.audit + (first + rest);
  }

  lemma PutTwice(db: Db, id: OpId, op: Op)
    ensures forall later: Op, x: seq<AuditRecord> :: Put(Put(db, id, op, []), id, later, x) == Put(db, id, later, x)
  {
    forall later: Op, x: seq<AuditRecord> ensures Put(Put(db, id, op, []), id, later, x) == Put(db, id, later, x) {
      PutJoin(db, id, op, [], later, x);
      assert [] + x == x;
    }
  }

  /** A burn starts nothing. */
  lemma BurnRunsNothing(db: Db, id: OpId)
    requires id in db.ops && BurnHandle(db.ops[id]).Some?
    ensures forall w :: ExecutingIn(Put(db, id, BurnHandle(db.ops[id]).value, []), w) == ExecutingIn(db, w)
  {
    var after := Put(db, id, BurnHandle(db.ops[id]).value, []);
    forall w ensures ExecutingIn(after, w) == ExecutingIn(db, w) {
      assert forall k :: k in ExecutingIn(after, w) <==> k in ExecutingIn(db, w);
    }
  }
}
