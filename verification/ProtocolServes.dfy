/**
 The concurrent protocol and the serial use cases are one program: any request, served
 by one thread while no other holds a lock, is a run of the protocol that ends with the
 database the use case describes.
 */
module ProtocolServes {
  import opened Wrappers
  import opened StateMachine
  import opened OperationStore
  import opened Protocol
  import Logs = ProtocolLogs
  import Limit = ProtocolLimit
  import U = UseCases

  /** `s` but for thread `t` and the locks. */
  function Solo(s: System, t: ThreadId, pc: Pc, tx: Db, locks: map<OpId, ThreadId>): System {
    s.(threads := s.threads[t := Thread(pc, tx)], locks := locks)
  }

  /** Locks only `t` holds. */
  predicate OwnLocks(locks: map<OpId, ThreadId>, t: ThreadId) {
    forall k | k in locks :: locks[k] == t
  }

  lemma SoloLooks(s: System, t: ThreadId, pc: Pc, tx: Db, locks: map<OpId, ThreadId>)
    ensures Of(Solo(s, t, pc, tx, locks), t) == Thread(pc, tx)
    ensures View(Solo(s, t, pc, tx, locks), t) == Visible(s.db, tx)
    ensures OwnLocks(locks, t) ==> forall id :: CanLock(Solo(s, t, pc, tx, locks), t, id)
  {
  }

  // ---------------------------------------------------------------- the shapes of a step

  lemma SoloPc(s: System, t: ThreadId, pc: Pc, tx: Db, locks: map<OpId, ThreadId>, next: Pc)
    ensures WithPc(Solo(s, t, pc, tx, locks), t, next) == Solo(s, t, next, tx, locks)
  {
    assert s.threads[t := Thread(pc, tx)][t := Thread(next, tx)] == s.threads[t := Thread(next, tx)];
  }

  lemma SoloPut(s: System, t: ThreadId, pc: Pc, tx: Db, locks: map<OpId, ThreadId>, id: OpId, op: Op,
                audit: seq<AuditRecord>, next: Pc)
    ensures WithPut(Solo(s, t, pc, tx, locks), t, id, op, audit, next)
            == Solo(s, t, next, Put(tx, id, op, audit), locks[id := t])
  {
    assert s.threads[t := Thread(pc, tx)][t := Thread(next, Put(tx, id, op, audit))]
        == s.threads[t := Thread(next, Put(tx, id, op, audit))];
  }

  /** Reaching a state in which `t` stands at `pc`, seeing `view`, with only its own locks. */
  ghost predicate Stands(s: System, t: ThreadId, pc: Pc, view: Db) {
    exists tx: Db, locks: map<OpId, ThreadId> :: StandsWith(s, t, pc, view, tx, locks)
  }

  ghost predicate StandsWith(s: System, t: ThreadId, pc: Pc, view: Db, tx: Db, locks: map<OpId, ThreadId>) {
    Visible(s.db, tx) == view && OwnLocks(locks, t) && Limit.Reaches(s, Solo(s, t, pc, tx, locks))
  }

  /** A step that only moves the program counter. */
  lemma StandPc(s: System, t: ThreadId, pc: Pc, view: Db, step: Step, next: Pc, tx: Db, locks: map<OpId, ThreadId>)
    requires StandsWith(s, t, pc, view, tx, locks)
    requires Enabled(Solo(s, t, pc, tx, locks), step)
    requires Apply(Solo(s, t, pc, tx, locks), step) == WithPc(Solo(s, t, pc, tx, locks), t, next)
    ensures StandsWith(s, t, next, view, tx, locks)
  {
    hide Enabled, Apply, Limit.Reaches, Visible;
    SoloPc(s, t, pc, tx, locks, next);
    Limit.ReachStep(s, Solo(s, t, pc, tx, locks), step);
  }

  /** A step that stores the operation. */
  lemma StandPut(s: System, t: ThreadId, pc: Pc, view: Db, step: Step, id: OpId, op: Op, audit: seq<AuditRecord>,
                 next: Pc, tx: Db, locks: map<OpId, ThreadId>)
    requires StandsWith(s, t, pc, view, tx, locks)
    requires Enabled(Solo(s, t, pc, tx, locks), step)
    requires Apply(Solo(s, t, pc, tx, locks), step) == WithPut(Solo(s, t, pc, tx, locks), t, id, op, audit, next)
    ensures StandsWith(s, t, next, Put(view, id, op, audit), Put(tx, id, op, audit), locks[id := t])
  {
    hide Enabled, Apply, Limit.Reaches, Visible, Put;
    SoloPut(s, t, pc, tx, locks, id, op, audit, next);
    Logs.VisiblePut(s.db, tx, id, op, audit);
    Limit.ReachStep(s, Solo(s, t, pc, tx, locks), step);
  }

  // ---------------------------------------------------------------- steps of one request

  /** The copy a thread holds is the row it sees, but for a burn of its own. */
  predicate Holds(row: Row, view: Db, id: OpId)
    requires id in view.ops
  {
    row.id == id && row.(burned := view.ops[id].row.burned) == view.ops[id].row
  }

  /** Applying a transition to the row as the thread sees it. */
  lemma SoloUpdate(s: System, t: ThreadId, req: Request, row: Row, view: Db, id: OpId, call: Call)
    requires id in view.ops && Holds(row, view, id)
    requires Stands(s, t, Calling(req, row, call), view)
    ensures var e := U.Moving(view.ops[id], call.t, call.actor, call.up);
            Stands(s, t, if e.result.Success? then AfterMove(req, e.op.row, call) else AfterRaise(view, req, row, call),
                   U.PutEffect(view, id, e))
  {
    hide Enabled, Limit.Reaches, ValidateTransition, AfterMove, AfterRaise, StandsWith;
    var pc := Calling(req, row, call);
    var tx, locks :| StandsWith(s, t, pc, view, tx, locks);
    SeenBy(s, t, pc, view, tx, locks);
    UpdateShape(Solo(s, t, pc, tx, locks), t, req, row, id, call);
    var e := U.Moving(view.ops[id], call.t, call.actor, call.up);
    if e.result.Success? {
      StandPut(s, t, pc, view, Update(t), id, e.op, e.audit, AfterMove(req, e.op.row, call), tx, locks);
    } else {
      StandPc(s, t, pc, view, Update(t), AfterRaise(view, req, row, call), tx, locks);
      PutSame(view, id);
    }
  }

  lemma SeenBy(s: System, t: ThreadId, pc: Pc, view: Db, tx: Db, locks: map<OpId, ThreadId>)
    requires StandsWith(s, t, pc, view, tx, locks)
    ensures Of(Solo(s, t, pc, tx, locks), t) == Thread(pc, tx)
    ensures View(Solo(s, t, pc, tx, locks), t) == view
    ensures forall id :: CanLock(Solo(s, t, pc, tx, locks), t, id)
    ensures Visible(s.db, tx) == view
  {
    SoloLooks(s, t, pc, tx, locks);
  }

  lemma UpdateShape(x: System, t: ThreadId, req: Request, row: Row, id: OpId, call: Call)
    requires id in View(x, t).ops && Holds(row, View(x, t), id) && CanLock(x, t, id)
    requires Of(x, t).pc == Calling(req, row, call)
    ensures Enabled(x, Update(t))
    ensures var op := View(x, t).ops[id]; var e := U.Moving(op, call.t, call.actor, call.up);
            Apply(x, Update(t)) == if e.result.Success? then
                WithPut(x, t, id, e.op, e.audit, AfterMove(req, e.op.row, call))
                                   else WithPc(x, t, AfterRaise(View(x, t), req, row, call))
  {
    hide View, CanLock, AfterMove, AfterRaise;
  }

  /** Reading the row and settling its expiry shows what lazy expiry describes. */
  lemma SoloFetch(s: System, t: ThreadId, req: Request, id: OpId)
    requires Logs.Inv(s) && Of(s, t).pc.Idle? && s.locks == map[] && id in s.db.ops
    requires req.Get? || req.Cancel? || req.Decide? || req.Execute?
    ensures var seen := U.Expire(s.db, s.clock, id);
            id in seen.ops && Stands(s, t, Settled(req, seen.ops[id].row), seen)
  {
    hide Logs.Inv, Limit.Reaches, U.Moving;
    Logs.QuietIsEmpty(s, t);
    Logs.CommittedId(s, id);
    var row := s.db.ops[id].row;
    Limit.StartReach(s);
    Limit.ReachStep(s, s, BeginGet(t, req, id));
    var locks := if req.Decide? then map[id := t] else map[];
    FetchShape(s, t, req, id);
    Logs.VisibleEmpty(s.db);
    assert StandsWith(s, t, Fetched(req, row), s.db, EMPTY, locks);
    SettleFetched(s, t, req, s.db, id);
  }

  lemma FetchShape(s: System, t: ThreadId, req: Request, id: OpId)
    requires Of(s, t) == Thread(Idle, EMPTY) && s.locks == map[] && id in s.db.ops
    requires req.Get? || req.Cancel? || req.Decide? || req.Execute?
    ensures Enabled(s, BeginGet(t, req, id))
    ensures Apply(s, BeginGet(t, req, id))
            == Solo(s, t, Fetched(req, s.db.ops[id].row), EMPTY, if req.Decide? then map[id := t] else map[])
  {
  }

  lemma SettleFetched(s: System, t: ThreadId, req: Request, view: Db, id: OpId)
    requires id in view.ops && view.ops[id].row.id == id
    requires Stands(s, t, Fetched(req, view.ops[id].row), view)
    ensures var seen := U.Expire(view, s.clock, id);
            id in seen.ops && Stands(s, t, Settled(req, seen.ops[id].row), seen)
  {
    hide Limit.Reaches, StandsWith, U.Moving, Enabled;
    var op := view.ops[id];
    var pc := Fetched(req, op.row);
    var tx, locks :| StandsWith(s, t, pc, view, tx, locks);
    SeenBy(s, t, pc, view, tx, locks);
    SettleShape(Solo(s, t, pc, tx, locks), t);
    StandPc(s, t, pc, view, Settle(t), SettledPc(pc, s.clock), tx, locks);
    var x := OverdueExpiry(op.row.state, s.clock, op.row.approvalExpiresAt, op.row.executionDeadline);
    if x.Some? {
      ExpiryIsLegal(op, s.clock);
      SoloUpdate(s, t, req, op.row, view, id, Call(x.value, "clock", NO_UPDATES, Expiry));
    } else {
      PutSame(view, id);
    }
  }

  lemma SettleShape(x: System, t: ThreadId)
    requires Of(x, t).pc.Fetched?
    ensures Enabled(x, Settle(t)) && Apply(x, Settle(t)) == WithPc(x, t, SettledPc(Of(x, t).pc, x.clock))
  {
  }

  lemma ExpiryIsLegal(op: Op, now: Time)
    ensures var x := OverdueExpiry(op.row.state, now, op.row.approvalExpiresAt, op.row.executionDeadline);
            x.Some? ==> U.Moving(op, x.value, "clock", NO_UPDATES).result.Success?
                        && U.Expiry(op, now) == U.Moving(op, x.value, "clock", NO_UPDATES)
  {
  }

  // ---------------------------------------------------------------- what each act does

  /** The protocol's name for an act. */
  function AsRequest(act: U.Act): Request {
    match act
    case Get(_, _) => Request.Get
    case Approve(who, _, _) => Decide(who, ApproveIt)
    case Reject(who, _) => Decide(who, RejectIt)
    case Cancel(who, _) => Request.Cancel(who)
    case Execute(who, _, _, _, _, _) => Request.Execute(who)
    case Record(o) => Request.Record(o)
  }

  /** The thread has served the act: it sees what the act leaves, and knows whether it
      raised. */
  ghost predicate Served(s: System, t: ThreadId, req: Request, view: Db, id: OpId, e: U.Effect) {
    Stands(s, t, Finished(req, id, e.result.Success?), U.PutEffect(view, id, e))
  }

  /** A refusal before anything is written. */
  lemma SoloRefuse(s: System, t: ThreadId, req: Request, view: Db, id: OpId, e: Error)
    requires id in view.ops && view.ops[id].row.id == id && !req.Listing?
    requires Stands(s, t, Settled(req, view.ops[id].row), view)
    ensures Served(s, t, req, view, id, U.Refusal(view.ops[id], e))
  {
    hide Limit.Reaches, StandsWith, Enabled;
    var pc := Settled(req, view.ops[id].row);
    var tx, locks :| StandsWith(s, t, pc, view, tx, locks);
    SeenBy(s, t, pc, view, tx, locks);
    RefuseShape(Solo(s, t, pc, tx, locks), t);
    StandPc(s, t, pc, view, Refuse(t), Finished(req, id, false), tx, locks);
    PutSame(view, id);
  }

  lemma RefuseShape(x: System, t: ThreadId)
    requires Of(x, t).pc.Settled? && !Of(x, t).pc.req.Listing?
    ensures Enabled(x, Refuse(t))
    ensures Apply(x, Refuse(t)) == WithPc(x, t, Finished(Of(x, t).pc.req, Of(x, t).pc.row.id, false))
  {
  }

  /** A decision made on the row in hand. */
  lemma SoloProceed(s: System, t: ThreadId, req: Request, view: Db, id: OpId, deadline: Time)
    requires id in view.ops && view.ops[id].row.id == id
    requires !req.Execute? && !(req.Decide? && ByQuorum(s.cfg, view.ops[id].row))
    requires Stands(s, t, Settled(req, view.ops[id].row), view)
    ensures Stands(s, t, Decision(req, view.ops[id].row, deadline), view)
  {
    hide Limit.Reaches, StandsWith, Enabled, Decision;
    var pc := Settled(req, view.ops[id].row);
    var tx, locks :| StandsWith(s, t, pc, view, tx, locks);
    SeenBy(s, t, pc, view, tx, locks);
    ProceedShape(Solo(s, t, pc, tx, locks), t, deadline);
    StandPc(s, t, pc, view, Proceed(t, deadline), Decision(req, view.ops[id].row, deadline), tx, locks);
  }

  lemma ProceedShape(x: System, t: ThreadId, deadline: Time)
    requires Of(x, t).pc.Settled? && !Of(x, t).pc.req.Execute?
    requires !(Of(x, t).pc.req.Decide? && ByQuorum(x.cfg, Of(x, t).pc.row))
    ensures Enabled(x, Proceed(t, deadline))
    ensures Apply(x, Proceed(t, deadline)) == WithPc(x, t, Decision(Of(x, t).pc.req, Of(x, t).pc.row, deadline))
  {
    hide Decision;
  }

  /** The request's own transition, and the end of its body. */
  lemma SoloMain(s: System, t: ThreadId, req: Request, row: Row, view: Db, id: OpId, call: Call)
    requires id in view.ops && Holds(row, view, id) && call.goal == Main
    requires Stands(s, t, Calling(req, row, call), view)
    ensures Served(s, t, req, view, id, U.Moving(view.ops[id], call.t, call.actor, call.up))
  {
    hide Stands;
    SoloUpdate(s, t, req, row, view, id, call);
    MovingId(view.ops[id], call.t, call.actor, call.up);
  }

  lemma MovingId(op: Op, t: TransitionId, actor: string, up: Updates)
    ensures U.Moving(op, t, actor, up).op.row.id == op.row.id
  {
  }

  lemma ServeGet(s: System, t: ThreadId, view: Db, id: OpId, act: U.Act, running: nat)
    requires id in view.ops && view.ops[id].row.id == id && act.Get?
    requires Stands(s, t, Settled(AsRequest(act), view.ops[id].row), view)
    ensures Served(s, t, AsRequest(act), view, id, U.Acting(view.ops[id], running, s.clock, s.cfg.v2, act))
  {
    hide Stands;
    if U.Sees(view.ops[id], act.who, act.visible, s.cfg.v2) {
      SoloProceed(s, t, AsRequest(act), view, id, 0);
      PutSame(view, id);
    } else {
      SoloRefuse(s, t, AsRequest(act), view, id, OperationNotFound);
    }
  }

  lemma ServeCancel(s: System, t: ThreadId, view: Db, id: OpId, act: U.Act, running: nat)
    requires id in view.ops && view.ops[id].row.id == id && act.Cancel?
    requires Stands(s, t, Settled(AsRequest(act), view.ops[id].row), view)
    ensures Served(s, t, AsRequest(act), view, id, U.Acting(view.ops[id], running, s.clock, s.cfg.v2, act))
  {
    hide Stands, U.Moving;
    var req, row := AsRequest(act), view.ops[id].row;
    if !U.Sees(view.ops[id], act.who, act.visible, s.cfg.v2) {
      SoloRefuse(s, t, req, view, id, OperationNotFound);
    } else {
      SoloProceed(s, t, req, view, id, 0);
      if row.state == PendingApproval {
        SoloMain(s, t, req, row, view, id, Call(T09, act.who, NO_UPDATES, Main));
      } else if row.state == Approved {
        SoloMain(s, t, req, row, view, id, Call(T12, act.who, NO_UPDATES, Main));
      } else {
        PutSame(view, id);
      }
    }
  }

  /** A quorum decision, up to where it stops or goes on to its transition. */
  lemma SoloVote(s: System, t: ThreadId, who: PrincipalId, v: Verdict, view: Db, id: OpId, deadline: Time)
    requires id in view.ops && view.ops[id].row.id == id && ByQuorum(s.cfg, view.ops[id].row)
    requires Stands(s, t, Settled(Decide(who, v), view.ops[id].row), view)
    ensures var op := view.ops[id]; var policy := op.row.policy.value; var req := Decide(who, v);
            var voted := RecordVote(op, who, v);
            if who == op.row.origin.principal || who !in policy.eligible || who in op.votes then
              Stands(s, t, Finished(req, id, false), view)
            else if v == ApproveIt && |Voters(voted, ApproveIt)| < policy.quorum then
              Stands(s, t, Finished(req, id, true), Put(view, id, voted, []))
            else Stands(s, t, DecisionCall(req, op.row, who, v, deadline), Put(view, id, voted, []))
  {
    hide Limit.Reaches, StandsWith, Enabled, Voters;
    var req := Decide(who, v);
    var op := view.ops[id];
    var pc := Settled(req, op.row);
    var tx, locks :| StandsWith(s, t, pc, view, tx, locks);
    SeenBy(s, t, pc, view, tx, locks);
    VoteShape(Solo(s, t, pc, tx, locks), t, deadline);
    var voted := RecordVote(op, who, v);
    if who == op.row.origin.principal || who !in op.row.policy.value.eligible || who in op.votes {
      StandPc(s, t, pc, view, Vote(t, deadline), Finished(req, id, false), tx, locks);
    } else if v == ApproveIt && |Voters(voted, ApproveIt)| < op.row.policy.value.quorum {
      StandPut(s, t, pc, view, Vote(t, deadline), id, voted, [], Finished(req, id, true), tx, locks);
    } else {
      StandPut(s, t, pc, view, Vote(t, deadline), id, voted, [], DecisionCall(req, op.row, who, v, deadline), tx,
          locks);
    }
  }

  lemma VoteShape(x: System, t: ThreadId, deadline: Time)
    requires Of(x, t).pc.Settled? && Of(x, t).pc.req.Decide? && ByQuorum(x.cfg, Of(x, t).pc.row)
    requires Of(x, t).pc.row.id in View(x, t).ops && CanLock(x, t, Of(x, t).pc.row.id)
    ensures Enabled(x, Vote(t, deadline))
    ensures Apply(x, Vote(t, deadline)) == Voted(x, t, Of(x, t).pc.req, Of(x, t).pc.row, deadline)
  {
    hide Voted, View, CanLock;
  }

  lemma ServeVote(s: System, t: ThreadId, who: PrincipalId, v: Verdict, view: Db, id: OpId, ttl: nat)
    requires id in view.ops && view.ops[id].row.id == id && ByQuorum(s.cfg, view.ops[id].row)
    requires Stands(s, t, Settled(Decide(who, v), view.ops[id].row), view)
    ensures Served(s, t, Decide(who, v), view, id, U.Voting(view.ops[id], who, v, s.clock, ttl))
  {
    hide Stands, U.Moving, Voters, Put;
    var req, op := Decide(who, v), view.ops[id];
    var voted := RecordVote(op, who, v);
    SoloVote(s, t, who, v, view, id, s.clock + ttl);
    PutSame(view, id);
    if who == op.row.origin.principal || who !in op.row.policy.value.eligible || who in op.votes {
    } else if v == ApproveIt && |Voters(voted, ApproveIt)| < op.row.policy.value.quorum {
    } else {
      PutHas(view, id, voted);
      var call := if v == ApproveIt then Call(T06, who, Updates(None, Some(s.clock + ttl), None), Main)
                  else Call(T07, who, NO_UPDATES, Main);
      SoloMain(s, t, req, op.row, Put(view, id, voted, []), id, call);
      var e := U.Moving(voted, call.t, call.actor, call.up);
      PutTwice(view, id, voted);
    }
  }

  lemma PutHas(db: Db, id: OpId, op: Op)
    ensures id in Put(db, id, op, []).ops && Put(db, id, op, []).ops[id] == op
  {
  }

  lemma ServeDecision(s: System, t: ThreadId, view: Db, id: OpId, act: U.Act, running: nat)
    requires id in view.ops && view.ops[id].row.id == id && (act.Approve? || act.Reject?)
    requires Stands(s, t, Settled(AsRequest(act), view.ops[id].row), view)
    ensures Served(s, t, AsRequest(act), view, id, U.Acting(view.ops[id], running, s.clock, s.cfg.v2, act))
  {
    hide Stands, U.Moving, U.Voting;
    var req := AsRequest(act);
    var ttl := if act.Approve? then act.executionTtl else 0;
    if ByQuorum(s.cfg, view.ops[id].row) {
      ServeVote(s, t, act.who, req.verdict, view, id, ttl);
    } else if s.cfg.v2 && !act.allowed {
      SoloRefuse(s, t, req, view, id, OperationNotFound);
    } else {
      SoloProceed(s, t, req, view, id, s.clock + ttl);
      SoloMain(s, t, req, view.ops[id].row, view, id,
               if act.Approve? then Call(T06, act.who, Updates(None, Some(s.clock + ttl), None), Main)
               else Call(T07, act.who, NO_UPDATES, Main));
    }
  }

  /** Burn and count. */
  lemma SoloBurn(s: System, t: ThreadId, who: PrincipalId, view: Db, id: OpId)
    requires id in view.ops && view.ops[id].row.id == id
    requires view.ops[id].row.state == Approved && !view.ops[id].row.burned
    requires Stands(s, t, Settled(Request.Execute(who), view.ops[id].row), view)
    ensures var op := view.ops[id]; var w := op.row.origin.workflow;
            Stands(s, t, if |ExecutingIn(view, w)| >= s.cfg.limit(w) then Finished(Request.Execute(who), id, false)
                         else Calling(Request.Execute(who), op.row, Call(T10, who, NO_UPDATES, Main)),
                   Put(view, id, BurnHandle(op).value, []))
  {
    hide Limit.Reaches, StandsWith, Enabled, ExecutingIn, Put;
    var req, op := Request.Execute(who), view.ops[id];
    var pc := Settled(req, op.row);
    var tx, locks :| StandsWith(s, t, pc, view, tx, locks);
    SeenBy(s, t, pc, view, tx, locks);
    var burnt := BurnHandle(op).value;
    BurnShape(Solo(s, t, pc, tx, locks), t);
    StandPut(s, t, pc, view, Burn(t), id, burnt, [], Burned(who, op.row), tx, locks);
    var after := Put(view, id, burnt, []);
    var tx2, locks2 := Put(tx, id, burnt, []), locks[id := t];
    SeenBy(s, t, Burned(who, op.row), after, tx2, locks2);
    Limit.CountShape(Solo(s, t, Burned(who, op.row), tx2, locks2), t);
    BurnRunsNothing(view, id);
    StandPc(s, t, Burned(who, op.row), after, Count(t), CountedPc(after, s.cfg.limit, Burned(who, op.row)), tx2,
        locks2);
  }

  lemma BurnShape(x: System, t: ThreadId)
    requires Of(x, t).pc.Settled? && Of(x, t).pc.req.Execute?
    requires Of(x, t).pc.row.id in View(x, t).ops && CanLock(x, t, Of(x, t).pc.row.id)
    requires Of(x, t).pc.row.state == Approved && !Of(x, t).pc.row.burned
    requires View(x, t).ops[Of(x, t).pc.row.id].row == Of(x, t).pc.row
    ensures Enabled(x, Burn(t))
    ensures var row := Of(x, t).pc.row;
            Apply(x, Burn(t)) == WithPut(x, t, row.id, BurnHandle(View(x, t).ops[row.id]).value, [],
                                         Burned(Of(x, t).pc.req.who, row))
  {
    hide View, CanLock;
  }

  lemma ServeExecute(s: System, t: ThreadId, view: Db, id: OpId, act: U.Act)
    requires id in view.ops && view.ops[id].row.id == id && act.Execute?
    requires act.maxConcurrent == s.cfg.limit(view.ops[id].row.origin.workflow)
    requires Stands(s, t, Settled(AsRequest(act), view.ops[id].row), view)
    ensures Served(s, t, AsRequest(act), view, id,
                   U.Acting(view.ops[id], |ExecutingIn(view, view.ops[id].row.origin.workflow)|, s.clock, s.cfg.v2,
                       act))
  {
    hide Stands, U.Moving, ExecutingIn, Put;
    var req, op := AsRequest(act), view.ops[id];
    var running := |ExecutingIn(view, op.row.origin.workflow)|;
    var e := U.Acting(op, running, s.clock, s.cfg.v2, act);
    if e.result.Failure? && e.op == op {
      SoloRefuse(s, t, req, view, id, e.result.error);
      ExecuteRefusal(op, running, s.clock, s.cfg.v2, act);
    } else {
      ExecuteBurns(op, running, s.clock, s.cfg.v2, act);
      var burnt := BurnHandle(op).value;
      SoloBurn(s, t, act.who, view, id);
      PutHas(view, id, burnt);
      if running < act.maxConcurrent {
        SoloMain(s, t, req, op.row, Put(view, id, burnt, []), id, Call(T10, act.who, NO_UPDATES, Main));
        var moved := U.Moving(burnt, T10, act.who, NO_UPDATES);
        PutTwice(view, id, burnt);
      }
    }
  }

  lemma ExecuteRefusal(op: Op, running: nat, now: Time, v2: bool, act: U.Act)
    requires act.Execute? && var e := U.Acting(op, running, now, v2, act); e.result.Failure? && e.op == op
    ensures var e := U.Acting(op, running, now, v2, act); e == U.Refusal(op, e.result.error)
  {
  }

  lemma ExecuteBurns(op: Op, running: nat, now: Time, v2: bool, act: U.Act)
    requires act.Execute? && var e := U.Acting(op, running, now, v2, act); !(e.result.Failure? && e.op == op)
    ensures op.row.state == Approved && !op.row.burned
    ensures U.Acting(op, running, now, v2, act)
            == if running >= act.maxConcurrent then U.Refusal(BurnHandle(op).value, ConcurrencyLimitReached)
               else U.Moving(BurnHandle(op).value, T10, act.who, NO_UPDATES)
  {
  }

  // ---------------------------------------------------------------- the end of the transaction

  /** Which errors a channel lets its session scope commit: the decision channels let
      every error out. */
  predicate MayCatch(act: U.Act, caught: bool) {
    caught ==> !act.Approve? && !act.Reject?
  }

  /** `s` after `t` has closed its transaction and left `db`. */
  function Closing(s: System, t: ThreadId, db: Db, pc: Pc): System {
    Solo(s.(db := db), t, pc, EMPTY, map[])
  }

  lemma SoloEnd(s: System, t: ThreadId, req: Request, id: OpId, ok: bool, view: Db, caught: bool)
    requires Stands(s, t, Finished(req, id, ok), view)
    requires !ok && caught ==> !req.Decide? && !req.Prepare?
    ensures Limit.Reaches(s, Closing(s, t, if ok || caught then view else s.db, AfterCommit(Finished(req, id, ok))))
  {
    hide Limit.Reaches, Enabled, StandsWith, Apply, Closing;
    var pc := Finished(req, id, ok);
    var tx, locks :| StandsWith(s, t, pc, view, tx, locks);
    SeenBy(s, t, pc, view, tx, locks);
    ReachedBy(s, t, pc, view, tx, locks);
    EndShape(s, t, pc, tx, locks);
    Limit.ReachStep(s, Solo(s, t, pc, tx, locks), if ok || caught then Commit(t) else Rollback(t));
  }

  lemma ReachedBy(s: System, t: ThreadId, pc: Pc, view: Db, tx: Db, locks: map<OpId, ThreadId>)
    requires StandsWith(s, t, pc, view, tx, locks)
    ensures Limit.Reaches(s, Solo(s, t, pc, tx, locks)) && OwnLocks(locks, t)
  {
  }

  lemma EndShape(s: System, t: ThreadId, pc: Pc, tx: Db, locks: map<OpId, ThreadId>)
    requires pc.Finished? && OwnLocks(locks, t)
    ensures var x := Solo(s, t, pc, tx, locks);
            && (!pc.ok ==> Enabled(x, Rollback(t)) && Apply(x, Rollback(t)) == Closing(s, t, s.db, Idle))
            && ((!pc.ok ==> !pc.req.Decide? && !pc.req.Prepare?) ==>
                  && Enabled(x, Commit(t))
                  && Apply(x, Commit(t)) == Closing(s, t, Visible(s.db, tx), AfterCommit(pc)))
  {
    hide Visible;
    var x := Solo(s, t, pc, tx, locks);
    SoloLooks(s, t, pc, tx, locks);
    assert Unlocked(locks, t) == map[];
    forall next: Pc ensures x.threads[t := Thread(next, EMPTY)] == s.threads[t := Thread(next, EMPTY)] {}
  }

  // ---------------------------------------------------------------- the theorem

  lemma ServeAct(s: System, t: ThreadId, view: Db, id: OpId, act: U.Act)
    requires id in view.ops && view.ops[id].row.id == id && !act.Record?
    requires act.Execute? ==> act.maxConcurrent == s.cfg.limit(view.ops[id].row.origin.workflow)
    requires Stands(s, t, Settled(AsRequest(act), view.ops[id].row), view)
    ensures Served(s, t, AsRequest(act), view, id,
                   U.Acting(view.ops[id], |ExecutingIn(view, view.ops[id].row.origin.workflow)|, s.clock, s.cfg.v2,
                       act))
  {
    hide Stands, U.Acting, ExecutingIn, Served;
    var running := |ExecutingIn(view, view.ops[id].row.origin.workflow)|;
    if act.Get? {
      ServeGet(s, t, view, id, act, running);
    } else if act.Cancel? {
      ServeCancel(s, t, view, id, act, running);
    } else if act.Execute? {
      ServeExecute(s, t, view, id, act);
    } else {
      ServeDecision(s, t, view, id, act, running);
    }
  }

  /** Any read, approval, rejection, cancellation or execution of one operation, served
      alone by an idle thread, is a run of the protocol that ends with exactly the
      database the use case leaves, committed or rolled back, and with nothing else
      changed but the thread: idle again, or about to dispatch what it started. */
  lemma ServedAlone(s: System, t: ThreadId, id: OpId, act: U.Act, caught: bool)
    requires Logs.Inv(s) && Of(s, t).pc.Idle? && s.locks == map[] && !act.Record? && MayCatch(act, caught)
    requires act.Execute? && id in s.db.ops ==> act.maxConcurrent == s.cfg.limit(s.db.ops[id].row.origin.workflow)
    ensures var o := U.Perform(s.db, s.clock, s.cfg.v2, U.OnOne(id, act));
            var end := Finished(AsRequest(act), id, o.result.Success?);
            Limit.Reaches(s, Closing(s, t, U.Scoped(o, caught), AfterCommit(end)))
  {
    hide Limit.Reaches, Stands, U.Acting, ExecutingIn, U.Expire, Logs.Inv;
    Logs.QuietIsEmpty(s, t);
    SoloSelf(s, t);
    if !U.Mismatched(id, act) && id in s.db.ops {
      var seen := U.Expire(s.db, s.clock, id);
      SoloFetch(s, t, AsRequest(act), id);
      SeenRow(s, id);
      var e := U.Acting(seen.ops[id], |ExecutingIn(seen, seen.ops[id].row.origin.workflow)|, s.clock, s.cfg.v2, act);
      ServeAct(s, t, seen, id, act);
      SoloEnd(s, t, AsRequest(act), id, e.result.Success?, U.PutEffect(seen, id, e), caught);
    }
  }

  lemma SeenRow(s: System, id: OpId)
    requires Logs.Inv(s) && id in s.db.ops
    ensures var seen := U.Expire(s.db, s.clock, id);
            id in seen.ops && seen.ops[id].row.id == id && seen.ops[id].row.origin == s.db.ops[id].row.origin
  {
    Logs.CommittedId(s, id);
  }

  // ---------------------------------------------------------------- prepare

  /** The transition a new operation's checks choose. */
  function IntakeCall(entry: U.Entry, checks: U.Checks, now: Time, v2: bool): Call {
    if !checks.valid then Call(T02, "system", NO_UPDATES, Main)
    else if !checks.ready then Call(T03, "system", NO_UPDATES, Main)
    else if !entry.needsApproval then Call(T05, "system", Updates(None, Some(now + entry.executionTtl), None), Main)
    else
      Call(T04, "system",
           Updates(Some(now + entry.approvalTtl), None,
                   if v2 then Some(Policy(entry.quorum, entry.eligible)) else None), Main)
  }

  lemma SoloCreate(s: System, t: ThreadId, id: OpId, origin: Origin, call: Call)
    requires Of(s, t) == Thread(Idle, EMPTY) && s.locks == map[] && id !in s.db.ops
    requires PrepareCall(s.cfg, origin, call)
    ensures var op := NewOperation(id, origin);
            Stands(s, t, Calling(Prepare, op.row, call), Put(s.db, id, op, [AuditOf(id, CreationEvent(origin))]))
  {
    hide Limit.Reaches, Enabled, PrepareCall, Put;
    var op := NewOperation(id, origin);
    var audit := [AuditOf(id, CreationEvent(origin))];
    Logs.VisibleEmpty(s.db);
    Limit.StartReach(s);
    SoloSelf(s, t);
    assert StandsWith(s, t, Idle, s.db, EMPTY, map[]);
    CreateShape(s, t, id, origin);
    StandPut(s, t, Idle, s.db, BeginPrepare(t, id, origin), id, op, audit, Created(op.row), EMPTY, map[]);
    var tx, locks := Put(EMPTY, id, op, audit), map[id := t];
    SeenBy(s, t, Created(op.row), Put(s.db, id, op, audit), tx, locks);
    ChooseShape(Solo(s, t, Created(op.row), tx, locks), t, call);
    StandPc(s, t, Created(op.row), Put(s.db, id, op, audit), FinishPrepare(t, call), Calling(Prepare, op.row, call),
        tx, locks);
  }

  lemma SoloSelf(s: System, t: ThreadId)
    requires Of(s, t) == Thread(Idle, EMPTY) && s.locks == map[]
    ensures Limit.Reaches(s, Solo(s, t, Idle, EMPTY, map[]))
  {
    hide Limit.Reaches, Enabled;
    Limit.StartReach(s);
    CrashShape(s, t);
    Limit.ReachStep(s, s, Crash(t));
  }

  /** A crash of an idle thread leaves an idle thread. */
  lemma CrashShape(s: System, t: ThreadId)
    requires Of(s, t) == Thread(Idle, EMPTY) && s.locks == map[]
    ensures Enabled(s, Crash(t)) && Apply(s, Crash(t)) == Solo(s, t, Idle, EMPTY, map[])
  {
  }

  lemma CreateShape(s: System, t: ThreadId, id: OpId, origin: Origin)
    requires id !in s.db.ops
    ensures var x := Solo(s, t, Idle, EMPTY, map[]);
            && Enabled(x, BeginPrepare(t, id, origin))
            && Apply(x, BeginPrepare(t, id, origin))
               == WithPut(x, t, id, NewOperation(id, origin), [AuditOf(id, CreationEvent(origin))],
                          Created(NewOperation(id, origin).row))
  {
    Logs.VisibleEmpty(s.db);
    SoloLooks(s, t, Idle, EMPTY, map[]);
  }

  lemma ChooseShape(x: System, t: ThreadId, call: Call)
    requires Of(x, t).pc.Created? && PrepareCall(x.cfg, Of(x, t).pc.row.origin, call)
    ensures Enabled(x, FinishPrepare(t, call))
    ensures Apply(x, FinishPrepare(t, call)) == WithPc(x, t, Calling(Prepare, Of(x, t).pc.row, call))
  {
  }

  lemma IntakeMoves(id: OpId, origin: Origin, entry: U.Entry, checks: U.Checks, now: Time, v2: bool)
    ensures var call := IntakeCall(entry, checks, now, v2);
            var e := U.Moving(NewOperation(id, origin), call.t, call.actor, call.up);
            && e.result.Success?
            && U.Intake(id, origin, entry, checks, now, v2)
               == e.(audit := [AuditOf(id, CreationEvent(origin))] + e.audit)
  {
  }

  /** A submission that passes every check, served alone, is a run of the protocol that
      ends with the new operation where its checks send it. */
  lemma PreparedAlone(s: System, t: ThreadId, handle: OpId, origin: Origin, entry: U.Entry, checks: U.Checks)
    requires Logs.Inv(s) && Of(s, t).pc.Idle? && s.locks == map[] && handle !in s.db.ops
    requires s.cfg.v2 && entry.needsApproval ==> PolicyOk(Policy(entry.quorum, entry.eligible), origin.principal)
    ensures Limit.Reaches(s, Closing(s, t, U.PutEffect(s.db, handle,
                U.Intake(handle, origin, entry, checks, s.clock, s.cfg.v2)), Idle))
  {
    hide Limit.Reaches, Stands, U.Moving, Logs.Inv, U.Intake;
    Logs.QuietIsEmpty(s, t);
    var call := IntakeCall(entry, checks, s.clock, s.cfg.v2);
    var op := NewOperation(handle, origin);
    var one := [AuditOf(handle, CreationEvent(origin))];
    SoloCreate(s, t, handle, origin, call);
    var view := Put(s.db, handle, op, one);
    SoloMain(s, t, Prepare, op.row, view, handle, call);
    IntakeMoves(handle, origin, entry, checks, s.clock, s.cfg.v2);
    var e := U.Moving(op, call.t, call.actor, call.up);
    SoloEnd(s, t, Prepare, handle, true, U.PutEffect(view, handle, e), false);
    PutJoin(s.db, handle, op, one, e.op, e.audit);
  }

  // ---------------------------------------------------------------- several transactions

  lemma ReachOn(a: System, b: System, c: System)
    requires Limit.Reaches(a, b) && Limit.Reaches(b, c)
    ensures Limit.Reaches(a, c)
  {
    var first :| Limit.Leads(first, a, b);
    var second :| Limit.Leads(second, b, c);
    var run := first + second[1..];
    forall i | 0 <= i < |run| - 1 ensures Next(run[i], run[i + 1]) {
      if i < |first| - 1 {
        assert Next(first[i], first[i + 1]);
      } else {
        assert Next(second[i - |first| + 1], second[i - |first| + 2]);
      }
    }
    assert Limit.Leads(run, a, c);
  }

  /** Alone, `t` can leave `db`, nothing else changed, and be idle again. */
  ghost predicate Leaves(s: System, t: ThreadId, db: Db) {
    Limit.Reaches(s, Closing(s, t, db, Idle))
  }

  lemma Untouched(s: System, t: ThreadId)
    requires Logs.Inv(s) && Of(s, t).pc.Idle? && s.locks == map[]
    ensures Leaves(s, t, s.db)
  {
    hide Logs.Inv, Limit.Reaches;
    Logs.QuietIsEmpty(s, t);
    SoloSelf(s, t);
  }

  lemma LeavesThen(s: System, t: ThreadId, db: Db, after: Db)
    requires Leaves(s, t, db) && Leaves(Closing(s, t, db, Idle), t, after)
    ensures Leaves(s, t, after)
  {
    hide Limit.Reaches;
    var middle := Closing(s, t, db, Idle);
    assert s.threads[t := Thread(Idle, EMPTY)][t := Thread(Idle, EMPTY)] == s.threads[t := Thread(Idle, EMPTY)];
    assert Closing(middle, t, after, Idle) == Closing(s, t, after, Idle);
    ReachOn(s, middle, Closing(s, t, after, Idle));
  }

  lemma {:induction false} ReachedInv(s: System, later: System)
    requires Logs.Inv(s) && Limit.Reaches(s, later)
    ensures Logs.Inv(later)
  {
    hide Logs.Inv, Enabled;
    var run :| Limit.Leads(run, s, later);
    for i := 0 to |run| - 1
      invariant Logs.Inv(run[i])
    {
      assert Next(run[i], run[i + 1]);
      var step :| Enabled(run[i], step) && run[i + 1] == Apply(run[i], step);
      Logs.StepKeeps(run[i], step);
    }
  }

  lemma LeftInv(s: System, t: ThreadId, db: Db)
    requires Logs.Inv(s) && Leaves(s, t, db)
    ensures var x := Closing(s, t, db, Idle);
            && Logs.Inv(x) && Of(x, t).pc.Idle? && x.locks == map[] && x.db == db && x.clock == s.clock
            && x.cfg == s.cfg
  {
    hide Logs.Inv, Limit.Reaches;
    ReachedInv(s, Closing(s, t, db, Idle));
  }

  /** Reading an operation leaves its lazy expiry. */
  lemma Looked(s: System, t: ThreadId, id: OpId)
    requires Logs.Inv(s) && Of(s, t).pc.Idle? && s.locks == map[] && id in s.db.ops
    ensures Leaves(s, t, U.Expire(s.db, s.clock, id))
  {
    hide Logs.Inv, Limit.Reaches, U.Expire, ExecutingIn;
    var seen := U.Expire(s.db, s.clock, id);
    var act := U.Get(s.db.ops[id].row.origin.principal, true);
    SeenRow(s, id);
    ServedAlone(s, t, id, act, false);
    PutSame(seen, id);
  }

  /** A submission refused by the size check or the rate limit, whose audit entry is not
      about an operation. */
  ghost predicate Denied(o: U.Outcome) {
    o.result == Failure(ArgumentsTooLarge) || o.result == Failure(RateLimited)
  }

  /** The shared body of prepare and retry, from the database it sees. */
  lemma SubmitLeaves(s: System, t: ThreadId, base: Db, handle: OpId, origin: Origin, entry: U.Entry, checks: U.Checks)
    requires Logs.Inv(s) && Of(s, t).pc.Idle? && s.locks == map[]
    requires s.cfg.v2 && entry.needsApproval ==> PolicyOk(Policy(entry.quorum, entry.eligible), origin.principal)
    requires !Denied(U.Submit(s.db, base, s.clock, s.cfg.v2, handle, origin, entry, checks))
    ensures var o := U.Submit(s.db, base, s.clock, s.cfg.v2, handle, origin, entry, checks);
            Leaves(s, t, o.db) && o.base == base
  {
    hide Logs.Inv, Leaves, U.Expire, U.Intake, U.RecentIn, PolicyOk;
    Untouched(s, t);
    var found := U.FindKey(s.db, origin);
    if found.Some? {
      U.FoundKey(s.db, origin);
      Looked(s, t, found.value);
    } else if handle !in s.db.ops {
      CreatedLeaves(s, t, handle, origin, entry, checks);
    }
  }

  lemma CreatedLeaves(s: System, t: ThreadId, handle: OpId, origin: Origin, entry: U.Entry, checks: U.Checks)
    requires Logs.Inv(s) && Of(s, t).pc.Idle? && s.locks == map[] && handle !in s.db.ops
    requires s.cfg.v2 && entry.needsApproval ==> PolicyOk(Policy(entry.quorum, entry.eligible), origin.principal)
    ensures Leaves(s, t, U.PutEffect(s.db, handle, U.Intake(handle, origin, entry, checks, s.clock, s.cfg.v2)))
  {
    hide Logs.Inv, U.Intake, PolicyOk, Limit.Reaches;
    PreparedAlone(s, t, handle, origin, entry, checks);
  }

  /** Any prepare or retry that is not denied, whether it creates, replays or conflicts,
      served alone, is a run that ends with the database the use case leaves. What a
      retry reads of its parent is a transaction of its own here. */
  lemma SubmittedAlone(s: System, t: ThreadId, request: U.Request, caught: bool)
    requires Logs.Inv(s) && Of(s, t).pc.Idle? && s.locks == map[] && (request.Prepare? || request.Retry?)
    requires var sub := request.sub;
             s.cfg.v2 && sub.entry.needsApproval ==> PolicyOk(Policy(sub.entry.quorum, sub.entry.eligible), sub.who)
    requires !Denied(U.Perform(s.db, s.clock, s.cfg.v2, request))
    ensures Leaves(s, t, U.Scoped(U.Perform(s.db, s.clock, s.cfg.v2, request), caught))
  {
    hide Logs.Inv, Leaves, U.Submit, U.Expire, PolicyOk;
    Untouched(s, t);
    match request
    case Prepare(sub, workflow, arguments) =>
      SubmitLeaves(s, t, s.db, sub.handle, U.PrepareOrigin(sub, workflow, arguments), sub.entry, sub.checks);
    case Retry(parent, visible, sub) =>
      if parent in s.db.ops { RetryLeaves(s, t, parent, visible, sub); }
  }

  lemma RetryLeaves(s: System, t: ThreadId, parent: OpId, visible: bool, sub: U.Submission)
    requires Logs.Inv(s) && Of(s, t).pc.Idle? && s.locks == map[] && parent in s.db.ops
    requires s.cfg.v2 && sub.entry.needsApproval ==> PolicyOk(Policy(sub.entry.quorum, sub.entry.eligible), sub.who)
    requires !Denied(U.Perform(s.db, s.clock, s.cfg.v2, U.Retry(parent, visible, sub)))
    ensures var o := U.Perform(s.db, s.clock, s.cfg.v2, U.Retry(parent, visible, sub));
            Leaves(s, t, o.db) && o.base == s.db
  {
    hide Logs.Inv, Leaves, U.Submit, U.Expire, PolicyOk;
    var seen := U.Expire(s.db, s.clock, parent);
    SeenRow(s, parent);
    Looked(s, t, parent);
    LeftInv(s, t, seen);
    var x := Closing(s, t, seen, Idle);
    Untouched(x, t);
    var op := seen.ops[parent];
    var o := U.Retrying(seen, s.db, s.clock, s.cfg.v2, op, visible, sub);
    if o == U.Submit(seen, s.db, s.clock, s.cfg.v2, sub.handle, U.RetryOrigin(op.row, sub), sub.entry, sub.checks) {
      SubmitLeaves(x, t, s.db, sub.handle, U.RetryOrigin(op.row, sub), sub.entry, sub.checks);
    }
    LeavesThen(s, t, seen, o.db);
  }

  // ---------------------------------------------------------------- dispatch and record

  lemma EnterShape(s: System, t: ThreadId, id: OpId, who: PrincipalId)
    requires Of(s, t) == Thread(Started(id, who), EMPTY) && s.locks == map[]
    requires id in s.db.ops && s.db.ops[id].row.state == Executing
    ensures Enabled(s, EnterDispatch(t))
    ensures Apply(s, EnterDispatch(t))
            == Solo(s, t, if who == s.db.ops[id].row.origin.principal then Ready(id) else Idle, EMPTY, map[])
  {
  }

  /** The external call. */
  lemma CallShape(s: System, t: ThreadId, id: OpId, o: CallOutcome)
    ensures var ready := Solo(s, t, Ready(id), EMPTY, map[]);
            && Enabled(ready, ExternalCall(t, o))
            && Apply(ready, ExternalCall(t, o))
               == Solo(s.(calls := s.calls + multiset{id}), t, Returned(id, o), EMPTY, map[])
  {
    assert s.threads[t := Thread(Ready(id), EMPTY)][t := Thread(Returned(id, o), EMPTY)]
        == s.threads[t := Thread(Returned(id, o), EMPTY)];
  }

  lemma ReadShape(x: System, t: ThreadId, id: OpId, o: CallOutcome)
    requires Of(x, t) == Thread(Returned(id, o), EMPTY) && x.locks == map[] && id in x.db.ops
    ensures Enabled(x, BeginRecord(t))
    ensures Apply(x, BeginRecord(t)) == Solo(x, t, Fetched(Request.Record(o), x.db.ops[id].row), EMPTY, map[])
  {
  }

  /** The requester's thread that committed T10 dispatches and records, alone: the
      database ends as the record use case leaves it. */
  lemma RecordedAlone(s: System, t: ThreadId, id: OpId, o: CallOutcome)
    requires id in s.db.ops && s.db.ops[id].row.state == Executing
    requires Logs.Inv(s) && Of(s, t).pc == Started(id, s.db.ops[id].row.origin.principal) && s.locks == map[]
    ensures Limit.Reaches(s, Closing(s.(calls := s.calls + multiset{id}), t,
                U.Perform(s.db, s.clock, s.cfg.v2, U.OnOne(id, U.Record(o))).db, Idle))
  {
    hide Limit.Reaches, Stands, StandsWith, U.Moving, ExecutingIn, Logs.Inv, Enabled, Apply;
    Logs.QuietIsEmpty(s, t);
    Logs.CommittedId(s, id);
    EnterShape(s, t, id, s.db.ops[id].row.origin.principal);
    CallShape(s, t, id, o);
    var called := Solo(s.(calls := s.calls + multiset{id}), t, Returned(id, o), EMPTY, map[]);
    Limit.StartReach(s);
    Limit.ReachStep(s, s, EnterDispatch(t));
    Limit.ReachStep(s, Solo(s, t, Ready(id), EMPTY, map[]), ExternalCall(t, o));
    ReadShape(called, t, id, o);
    RecordFrom(called, t, id, o);
    var after := U.Perform(s.db, s.clock, s.cfg.v2, U.OnOne(id, U.Record(o))).db;
    ClosingTwice(s.(calls := s.calls + multiset{id}), t, Returned(id, o), after, Idle);
    ReachOn(s, called, Closing(called, t, after, Idle));
  }

  lemma ClosingTwice(s: System, t: ThreadId, was: Pc, db: Db, pc: Pc)
    ensures Closing(Solo(s, t, was, EMPTY, map[]), t, db, pc) == Closing(s, t, db, pc)
  {
    assert s.threads[t := Thread(was, EMPTY)][t := Thread(pc, EMPTY)] == s.threads[t := Thread(pc, EMPTY)];
  }

  lemma RecordFrom(x: System, t: ThreadId, id: OpId, o: CallOutcome)
    requires id in x.db.ops && x.db.ops[id].row.id == id && x.db.ops[id].row.state == Executing
    requires Enabled(x, BeginRecord(t))
    requires Apply(x, BeginRecord(t)) == Solo(x, t, Fetched(Request.Record(o), x.db.ops[id].row), EMPTY, map[])
    ensures Limit.Reaches(x, Closing(x, t, U.Perform(x.db, x.clock, x.cfg.v2, U.OnOne(id, U.Record(o))).db, Idle))
  {
    hide Limit.Reaches, Stands, U.Moving, ExecutingIn, Enabled, Apply, Put;
    var op := x.db.ops[id];
    var req := Request.Record(o);
    Limit.StartReach(x);
    Limit.ReachStep(x, x, BeginRecord(t));
    Logs.VisibleEmpty(x.db);
    assert StandsWith(x, t, Fetched(req, op.row), x.db, EMPTY, map[]);
    StandsIf(x, t, Fetched(req, op.row), x.db, EMPTY, map[]);
    SettleFetched(x, t, req, x.db, id);
    PutSame(x.db, id);
    SoloProceed(x, t, req, x.db, id, 0);
    var call := Call(OutcomeTransition(o), "system", NO_UPDATES, Main);
    SoloMain(x, t, req, op.row, x.db, id, call);
    RecordMoves(op, o);
    var e := U.Moving(op, call.t, call.actor, call.up);
    SoloEnd(x, t, req, id, true, U.PutEffect(x.db, id, e), false);
  }

  lemma StandsIf(s: System, t: ThreadId, pc: Pc, view: Db, tx: Db, locks: map<OpId, ThreadId>)
    requires StandsWith(s, t, pc, view, tx, locks)
    ensures Stands(s, t, pc, view)
  {
  }

  lemma RecordMoves(op: Op, o: CallOutcome)
    requires op.row.state == Executing
    ensures U.Moving(op, OutcomeTransition(o), "system", NO_UPDATES).result.Success?
  {
  }
}
