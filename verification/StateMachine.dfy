/** The operation state machine: twelve states, fifteen table-driven transitions. */
module StateMachine {
  import opened Wrappers

  /** An instant, as a count of time units since some epoch. */
  type Time = int

  datatype State =
    | Preparing | Invalid | Blocked | PendingApproval | Approved | Rejected
    | Expired | Canceled | Executing | Succeeded | Failed | Unknown

  datatype TransitionId =
    | T01 | T02 | T03 | T04 | T05 | T06 | T07 | T08 | T09 | T10 | T11 | T12 | T13 | T14 | T15

  /** One row of the table. `from` is None only for T01, which creates an operation. */
  datatype Transition = Transition(id: TransitionId, from: Option<State>, to: State)

  /** The table, looked up by transition. */
  function ById(id: TransitionId): Transition {
    match id
    case T01 => Transition(T01, None, Preparing)
    case T02 => Transition(T02, Some(Preparing), Invalid)
    case T03 => Transition(T03, Some(Preparing), Blocked)
    case T04 => Transition(T04, Some(Preparing), PendingApproval)
    case T05 => Transition(T05, Some(Preparing), Approved)
    case T06 => Transition(T06, Some(PendingApproval), Approved)
    case T07 => Transition(T07, Some(PendingApproval), Rejected)
    case T08 => Transition(T08, Some(PendingApproval), Expired)
    case T09 => Transition(T09, Some(PendingApproval), Canceled)
    case T10 => Transition(T10, Some(Approved), Executing)
    case T11 => Transition(T11, Some(Approved), Expired)
    case T12 => Transition(T12, Some(Approved), Canceled)
    case T13 => Transition(T13, Some(Executing), Succeeded)
    case T14 => Transition(T14, Some(Executing), Failed)
    case T15 => Transition(T15, Some(Executing), Unknown)
  }

  /** A state is terminal iff no row of the table leaves it. */
  ghost predicate IsTerminal(s: State) {
    forall id: TransitionId :: ById(id).from != Some(s)
  }

  /** The single gate every state change passes through. */
  function ValidateTransition(id: TransitionId, from: Option<State>): Result<Transition> {
    if ById(id).from != from then Failure(InvalidStateTransition) else Success(ById(id))
  }

  /** T08 or T11 when the deadline of `state` has passed as of `now`. */
  function OverdueExpiry(
    state: State, now: Time, approvalExpiresAt: Option<Time>, executionDeadline: Option<Time>
  ): Option<TransitionId> {
    if state == PendingApproval && approvalExpiresAt.Some? && now > approvalExpiresAt.value then Some(T08)
    else if state == Approved && executionDeadline.Some? && now > executionDeadline.value then Some(T11)
    else None
  }

  lemma TerminalStates(s: State)
    ensures IsTerminal(s) <==>
            s in {Invalid, Blocked, Rejected, Expired, Canceled, Succeeded, Failed, Unknown}
  {
    if s == Preparing { assert ById(T02).from == Some(s); }
    if s == PendingApproval { assert ById(T06).from == Some(s); }
    if s == Approved { assert ById(T10).from == Some(s); }
    if s == Executing { assert ById(T13).from == Some(s); }
  }

  /** How far along a state is: every row of the table moves to a higher stage. */
  function Stage(s: State): nat {
    match s
    case Preparing => 1
    case PendingApproval => 2
    case Approved => 3
    case Executing => 4
    case _ => 5
  }

  // ---------------------------------------------------------------- event logs

  /** One row of `operation_events`. */
  datatype Event = Event(from: Option<State>, to: State, transition: TransitionId, actor: string)

  /** A log that walks the table: it starts with T01 and every next event leaves the
      state its predecessor reached. */
  ghost predicate IsPath(log: seq<Event>) {
    && |log| > 0
    && log[0].transition == T01
    && (forall i | 0 <= i < |log| ::
          && log[i].from == ById(log[i].transition).from
          && log[i].to == ById(log[i].transition).to)
    && (forall i | 0 < i < |log| :: log[i].from == Some(log[i - 1].to))
  }

  lemma {:induction false} StagesRise(log: seq<Event>, i: nat, j: nat)
    requires IsPath(log) && i < j < |log|
    ensures Stage(log[i].to) + (j - i) <= Stage(log[j].to)
    decreases j
  {
    assert log[j].from == Some(log[j - 1].to);
    if i < j - 1 {
      StagesRise(log, i, j - 1);
    }
  }

  /** Every walk from T01 has at most five events, visits no state twice, and ends
      at the first terminal state it reaches. */
  lemma PathsAreShort(log: seq<Event>)
    requires IsPath(log)
    ensures |log| <= 5
    ensures forall i, j | 0 <= i < j < |log| :: log[i].to != log[j].to
    ensures forall i | 0 <= i < |log| - 1 :: !IsTerminal(log[i].to)
    ensures forall i, j | 0 <= i < j < |log| :: log[i].transition != log[j].transition
  {
    if |log| > 1 {
      StagesRise(log, 0, |log| - 1);
    }
    forall i, j | 0 <= i < j < |log|
      ensures log[i].to != log[j].to && log[i].transition != log[j].transition
    {
      StagesRise(log, i, j);
    }
    forall i | 0 <= i < |log| - 1 ensures !IsTerminal(log[i].to) {
      assert ById(log[i + 1].transition).from == Some(log[i].to);
    }
  }
}
