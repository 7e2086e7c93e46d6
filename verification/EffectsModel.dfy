/** The workflow that drives a plan with declared side effects frontier by frontier,
    under signals that arrive at any moment. */
module EffectsModel {
  import opened Prelude

  datatype Approval = Approval(nodeId: string, approved: bool)

  datatype Status = Cancelled | Failed | Finished(status: string)

  /** Where the coroutine stands: at the head of its loop, held by a pause, waiting for
      its frontier, waiting for it although a pause came, waiting for an approval or for
      a plan patch, returned, or about to continue as a new run. */
  datatype Place =
    | Head
    | Held
    | Running
    | Draining
    | ApprovalWait(since: nat)
    | ExpansionWait
    | Over(status: Status)
    | Crashed
    | Cut

  /** The Activities it called. */
  datatype Call = Start(approvals: seq<Approval>) | End | CancelJob(keep: bool) | FailJob | Expire | Cleanup

  datatype FrontierResult =
    FrontierResult(consumed: Option<Approval>, waitingApproval: bool, waitingExpansion: bool,
                   terminal: bool, paused: bool, status: string)

  datatype Outcome = Done(result: FrontierResult) | Raised | TaskCancelled

  /** signalled and acknowledged are the history of this run's approvals. */
  datatype State =
    State(place: Place, paused: bool, cancel: bool, keep: bool, approvals: seq<Approval>, patch: bool, wakes: nat,
          frontiers: nat, calls: seq<Call>, signalled: seq<Approval>, acknowledged: seq<Approval>)

  function Fresh(calls: seq<Call>): State {
    State(Head, false, false, true, [], false, 0, 0, calls, [], [])
  }

  datatype Event =
    | Pause
    | Resume
    | CancelRequest(keep: bool)
    | Approve(approval: Approval)
    | PatchAvailable
    | Wake
    | FrontierDone(outcome: Outcome)
    | ApprovalTimeout(answer: Option<bool>)
    | NextRun

  // ----- Pieces of the loop --------------------------------------------------------

  /** The first retained approval that says the same is removed. */
  function RemoveFirst(xs: seq<Approval>, a: Approval): seq<Approval> {
    if xs == [] then [] else if xs[0] == a then xs[1..] else [xs[0]] + RemoveFirst(xs[1..], a)
  }

  function Consume(s: State, consumed: Option<Approval>): State {
    if consumed.None? || consumed.value.nodeId == "" || consumed.value !in s.approvals then s
    else s.(approvals := RemoveFirst(s.approvals, consumed.value), acknowledged := s.acknowledged + [consumed.value])
  }

  function Return(s: State, calls: seq<Call>, status: Status): State {
    s.(calls := s.calls + calls + [Cleanup], place := Over(status))
  }

  function AtHead(s: State): State {
    if s.cancel then Return(s, [CancelJob(s.keep)], Cancelled)
    else if s.paused then s.(place := Held)
    else s.(calls := s.calls + [Start(s.approvals)], place := Running)
  }

  /** What an Activity result leads to once the frontier has ended. */
  function Handle(s: State, continueAfter: nat, r: FrontierResult): State {
    var t := Consume(s, r.consumed);
    if r.waitingApproval then t.(place := ApprovalWait(t.wakes))
    else if r.waitingExpansion then t.(place := ExpansionWait)
    else if r.terminal then Return(t, [], Finished(r.status))
    else if r.paused then t.(paused := true, place := Head)
    else t.(frontiers := t.frontiers + 1, place := if t.frontiers + 1 >= continueAfter then Cut else Head)
  }

  /** The frontier has ended. A cancel request is looked at, and an exception caught,
      only when no pause was being waited out. */
  function Ended(s: State, continueAfter: nat, o: Outcome): State {
    var t := s.(calls := s.calls + [End]);
    if s.place == Running && s.cancel then Return(t, [CancelJob(s.keep)], Cancelled)
    else if s.place == Draining && !o.Done? then t.(place := Crashed)
    else
      match o
      case Done(r) => Handle(t, continueAfter, r)
      case Raised => Return(t, [FailJob], Failed)
      case TaskCancelled => Return(t, [], Cancelled)
  }

  /** The wait for an approval ran out; an Activity decides whether it has expired, or
      fails, which nobody catches. */
  function TimedOut(s: State, answer: Option<bool>): State {
    var t := s.(calls := s.calls + [Expire]);
    if answer.None? then t.(place := Crashed)
    else if answer.value then Return(t, [], Failed)
    else t.(place := Head)
  }

  /** The coroutine goes on if what it waits for has come true. */
  function Proceed(s: State): State {
    match s.place
    case Head => AtHead(s)
    case Held => if !s.paused || s.cancel then s.(place := Head) else s
    case Running =>
      if s.cancel then Return(s.(calls := s.calls + [End]), [CancelJob(s.keep)], Cancelled)
      else if s.paused then s.(place := Draining)
      else s
    case ApprovalWait(since) =>
      if s.approvals != [] || s.cancel || s.paused || s.wakes != since then s.(place := Head) else s
    case ExpansionWait =>
      if s.cancel || s.paused then s.(place := Head)
      else if s.patch then s.(patch := false, place := Head)
      else s
    case _ => s
  }

  function Step(s: State, continueAfter: nat, e: Event): State {
    match e
    case Pause => s.(paused := true)
    case Resume => s.(paused := false, wakes := s.wakes + 1)
    case CancelRequest(keep) => s.(cancel := true, keep := keep)
    case Approve(a) =>
      if a.nodeId == "" then s
      else s.(approvals := s.approvals + [a], signalled := s.signalled + [a], wakes := s.wakes + 1)
    case PatchAvailable => s.(patch := true)
    case Wake => Proceed(s)
    case FrontierDone(o) => if s.place in {Running, Draining} then Ended(s, continueAfter, o) else s
    case ApprovalTimeout(answer) => if s.place.ApprovalWait? then TimedOut(s, answer) else s
    case NextRun => if s.place == Cut then Fresh(s.calls) else s
  }

  function Run(continueAfter: nat, events: seq<Event>): State {
    if events == [] then Fresh([])
    else Step(Run(continueAfter, events[..|events| - 1]), continueAfter, events[|events| - 1])
  }

  /** From a state on. */
  function RunFrom(s: State, continueAfter: nat, events: seq<Event>): State {
    if events == [] then s
    else Step(RunFrom(s, continueAfter, events[..|events| - 1]), continueAfter, events[|events| - 1])
  }
}
