/** What the workflow says to its Activities: which approvals every frontier is started
    with, what a cancellation is told, and with which calls a run ends. All of it is read
    from the events alone and from where the coroutine stood when they came. */
module EffectsCalls {
  import opened Prelude
  import opened EffectsModel
  import opened EffectsLaws

  /** A frontier's result is looked at. */
  predicate Heard(s: State) { s.place == Draining || (s.place == Running && !s.cancel) }

  // ----- Outstanding approvals ------------------------------------------------------

  ghost predicate FirstOf(xs: seq<Approval>, a: Approval, i: nat) { i < |xs| && xs[i] == a && a !in xs[..i] }

  /** An acknowledgement removes the first occurrence, and only it. */
  lemma {:induction false} RemoveFirstAt(xs: seq<Approval>, a: Approval, i: nat)
    requires FirstOf(xs, a, i)
    ensures RemoveFirst(xs, a) == xs[..i] + xs[i + 1..]
  {
    if i > 0 {
      assert xs[0] in xs[..i];
      var rest := xs[1..];
      assert rest[..i - 1] == xs[1..i] && xs[..i] == [xs[0]] + rest[..i - 1];
      RemoveFirstAt(rest, a, i - 1);
      assert rest[i..] == xs[i + 1..];
    }
  }

  lemma {:induction false} RemoveNothing(xs: seq<Approval>, a: Approval)
    requires a !in xs
    ensures RemoveFirst(xs, a) == xs
  {
    if xs != [] { RemoveNothing(xs[1..], a); }
  }

  lemma {:induction false} FirstExists(xs: seq<Approval>, a: Approval) returns (i: nat)
    requires a in xs
    ensures FirstOf(xs, a, i)
  {
    if xs[0] == a {
      i := 0;
    } else {
      var rest := xs[1..];
      i := FirstExists(rest, a);
      assert xs[..i + 1] == [xs[0]] + rest[..i];
      i := i + 1;
    }
  }

  function Acknowledging(xs: seq<Approval>, consumed: Option<Approval>): seq<Approval> {
    if consumed.Some? && consumed.value.nodeId != "" then RemoveFirst(xs, consumed.value) else xs
  }

  /** The approvals signalled in this run and not acknowledged yet, in order. */
  function Outstanding(continueAfter: nat, events: seq<Event>): seq<Approval> {
    if events == [] then []
    else
      var (front, e) := (events[..|events| - 1], events[|events| - 1]);
      var before, s := Outstanding(continueAfter, front), Run(continueAfter, front);
      match e
      case Approve(a) => if a.nodeId == "" then before else before + [a]
      case FrontierDone(o) => if o.Done? && Heard(s) then Acknowledging(before, o.result.consumed) else before
      case NextRun => if s.place == Cut then [] else before
      case _ => before
  }

  lemma ConsumeIs(s: State, consumed: Option<Approval>)
    ensures Consume(s, consumed).approvals == Acknowledging(s.approvals, consumed)
  {
    if consumed.Some? && consumed.value !in s.approvals { RemoveNothing(s.approvals, consumed.value); }
  }

  lemma HandleApprovals(s: State, continueAfter: nat, r: FrontierResult)
    ensures Handle(s, continueAfter, r).approvals == Acknowledging(s.approvals, r.consumed)
  {
    ConsumeIs(s, r.consumed);
  }

  lemma EndedApprovals(s: State, continueAfter: nat, o: Outcome)
    requires s.place in {Running, Draining}
    ensures Ended(s, continueAfter, o).approvals ==
              if o.Done? && Heard(s) then Acknowledging(s.approvals, o.result.consumed) else s.approvals
  {
    if o.Done? { HandleApprovals(s.(calls := s.calls + [End]), continueAfter, o.result); }
  }

  lemma {:induction false} RunOutstanding(continueAfter: nat, events: seq<Event>)
    ensures Run(continueAfter, events).approvals == Outstanding(continueAfter, events)
  {
    if events != [] {
      var front, e := events[..|events| - 1], events[|events| - 1];
      var s := Run(continueAfter, front);
      RunOutstanding(continueAfter, front);
      if e.FrontierDone? {
        if s.place in {Running, Draining} { EndedApprovals(s, continueAfter, e.outcome); }
      } else if !e.Approve? && !e.NextRun? {
        QuietKeeps(s, continueAfter, e);
      }
    }
  }

  // ----- What frontiers are started with ----------------------------------------------

  /** The arguments of the started frontiers, in order. */
  function StartedWith(calls: seq<Call>): seq<seq<Approval>> {
    if calls == [] then []
    else
      var last := calls[|calls| - 1];
      StartedWith(calls[..|calls| - 1]) + if last.Start? then [last.approvals] else []
  }

  lemma StartedSnoc(calls: seq<Call>, c: Call)
    ensures StartedWith(calls + [c]) == StartedWith(calls) + if c.Start? then [c.approvals] else []
  {
    Snoc(calls, c);
  }

  lemma ReturnStarted(s: State, calls: seq<Call>, status: Status)
    requires |calls| <= 1 && (|calls| == 1 ==> !calls[0].Start?)
    ensures StartedWith(Return(s, calls, status).calls) == StartedWith(s.calls)
  {
    StartedSnoc(s.calls + calls, Cleanup);
    if calls == [] {
      assert s.calls + calls == s.calls;
    } else {
      assert calls == [calls[0]];
      StartedSnoc(s.calls, calls[0]);
    }
  }

  lemma ProceedStarted(s: State)
    ensures StartedWith(Proceed(s).calls) == StartedWith(s.calls) + if MayStart(s) then [s.approvals] else []
  {
    if s.place == Head {
      ReturnStarted(s, [CancelJob(s.keep)], Cancelled);
      StartedSnoc(s.calls, Start(s.approvals));
    } else if s.place == Running {
      StartedSnoc(s.calls, End);
      ReturnStarted(s.(calls := s.calls + [End]), [CancelJob(s.keep)], Cancelled);
    }
  }

  lemma HandleStarted(s: State, continueAfter: nat, r: FrontierResult)
    ensures StartedWith(Handle(s, continueAfter, r).calls) == StartedWith(s.calls)
  {
    ConsumeKeeps(s, r.consumed);
    ReturnStarted(Consume(s, r.consumed), [], Finished(r.status));
  }

  lemma EndedStarted(s: State, continueAfter: nat, o: Outcome)
    ensures StartedWith(Ended(s, continueAfter, o).calls) == StartedWith(s.calls)
  {
    var t := s.(calls := s.calls + [End]);
    StartedSnoc(s.calls, End);
    if s.place == Running && s.cancel {
      ReturnStarted(t, [CancelJob(s.keep)], Cancelled);
    } else if s.place != Draining || o.Done? {
      match o
      case Done(r) => HandleStarted(t, continueAfter, r);
      case Raised => ReturnStarted(t, [FailJob], Failed);
      case TaskCancelled => ReturnStarted(t, [], Cancelled);
    }
  }

  lemma TimedOutStarted(s: State, answer: Option<bool>)
    ensures StartedWith(TimedOut(s, answer).calls) == StartedWith(s.calls)
  {
    StartedSnoc(s.calls, Expire);
    ReturnStarted(s.(calls := s.calls + [Expire]), [], Failed);
  }

  lemma StepStarted(s: State, continueAfter: nat, e: Event)
    ensures StartedWith(Step(s, continueAfter, e).calls) ==
              StartedWith(s.calls) + if e == Wake && MayStart(s) then [s.approvals] else []
  {
    match e
    case Wake => ProceedStarted(s);
    case FrontierDone(o) => EndedStarted(s, continueAfter, o);
    case ApprovalTimeout(answer) => TimedOutStarted(s, answer);
    case _ =>
  }

  /** What was outstanding each time the coroutine woke at the head of its loop. */
  ghost function Due(continueAfter: nat, events: seq<Event>): seq<seq<Approval>> {
    if events == [] then []
    else
      var (front, e) := (events[..|events| - 1], events[|events| - 1]);
      Due(continueAfter, front)
      + if e == Wake && MayStart(Run(continueAfter, front)) then [Outstanding(continueAfter, front)] else []
  }

  /** In every run, each frontier is started with exactly the approvals that were signalled
      in its run and not acknowledged before, in order: none is kept back, none comes
      again, and a cut takes them away. */
  lemma {:induction false} StartsCarryOutstanding(continueAfter: nat, events: seq<Event>)
    ensures StartedWith(Run(continueAfter, events).calls) == Due(continueAfter, events)
  {
    if events != [] {
      var front, e := events[..|events| - 1], events[|events| - 1];
      StartsCarryOutstanding(continueAfter, front);
      RunOutstanding(continueAfter, front);
      StepStarted(Run(continueAfter, front), continueAfter, e);
    }
  }

  /** An approval stays outstanding until a frontier acknowledges it or the run is cut. */
  lemma OutstandingStays(continueAfter: nat, events: seq<Event>, e: Event, a: Approval)
    requires a in Outstanding(continueAfter, events)
    requires e != NextRun
    requires !(e.FrontierDone? && e.outcome.Done? && e.outcome.result.consumed == Some(a))
    ensures a in Outstanding(continueAfter, events + [e])
  {
    assert (events + [e])[..|events|] == events;
    if e.FrontierDone? && e.outcome.Done? && e.outcome.result.consumed.Some? {
      OthersRemain(Outstanding(continueAfter, events), e.outcome.result.consumed.value, a);
    }
  }

  lemma OthersRemain(xs: seq<Approval>, x: Approval, a: Approval)
    requires a in xs && a != x
    ensures a in RemoveFirst(xs, x)
  {
    if x in xs {
      var i := FirstExists(xs, x);
      RemoveFirstAt(xs, x, i);
      assert xs == xs[..i] + [xs[i]] + xs[i + 1..];
    } else {
      RemoveNothing(xs, x);
    }
  }

  // ----- Cancel requests ------------------------------------------------------------------

  /** What the latest cancel request of the run said about completed work. */
  function LastKeep(continueAfter: nat, events: seq<Event>): bool {
    if events == [] then true
    else
      var (front, e) := (events[..|events| - 1], events[|events| - 1]);
      if e.CancelRequest? then e.keep
      else if e == NextRun && Run(continueAfter, front).place == Cut then true
      else LastKeep(continueAfter, front)
  }

  /** A cancel request was made since the run was last cut. */
  predicate CancelAsked(continueAfter: nat, events: seq<Event>) {
    events != [] &&
    var (front, e) := (events[..|events| - 1], events[|events| - 1]);
    if e.CancelRequest? then true
    else !(e == NextRun && Run(continueAfter, front).place == Cut) && CancelAsked(continueAfter, front)
  }

  lemma StepKeep(s: State, continueAfter: nat, e: Event)
    requires !e.CancelRequest? && !(e == NextRun && s.place == Cut)
    ensures Step(s, continueAfter, e).keep == s.keep && Step(s, continueAfter, e).cancel == s.cancel
  {
    if e.FrontierDone? && e.outcome.Done? { ConsumeKeeps(s.(calls := s.calls + [End]), e.outcome.result.consumed); }
  }

  lemma {:induction false} RunKeep(continueAfter: nat, events: seq<Event>)
    ensures Run(continueAfter, events).keep == LastKeep(continueAfter, events)
    ensures Run(continueAfter, events).cancel == CancelAsked(continueAfter, events)
  {
    if events != [] {
      var front, e := events[..|events| - 1], events[|events| - 1];
      RunKeep(continueAfter, front);
      if !e.CancelRequest? && !(e == NextRun && Run(continueAfter, front).place == Cut) {
        StepKeep(Run(continueAfter, front), continueAfter, e);
      }
    }
  }

  // ----- How a run ends -------------------------------------------------------------------

  /** A result that ends the plan. */
  predicate IsTerminal(r: FrontierResult) { r.terminal && !r.waitingApproval && !r.waitingExpansion }

  /** The calls of a return, by what led to it: a cancel request, a cancelled or failed
      frontier, an expired approval, a final result. */
  ghost predicate EndsBy(e: Event, place: Place, cancelled: bool, keep: bool, status: Status, made: seq<Call>) {
    || (cancelled && status == Cancelled && place == Head && e == Wake && made == [CancelJob(keep), Cleanup])
    || (cancelled && status == Cancelled && place == Running && (e == Wake || e.FrontierDone?)
        && made == [End, CancelJob(keep), Cleanup])
    || (!cancelled && place == Running && e == FrontierDone(TaskCancelled) && status == Cancelled && made == [End, Cleanup])
    || (!cancelled && place == Running && e == FrontierDone(Raised) && status == Failed && made == [End, FailJob, Cleanup])
    || (place.ApprovalWait? && e == ApprovalTimeout(Some(true)) && status == Failed && made == [Expire, Cleanup])
    || (place in {Running, Draining} && e.FrontierDone? && e.outcome.Done? && IsTerminal(e.outcome.result)
        && status == Finished(e.outcome.result.status) && made == [End, Cleanup])
  }

  lemma ProceedEnds(s: State)
    ensures Proceed(s).place.Over? && !s.place.Over? ==>
              exists made :: Proceed(s).calls == s.calls + made
                             && EndsBy(Wake, s.place, s.cancel, s.keep, Proceed(s).place.status, made)
  {
    if s.cancel && s.place == Head {
      assert s.calls + [CancelJob(s.keep)] + [Cleanup] == s.calls + [CancelJob(s.keep), Cleanup];
    } else if s.cancel && s.place == Running {
      assert s.calls + [End] + [CancelJob(s.keep)] + [Cleanup] == s.calls + [End, CancelJob(s.keep), Cleanup];
    }
  }

  lemma EndedEnds(s: State, continueAfter: nat, o: Outcome)
    requires s.place in {Running, Draining}
    ensures var t := Ended(s, continueAfter, o);
            t.place.Over? ==>
              exists made :: t.calls == s.calls + made
                             && EndsBy(FrontierDone(o), s.place, s.cancel, s.keep, t.place.status, made)
  {
    if o.Done? { ConsumeKeeps(s.(calls := s.calls + [End]), o.result.consumed); }
    var t := Ended(s, continueAfter, o);
    var calls := s.calls;
    assert calls + [End] + [CancelJob(s.keep)] + [Cleanup] == calls + [End, CancelJob(s.keep), Cleanup];
    assert calls + [End] + [FailJob] + [Cleanup] == calls + [End, FailJob, Cleanup];
    assert calls + [End] + [] + [Cleanup] == calls + [End, Cleanup];
  }

  /** In every run: the step with which the workflow returns makes exactly these calls, with
      the latest word on completed work. */
  lemma RunEndsBy(continueAfter: nat, events: seq<Event>, e: Event)
    requires !Run(continueAfter, events).place.Over? && Run(continueAfter, events + [e]).place.Over?
    ensures var s, t := Run(continueAfter, events), Run(continueAfter, events + [e]);
            exists made :: t.calls == s.calls + made
                           && EndsBy(e, s.place, CancelAsked(continueAfter, events), LastKeep(continueAfter, events),
                                     t.place.status, made)
  {
    assert (events + [e])[..|events|] == events;
    var s := Run(continueAfter, events);
    RunKeep(continueAfter, events);
    match e
    case Wake => ProceedEnds(s);
    case FrontierDone(o) => if s.place in {Running, Draining} { EndedEnds(s, continueAfter, o); }
    case ApprovalTimeout(answer) =>
      if answer.Some? { assert s.calls + [Expire] + [] + [Cleanup] == s.calls + [Expire, Cleanup]; }
    case _ =>
  }

  // ----- Waits ---------------------------------------------------------------------------

  ghost predicate WaitSane(s: State) { s.place.ApprovalWait? ==> s.place.since <= s.wakes }

  lemma StepWaitSane(s: State, continueAfter: nat, e: Event)
    requires WaitSane(s)
    ensures WaitSane(Step(s, continueAfter, e))
  {
    if e.FrontierDone? && e.outcome.Done? { ConsumeKeeps(s.(calls := s.calls + [End]), e.outcome.result.consumed); }
  }

  lemma {:induction false} RunWaitSane(continueAfter: nat, events: seq<Event>)
    ensures WaitSane(Run(continueAfter, events))
  {
    if events != [] {
      RunWaitSane(continueAfter, events[..|events| - 1]);
      StepWaitSane(Run(continueAfter, events[..|events| - 1]), continueAfter, events[|events| - 1]);
    }
  }

  /** A signal that ends the wait the coroutine stands in. */
  predicate Rouses(place: Place, e: Event) {
    match place
    case ApprovalWait(_) => e == Pause || e == Resume || e.CancelRequest? || (e.Approve? && e.approval.nodeId != "")
    case ExpansionWait => e == Pause || e.CancelRequest? || e == PatchAvailable
    case Held => e == Resume || e.CancelRequest?
    case _ => false
  }

  lemma ApprovalRoused(s: State, continueAfter: nat, e: Event)
    requires WaitSane(s) && s.place.ApprovalWait? && Rouses(s.place, e)
    ensures Step(Step(s, continueAfter, e), continueAfter, Wake).place == Head
  {}

  lemma Roused(s: State, continueAfter: nat, e: Event)
    requires WaitSane(s) && Rouses(s.place, e)
    ensures Step(Step(s, continueAfter, e), continueAfter, Wake).place == Head
  {
    if s.place.ApprovalWait? { ApprovalRoused(s, continueAfter, e); }
  }

  lemma RunTwo(continueAfter: nat, events: seq<Event>, d: Event, e: Event)
    ensures Run(continueAfter, events + [d] + [e]) == Step(Step(Run(continueAfter, events), continueAfter, d), continueAfter, e)
  {
    assert (events + [d])[..|events|] == events;
    assert (events + [d] + [e])[..|events + [d]|] == events + [d];
  }

  /** In every run each such signal brings the coroutine back to the head of its loop. */
  lemma SignalEndsWait(continueAfter: nat, events: seq<Event>, e: Event)
    requires Rouses(Run(continueAfter, events).place, e)
    ensures Run(continueAfter, events + [e] + [Wake]).place == Head
  {
    RunTwo(continueAfter, events, e, Wake);
    RunWaitSane(continueAfter, events);
    Roused(Run(continueAfter, events), continueAfter, e);
  }

  lemma ResultStep(s: State, continueAfter: nat, r: FrontierResult)
    requires Heard(s)
    ensures var t := Step(s, continueAfter, FrontierDone(Done(r)));
            && (t.place.ApprovalWait? <==> r.waitingApproval)
            && (t.place == ExpansionWait <==> r.waitingExpansion && !r.waitingApproval)
            && (t.place.Over? <==> IsTerminal(r))
            && (t.paused <==> s.paused || (r.paused && !r.waitingApproval && !r.waitingExpansion && !r.terminal))
  {
    ConsumeKeeps(s.(calls := s.calls + [End]), r.consumed);
  }

  /** In every run a result that is looked at leads to the wait it asks for, ends the plan,
      or pauses the workflow; an approval wait that has not expired goes on. */
  lemma ResultLeads(continueAfter: nat, events: seq<Event>, r: FrontierResult)
    requires Heard(Run(continueAfter, events))
    ensures var t := Run(continueAfter, events + [FrontierDone(Done(r))]);
            && (t.place.ApprovalWait? <==> r.waitingApproval)
            && (t.place == ExpansionWait <==> r.waitingExpansion && !r.waitingApproval)
            && (t.place.Over? <==> IsTerminal(r))
            && (t.paused <==> Run(continueAfter, events).paused
                              || (r.paused && !r.waitingApproval && !r.waitingExpansion && !r.terminal))
    ensures r.waitingApproval ==>
              Run(continueAfter, events + [FrontierDone(Done(r))] + [ApprovalTimeout(Some(false))]).place == Head
  {
    RunTwo(continueAfter, events, FrontierDone(Done(r)), ApprovalTimeout(Some(false)));
    assert (events + [FrontierDone(Done(r))])[..|events|] == events;
    ResultStep(Run(continueAfter, events), continueAfter, r);
  }

  lemma WaitBegins(s: State, continueAfter: nat, r: FrontierResult)
    requires Heard(s) && r.waitingApproval
    ensures var t := Step(s, continueAfter, FrontierDone(Done(r)));
            && t.place == ApprovalWait(t.wakes) && t.paused == s.paused && t.cancel == s.cancel
            && t.approvals == Acknowledging(s.approvals, r.consumed)
  {
    ConsumeKeeps(s.(calls := s.calls + [End]), r.consumed);
    EndedApprovals(s, continueAfter, Done(r));
  }

  /** The wait for an approval that has just begun holds while nothing is outstanding and
      nobody asked for anything. */
  lemma QuietWaitHolds(continueAfter: nat, events: seq<Event>, r: FrontierResult)
    requires Heard(Run(continueAfter, events)) && r.waitingApproval
    requires !Run(continueAfter, events).paused && !Run(continueAfter, events).cancel
    ensures var s := Run(continueAfter, events + [FrontierDone(Done(r))] + [Wake]);
            if Acknowledging(Outstanding(continueAfter, events), r.consumed) == [] then s.place.ApprovalWait? else s.place == Head
  {
    var s := Run(continueAfter, events);
    RunTwo(continueAfter, events, FrontierDone(Done(r)), Wake);
    RunOutstanding(continueAfter, events);
    WaitBegins(s, continueAfter, r);
  }

  /** A plan patch is pending from its signal until an expansion wait takes it or the run
      is cut. */
  function PatchPending(continueAfter: nat, events: seq<Event>): bool {
    events != [] &&
    var (front, e) := (events[..|events| - 1], events[|events| - 1]);
    var s := Run(continueAfter, front);
    if e == PatchAvailable then true
    else if e == NextRun && s.place == Cut then false
    else if e == Wake && s.place == ExpansionWait && !s.cancel && !s.paused then false
    else PatchPending(continueAfter, front)
  }

  lemma StepPatch(s: State, continueAfter: nat, e: Event)
    requires e != PatchAvailable && !(e == NextRun && s.place == Cut)
    ensures Step(s, continueAfter, e).patch ==
              (s.patch && !(e == Wake && s.place == ExpansionWait && !s.cancel && !s.paused))
  {
    if e.FrontierDone? && e.outcome.Done? { ConsumeKeeps(s.(calls := s.calls + [End]), e.outcome.result.consumed); }
  }

  lemma {:induction false} RunPatch(continueAfter: nat, events: seq<Event>)
    ensures Run(continueAfter, events).patch == PatchPending(continueAfter, events)
  {
    if events != [] {
      var front, e := events[..|events| - 1], events[|events| - 1];
      RunPatch(continueAfter, front);
      if e != PatchAvailable && !(e == NextRun && Run(continueAfter, front).place == Cut) {
        StepPatch(Run(continueAfter, front), continueAfter, e);
      }
    }
  }

  // ----- Frontiers --------------------------------------------------------------------------

  /** Results that were progress, since the run was last cut. */
  function Progressed(continueAfter: nat, events: seq<Event>): nat {
    if events == [] then 0
    else
      var (front, e) := (events[..|events| - 1], events[|events| - 1]);
      var s := Run(continueAfter, front);
      if e.FrontierDone? && e.outcome.Done? && Heard(s) && IsProgress(e.outcome.result)
      then Progressed(continueAfter, front) + 1
      else if e == NextRun && s.place == Cut then 0
      else Progressed(continueAfter, front)
  }

  lemma StepFrontiers(s: State, continueAfter: nat, e: Event)
    requires e != NextRun
    ensures Step(s, continueAfter, e).frontiers ==
              s.frontiers + if e.FrontierDone? && e.outcome.Done? && Heard(s) && IsProgress(e.outcome.result) then 1 else 0
  {
    if e.FrontierDone? && e.outcome.Done? { ConsumeKeeps(s.(calls := s.calls + [End]), e.outcome.result.consumed); }
  }

  lemma {:induction false} RunFrontiers(continueAfter: nat, events: seq<Event>)
    ensures Run(continueAfter, events).frontiers == Progressed(continueAfter, events)
  {
    if events != [] {
      var front, e := events[..|events| - 1], events[|events| - 1];
      RunFrontiers(continueAfter, front);
      if e != NextRun { StepFrontiers(Run(continueAfter, front), continueAfter, e); }
    }
  }

  /** In every run a frontier's end cuts the run exactly when it is progress and brings the
      results of the run to the number after which runs are cut. */
  lemma CutsAfter(continueAfter: nat, events: seq<Event>, o: Outcome)
    requires Run(continueAfter, events).place in {Running, Draining}
    ensures Run(continueAfter, events + [FrontierDone(o)]).place == Cut <==>
              && Heard(Run(continueAfter, events))
              && o.Done? && IsProgress(o.result)
              && Progressed(continueAfter, events) + 1 >= continueAfter
  {
    assert (events + [FrontierDone(o)])[..|events|] == events;
    RunFrontiers(continueAfter, events);
    CutsIff(Run(continueAfter, events), continueAfter, FrontierDone(o));
  }
}
