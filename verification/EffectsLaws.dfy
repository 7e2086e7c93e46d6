/** What holds in every interleaving of signals, frontiers and timeouts. */
module EffectsLaws {
  import opened Prelude
  import opened EffectsModel

  // ----- The calls --------------------------------------------------------------------

  /** A frontier has been started and has not ended. */
  ghost predicate InFlight(calls: seq<Call>) {
    calls != [] &&
    match calls[|calls| - 1]
    case Start(_) => true
    case End => false
    case _ => InFlight(calls[..|calls| - 1])
  }

  ghost predicate Cleaned(calls: seq<Call>) { Cleanup in calls }

  /** Frontiers never overlap, ends match starts, nothing else is called while one is in
      flight, and the cleanup comes once and last. */
  ghost predicate Orderly(calls: seq<Call>) {
    calls == [] ||
    var (front, last) := (calls[..|calls| - 1], calls[|calls| - 1]);
    Orderly(front) && !Cleaned(front) && (if last == End then InFlight(front) else !InFlight(front))
  }

  lemma Snoc(calls: seq<Call>, c: Call)
    ensures (calls + [c])[..|calls + [c]| - 1] == calls && (calls + [c])[|calls + [c]| - 1] == c
    ensures Cleaned(calls + [c]) <==> Cleaned(calls) || c == Cleanup
  {}

  lemma OrderlySnoc(calls: seq<Call>, c: Call)
    requires Orderly(calls) && !Cleaned(calls) && (if c == End then InFlight(calls) else !InFlight(calls))
    ensures Orderly(calls + [c])
    ensures InFlight(calls + [c]) <==> c.Start?
    ensures Cleaned(calls + [c]) <==> c == Cleanup
  {
    Snoc(calls, c);
  }

  ghost predicate Calling(s: State) {
    && Orderly(s.calls)
    && (InFlight(s.calls) <==> s.place in {Running, Draining})
    && (Cleaned(s.calls) <==> s.place.Over?)
  }

  lemma ReturnCalling(s: State, calls: seq<Call>, status: Status)
    requires Orderly(s.calls) && !InFlight(s.calls) && !Cleaned(s.calls)
    requires |calls| <= 1 && (|calls| == 1 ==> !calls[0].Start? && calls[0] != End && calls[0] != Cleanup)
    ensures Calling(Return(s, calls, status))
  {
    if calls == [] {
      assert s.calls + calls == s.calls;
      OrderlySnoc(s.calls, Cleanup);
    } else {
      assert calls == [calls[0]];
      OrderlySnoc(s.calls, calls[0]);
      OrderlySnoc(s.calls + calls, Cleanup);
    }
  }

  lemma ConsumeKeeps(s: State, consumed: Option<Approval>)
    ensures var t := Consume(s, consumed);
            t == s.(approvals := t.approvals, acknowledged := t.acknowledged)
  {}

  lemma HandleCalling(s: State, continueAfter: nat, r: FrontierResult)
    requires Orderly(s.calls) && !InFlight(s.calls) && !Cleaned(s.calls)
    ensures Calling(Handle(s, continueAfter, r))
  {
    ConsumeKeeps(s, r.consumed);
    var t := Consume(s, r.consumed);
    if !r.waitingApproval && !r.waitingExpansion && r.terminal {
      ReturnCalling(t, [], Finished(r.status));
    } else {
      IdleCalling(s.calls, Handle(s, continueAfter, r));
    }
  }

  lemma IdleCalling(calls: seq<Call>, t: State)
    requires Orderly(calls) && !InFlight(calls) && !Cleaned(calls)
    requires t.calls == calls && t.place !in {Running, Draining} && !t.place.Over?
    ensures Calling(t)
  {}

  lemma EndedCalling(s: State, continueAfter: nat, o: Outcome)
    requires Calling(s) && s.place in {Running, Draining}
    ensures Calling(Ended(s, continueAfter, o))
  {
    var t := s.(calls := s.calls + [End]);
    OrderlySnoc(s.calls, End);
    if s.place == Running && s.cancel {
      ReturnCalling(t, [CancelJob(s.keep)], Cancelled);
    } else if s.place == Running || o.Done? {
      match o
      case Done(r) => HandleCalling(t, continueAfter, r);
      case Raised => ReturnCalling(t, [FailJob], Failed);
      case TaskCancelled => ReturnCalling(t, [], Cancelled);
    }
  }

  lemma ProceedCalling(s: State)
    requires Calling(s)
    ensures Calling(Proceed(s))
  {
    if s.place == Running && s.cancel {
      OrderlySnoc(s.calls, End);
      ReturnCalling(s.(calls := s.calls + [End]), [CancelJob(s.keep)], Cancelled);
    } else if s.place == Head {
      if s.cancel {
        ReturnCalling(s, [CancelJob(s.keep)], Cancelled);
      } else {
        OrderlySnoc(s.calls, Start(s.approvals));
      }
    }
  }

  lemma TimedOutCalling(s: State, answer: Option<bool>)
    requires Calling(s) && s.place.ApprovalWait?
    ensures Calling(TimedOut(s, answer))
  {
    OrderlySnoc(s.calls, Expire);
    if answer == Some(true) {
      ReturnCalling(s.(calls := s.calls + [Expire]), [], Failed);
    } else {
      StayCalling(s.calls + [Expire], TimedOut(s, answer));
    }
  }

  lemma StayCalling(calls: seq<Call>, t: State)
    requires Orderly(calls) && !InFlight(calls) && !Cleaned(calls)
    requires t.calls == calls && t.place in {Head, Crashed}
    ensures Calling(t)
  {}

  lemma StepCalling(s: State, continueAfter: nat, e: Event)
    requires Calling(s)
    ensures Calling(Step(s, continueAfter, e))
  {
    match e
    case Wake => ProceedCalling(s);
    case FrontierDone(o) => if s.place in {Running, Draining} { EndedCalling(s, continueAfter, o); }
    case ApprovalTimeout(answer) =>
      if s.place.ApprovalWait? { TimedOutCalling(s, answer); }
    case _ =>
  }

  /** In every run: at most one frontier is in flight, every start has at most one end,
      and a workflow made its cleanup, once and last, exactly when it has returned. */
  lemma {:induction false} RunCalling(continueAfter: nat, events: seq<Event>)
    ensures Calling(Run(continueAfter, events))
  {
    if events != [] {
      RunCalling(continueAfter, events[..|events| - 1]);
      StepCalling(Run(continueAfter, events[..|events| - 1]), continueAfter, events[|events| - 1]);
    }
  }

  /** The workflow ends without its cleanup exactly when a frontier fails while a pause
      is waiting it out, or when the Activity that checks for expiry fails. */
  lemma CrashIff(s: State, continueAfter: nat, e: Event)
    requires s.place != Crashed
    ensures Step(s, continueAfter, e).place == Crashed <==>
              || (s.place == Draining && e.FrontierDone? && !e.outcome.Done?)
              || (s.place.ApprovalWait? && e == ApprovalTimeout(None))
  {
    if e.FrontierDone? && e.outcome.Done? {
      ConsumeKeeps(s.(calls := s.calls + [End]), e.outcome.result.consumed);
    }
  }

  // ----- Pause and cancel ---------------------------------------------------------------

  function Starts(calls: seq<Call>): nat {
    if calls == [] then 0
    else Starts(calls[..|calls| - 1]) + if calls[|calls| - 1].Start? then 1 else 0
  }

  lemma {:induction false} StartsConcat(a: seq<Call>, b: seq<Call>)
    ensures Starts(a + b) == Starts(a) + Starts(b)
  {
    if b == [] {
      assert a + b == a;
    } else {
      StartsConcat(a, b[..|b| - 1]);
      assert (a + b)[..|a + b| - 1] == a + b[..|b| - 1];
    }
  }

  lemma StartsSnoc(calls: seq<Call>, c: Call)
    ensures Starts(calls + [c]) == Starts(calls) + if c.Start? then 1 else 0
  {
    Snoc(calls, c);
  }

  lemma ReturnStarts(s: State, calls: seq<Call>, status: Status)
    requires |calls| <= 1 && (|calls| == 1 ==> !calls[0].Start?)
    ensures Starts(Return(s, calls, status).calls) == Starts(s.calls)
  {
    StartsSnoc(s.calls + calls, Cleanup);
    if calls == [] {
      assert s.calls + calls == s.calls;
    } else {
      assert calls == [calls[0]];
      StartsSnoc(s.calls, calls[0]);
    }
  }

  lemma HandleStarts(s: State, continueAfter: nat, r: FrontierResult)
    ensures Starts(Handle(s, continueAfter, r).calls) == Starts(s.calls)
  {
    ConsumeKeeps(s, r.consumed);
    ReturnStarts(Consume(s, r.consumed), [], Finished(r.status));
  }

  lemma EndedStarts(s: State, continueAfter: nat, o: Outcome)
    ensures Starts(Ended(s, continueAfter, o).calls) == Starts(s.calls)
  {
    var t := s.(calls := s.calls + [End]);
    StartsSnoc(s.calls, End);
    if s.place == Running && s.cancel {
      ReturnStarts(t, [CancelJob(s.keep)], Cancelled);
    } else if s.place != Draining || o.Done? {
      match o
      case Done(r) => HandleStarts(t, continueAfter, r);
      case Raised => ReturnStarts(t, [FailJob], Failed);
      case TaskCancelled => ReturnStarts(t, [], Cancelled);
    }
  }

  ghost predicate MayStart(s: State) { s.place == Head && !s.paused && !s.cancel }

  lemma ProceedStarts(s: State)
    ensures Starts(Proceed(s).calls) == Starts(s.calls) + if MayStart(s) then 1 else 0
  {
    if s.place == Head {
      ReturnStarts(s, [CancelJob(s.keep)], Cancelled);
      StartsSnoc(s.calls, Start(s.approvals));
    } else if s.place == Running {
      StartsSnoc(s.calls, End);
      ReturnStarts(s.(calls := s.calls + [End]), [CancelJob(s.keep)], Cancelled);
    }
  }

  lemma TimedOutStarts(s: State, answer: Option<bool>)
    ensures Starts(TimedOut(s, answer).calls) == Starts(s.calls)
  {
    StartsSnoc(s.calls, Expire);
    ReturnStarts(s.(calls := s.calls + [Expire]), [], Failed);
  }

  /** A step starts a frontier exactly when the coroutine wakes at the head of its loop,
      not paused and not cancelled. */
  lemma StartsIff(s: State, continueAfter: nat, e: Event)
    ensures Starts(Step(s, continueAfter, e).calls) == Starts(s.calls) + if e == Wake && MayStart(s) then 1 else 0
  {
    match e
    case Wake => ProceedStarts(s);
    case FrontierDone(o) => EndedStarts(s, continueAfter, o);
    case ApprovalTimeout(answer) => TimedOutStarts(s, answer);
    case _ =>
  }

  /** Somewhere in the events one run is cut and the next one begins. */
  ghost predicate Crosses(s: State, continueAfter: nat, events: seq<Event>) {
    events != [] &&
    var (front, e) := (events[..|events| - 1], events[|events| - 1]);
    Crosses(s, continueAfter, front) || (e == NextRun && RunFrom(s, continueAfter, front).place == Cut)
  }

  /** Nothing but a new run takes back a cancel request, and only a resume lifts a pause. */
  lemma FlagsStay(s: State, continueAfter: nat, e: Event)
    requires !(e == NextRun && s.place == Cut)
    ensures s.cancel ==> Step(s, continueAfter, e).cancel
    ensures s.paused && e != Resume ==> Step(s, continueAfter, e).paused
  {
    if e.FrontierDone? && e.outcome.Done? {
      ConsumeKeeps(s.(calls := s.calls + [End]), e.outcome.result.consumed);
    }
  }

  lemma RunFromSnoc(s: State, continueAfter: nat, events: seq<Event>, e: Event)
    ensures RunFrom(s, continueAfter, events + [e]) == Step(RunFrom(s, continueAfter, events), continueAfter, e)
  {
    assert (events + [e])[..|events|] == events;
  }

  /** Until a run is cut, a cancel request stops all further starts, and so does a pause
      that is not lifted. */
  lemma {:induction false} StopHolds(s: State, continueAfter: nat, events: seq<Event>)
    requires s.cancel || (s.paused && Resume !in events)
    requires !Crosses(s, continueAfter, events)
    ensures Starts(RunFrom(s, continueAfter, events).calls) == Starts(s.calls)
    ensures s.cancel ==> RunFrom(s, continueAfter, events).cancel
    ensures s.paused && Resume !in events ==> RunFrom(s, continueAfter, events).paused
  {
    if events != [] {
      var front, e := events[..|events| - 1], events[|events| - 1];
      assert events == front + [e];
      StopHolds(s, continueAfter, front);
      RunFromSnoc(s, continueAfter, front, e);
      StartsIff(RunFrom(s, continueAfter, front), continueAfter, e);
      FlagsStay(RunFrom(s, continueAfter, front), continueAfter, e);
    }
  }

  /** The first cut takes the stop away: a frontier starts at the next wake. */
  lemma CutEndsStop(s: State, continueAfter: nat, events: seq<Event>)
    requires s.cancel || (s.paused && Resume !in events)
    requires !Crosses(s, continueAfter, events) && RunFrom(s, continueAfter, events).place == Cut
    ensures Starts(RunFrom(s, continueAfter, events + [NextRun] + [Wake]).calls) == Starts(s.calls) + 1
  {
    StopHolds(s, continueAfter, events);
    RunFromSnoc(s, continueAfter, events, NextRun);
    RunFromSnoc(s, continueAfter, events + [NextRun], Wake);
    FreshStarts(RunFrom(s, continueAfter, events), continueAfter);
  }

  lemma FreshStarts(s: State, continueAfter: nat)
    requires s.place == Cut
    ensures Starts(Step(Step(s, continueAfter, NextRun), continueAfter, Wake).calls) == Starts(s.calls) + 1
  {
    ProceedStarts(Fresh(s.calls));
  }

  // ----- Approvals --------------------------------------------------------------------

  ghost predicate Subsequence(a: seq<Approval>, b: seq<Approval>) {
    a == [] ||
    (b != [] && ((a[0] == b[0] && Subsequence(a[1..], b[1..])) || Subsequence(a, b[1..])))
  }

  lemma {:induction false} SubsequenceAppend(a: seq<Approval>, b: seq<Approval>, x: Approval)
    requires Subsequence(a, b)
    ensures Subsequence(a + [x], b + [x])
  {
    if b == [] {
      assert a + [x] == [x] && b + [x] == [x];
    } else {
      assert (b + [x])[1..] == b[1..] + [x];
      if a != [] && a[0] == b[0] && Subsequence(a[1..], b[1..]) {
        SubsequenceAppend(a[1..], b[1..], x);
        assert (a + [x])[1..] == a[1..] + [x];
      } else {
        SubsequenceAppend(a, b[1..], x);
      }
    }
  }

  lemma {:induction false} SubsequenceTail(a: seq<Approval>, b: seq<Approval>)
    requires a != [] && Subsequence(a, b)
    ensures Subsequence(a[1..], b)
  {
    if !(a[0] == b[0] && Subsequence(a[1..], b[1..])) {
      SubsequenceTail(a, b[1..]);
    }
  }

  lemma {:induction false} SubsequenceRemove(a: seq<Approval>, b: seq<Approval>, x: Approval)
    requires Subsequence(a, b)
    ensures Subsequence(RemoveFirst(a, x), b)
  {
    if a != [] {
      if a[0] == x {
        SubsequenceTail(a, b);
      } else {
        var r := RemoveFirst(a, x);
        assert r[0] == a[0] && r[1..] == RemoveFirst(a[1..], x);
        if a[0] == b[0] && Subsequence(a[1..], b[1..]) {
          SubsequenceRemove(a[1..], b[1..], x);
        } else {
          SubsequenceRemove(a, b[1..], x);
        }
      }
    }
  }

  lemma {:induction false} RemoveOne(xs: seq<Approval>, x: Approval)
    requires x in xs
    ensures multiset(xs) == multiset(RemoveFirst(xs, x)) + multiset{x}
  {
    assert xs == [xs[0]] + xs[1..];
    if xs[0] != x { RemoveOne(xs[1..], x); }
  }

  /** The retained approvals are the signalled ones in order, minus one for every
      acknowledgement that matched. */
  ghost predicate Ledger(s: State) {
    && multiset(s.signalled) == multiset(s.approvals) + multiset(s.acknowledged)
    && Subsequence(s.approvals, s.signalled)
  }

  lemma ConsumeLedger(s: State, consumed: Option<Approval>)
    requires Ledger(s)
    ensures Ledger(Consume(s, consumed))
  {
    if consumed.Some? && consumed.value in s.approvals {
      RemoveOne(s.approvals, consumed.value);
      SubsequenceRemove(s.approvals, s.signalled, consumed.value);
    }
  }

  lemma SameLedger(s: State, t: State)
    requires Ledger(s)
    requires t.approvals == s.approvals && t.signalled == s.signalled && t.acknowledged == s.acknowledged
    ensures Ledger(t)
  {}

  lemma HandleLedger(s: State, continueAfter: nat, r: FrontierResult)
    requires Ledger(s)
    ensures Ledger(Handle(s, continueAfter, r))
  {
    ConsumeLedger(s, r.consumed);
    SameLedger(Consume(s, r.consumed), Handle(s, continueAfter, r));
  }

  lemma EndedLedger(s: State, continueAfter: nat, o: Outcome)
    requires Ledger(s)
    ensures Ledger(Ended(s, continueAfter, o))
  {
    var t := s.(calls := s.calls + [End]);
    SameLedger(s, t);
    if o.Done? && !(s.place == Running && s.cancel) {
      HandleLedger(t, continueAfter, o.result);
    } else {
      SameLedger(s, Ended(s, continueAfter, o));
    }
  }

  lemma ApproveLedger(s: State, a: Approval)
    requires Ledger(s)
    ensures Ledger(s.(approvals := s.approvals + [a], signalled := s.signalled + [a], wakes := s.wakes + 1))
  {
    SubsequenceAppend(s.approvals, s.signalled, a);
  }

  lemma StepLedger(s: State, continueAfter: nat, e: Event)
    requires Ledger(s)
    ensures Ledger(Step(s, continueAfter, e))
  {
    match e
    case Approve(a) => if a.nodeId != "" { ApproveLedger(s, a); }
    case FrontierDone(o) => if s.place in {Running, Draining} { EndedLedger(s, continueAfter, o); }
    case NextRun => FreshLedger(s.calls);
    case _ => QuietLedger(s, continueAfter, e);
  }

  lemma FreshLedger(calls: seq<Call>)
    ensures Ledger(Fresh(calls))
  {}

  lemma ProceedKeeps(s: State)
    ensures var t := Proceed(s);
            t.approvals == s.approvals && t.signalled == s.signalled && t.acknowledged == s.acknowledged
  {}

  /** Nothing else touches the approvals. */
  lemma QuietKeeps(s: State, continueAfter: nat, e: Event)
    requires !e.Approve? && !e.FrontierDone? && !e.NextRun?
    ensures var t := Step(s, continueAfter, e);
            t.approvals == s.approvals && t.signalled == s.signalled && t.acknowledged == s.acknowledged
  {
    if e == Wake { ProceedKeeps(s); }
  }

  lemma QuietLedger(s: State, continueAfter: nat, e: Event)
    requires Ledger(s) && !e.Approve? && !e.FrontierDone? && !e.NextRun?
    ensures Ledger(Step(s, continueAfter, e))
  {
    QuietKeeps(s, continueAfter, e);
    SameLedger(s, Step(s, continueAfter, e));
  }

  lemma {:induction false} RunLedger(continueAfter: nat, events: seq<Event>)
    ensures Ledger(Run(continueAfter, events))
  {
    if events != [] {
      RunLedger(continueAfter, events[..|events| - 1]);
      StepLedger(Run(continueAfter, events[..|events| - 1]), continueAfter, events[|events| - 1]);
    }
  }

  // ----- What the next run does not know ------------------------------------------------

  /** The result counts as one more finished frontier. */
  predicate IsProgress(r: FrontierResult) {
    !r.waitingApproval && !r.waitingExpansion && !r.terminal && !r.paused
  }

  /** The frontier's end closes the run: it is ordinary progress, the last of its run,
      and either a pause was waiting it out or no cancel request is seen. */
  predicate Closes(s: State, continueAfter: nat, o: Outcome) {
    && s.place in {Running, Draining}
    && o.Done? && IsProgress(o.result)
    && s.frontiers + 1 >= continueAfter
    && (s.place == Draining || !s.cancel)
  }

  /** The only way into a cut. */
  lemma CutsIff(s: State, continueAfter: nat, e: Event)
    requires s.place != Cut
    ensures Step(s, continueAfter, e).place == Cut <==> e.FrontierDone? && Closes(s, continueAfter, e.outcome)
  {
    if e.FrontierDone? && e.outcome.Done? {
      ConsumeKeeps(s.(calls := s.calls + [End]), e.outcome.result.consumed);
    }
  }

  /** A pause or a cancel request that is there when the frontier ends, whether the pause
      was waiting the frontier out or arrived with its completion, is forgotten, and the
      next run starts a frontier, exactly when that end closes the run. */
  lemma StopForgottenIff(s: State, continueAfter: nat, o: Outcome)
    requires s.place in {Running, Draining} && (s.paused || s.cancel)
    ensures var events := [FrontierDone(o)] + [NextRun] + [Wake];
            var next := Step(Step(s, continueAfter, FrontierDone(o)), continueAfter, NextRun);
            && Starts(RunFrom(s, continueAfter, events).calls) ==
                 Starts(s.calls) + (if Closes(s, continueAfter, o) then 1 else 0)
            && (Closes(s, continueAfter, o) ==> !next.paused && !next.cancel)
            && (!Closes(s, continueAfter, o) ==> (s.paused ==> next.paused) && (s.cancel ==> next.cancel))
  {
    var one := [FrontierDone(o)];
    CutsIff(s, continueAfter, FrontierDone(o));
    OneStep(s, continueAfter, FrontierDone(o));
    NoCrossing(s, continueAfter, FrontierDone(o));
    if Closes(s, continueAfter, o) {
      CutEndsStop(s, continueAfter, one);
    } else {
      FlagsStay(s, continueAfter, FrontierDone(o));
      StopHolds(s, continueAfter, one);
      var t := Step(s, continueAfter, FrontierDone(o));
      RunFromSnoc(s, continueAfter, one, NextRun);
      RunFromSnoc(s, continueAfter, one + [NextRun], Wake);
      StartsIff(t, continueAfter, Wake);
    }
  }

  lemma OneStep(s: State, continueAfter: nat, e: Event)
    ensures RunFrom(s, continueAfter, [e]) == Step(s, continueAfter, e)
  {
    assert [] + [e] == [e];
    RunFromSnoc(s, continueAfter, [], e);
  }

  lemma NoCrossing(s: State, continueAfter: nat, e: Event)
    requires e != NextRun
    ensures !Crosses(s, continueAfter, [e])
  {
    assert [e][..0] == [];
  }

  /** A cancel request that is not forgotten is carried out: the workflow ends at once,
      or cancels within two wakes. */
  lemma CancelKept(s: State, continueAfter: nat, o: Outcome)
    requires s.place in {Running, Draining} && s.cancel && !Closes(s, continueAfter, o)
    ensures var t := Step(s, continueAfter, FrontierDone(o));
            t.place == Crashed || t.place.Over? || Proceed(Proceed(t)).place == Over(Cancelled)
  {
    CutsIff(s, continueAfter, FrontierDone(o));
    if o.Done? { ConsumeKeeps(s.(calls := s.calls + [End]), o.result.consumed); }
  }

  /** What else the next run does not know: retained approvals and a pending patch. In
      every run that is cut, the approvals dropped are the signalled ones nobody has
      acknowledged, so none is lost if and only if all were. */
  lemma CutDropsApprovals(continueAfter: nat, events: seq<Event>)
    requires Run(continueAfter, events).place == Cut
    ensures var s := Run(continueAfter, events);
            var next := Step(s, continueAfter, NextRun);
            && next.approvals == [] && !next.patch
            && multiset(s.approvals) == multiset(s.signalled) - multiset(s.acknowledged)
            && (next.approvals == s.approvals <==> multiset(s.signalled) == multiset(s.acknowledged))
            && (next.patch == s.patch <==> !s.patch)
  {
    RunLedger(continueAfter, events);
    var s := Run(continueAfter, events);
    if s.approvals != [] { assert s.approvals[0] in multiset(s.approvals); }
  }

  // ----- From the start -------------------------------------------------------------------

  lemma {:induction false} RunIsFrom(continueAfter: nat, events: seq<Event>)
    ensures Run(continueAfter, events) == RunFrom(Fresh([]), continueAfter, events)
  {
    if events != [] { RunIsFrom(continueAfter, events[..|events| - 1]); }
  }

  lemma {:induction false} RunFromConcat(s: State, continueAfter: nat, a: seq<Event>, b: seq<Event>)
    ensures RunFrom(s, continueAfter, a + b) == RunFrom(RunFrom(s, continueAfter, a), continueAfter, b)
  {
    if b == [] {
      assert a + b == a;
    } else {
      var front := b[..|b| - 1];
      RunFromConcat(s, continueAfter, a, front);
      assert (a + b)[..|a + b| - 1] == a + front;
    }
  }

  lemma TwoSteps(s: State, continueAfter: nat, d: Event, e: Event)
    ensures RunFrom(s, continueAfter, [d, e]) == Step(Step(s, continueAfter, d), continueAfter, e)
  {
    assert [d] + [e] == [d, e];
    OneStep(s, continueAfter, d);
    RunFromSnoc(s, continueAfter, [d], e);
  }

  /** One frontier in flight, with or without the wake that sees the pause. */
  lemma PausedEarly(drained: bool)
    ensures var s := RunFrom(Fresh([]), 1, [Wake, Pause] + (if drained then [Wake] else []));
            s.place == (if drained then Draining else Running) && s.paused && !s.cancel && s.frontiers == 0
            && Starts(s.calls) == 1
  {
    var s := Step(Step(Fresh([]), 1, Wake), 1, Pause);
    TwoSteps(Fresh([]), 1, Wake, Pause);
    StartsIff(Fresh([]), 1, Wake);
    if drained {
      RunFromSnoc(Fresh([]), 1, [Wake, Pause], Wake);
      StartsIff(s, 1, Wake);
    } else {
      assert [Wake, Pause] + [] == [Wake, Pause];
    }
  }

  /** From the start: a frontier is started, a pause arrives, the frontier ends with the
      pause still there, and with runs of one frontier a second one starts although
      nobody resumed. With drained, the pause is seen before the frontier ends. */
  lemma PauseLostFromStart(r: FrontierResult, drained: bool)
    requires IsProgress(r)
    ensures var events := [Wake, Pause] + (if drained then [Wake] else [])
                          + ([FrontierDone(Done(r))] + [NextRun] + [Wake]);
            Resume !in events && Starts(Run(1, events).calls) == 2
  {
    var early := [Wake, Pause] + (if drained then [Wake] else []);
    var last := [FrontierDone(Done(r))] + [NextRun] + [Wake];
    PausedEarly(drained);
    StopForgottenIff(RunFrom(Fresh([]), 1, early), 1, Done(r));
    RunFromConcat(Fresh([]), 1, early, last);
    RunIsFrom(1, early + last);
  }

  /** From the start: an approval arrives while the last frontier of its run is in
      flight, and the next run has forgotten it. */
  lemma ApprovalLostFromStart(a: Approval, r: FrontierResult)
    requires a.nodeId != "" && IsProgress(r) && r.consumed == None
    ensures var s := Run(1, [Wake, Approve(a)] + [FrontierDone(Done(r))]);
            s.place == Cut && s.approvals == [a] && Step(s, 1, NextRun).approvals == []
  {
    var s := Step(Step(Fresh([]), 1, Wake), 1, Approve(a));
    TwoSteps(Fresh([]), 1, Wake, Approve(a));
    RunFromSnoc(Fresh([]), 1, [Wake, Approve(a)], FrontierDone(Done(r)));
    RunIsFrom(1, [Wake, Approve(a)] + [FrontierDone(Done(r))]);
    assert s.place == Running && s.approvals == [a];
    CutsIff(s, 1, FrontierDone(Done(r)));
  }
}
