/** The workflow object: its signals, and its coroutine between one wait and the next. */
module LogicalEffectsWorkflows {
  import opened Prelude
  import opened EffectsModel

  class LogicalEffectsWorkflow {
    const continueAfter: nat
    var place: Place
    var paused: bool
    var cancelRequested: bool
    var keepCompleted: bool
    var approvals: seq<Approval>
    var patchPending: bool
    var wakeGeneration: nat
    var completedFrontiers: nat
    ghost var calls: seq<Call>
    ghost var signalled: seq<Approval>
    ghost var acknowledged: seq<Approval>

    ghost function View(): State
      reads this
    {
      State(place, paused, cancelRequested, keepCompleted, approvals, patchPending, wakeGeneration,
            completedFrontiers, calls, signalled, acknowledged)
    }

    constructor (continueAfter: nat)
      ensures this.continueAfter == continueAfter && View() == Fresh([])
    {
      this.continueAfter := continueAfter;
      place, paused, cancelRequested, keepCompleted := Head, false, false, true;
      approvals, patchPending, wakeGeneration, completedFrontiers := [], false, 0, 0;
      calls, signalled, acknowledged := [], [], [];
    }

    method PauseSignal()
      modifies this`paused
      ensures View() == Step(old(View()), continueAfter, Pause)
    {
      paused := true;
    }

    method ResumeSignal()
      modifies this`paused, this`wakeGeneration
      ensures View() == Step(old(View()), continueAfter, Resume)
    {
      paused := false;
      wakeGeneration := wakeGeneration + 1;
    }

    method CancelSignal(keep: bool)
      modifies this`cancelRequested, this`keepCompleted
      ensures View() == Step(old(View()), continueAfter, CancelRequest(keep))
    {
      cancelRequested := true;
      keepCompleted := keep;
    }

    method ApproveTask(a: Approval)
      modifies this`approvals, this`wakeGeneration, this`signalled
      ensures View() == Step(old(View()), continueAfter, Approve(a))
    {
      if a.nodeId != "" {
        approvals := approvals + [a];
        signalled := signalled + [a];
        wakeGeneration := wakeGeneration + 1;
      }
    }

    method PlanPatchAvailable()
      modifies this`patchPending
      ensures View() == Step(old(View()), continueAfter, PatchAvailable)
    {
      patchPending := true;
    }

    /** Delete the first retained approval that the Activity acknowledged. */
    method ConsumeApproval(consumed: Option<Approval>)
      modifies this`approvals, this`acknowledged
      ensures View() == Consume(old(View()), consumed)
    {
      if consumed.None? || consumed.value.nodeId == "" {
        return;
      }
      var index := 0;
      while index < |approvals|
        invariant index <= |approvals| && approvals == old(approvals) && acknowledged == old(acknowledged)
        invariant consumed.value !in approvals[..index]
        invariant RemoveFirst(approvals, consumed.value) ==
                    approvals[..index] + RemoveFirst(approvals[index..], consumed.value)
      {
        RemoveStep(approvals, index, consumed.value);
        if approvals[index] == consumed.value {
          approvals := approvals[..index] + approvals[index + 1..];
          acknowledged := acknowledged + [consumed.value];
          return;
        }
        index := index + 1;
      }
      assert approvals[..index] == approvals;
    }

    method ReturnWith(status: Status, ghost made: seq<Call>)
      modifies this`place, this`calls
      ensures View() == Return(old(View()), made, status)
    {
      calls := calls + made + [Cleanup];
      place := Over(status);
    }

    /** From a wait, or the head of the loop, to the next wait. */
    method WakeUp()
      modifies this`place, this`calls, this`patchPending
      ensures View() == Step(old(View()), continueAfter, Wake)
    {
      match place
      case Head =>
        if cancelRequested {
          ReturnWith(Cancelled, [CancelJob(keepCompleted)]);
        } else if paused {
          place := Held;
        } else {
          calls := calls + [Start(approvals)];
          place := Running;
        }
      case Held =>
        if !paused || cancelRequested {
          place := Head;
        }
      case Running =>
        if cancelRequested {
          calls := calls + [End];
          ReturnWith(Cancelled, [CancelJob(keepCompleted)]);
        } else if paused {
          place := Draining;
        }
      case ApprovalWait(since) =>
        if approvals != [] || cancelRequested || paused || wakeGeneration != since {
          place := Head;
        }
      case ExpansionWait =>
        if cancelRequested || paused {
          place := Head;
        } else if patchPending {
          patchPending := false;
          place := Head;
        }
      case _ =>
    }

    /** The loop body after the frontier's result. */
    method HandleResult(r: FrontierResult)
      modifies this`place, this`calls, this`paused, this`approvals, this`acknowledged, this`completedFrontiers
      ensures View() == Handle(old(View()), continueAfter, r)
    {
      ConsumeApproval(r.consumed);
      if r.waitingApproval {
        place := ApprovalWait(wakeGeneration);
      } else if r.waitingExpansion {
        place := ExpansionWait;
      } else if r.terminal {
        ReturnWith(Finished(r.status), []);
      } else if r.paused {
        paused := true;
        place := Head;
      } else {
        completedFrontiers := completedFrontiers + 1;
        place := if completedFrontiers >= continueAfter then Cut else Head;
      }
    }

    method FrontierEnds(o: Outcome)
      modifies this`place, this`calls, this`paused, this`approvals, this`acknowledged, this`completedFrontiers
      ensures View() == Step(old(View()), continueAfter, FrontierDone(o))
    {
      if place != Running && place != Draining {
        return;
      }
      calls := calls + [End];
      if place == Running && cancelRequested {
        ReturnWith(Cancelled, [CancelJob(keepCompleted)]);
        return;
      }
      if place == Draining && !o.Done? {
        place := Crashed;
        return;
      }
      match o
      case Done(r) => HandleResult(r);
      case Raised => ReturnWith(Failed, [FailJob]);
      case TaskCancelled => ReturnWith(Cancelled, []);
    }

    method ApprovalTimesOut(answer: Option<bool>)
      modifies this`place, this`calls
      ensures View() == Step(old(View()), continueAfter, ApprovalTimeout(answer))
    {
      if !place.ApprovalWait? {
        return;
      }
      calls := calls + [Expire];
      if answer.None? {
        place := Crashed;
      } else if answer.value {
        ReturnWith(Failed, []);
      } else {
        place := Head;
      }
    }
  }

  lemma RemoveStep(xs: seq<Approval>, i: nat, a: Approval)
    requires i < |xs|
    ensures RemoveFirst(xs[i..], a) == if xs[i] == a then xs[i + 1..] else [xs[i]] + RemoveFirst(xs[i + 1..], a)
    ensures xs[..i + 1] == xs[..i] + [xs[i]]
    ensures forall rest :: xs[..i] + ([xs[i]] + rest) == xs[..i + 1] + rest
  {
    assert xs[i..][1..] == xs[i + 1..];
  }
}
