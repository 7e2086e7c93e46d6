/** The other steps of the scheduler, told by statuses, events and outcomes: what the loop
    head does, who is launched and how often, what stops it, and what a cancellation, a
    mounted plan and a cut leave behind. */
module DagSteps {
  import opened Prelude
  import opened DagModel
  import opened DagInvariants
  import opened DagNodes
  import opened DagClosure
  import opened DagGates
  import opened DagRework

  // ----- The loop head ---------------------------------------------------------------

  /** Unfinished, not running, not waiting, and every dependency is a completed node. */
  ghost predicate CanRun(s: State, n: Id) {
    && n in s.tree.nodes && n !in s.running
    && !Terminal(s.tree.nodes[n].status) && !s.tree.nodes[n].waiting
    && forall d :: d in s.tree.nodes[n].dependsOn ==> d in s.tree.nodes && s.tree.nodes[d].status == Completed
  }

  ghost predicate IsWaiting(s: State, n: Id) {
    n in s.tree.nodes && n !in s.running && !Terminal(s.tree.nodes[n].status) && s.tree.nodes[n].waiting
  }

  lemma ReadyIff(c: Config, s: State, n: Id)
    requires Inv(c, s) && s.phase != Done && WellFormed(s)
    ensures n in ReadySet(s) <==> CanRun(s, n)
    ensures n in Waiters(s) <==> IsWaiting(s, n)
  {
    if n in s.tree.nodes { assert Placed(s.tree, s.running, {}, n); }
  }

  lemma {:induction false} SomeBatch(ready: set<Id>, k: nat) returns (batch: seq<Id>)
    requires k <= |ready|
    ensures NoDup(batch) && |batch| == k && Within(batch, ready)
  {
    if k == 0 {
      batch := [];
    } else {
      var n :| n in ready;
      var rest := SomeBatch(ready - {n}, k - 1);
      batch := rest + [n];
    }
  }

  /** With work left and nothing stopping it, the loop head starts a batch if something can
      run or runs already, else waits if some node waits for resources, else gives up. */
  lemma HeadIff(c: Config, s: State)
    requires Inv(c, s) && s.phase == Top && !s.paused && !s.cancelRequested
    requires exists n :: n in s.tree.nodes && !Terminal(s.tree.nodes[n].status)
    ensures (exists batch :: Enabled(c, s, SelectBatch(batch))) <==> s.running != [] || exists n :: CanRun(s, n)
    ensures Enabled(c, s, WaitForResources) <==>
              s.running == [] && (forall n :: !CanRun(s, n)) && exists n :: IsWaiting(s, n)
    ensures Enabled(c, s, SkipRest) <==>
              s.running == [] && (forall n :: !CanRun(s, n)) && forall n :: !IsWaiting(s, n)
  {
    InvWellFormed(c, s);
    HeadSets(c, s);
    SomeWork(s);
    BatchStarts(c, s);
  }

  lemma SomeWork(s: State)
    requires Partitioned(s.tree, s.running)
    requires exists n :: n in s.tree.nodes && !Terminal(s.tree.nodes[n].status)
    ensures s.tree.pending != {} || s.running != []
  {
    var m :| m in s.tree.nodes && !Terminal(s.tree.nodes[m].status);
    assert Placed(s.tree, s.running, {}, m);
  }

  lemma HeadSets(c: Config, s: State)
    requires Inv(c, s) && s.phase != Done && WellFormed(s)
    ensures ReadySet(s) != {} <==> exists n :: CanRun(s, n)
    ensures Waiters(s) != {} <==> exists n :: IsWaiting(s, n)
  {
    forall n ensures n in ReadySet(s) <==> CanRun(s, n) { ReadyIff(c, s, n); }
    forall n ensures n in Waiters(s) <==> IsWaiting(s, n) { ReadyIff(c, s, n); }
  }

  lemma BatchStarts(c: Config, s: State)
    requires WellFormed(s) && AtWork(s)
    ensures (exists batch :: Enabled(c, s, SelectBatch(batch))) <==> s.running != [] || ReadySet(s) != {}
  {
    if batch :| Enabled(c, s, SelectBatch(batch)) {
      if batch != [] { assert batch[0] in ReadySet(s); }
    }
    if s.running != [] || ReadySet(s) != {} {
      var batch := SomeBatch(ReadySet(s), Min(|ReadySet(s)|, Capacity(c, s)));
      assert |ReadySet(s)| == 0 ==> ReadySet(s) == {};
      assert Enabled(c, s, SelectBatch(batch));
    }
  }

  /** A batch takes only nodes that can run, each once, and stops only when all are taken or
      the limit is reached. */
  lemma BatchFills(c: Config, s: State, batch: seq<Id>)
    requires Inv(c, s) && Enabled(c, s, SelectBatch(batch))
    ensures NoDup(batch) && forall n :: n in batch ==> CanRun(s, n)
    ensures |s.running| + |batch| <= Max(1, c.concurrency)
    ensures (forall n :: CanRun(s, n) ==> n in batch) || |s.running| + |batch| == Max(1, c.concurrency)
  {
    forall n ensures n in ReadySet(s) <==> CanRun(s, n) { ReadyIff(c, s, n); }
    if |batch| == |ReadySet(s)| { AllTaken(batch, ReadySet(s)); }
  }

  lemma AllTaken(batch: seq<Id>, ready: set<Id>)
    requires NoDup(batch) && Within(batch, ready) && |batch| == |ready|
    ensures forall n :: n in ready ==> n in batch
  {
    NoDupCard(batch);
    if Elems(batch) != ready { SubsetCard(Elems(batch), ready); }
  }

  /** After a resource wait no unfinished node waits, and nothing else has changed. */
  lemma WaitFrees(c: Config, s: State, n: Id)
    requires Inv(c, s) && s.phase != Done && Enabled(c, s, WaitForResources) && n in s.tree.nodes
    ensures var r := Step(c, s, WaitForResources);
            && r.tree.job == JobRunning && n in r.tree.nodes
            && r.tree.nodes[n] == s.tree.nodes[n].(waiting := r.tree.nodes[n].waiting)
            && (r.tree.nodes[n].waiting <==> s.tree.nodes[n].waiting && Terminal(s.tree.nodes[n].status))
  {
    assert Placed(s.tree, s.running, {}, n);
  }

  /** Giving up skips exactly the unfinished nodes. */
  lemma GivingUpSkips(c: Config, s: State, n: Id)
    requires Inv(c, s) && s.phase != Done && Enabled(c, s, SkipRest) && n in s.tree.nodes
    ensures var r := Step(c, s, SkipRest);
            && r.phase == Done && n in r.tree.nodes
            && r.tree.nodes[n] ==
                 if Terminal(s.tree.nodes[n].status) then s.tree.nodes[n] else s.tree.nodes[n].(status := Skipped)
  {
    assert Placed(s.tree, s.running, {}, n);
  }

  // ----- Gates -------------------------------------------------------------------------

  /** In every run a gate opens for a node that needs no approval, or has a decision, or
      while the job is paused or cancelled; it turns the node away exactly on a refusal as
      the latest decision, and waits otherwise. */
  lemma GateDecides(c: Config, s: State, es: seq<Event>)
    requires Inv(c, s) && s.approvals == map[]
    requires var m := Run(c, s, es); m.phase.Gating? && m.phase.rest != []
    ensures var m := Run(c, s, es);
            var n := m.phase.rest[0];
            var said, stopped := LastSaid(c, s, es, n), m.paused || m.cancelRequested;
            && n in m.tree.nodes
            && (Enabled(c, m, Gate) <==> !m.tree.nodes[n].approval || said.Some? || stopped)
            && (Enabled(c, m, Gate) ==>
                  var r := Step(c, m, Gate);
                  if m.tree.nodes[n].approval && said == Some(false) && !stopped
                  then n !in r.phase.runnable && r.tree.nodes[n].status == Skipped && n !in r.tree.pending
                  else n in r.phase.runnable && r.tree.pending == m.tree.pending)
            && (Enabled(c, m, Gate) && m.tree.nodes[n].approval ==>
                  Step(c, m, Gate).tree.job == if stopped then JobWaitingApproval else JobRunning)
            && (!m.tree.nodes[n].approval ==> Step(c, m, Gate).tree == m.tree)
  {
    var m := Run(c, s, es);
    RunInv(c, s, es);
    InvWellFormed(c, m);
    RunSaid(c, s, es, m.phase.rest[0]);
    if Enabled(c, m, Gate) && m.tree.nodes[m.phase.rest[0]].approval { GatePassIff(c, m); }
  }

  // ----- Launches ------------------------------------------------------------------------

  ghost predicate LaunchesNow(c: Config, s: State, e: Event, n: Id) {
    e.Launch? && Enabled(c, s, e) && n in s.phase.runnable
  }

  ghost function LaunchTimes(c: Config, s: State, es: seq<Event>, n: Id): nat {
    if es == [] then 0
    else
      LaunchTimes(c, s, es[..|es| - 1], n) + One(LaunchesNow(c, Run(c, s, es[..|es| - 1]), es[|es| - 1], n))
  }

  lemma LaunchAttempts(s: State, n: Id)
    requires s.phase.Gating? && n in s.tree.nodes
    ensures LaunchState(s).tree.nodes[n].attempts == s.tree.nodes[n].attempts + One(n in s.phase.runnable)
  {}

  lemma {:induction false} ReviewAllAttempts(t: Tree, finished: seq<Id>, targets: map<Id, set<Id>>, n: Id)
    requires Within(finished, t.nodes.Keys) && n in t.nodes
    ensures ReviewAll(t, finished, targets).nodes[n].attempts == t.nodes[n].attempts
  {
    if finished != [] {
      var k := |finished| - 1;
      ReviewAllAttempts(t, finished[..k], targets, n);
      var m := ReviewAll(t, finished[..k], targets);
      match Rejection(m.nodes[finished[k]])
      case None =>
      case Some(text) => ReopenWritersAttempts(m, RejectedWriters(m.nodes, finished[k], targets), text, n);
    }
  }

  lemma {:induction false} ReopenWritersAttempts(t: Tree, ws: seq<Id>, text: string, n: Id)
    requires Within(ws, t.nodes.Keys) && n in t.nodes
    ensures ReopenWriters(t, ws, text).nodes[n].attempts == t.nodes[n].attempts
  {
    if ws != [] {
      ReopenWritersAttempts(t, ws[..|ws| - 1], text, n);
      ReopenWriterAt(ReopenWriters(t, ws[..|ws| - 1], text), ws[|ws| - 1], text, n);
    }
  }

  lemma CollectAttempts(c: Config, s: State, done: map<Id, Outcome>, targets: map<Id, set<Id>>, n: Id)
    requires WellFormed(s) && Partitioned(s.tree, s.running) && LegalOutcomes(s, done) && n in s.tree.nodes
    ensures CollectState(c, s, done, targets).tree.nodes[n].attempts == s.tree.nodes[n].attempts
  {
    DropToLimbo(s, done);
    SettleAllAt(c, s.tree, Finished(s, done), done, n);
    ReviewAllAttempts(SettleAll(c, s.tree, Finished(s, done), done), Finished(s, done), targets, n);
  }

  lemma StepAttempts(c: Config, s: State, e: Event, n: Id)
    requires Sound(c, s) && n in s.tree.nodes
    ensures n in Step(c, s, e).tree.nodes
    ensures Step(c, s, e).tree.nodes[n].attempts == s.tree.nodes[n].attempts + One(LaunchesNow(c, s, e, n))
  {
    if Enabled(c, s, e) {
      if e.Launch? {
        LaunchAttempts(s, n);
      } else if e.Collect? {
        CollectAttempts(c, s, e.done, e.targets, n);
      } else if e.Cut? {
        NodeAfterCut(c, s, n);
      } else {
        CalmStep(c, s, e, n);
      }
    }
  }

  /** In every run, over cuts and plans, a node's attempts count its launches exactly. */
  lemma {:induction false} AttemptsCount(c: Config, s: State, es: seq<Event>, n: Id)
    requires Sound(c, s) && n in s.tree.nodes
    ensures n in Run(c, s, es).tree.nodes
    ensures Run(c, s, es).tree.nodes[n].attempts == s.tree.nodes[n].attempts + LaunchTimes(c, s, es, n)
  {
    if es != [] {
      AttemptsCount(c, s, es[..|es| - 1], n);
      RunSound(c, s, es[..|es| - 1]);
      StepAttempts(c, Run(c, s, es[..|es| - 1]), es[|es| - 1], n);
    }
  }

  // ----- Pause and cancel ------------------------------------------------------------------

  ghost predicate Stopped(s: State, resumed: bool) { s.cancelRequested || (s.paused && !resumed) }

  /** No batch is on its way, and none can be selected. */
  lemma StoppedStep(c: Config, s: State, e: Event, resumed: bool)
    requires Stopped(s, resumed) && (e == Resume ==> resumed) && !s.phase.Gating? && !CutNow(c, s, e)
    ensures Stopped(Step(c, s, e), resumed) && !Step(c, s, e).phase.Gating?
  {}

  lemma {:induction false} StoppedRun(c: Config, s: State, es: seq<Event>, resumed: bool, n: Id)
    requires Stopped(s, resumed) && (Resume in es ==> resumed) && !s.phase.Gating? && CutCount(c, s, es) == 0
    ensures Stopped(Run(c, s, es), resumed) && !Run(c, s, es).phase.Gating? && LaunchTimes(c, s, es, n) == 0
  {
    if es != [] {
      var front, e := es[..|es| - 1], es[|es| - 1];
      assert es == front + [e];
      StoppedRun(c, s, front, resumed, n);
      StoppedStep(c, Run(c, s, front), e, resumed);
    }
  }

  /** Between batches: after a cancel request nothing more is launched until the run is cut,
      and after a pause nothing until it is resumed or cut. */
  lemma NothingLaunched(c: Config, s: State, stop: Event, es: seq<Event>, n: Id)
    requires Sound(c, s) && s.phase != Done && !s.phase.Gating? && n in s.tree.nodes
    requires stop.CancelRequest? || (stop == Pause && Resume !in es)
    requires CutCount(c, Step(c, s, stop), es) == 0
    ensures var r := Run(c, Step(c, s, stop), es).tree.nodes;
            n in r && r[n].attempts == s.tree.nodes[n].attempts
  {
    InvWellFormed(c, s);
    StepSound(c, s, stop);
    StoppedRun(c, Step(c, s, stop), es, Resume in es, n);
    AttemptsCount(c, Step(c, s, stop), es, n);
  }

  /** What the latest cancel request of the run said about completed work. */
  ghost function LastKeep(c: Config, s: State, es: seq<Event>): bool {
    if es == [] then true
    else
      var (m, e) := (Run(c, s, es[..|es| - 1]), es[|es| - 1]);
      if e.CancelRequest? && Enabled(c, m, e) then e.keep
      else if CutNow(c, m, e) then true
      else LastKeep(c, s, es[..|es| - 1])
  }

  lemma StepKeep(c: Config, s: State, e: Event)
    ensures Step(c, s, e).keepCompleted ==
              if e.CancelRequest? && Enabled(c, s, e) then e.keep
              else if CutNow(c, s, e) then true
              else s.keepCompleted
  {}

  lemma {:induction false} RunKeep(c: Config, s: State, es: seq<Event>)
    requires s.keepCompleted
    ensures Run(c, s, es).keepCompleted == LastKeep(c, s, es)
  {
    if es != [] {
      RunKeep(c, s, es[..|es| - 1]);
      StepKeep(c, Run(c, s, es[..|es| - 1]), es[|es| - 1]);
    }
  }

  /** The latest of pause and resume since the run was last cut was a pause. */
  ghost predicate PausedLast(c: Config, s: State, es: seq<Event>) {
    es != [] &&
    var (m, e) := (Run(c, s, es[..|es| - 1]), es[|es| - 1]);
    if (e == Pause || e == Resume) && Enabled(c, m, e) then e == Pause
    else !CutNow(c, m, e) && PausedLast(c, s, es[..|es| - 1])
  }

  /** A cancel request was made since the run was last cut. */
  ghost predicate CancelAsked(c: Config, s: State, es: seq<Event>) {
    es != [] &&
    var (m, e) := (Run(c, s, es[..|es| - 1]), es[|es| - 1]);
    (e.CancelRequest? && Enabled(c, m, e)) || (!CutNow(c, m, e) && CancelAsked(c, s, es[..|es| - 1]))
  }

  lemma StepSignals(c: Config, s: State, e: Event)
    ensures Step(c, s, e).paused <==>
              if (e == Pause || e == Resume) && Enabled(c, s, e) then e == Pause else !CutNow(c, s, e) && s.paused
    ensures Step(c, s, e).cancelRequested <==>
              (e.CancelRequest? && Enabled(c, s, e)) || (!CutNow(c, s, e) && s.cancelRequested)
  {}

  /** In every run the job is paused, and asked to cancel, exactly by the signals of the
      run it is in. */
  lemma {:induction false} RunSignals(c: Config, s: State, es: seq<Event>)
    requires !s.paused && !s.cancelRequested
    ensures Run(c, s, es).paused <==> PausedLast(c, s, es)
    ensures Run(c, s, es).cancelRequested <==> CancelAsked(c, s, es)
  {
    if es != [] {
      RunSignals(c, s, es[..|es| - 1]);
      StepSignals(c, Run(c, s, es[..|es| - 1]), es[|es| - 1]);
    }
  }

  /** The status a cancellation leaves, from the status before and what the node's task
      brought with it. */
  function StatusAfterCancel(st: Status, keep: bool): Status {
    match st
    case Pending => Cancelled
    case Ready => Cancelled
    case Retrying => Cancelled
    case Running => if keep then Running else Cancelled
    case Interrupted => if keep then Interrupted else Cancelled
    case _ => st
  }

  /** In every run a cancellation closes unfinished nodes, interrupts running ones, and
      cancels those too when the latest request does not keep them; a completion that
      arrives with it stays with its result. */
  lemma CancelCloses(c: Config, s: State, es: seq<Event>, late: map<Id, Outcome>, n: Id)
    requires Inv(c, s) && s.keepCompleted
    requires var m := Run(c, s, es); m.phase != Done && Enabled(c, m, CancelStop(late)) && n in m.tree.nodes
    ensures var m, keep := Run(c, s, es), LastKeep(c, s, es);
            var r, node := Step(c, m, CancelStop(late)), m.tree.nodes[n];
            && r.phase == Done && r.tree.job == JobCancelled && n in r.tree.nodes
            && r.tree.nodes[n].status ==
                 (if n !in m.running then StatusAfterCancel(node.status, keep)
                  else if n in late && late[n].status == Completed then Completed
                  else if n in late && m.phase == Top then StatusAfterCancel(late[n].status, keep)
                  else StatusAfterCancel(Interrupted, keep))
            && (n !in m.running ==> r.tree.nodes[n] == node.(status := r.tree.nodes[n].status))
            && (n in m.running && n in late ==> r.tree.nodes[n].result == late[n].result)
  {
    var m := Run(c, s, es);
    RunInv(c, s, es);
    RunKeep(c, s, es);
    assert Step(c, m, CancelStop(late)).tree.nodes[n] == CancelledAt(c, m, late, n);
    CancelledStatus(c, m.tree.nodes[n], if n in late then Some(late[n]) else None, m.phase.Waiting?, m.keepCompleted);
  }

  lemma CancelledStatus(c: Config, n: Node, late: Option<Outcome>, overriding: bool, keep: bool)
    ensures CancelledNode(n, keep) == n.(status := StatusAfterCancel(n.status, keep))
    ensures var r := CancelledNode(StoppedNode(c, n, late, overriding), keep);
            && r.status ==
                 (if late.Some? && late.value.status == Completed then Completed
                  else if late.Some? && !overriding then StatusAfterCancel(late.value.status, keep)
                  else StatusAfterCancel(Interrupted, keep))
            && (late.Some? ==> r.result == late.value.result)
  {}

  /** A cancel request is carried out as soon as the coroutine looks: while it waits for a
      task, and at the loop head when work is left; it leaves the loop otherwise exactly
      when nothing is left. */
  lemma CancelIsDue(c: Config, s: State, hasResult: bool, failed: bool)
    requires Inv(c, s) && (s.phase == Waiting || s.phase == Top)
    ensures Enabled(c, s, CancelStop(map[])) <==>
              && s.cancelRequested
              && (s.phase == Top ==> s.running != [] || exists n :: n in s.tree.nodes && !Terminal(s.tree.nodes[n].status))
    ensures Enabled(c, s, Exit(hasResult, failed)) <==>
              && s.phase == Top && s.running == []
              && forall n :: n in s.tree.nodes ==> Terminal(s.tree.nodes[n].status)
  {
    InvWellFormed(c, s);
    if s.running == [] { WorkLeft(s); }
  }

  lemma WorkLeft(m: State)
    requires Partitioned(m.tree, m.running) && m.running == []
    ensures m.tree.pending != {} <==> exists n :: n in m.tree.nodes && !Terminal(m.tree.nodes[n].status)
  {
    if n :| n in m.tree.pending { assert Placed(m.tree, m.running, {}, n); }
    if n :| n in m.tree.nodes && !Terminal(m.tree.nodes[n].status) { assert Placed(m.tree, m.running, {}, n); }
  }

  // ----- Plans and cuts ------------------------------------------------------------------------

  /** Exactly when a plan with new nodes can be mounted. */
  lemma MountsIff(c: Config, s: State, extra: map<Id, Node>, count: int)
    requires Inv(c, s) && s.phase == Collected && LegalReplacement(s.tree, s.spec, extra)
    ensures Enabled(c, s, Mount(extra, count)) <==>
              && s.running == []
              && s.replanCount < c.maxReplans
              && (exists n :: n in s.tree.nodes && s.tree.nodes[n].recovery == Some(true)
                              && (s.tree.nodes[n].status == Failed || s.tree.nodes[n].status == Escalated))
              && (forall n :: n in s.spec ==> !s.spec[n].approval && !s.spec[n].effectful)
  {
    InvWellFormed(c, s);
    forall n ensures n in ReplanCandidates(s.tree.nodes) <==>
                       n in s.tree.nodes && s.tree.nodes[n].recovery == Some(true)
                       && (s.tree.nodes[n].status == Failed || s.tree.nodes[n].status == Escalated) {}
  }

  /** Mounting closes what is unfinished or failed as skipped, keeps what completed, adds
      the new nodes as they are declared, and leaves nothing else to do. */
  lemma MountCloses(c: Config, s: State, extra: map<Id, Node>, count: int, n: Id)
    requires Inv(c, s) && Enabled(c, s, Mount(extra, count))
    ensures var r := Step(c, s, Mount(extra, count));
            && r.tree.nodes.Keys == s.tree.nodes.Keys + extra.Keys
            && r.tree.pending == extra.Keys && r.tree.completed == s.tree.completed
            && r.spec == s.spec + extra && r.replanCount == count && r.phase == Top
            && (n in extra ==> r.tree.nodes[n] == extra[n])
            && (n in s.tree.nodes ==>
                  r.tree.nodes[n] ==
                    if s.tree.nodes[n].status in {Completed, Cancelled, Interrupted, Skipped} then s.tree.nodes[n]
                    else s.tree.nodes[n].(status := Skipped))
  {
    MountPending(s.tree, extra);
  }

  lemma NodeAfterCut(c: Config, s: State, n: Id)
    requires FromSpec(s) && SpecPlain(s) && n in s.tree.nodes
    ensures n in s.spec && n in CutState(s).tree.nodes
    ensures var node := s.tree.nodes[n];
            CutState(s).tree.nodes[n] ==
              s.spec[n].(status := node.status, attempts := node.attempts, recovery := node.recovery,
                         resultRef := node.resultRef,
                         result := if node.status == Completed then None else node.result)
  {
    assert n in s.spec && Fresh(s.spec[n]);
    assert CompactAll(s.tree.nodes)[n] == Compact(s.tree.nodes[n]);
  }

  /** A cut keeps of every node its declaration and its run state, drops the result bodies
      of completed nodes, their review rounds and waiting flags, and forgets every signal. */
  lemma CutForgets(c: Config, s: State, n: Id)
    requires Sound(c, s) && Enabled(c, s, Cut) && n in s.tree.nodes
    ensures var r, node := Step(c, s, Cut), s.tree.nodes[n];
            && n in r.tree.nodes && n in s.spec
            && r.tree.nodes[n] ==
                 s.spec[n].(status := node.status, attempts := node.attempts, recovery := node.recovery,
                            resultRef := node.resultRef,
                            result := if node.status == Completed then None else node.result)
    ensures var r := Step(c, s, Cut);
            && r.tree.job == s.tree.job && r.tree.sinceContinue == 0 && r.replanCount == s.replanCount && r.spec == s.spec
            && !r.paused && !r.cancelRequested && r.approvals == map[] && r.running == [] && r.phase == Top
  {
    NodeAfterCut(c, s, n);
    assert Step(c, s, Cut) == CutState(s);
  }

  // ----- When a cut is due -----------------------------------------------------------------------

  function CompletedIn(ids: seq<Id>, done: map<Id, Outcome>): nat {
    if ids == [] then 0
    else
      var id := ids[|ids| - 1];
      CompletedIn(ids[..|ids| - 1], done) + if id in done && done[id].status == Completed then 1 else 0
  }

  /** Completions collected since the run was entered. */
  ghost function Completions(c: Config, s: State, es: seq<Event>): nat {
    if es == [] then 0
    else
      var (m, e) := (Run(c, s, es[..|es| - 1]), es[|es| - 1]);
      if CutNow(c, m, e) then 0
      else
        Completions(c, s, es[..|es| - 1]) + if e.Collect? && Enabled(c, m, e) then CompletedIn(m.running, e.done) else 0
  }

  lemma {:induction false} PickCompleted(ids: seq<Id>, done: map<Id, Outcome>)
    ensures CompletedIn(Pick(ids, done.Keys), done) == CompletedIn(ids, done)
  {
    if ids != [] {
      var rest, id := Pick(ids[..|ids| - 1], done.Keys), ids[|ids| - 1];
      PickCompleted(ids[..|ids| - 1], done);
      assert (rest + [id])[..|rest|] == rest;
    }
  }

  lemma {:induction false} SettleAllSince(c: Config, t: Tree, finished: seq<Id>, done: map<Id, Outcome>)
    requires Within(finished, t.nodes.Keys) && Within(finished, done.Keys)
    ensures SettleAll(c, t, finished, done).sinceContinue == t.sinceContinue + CompletedIn(finished, done)
  {
    if finished != [] { SettleAllSince(c, t, finished[..|finished| - 1], done); }
  }

  lemma {:induction false} ReopenWritersSince(t: Tree, ws: seq<Id>, text: string)
    requires Within(ws, t.nodes.Keys)
    ensures ReopenWriters(t, ws, text).sinceContinue == t.sinceContinue
  {
    if ws != [] { ReopenWritersSince(t, ws[..|ws| - 1], text); }
  }

  lemma {:induction false} ReviewAllSince(t: Tree, finished: seq<Id>, targets: map<Id, set<Id>>)
    requires Within(finished, t.nodes.Keys)
    ensures ReviewAll(t, finished, targets).sinceContinue == t.sinceContinue
  {
    if finished != [] {
      var k := |finished| - 1;
      ReviewAllSince(t, finished[..k], targets);
      var m := ReviewAll(t, finished[..k], targets);
      match Rejection(m.nodes[finished[k]])
      case None =>
      case Some(text) => ReopenWritersSince(m, RejectedWriters(m.nodes, finished[k], targets), text);
    }
  }

  lemma CollectSince(c: Config, s: State, done: map<Id, Outcome>, targets: map<Id, set<Id>>)
    requires WellFormed(s)
    ensures CollectState(c, s, done, targets).tree.sinceContinue == s.tree.sinceContinue + CompletedIn(s.running, done)
  {
    PickCompleted(s.running, done);
    SettleAllSince(c, s.tree, Finished(s, done), done);
    ReviewAllSince(SettleAll(c, s.tree, Finished(s, done), done), Finished(s, done), targets);
  }

  lemma StepSince(c: Config, s: State, e: Event)
    requires !e.Collect? && !e.Cut?
    ensures Step(c, s, e).tree.sinceContinue == s.tree.sinceContinue
  {}

  lemma {:induction false} RunSince(c: Config, s: State, es: seq<Event>)
    requires s.tree.sinceContinue == 0
    ensures Run(c, s, es).tree.sinceContinue == Completions(c, s, es)
  {
    if es != [] {
      var front, e := es[..|es| - 1], es[|es| - 1];
      var m := Run(c, s, front);
      RunSince(c, s, front);
      if e.Collect? {
        if Enabled(c, m, e) { CollectSince(c, m, e.done, e.targets); }
      } else if !e.Cut? {
        StepSince(c, m, e);
      }
    }
  }

  /** In every run, once a round is collected: the run is cut, and cannot go on otherwise
      than by a new plan, exactly when the DAG is long, nothing runs, work is left, enough
      completions were collected since its entry, and every completed body has a
      reference. */
  lemma CutDueIff(c: Config, s: State, es: seq<Event>)
    requires Inv(c, s) && s.tree.sinceContinue == 0 && Run(c, s, es).phase == Collected
    ensures var m := Run(c, s, es);
            && (Enabled(c, m, Cut) <==>
                  && c.longDag && m.running == []
                  && (exists n :: n in m.tree.nodes && !Terminal(m.tree.nodes[n].status))
                  && Completions(c, s, es) >= c.continueAfter
                  && (forall n :: n in m.tree.nodes && m.tree.nodes[n].status == Completed && m.tree.nodes[n].result.Some? ==>
                        m.tree.nodes[n].resultRef.Some?))
            && (Enabled(c, m, Proceed) <==> !Enabled(c, m, Cut))
  {
    RunInv(c, s, es);
    RunSince(c, s, es);
    DueIff(c, Run(c, s, es));
  }

  lemma DueIff(c: Config, m: State)
    requires Inv(c, m) && m.phase == Collected
    ensures Enabled(c, m, Cut) <==>
              && c.longDag && m.running == []
              && (exists n :: n in m.tree.nodes && !Terminal(m.tree.nodes[n].status))
              && m.tree.sinceContinue >= c.continueAfter
              && (forall n :: n in m.tree.nodes && m.tree.nodes[n].status == Completed && m.tree.nodes[n].result.Some? ==>
                    m.tree.nodes[n].resultRef.Some?)
    ensures Enabled(c, m, Proceed) <==> !Enabled(c, m, Cut)
  {
    InvWellFormed(c, m);
    if m.running == [] { WorkLeft(m); }
  }

  // ----- A job without nodes -----------------------------------------------------------------------

  /** A job without nodes ends at once, COMPLETED with an answer and FAILED without. */
  lemma EmptyJobEnds(c: Config, spec: map<Id, Node>, hasResult: bool, failed: bool)
    ensures var s := Begin(map[], spec, JobRunning, 0);
            && Enabled(c, s, Exit(hasResult, failed))
            && Step(c, s, Exit(hasResult, failed)).phase == Done
            && Step(c, s, Exit(hasResult, failed)).tree.job == if hasResult then JobCompleted else JobFailed
  {
    var s := Begin(map[], spec, JobRunning, 0);
    assert s.tree.nodes == map[] && s.tree.pending == {};
    assert FinalStatus(map[], JobRunning, hasResult) == FinalStatus(map[], JobFailed, hasResult);
  }
}
