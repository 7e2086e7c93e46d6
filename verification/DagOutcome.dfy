/** How a run ends: when WAITING_RESOURCES is honest, what a normal exit and a
    cancellation leave behind, and why a replanned job never completes. */
module DagOutcome {
  import opened Prelude
  import opened DagModel
  import opened DagInvariants
  import opened DagClosure

  /** WAITING_RESOURCES is shown only while some pending node is really waiting. */
  ghost predicate Honest(t: Tree) {
    t.job == JobWaitingResources ==> exists n :: n in t.pending && n in t.nodes && t.nodes[n].waiting
  }

  predicate Live(j: JobStatus) { j.JobRunning? || j.JobWaitingApproval? || j.JobWaitingResources? }

  lemma {:induction false} SettleAllHonest(c: Config, t: Tree, finished: seq<Id>, done: map<Id, Outcome>)
    requires Within(finished, t.nodes.Keys) && Within(finished, done.Keys)
    requires Honest(t) && Live(t.job)
    ensures Honest(SettleAll(c, t, finished, done)) && Live(SettleAll(c, t, finished, done).job)
  {
    if finished != [] {
      var k := |finished| - 1;
      SettleAllHonest(c, t, finished[..k], done);
      SettleHonest(c, SettleAll(c, t, finished[..k], done), finished[k], done[finished[k]]);
    }
  }

  lemma SettleHonest(c: Config, t: Tree, id: Id, o: Outcome)
    requires id in t.nodes && Honest(t)
    ensures Honest(Settle(c, t, id, o))
  {
    var r := Settle(c, t, id, o);
    if o.status == WaitingResources {
      assert id in r.pending && r.nodes[id].waiting;
    } else if t.job == JobWaitingResources {
      var n :| n in t.pending && n in t.nodes && t.nodes[n].waiting;
      assert n in r.pending && n in r.nodes && r.nodes[n].waiting;
    }
  }

  /** The second tree shows every wait the first one shows. */
  ghost predicate KeepsWaits(t: Tree, r: Tree) {
    && r.job == t.job
    && t.pending <= r.pending
    && forall n :: n in t.nodes ==> n in r.nodes && r.nodes[n].waiting == t.nodes[n].waiting
  }

  lemma {:induction false} ReopenWritersWaits(t: Tree, ws: seq<Id>, text: string)
    requires Within(ws, t.nodes.Keys)
    ensures KeepsWaits(t, ReopenWriters(t, ws, text))
  {
    if ws != [] {
      var k := |ws| - 1;
      ReopenWritersWaits(t, ws[..k], text);
      ReopenWriterWaits(ReopenWriters(t, ws[..k], text), ws[k], text);
    }
  }

  lemma ReopenWriterWaits(t: Tree, w: Id, text: string)
    requires w in t.nodes
    ensures KeepsWaits(t, ReopenWriter(t, w, text))
  {
  }

  lemma {:induction false} ReviewAllWaits(t: Tree, finished: seq<Id>, targets: map<Id, set<Id>>)
    requires Within(finished, t.nodes.Keys)
    ensures KeepsWaits(t, ReviewAll(t, finished, targets))
  {
    if finished != [] {
      var k := |finished| - 1;
      ReviewAllWaits(t, finished[..k], targets);
      var m := ReviewAll(t, finished[..k], targets);
      match Rejection(m.nodes[finished[k]])
      case None =>
      case Some(text) => ReopenWritersWaits(m, RejectedWriters(m.nodes, finished[k], targets), text);
    }
  }

  lemma CollectHonest(c: Config, s: State, done: map<Id, Outcome>, targets: map<Id, set<Id>>)
    requires WellFormed(s) && Honest(s.tree) && Live(s.tree.job)
    ensures Honest(CollectState(c, s, done, targets).tree) && Live(CollectState(c, s, done, targets).tree.job)
  {
    var finished := Finished(s, done);
    var m := SettleAll(c, s.tree, finished, done);
    SettleAllHonest(c, s.tree, finished, done);
    ReviewAllWaits(m, finished, targets);
    if m.job == JobWaitingResources {
      var n :| n in m.pending && n in m.nodes && m.nodes[n].waiting;
      assert n in CollectState(c, s, done, targets).tree.pending;
    }
  }

  lemma GateHonest(c: Config, s: State)
    requires Inv(c, s) && WellFormed(s) && s.phase.Gating? && s.phase.rest != []
    requires Honest(s.tree) && Live(s.tree.job)
    ensures Honest(GateState(s).tree) && Live(GateState(s).tree.job)
  {
    var id := s.phase.rest[0];
    if s.tree.nodes[id].approval {
      assert GateTree(s, id).job != JobWaitingResources;
    }
  }

  lemma LaunchHonest(c: Config, s: State)
    requires Inv(c, s) && s.phase.Gating? && s.phase.rest == [] && Honest(s.tree)
    ensures Honest(LaunchState(s).tree)
  {
    forall m | m in s.phase.runnable ensures m in s.tree.nodes && !s.tree.nodes[m].waiting {
      assert m in s.phase.runnable + s.phase.rest;
      assert Startable(s.tree, m);
    }
    if s.tree.job == JobWaitingResources {
      var n :| n in s.tree.pending && n in s.tree.nodes && s.tree.nodes[n].waiting;
      assert n in LaunchState(s).tree.pending && LaunchState(s).tree.nodes[n].waiting;
    }
  }

  lemma StepHonest(c: Config, s: State, e: Event)
    requires Inv(c, s) && !e.Mount? && !e.Cut?
    requires s.phase != Done ==> Honest(s.tree) && Live(s.tree.job)
    ensures Step(c, s, e).phase != Done ==> Honest(Step(c, s, e).tree) && Live(Step(c, s, e).tree.job)
  {
    if Enabled(c, s, e) && s.phase != Done {
      match e
      case Gate => GateHonest(c, s);
      case Launch => LaunchHonest(c, s);
      case Collect(done, targets) => CollectHonest(c, s, done, targets);
      case _ =>
    }
  }

  /** A replacement plan mounted over a waiting job leaves the job claiming to
      wait for resources that nothing waits for, and only then. */
  lemma MountHonestIff(c: Config, s: State, extra: map<Id, Node>, count: int)
    requires Inv(c, s) && Enabled(c, s, Mount(extra, count))
    ensures Honest(Step(c, s, Mount(extra, count)).tree) <==> s.tree.job != JobWaitingResources
  {
    MountPending(s.tree, extra);
    forall n | n in extra ensures !MountTree(s.tree, extra).nodes[n].waiting {
      assert Fresh(extra[n]);
    }
  }

  /** A cut does the same: the job status is carried over, the waiting flags are not. */
  lemma CutHonestIff(c: Config, s: State)
    requires Sound(c, s) && Enabled(c, s, Cut)
    ensures Honest(Step(c, s, Cut).tree) <==> s.tree.job != JobWaitingResources
  {
    forall n | n in s.spec ensures !CutState(s).tree.nodes[n].waiting {
      assert Fresh(s.spec[n]);
    }
  }

  /** The step mounts a plan or takes a cut while the job shows WAITING_RESOURCES. */
  ghost predicate Crosses(c: Config, s: State, e: Event) {
    Enabled(c, s, e) && (e.Mount? || e.Cut?) && s.tree.job == JobWaitingResources
  }

  ghost predicate BoundariesQuiet(c: Config, s: State, es: seq<Event>) {
    es == [] ||
    (BoundariesQuiet(c, s, es[..|es| - 1]) && !Crosses(c, Run(c, s, es[..|es| - 1]), es[|es| - 1]))
  }

  /** A boundary leads to an honest state exactly when it is quiet. */
  lemma BoundaryHonestIff(c: Config, s: State, e: Event)
    requires Sound(c, s) && Enabled(c, s, e) && (e.Mount? || e.Cut?)
    ensures Step(c, s, e).phase != Done
    ensures Honest(Step(c, s, e).tree) <==> !Crosses(c, s, e)
  {
    if e.Mount? { MountHonestIff(c, s, e.extra, e.newReplanCount); } else { CutHonestIff(c, s); }
  }

  ghost predicate HonestNow(s: State) { s.phase != Done ==> Honest(s.tree) }

  /** WAITING_RESOURCES is backed by a waiting node at every point of the run. */
  ghost predicate AlwaysHonest(c: Config, s: State, es: seq<Event>) {
    HonestNow(Run(c, s, es)) && (es == [] || AlwaysHonest(c, s, es[..|es| - 1]))
  }

  lemma RunLive(c: Config, s: State, es: seq<Event>)
    requires Sound(c, s) && s.phase != Done && Live(s.tree.job)
    ensures Run(c, s, es).phase != Done ==> Live(Run(c, s, es).tree.job)
  {
    RunNotFalselyCompleted(c, s, es);
  }

  lemma StepHonestIff(c: Config, s: State, e: Event)
    requires Sound(c, s) && HonestNow(s) && (s.phase != Done ==> Live(s.tree.job))
    ensures HonestNow(Step(c, s, e)) <==> !Crosses(c, s, e)
  {
    if Enabled(c, s, e) && (e.Mount? || e.Cut?) {
      BoundaryHonestIff(c, s, e);
    } else if !e.Mount? && !e.Cut? {
      StepHonest(c, s, e);
    }
  }

  /** It is so if and only if no plan is mounted and no cut is taken while the job shows
      WAITING_RESOURCES. */
  lemma {:induction false} AlwaysHonestIff(c: Config, s: State, es: seq<Event>)
    requires Sound(c, s) && s.phase != Done && Honest(s.tree) && Live(s.tree.job)
    ensures AlwaysHonest(c, s, es) <==> BoundariesQuiet(c, s, es)
  {
    if es != [] {
      var before := es[..|es| - 1];
      AlwaysHonestIff(c, s, before);
      RunSound(c, s, before);
      RunLive(c, s, before);
      if AlwaysHonest(c, s, before) { StepHonestIff(c, Run(c, s, before), es[|es| - 1]); }
    }
  }

  // ----- Normal exits ------------------------------------------------------

  ghost predicate AllSettled(nodes: map<Id, Node>) {
    forall n :: n in nodes ==> Terminal(nodes[n].status)
  }

  ghost predicate AllCompleted(nodes: map<Id, Node>) {
    forall n :: n in nodes ==> nodes[n].status == Completed
  }

  /** The verdict a normal exit must give for a non-empty settled tree. */
  ghost predicate FairVerdict(nodes: map<Id, Node>, job: JobStatus) {
    && (job == JobCompleted <==> AllCompleted(nodes))
    && (job == JobFailed <==> exists n :: n in nodes && nodes[n].status in {Failed, Skipped, Escalated})
    && job in {JobCompleted, JobFailed, JobRunning}
  }

  predicate Leaves(e: Event) { e.Exit? || e.SkipRest? }

  /** A normal exit settles every node. */
  lemma ExitSettles(c: Config, s: State, e: Event)
    requires Inv(c, s) && Leaves(e) && Enabled(c, s, e)
    ensures Step(c, s, e).phase == Done && AllSettled(Step(c, s, e).tree.nodes)
  {
    var r := Step(c, s, e).tree.nodes;
    forall n | n in r ensures Terminal(r[n].status) {
      assert Placed(s.tree, s.running, {}, n);
    }
  }

  /** It judges the tree fairly if and only if WAITING_RESOURCES was honest or the answer
      synthesis failed. */
  lemma NormalExit(c: Config, s: State, e: Event)
    requires Inv(c, s) && Leaves(e) && Enabled(c, s, e) && s.tree.nodes != map[] && Live(s.tree.job)
    ensures Step(c, s, e).phase == Done && AllSettled(Step(c, s, e).tree.nodes)
    ensures FairVerdict(Step(c, s, e).tree.nodes, Step(c, s, e).tree.job) <==>
              Honest(s.tree) || (e.Exit? && e.synthesisFailed)
  {
    ExitSettles(c, s, e);
    NobodyWaits(c, s, e);
    if e.SkipRest? {
      ExitVerdict(SkipAll(s.tree.nodes, s.tree.pending), s.tree.job, false);
    } else {
      ExitVerdict(s.tree.nodes, if e.synthesisFailed then JobFailed else s.tree.job, e.hasResult);
    }
  }

  /** At a normal exit nothing waits, so the status is honest only by not showing a wait. */
  lemma NobodyWaits(c: Config, s: State, e: Event)
    requires Leaves(e) && Enabled(c, s, e)
    ensures Honest(s.tree) <==> s.tree.job != JobWaitingResources
  {
    if Honest(s.tree) && e.SkipRest? { HonestNoWaiters(s); }
  }

  lemma ExitVerdict(nodes: map<Id, Node>, job: JobStatus, hasResult: bool)
    requires nodes != map[] && (Live(job) || job == JobFailed)
    ensures FairVerdict(nodes, FinalStatus(nodes, job, hasResult)) <==> job != JobWaitingResources
  {
    if job != JobWaitingResources { LiveVerdict(nodes, job, hasResult); }
  }

  lemma HonestNoWaiters(s: State)
    requires WellFormed(s) && Honest(s.tree) && Waiters(s) == {}
    ensures s.tree.job != JobWaitingResources
  {
    assert forall n :: n in s.tree.pending && s.tree.nodes[n].waiting ==> n in Waiters(s);
  }

  lemma LiveVerdict(nodes: map<Id, Node>, job: JobStatus, hasResult: bool)
    requires nodes != map[] && !Protected(job)
    ensures FairVerdict(nodes, FinalStatus(nodes, job, hasResult))
  {
    var n :| n in nodes;
  }

  /** A failed answer synthesis makes a difference to the job exactly when the job shows
      WAITING_RESOURCES: only then the failure replaces a status the verdict would keep. */
  lemma SynthesisIgnoredIff(c: Config, s: State, hasResult: bool)
    requires Enabled(c, s, Exit(hasResult, true)) && Live(s.tree.job)
    ensures Step(c, s, Exit(hasResult, true)) == Step(c, s, Exit(hasResult, false)) <==>
            s.tree.job != JobWaitingResources
    ensures s.tree.job == JobWaitingResources && s.tree.nodes != map[] ==>
              FairVerdict(s.tree.nodes, Step(c, s, Exit(hasResult, true)).tree.job)
  {
    if s.tree.nodes != map[] { LiveVerdict(s.tree.nodes, JobFailed, hasResult); }
  }

  /** A dishonest status survives a normal exit, whatever the nodes did. */
  lemma DishonestExit(c: Config, s: State, hasResult: bool)
    requires Inv(c, s) && Enabled(c, s, Exit(hasResult, false)) && s.tree.job == JobWaitingResources
    ensures !Honest(s.tree)
    ensures Step(c, s, Exit(hasResult, false)).tree.job == JobWaitingResources
  {
  }

  lemma {:induction false} RunNonEmpty(c: Config, s: State, es: seq<Event>)
    requires Sound(c, s) && s.tree.nodes != map[]
    ensures Run(c, s, es).tree.nodes != map[]
  {
    var n :| n in s.tree.nodes;
    RunKeepsNodes(c, s, es, n);
  }

  lemma OnlyLeavingEnds(c: Config, s: State, e: Event)
    requires s.phase != Done && !(Enabled(c, s, e) && Leaves(e))
    ensures Step(c, s, e).phase == Done ==> Step(c, s, e).tree.job == JobCancelled
  {
  }

  // ----- A lost node, or a mounted plan, rules completion out ----------------

  ghost predicate NotFalselyCompleted(s: State) {
    if s.phase == Done then s.tree.job == JobCompleted ==> AllCompleted(s.tree.nodes) else Live(s.tree.job)
  }

  lemma {:induction false} RunNotFalselyCompleted(c: Config, s: State, es: seq<Event>)
    requires Sound(c, s) && NotFalselyCompleted(s)
    ensures NotFalselyCompleted(Run(c, s, es))
  {
    if es != [] {
      RunNotFalselyCompleted(c, s, es[..|es| - 1]);
      RunSound(c, s, es[..|es| - 1]);
      StepNotFalselyCompleted(c, Run(c, s, es[..|es| - 1]), es[|es| - 1]);
    }
  }

  lemma {:induction false} SettleAllLive(c: Config, t: Tree, finished: seq<Id>, done: map<Id, Outcome>)
    requires Within(finished, t.nodes.Keys) && Within(finished, done.Keys) && Live(t.job)
    ensures Live(SettleAll(c, t, finished, done).job)
  {
    if finished != [] {
      SettleAllLive(c, t, finished[..|finished| - 1], done);
    }
  }

  lemma CollectLive(c: Config, s: State, done: map<Id, Outcome>, targets: map<Id, set<Id>>)
    requires WellFormed(s) && Live(s.tree.job)
    ensures Live(CollectState(c, s, done, targets).tree.job)
  {
    var finished := Finished(s, done);
    SettleAllLive(c, s.tree, finished, done);
    ReviewAllWaits(SettleAll(c, s.tree, finished, done), finished, targets);
  }

  lemma CompletedMeansAll(nodes: map<Id, Node>, job: JobStatus, hasResult: bool)
    requires Live(job) || job == JobFailed
    ensures FinalStatus(nodes, job, hasResult) == JobCompleted ==> AllCompleted(nodes)
  {
  }

  lemma StepNotFalselyCompleted(c: Config, s: State, e: Event)
    requires NotFalselyCompleted(s)
    ensures NotFalselyCompleted(Step(c, s, e))
  {
    if s.phase == Done {
      DoneStays(c, s, e);
    } else if Enabled(c, s, e) {
      match e
      case Collect(done, targets) => CollectLive(c, s, done, targets);
      case Exit(hasResult, failed) =>
        CompletedMeansAll(s.tree.nodes, if failed then JobFailed else s.tree.job, hasResult);
      case SkipRest => CompletedMeansAll(SkipAll(s.tree.nodes, s.tree.pending), s.tree.job, false);
      case _ => OnlyLeavingEnds(c, s, e);
    }
  }

  /** A node that settled without completing keeps the job from ever completing. */
  lemma LostNeverCompletes(c: Config, s: State, es: seq<Event>, n: Id)
    requires Sound(c, s) && s.phase != Done && Live(s.tree.job) && Lost(s.tree.nodes, n)
    ensures Run(c, s, es).tree.job != JobCompleted
  {
    RunLost(c, s, es, n);
    RunNotFalselyCompleted(c, s, es);
  }

  /** Mounting a replacement plan marks the failed node it replaces as skipped, and
      that node stays in the tree: a replanned job never ends COMPLETED, however
      well the replacement nodes do, not even across cuts. */
  lemma ReplannedNeverCompletes(c: Config, s: State, extra: map<Id, Node>, count: int, es: seq<Event>)
    requires Sound(c, s) && s.phase != Done && Live(s.tree.job)
    requires Enabled(c, s, Mount(extra, count))
    ensures Run(c, Step(c, s, Mount(extra, count)), es).tree.job != JobCompleted
  {
    var n :| n in ReplanCandidates(s.tree.nodes);
    MountLoses(s.tree, s.spec, extra, n);
    StepSound(c, s, Mount(extra, count));
    LostNeverCompletes(c, Step(c, s, Mount(extra, count)), es, n);
  }

  lemma MountLoses(t: Tree, spec: map<Id, Node>, extra: map<Id, Node>, n: Id)
    requires n in ReplanCandidates(t.nodes) && LegalReplacement(t, spec, extra)
    ensures Lost(MountTree(t, extra).nodes, n)
  {
    MountedStatus(t, extra, n);
  }

  // ----- Cancellation ------------------------------------------------------

  /** Exactly which nodes a cancellation leaves without a terminal status: nodes
      that never got a status, and a task that reported a resource wait too late. */
  lemma CancelLeavesUnfinishedIff(c: Config, s: State, late: map<Id, Outcome>, n: Id)
    requires Inv(c, s) && s.phase != Done && Enabled(c, s, CancelStop(late)) && n in s.tree.nodes
    ensures !Terminal(Step(c, s, CancelStop(late)).tree.nodes[n].status) <==>
            if n in s.running then s.phase.Top? && n in late && late[n].status == WaitingResources
            else
              && n in s.tree.pending
              && s.tree.nodes[n].status !in {Pending, Ready, Retrying}
              && (s.tree.nodes[n].status == Running ==> s.keepCompleted)
  {
    assert Placed(s.tree, s.running, {}, n);
    assert Step(c, s, CancelStop(late)).tree.nodes[n] == CancelledAt(c, s, late, n);
    if n in s.running {
      var o := if n in late then Some(late[n]) else None;
      StoppedByCancel(c, s.tree.nodes[n], o, s.phase.Waiting?, s.keepCompleted);
    } else {
      LeftByCancel(s.tree.nodes[n], s.keepCompleted);
    }
  }

  lemma StoppedByCancel(c: Config, n: Node, late: Option<Outcome>, overriding: bool, keep: bool)
    requires late.Some? ==> LegalOutcome(late.value)
    ensures !Terminal(CancelledNode(StoppedNode(c, n, late, overriding), keep).status) <==>
              !overriding && late.Some? && late.value.status == WaitingResources
  {}

  lemma LeftByCancel(n: Node, keep: bool)
    ensures !Terminal(CancelledNode(n, keep).status) <==>
            !Terminal(n.status) && n.status !in {Pending, Ready, Retrying} && (n.status == Running ==> keep)
  {
  }

  /** Cancellation never touches a completed node, and keeps a completion that
      arrives together with it. */
  lemma CancelKeepsCompleted(c: Config, s: State, late: map<Id, Outcome>, n: Id)
    requires Inv(c, s) && s.phase != Done && Enabled(c, s, CancelStop(late)) && n in s.tree.nodes
    ensures var r := Step(c, s, CancelStop(late));
            && r.phase == Done && r.tree.job == JobCancelled
            && (n in s.tree.completed ==> r.tree.nodes[n] == s.tree.nodes[n])
            && (n in late && late[n].status == Completed ==>
                  r.tree.nodes[n].status == Completed && r.tree.nodes[n].result == late[n].result)
            && (r.tree.nodes[n].status == Completed ==>
                  n in s.tree.completed || (n in late && late[n].status == Completed))
  {
    assert Placed(s.tree, s.running, {}, n);
    assert Step(c, s, CancelStop(late)).tree.nodes[n] == CancelledAt(c, s, late, n);
  }
}
