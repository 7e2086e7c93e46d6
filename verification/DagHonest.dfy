/** WAITING_RESOURCES over whole runs: exactly when the job shows a wait nobody is in, and
    exactly when it therefore ends with an unfair verdict. */
module DagHonest {
  import opened Prelude
  import opened DagModel
  import opened DagInvariants
  import opened DagNodes
  import opened DagClosure
  import opened DagReopen
  import opened DagOutcome

  // ----- Waiting flags ---------------------------------------------------------

  /** Neither a completed nor a running node carries the waiting flag. */
  ghost predicate FlagsPlaced(nodes: map<Id, Node>) {
    forall n :: n in nodes && nodes[n].waiting ==> nodes[n].status != Completed && nodes[n].status != Running
  }

  lemma SettledFlags(c: Config, s: State, done: map<Id, Outcome>)
    requires WellFormed(s) && Partitioned(s.tree, s.running) && LegalOutcomes(s, done) && FlagsPlaced(s.tree.nodes)
    ensures FlagsPlaced(SettleAll(c, s.tree, Finished(s, done), done).nodes)
  {
    var finished := Finished(s, done);
    var r := SettleAll(c, s.tree, finished, done).nodes;
    DropToLimbo(s, done);
    forall n | n in r && r[n].waiting ensures r[n].status != Completed && r[n].status != Running {
      SettleAllAt(c, s.tree, finished, done, n);
      assert Placed(s.tree, s.running, {}, n);
    }
  }

  lemma CollectFlags(c: Config, s: State, done: map<Id, Outcome>, targets: map<Id, set<Id>>)
    requires WellFormed(s) && Partitioned(s.tree, s.running) && LegalOutcomes(s, done) && FlagsPlaced(s.tree.nodes)
    ensures FlagsPlaced(CollectState(c, s, done, targets).tree.nodes)
  {
    var finished := Finished(s, done);
    var settled := SettleAll(c, s.tree, finished, done);
    SettledFlags(c, s, done);
    ReviewAllTo(settled, finished, targets);
    ReopenedFlags(settled, ReviewAll(settled, finished, targets), ReopenedBy(settled.nodes, finished, targets));
  }

  lemma ReopenedFlags(t: Tree, r: Tree, gone: set<Id>)
    requires ReopenedTo(t, r, gone) && FlagsPlaced(t.nodes)
    ensures FlagsPlaced(r.nodes)
  {
  }

  lemma ClearFlags(nodes: map<Id, Node>, ids: set<Id>)
    requires FlagsPlaced(nodes)
    ensures FlagsPlaced(ClearWaiting(nodes, ids))
  {
  }

  lemma GateFlags(c: Config, s: State)
    requires Inv(c, s) && WellFormed(s) && s.phase.Gating? && s.phase.rest != [] && FlagsPlaced(s.tree.nodes)
    ensures FlagsPlaced(GateState(s).tree.nodes)
  {
    assert s.phase.rest[0] in s.phase.runnable + s.phase.rest;
    assert Startable(s.tree, s.phase.rest[0]);
  }

  lemma LaunchFlags(c: Config, s: State)
    requires Inv(c, s) && s.phase.Gating? && FlagsPlaced(s.tree.nodes)
    ensures FlagsPlaced(LaunchState(s).tree.nodes)
  {
    forall n | n in s.phase.runnable ensures Startable(s.tree, n) {
      assert n in s.phase.runnable + s.phase.rest;
    }
  }

  lemma MountFlags(t: Tree, spec: map<Id, Node>, extra: map<Id, Node>)
    requires LegalReplacement(t, spec, extra) && FlagsPlaced(t.nodes)
    ensures FlagsPlaced(MountTree(t, extra).nodes)
  {
    var skipped := SkipAll(t.nodes, Superseded(t.nodes));
    forall n | n in MountTree(t, extra).nodes && n in extra ensures !MountTree(t, extra).nodes[n].waiting {
      assert Fresh(extra[n]);
    }
    assert forall n :: n in skipped && skipped[n].waiting ==> skipped[n].status != Completed && skipped[n].status != Running;
  }

  lemma CutFlags(c: Config, s: State)
    requires Sound(c, s)
    ensures FlagsPlaced(CutState(s).tree.nodes)
  {
    forall n | n in s.spec ensures !CutState(s).tree.nodes[n].waiting {
      assert Fresh(s.spec[n]);
    }
  }

  ghost predicate FlagsNow(s: State) { s.phase != Done ==> FlagsPlaced(s.tree.nodes) }

  lemma StepFlags(c: Config, s: State, e: Event)
    requires Sound(c, s) && FlagsNow(s)
    ensures FlagsNow(Step(c, s, e))
  {
    if Enabled(c, s, e) && s.phase != Done {
      match e
      case Gate => GateFlags(c, s);
      case Launch => LaunchFlags(c, s);
      case Collect(done, targets) => CollectFlags(c, s, done, targets);
      case Mount(extra, _) => MountFlags(s.tree, s.spec, extra);
      case Cut => CutFlags(c, s);
      case WaitForResources => ClearFlags(s.tree.nodes, Waiters(s));
      case _ => LeavesNodes(c, s, e);
    }
  }

  lemma LeavesNodes(c: Config, s: State, e: Event)
    requires Enabled(c, s, e) && s.phase != Done
    requires !e.Gate? && !e.Launch? && !e.Collect? && !e.Mount? && !e.Cut? && !e.WaitForResources?
    ensures Apply(c, s, e).phase == Done || Apply(c, s, e).tree.nodes == s.tree.nodes
  {
  }

  lemma {:induction false} RunFlags(c: Config, s: State, es: seq<Event>)
    requires Sound(c, s) && FlagsNow(s)
    ensures FlagsNow(Run(c, s, es))
  {
    if es != [] {
      RunFlags(c, s, es[..|es| - 1]);
      RunSound(c, s, es[..|es| - 1]);
      StepFlags(c, Run(c, s, es[..|es| - 1]), es[|es| - 1]);
    }
  }

  // ----- What ends a wait nobody is in --------------------------------------------

  predicate BringsWait(done: map<Id, Outcome>) { exists n :: n in done && done[n].status == WaitingResources }

  /** A new resource wait, or an approval gate that writes the job status. */
  ghost predicate Recovers(c: Config, s: State, e: Event) {
    Enabled(c, s, e) &&
    match e
    case Collect(done, _) => BringsWait(done)
    case Gate => s.tree.nodes[s.phase.rest[0]].approval
    case _ => false
  }

  /** Verdicts reopen completed nodes and the nodes that give them. */
  lemma {:induction false} SentBackKinds(nodes: map<Id, Node>, gone: set<Id>, ws: seq<Id>, n: Id)
    requires n in SentBackFrom(nodes, gone, ws) && n !in gone
    ensures n in nodes && nodes[n].status == Completed
  {
    if ws != [] {
      var before := SentBackFrom(nodes, gone, ws[..|ws| - 1]);
      if n in before { SentBackKinds(nodes, gone, ws[..|ws| - 1], n); }
    }
  }

  lemma {:induction false} ReopenedKinds(nodes: map<Id, Node>, finished: seq<Id>, targets: map<Id, set<Id>>, n: Id)
    requires Within(finished, nodes.Keys) && n in ReopenedBy(nodes, finished, targets)
    ensures n in finished || (n in nodes && nodes[n].status == Completed)
  {
    if finished != [] {
      var k := |finished| - 1;
      var before := ReopenedBy(nodes, finished[..k], targets);
      var id := finished[k];
      if n in before {
        ReopenedKinds(nodes, finished[..k], targets, n);
      } else if n != id {
        SentBackKinds(nodes, before, RejectedWriters(nodes, id, targets), n);
      }
    }
  }

  lemma {:induction false} SettleAllJob(c: Config, t: Tree, finished: seq<Id>, done: map<Id, Outcome>)
    requires Within(finished, t.nodes.Keys) && Within(finished, done.Keys) && !BringsWait(done)
    ensures SettleAll(c, t, finished, done).job == t.job
  {
    if finished != [] {
      SettleAllJob(c, t, finished[..|finished| - 1], done);
      assert finished[|finished| - 1] in done;
    }
  }

  lemma SettledIdle(c: Config, s: State, done: map<Id, Outcome>, n: Id)
    requires WellFormed(s) && Partitioned(s.tree, s.running) && LegalOutcomes(s, done) && FlagsPlaced(s.tree.nodes)
    requires !Honest(s.tree) && !BringsWait(done) && n in s.tree.nodes
    ensures var t := SettleAll(c, s.tree, Finished(s, done), done);
            n in t.pending || n in Finished(s, done) || t.nodes[n].status == Completed ==> !t.nodes[n].waiting
  {
    var finished := Finished(s, done);
    DropToLimbo(s, done);
    SettledFlags(c, s, done);
    SettleAllSets(c, s.tree, finished, done, n);
    SettleAllAt(c, s.tree, finished, done, n);
    assert Placed(s.tree, s.running, {}, n);
    if n in finished { assert n in done && done[n].status != WaitingResources; }
  }

  lemma CollectStaysDishonest(c: Config, s: State, done: map<Id, Outcome>, targets: map<Id, set<Id>>)
    requires WellFormed(s) && Partitioned(s.tree, s.running) && LegalOutcomes(s, done) && FlagsPlaced(s.tree.nodes)
    requires !Honest(s.tree) && !BringsWait(done)
    ensures !Honest(CollectState(c, s, done, targets).tree)
  {
    var finished := Finished(s, done);
    var t := SettleAll(c, s.tree, finished, done);
    var r := CollectState(c, s, done, targets).tree;
    SettleAllJob(c, s.tree, finished, done);
    ReviewAllTo(t, finished, targets);
    ReviewAllWaits(t, finished, targets);
    forall n | n in r.pending && n in r.nodes ensures !r.nodes[n].waiting {
      SettledIdle(c, s, done, n);
      if n !in t.pending { ReopenedKinds(t.nodes, finished, targets, n); }
    }
  }

  lemma CollectRecovers(c: Config, s: State, done: map<Id, Outcome>, targets: map<Id, set<Id>>)
    requires WellFormed(s) && Partitioned(s.tree, s.running) && LegalOutcomes(s, done) && BringsWait(done)
    ensures Honest(CollectState(c, s, done, targets).tree)
  {
    var finished := Finished(s, done);
    var t := SettleAll(c, s.tree, finished, done);
    DropToLimbo(s, done);
    var n :| n in done && done[n].status == WaitingResources;
    assert n in finished by { assert n in Elems(finished); }
    SettleAllSets(c, s.tree, finished, done, n);
    SettleAllAt(c, s.tree, finished, done, n);
    ReviewAllWaits(t, finished, targets);
    var r := CollectState(c, s, done, targets).tree;
    assert n in r.pending && n in r.nodes && r.nodes[n].waiting;
  }

  lemma GateDishonestIff(c: Config, s: State)
    requires Inv(c, s) && WellFormed(s) && s.phase.Gating? && s.phase.rest != [] && !Honest(s.tree)
    ensures Honest(GateState(s).tree) <==> s.tree.nodes[s.phase.rest[0]].approval
  {
  }

  lemma LaunchStaysDishonest(s: State)
    requires WellFormed(s) && s.phase.Gating? && !Honest(s.tree)
    ensures !Honest(LaunchState(s).tree)
  {
  }

  lemma DishonestNeverWaits(c: Config, s: State)
    requires Enabled(c, s, WaitForResources)
    ensures Honest(s.tree)
  {
    var n :| n in Waiters(s);
  }

  lemma DishonestStep(c: Config, s: State, e: Event)
    requires Inv(c, s) && s.phase != Done && FlagsPlaced(s.tree.nodes) && !Honest(s.tree)
    requires Enabled(c, s, e) && !e.Mount? && !e.Cut? && Apply(c, s, e).phase != Done
    ensures Honest(Apply(c, s, e).tree) <==> Recovers(c, s, e)
  {
    match e
    case Gate => GateDishonestIff(c, s);
    case Launch => LaunchStaysDishonest(s);
    case Collect(done, targets) =>
      if BringsWait(done) { CollectRecovers(c, s, done, targets); } else { CollectStaysDishonest(c, s, done, targets); }
    case WaitForResources => DishonestNeverWaits(c, s);
    case _ =>
  }

  lemma StepWaitsIff(c: Config, s: State, e: Event)
    requires Sound(c, s) && s.phase != Done && FlagsPlaced(s.tree.nodes) && Live(s.tree.job)
    requires Step(c, s, e).phase != Done
    ensures !Honest(Step(c, s, e).tree) <==> Crosses(c, s, e) || (!Honest(s.tree) && !Recovers(c, s, e))
  {
    if !Enabled(c, s, e) {
    } else if e.Mount? || e.Cut? {
      BoundaryHonestIff(c, s, e);
    } else if Honest(s.tree) {
      StepHonest(c, s, e);
    } else {
      DishonestStep(c, s, e);
    }
  }

  // ----- Whole runs -----------------------------------------------------------------

  /** A boundary of the run was crossed while the job showed WAITING_RESOURCES, and neither
      a new wait nor an approval gate came since. */
  ghost predicate LeftWaiting(c: Config, s: State, es: seq<Event>) {
    es != [] &&
    var (m, e) := (Run(c, s, es[..|es| - 1]), es[|es| - 1]);
    Crosses(c, m, e) || (LeftWaiting(c, s, es[..|es| - 1]) && !Recovers(c, m, e))
  }

  ghost predicate GoodStart(c: Config, s: State) {
    Sound(c, s) && s.phase != Done && Honest(s.tree) && Live(s.tree.job) && FlagsPlaced(s.tree.nodes)
  }

  /** Every entry into the workflow with nodes rebuilt from a frozen spec is such a start,
      unless the job is entered showing WAITING_RESOURCES. */
  lemma EntryIsGood(c: Config, spec: map<Id, Node>, saved: map<Id, Node>, job: JobStatus, count: int)
    requires (forall n :: n in spec ==> Fresh(spec[n])) && job in {JobRunning, JobWaitingApproval}
    ensures GoodStart(c, Begin(RestoreAll(spec, saved), spec, job, count))
  {
    BeginInv(c, RestoreAll(spec, saved), spec, job, count);
    RestoreDeclared(spec, saved);
    forall n | n in spec ensures !RestoreAll(spec, saved)[n].waiting { assert Fresh(spec[n]); }
  }

  /** In every run: at a point before its end the job shows a wait nobody is in if and only
      if such a boundary was crossed. */
  lemma {:induction false} RunWaitsIff(c: Config, s: State, es: seq<Event>)
    requires GoodStart(c, s) && Run(c, s, es).phase != Done
    ensures !Honest(Run(c, s, es).tree) <==> LeftWaiting(c, s, es)
  {
    if es != [] {
      var before, e := es[..|es| - 1], es[|es| - 1];
      var m := Run(c, s, before);
      if m.phase == Done { DoneStays(c, m, e); }
      RunWaitsIff(c, s, before);
      RunSound(c, s, before);
      RunFlags(c, s, before);
      RunLive(c, s, before);
      StepWaitsIff(c, m, e);
    }
  }

  /** The run left its loop while such a boundary was crossed, and no failed answer
      synthesis replaced the status. */
  ghost predicate LeavesWaiting(c: Config, s: State, es: seq<Event>) {
    es != [] &&
    var (before, e) := (es[..|es| - 1], es[|es| - 1]);
    if Run(c, s, before).phase == Done then LeavesWaiting(c, s, before)
    else LeftWaiting(c, s, before) && !(e.Exit? && e.synthesisFailed)
  }

  /** Every run that ends was cancelled, or settled every node and then gave a fair verdict
      if and only if it did not leave its loop that way. */
  lemma {:induction false} RunEndsFairlyIff(c: Config, s: State, es: seq<Event>)
    requires GoodStart(c, s) && s.tree.nodes != map[] && Run(c, s, es).phase == Done
    ensures var r := Run(c, s, es).tree;
            || r.job == JobCancelled
            || (AllSettled(r.nodes) && (FairVerdict(r.nodes, r.job) <==> !LeavesWaiting(c, s, es)))
  {
    var before, e := es[..|es| - 1], es[|es| - 1];
    var m := Run(c, s, before);
    if m.phase == Done {
      RunEndsFairlyIff(c, s, before);
      DoneStays(c, m, e);
    } else if Enabled(c, m, e) && Leaves(e) {
      RunWaitsIff(c, s, before);
      RunSound(c, s, before);
      RunLive(c, s, before);
      RunNonEmpty(c, s, before);
      NormalExit(c, m, e);
    } else {
      OnlyLeavingEnds(c, m, e);
    }
  }
}
