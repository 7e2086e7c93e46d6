/** Stale references: which completions leave a node with the reference of an older
    result, how long it stays, and that a cut delivers something else exactly then. */
module DagStale {
  import opened Prelude
  import opened DagModel
  import opened DagInvariants
  import opened DagNodes
  import opened DagClosure
  import opened DagReopen
  import opened DagContinue

  /** A completed body beside the reference of another one. */
  predicate Stale(n: Node) {
    n.status == Completed && n.result.Some? && n.resultRef.Some? && n.resultRef != n.result
  }

  predicate StaleAt(nodes: map<Id, Node>, n: Id) { n in nodes && Stale(nodes[n]) }

  ghost predicate AllCurrent(nodes: map<Id, Node>) { forall n :: !StaleAt(nodes, n) }

  /** A completion with a new result over an older reference, not stored. */
  predicate StaleCompletion(c: Config, n: Node, o: Outcome) {
    && o.status == Completed && o.result.Some?
    && n.resultRef.Some? && n.resultRef != o.result
    && !(c.longDag && o.persisted)
  }

  /** The nodes the verdicts of a round reopen. */
  ghost function RoundReopened(c: Config, s: State, done: map<Id, Outcome>, targets: map<Id, set<Id>>): set<Id>
    requires WellFormed(s)
  {
    var finished := Finished(s, done);
    ReopenedBy(SettleAll(c, s.tree, finished, done).nodes, finished, targets)
  }

  lemma SettledStale(c: Config, n: Node, o: Outcome)
    requires LegalOutcome(o)
    ensures Stale(SettledNode(c, n, o)) <==> StaleCompletion(c, n, o)
  {
  }

  lemma ReopenedStale(t: Tree, r: Tree, gone: set<Id>, n: Id)
    requires ReopenedTo(t, r, gone) && n in t.nodes
    ensures StaleAt(r.nodes, n) <==> n !in gone && Stale(t.nodes[n])
  {
  }

  lemma CollectStale(c: Config, s: State, done: map<Id, Outcome>, targets: map<Id, set<Id>>, n: Id)
    requires WellFormed(s) && Partitioned(s.tree, s.running) && LegalOutcomes(s, done) && n in s.tree.nodes
    ensures StaleAt(CollectState(c, s, done, targets).tree.nodes, n) <==>
              && n !in RoundReopened(c, s, done, targets)
              && if n in done then StaleCompletion(c, s.tree.nodes[n], done[n]) else Stale(s.tree.nodes[n])
  {
    var finished := Finished(s, done);
    var settled := SettleAll(c, s.tree, finished, done);
    DropToLimbo(s, done);
    SettleAllAt(c, s.tree, finished, done, n);
    FinishedHas(s, done, n);
    if n in done { SettledStale(c, s.tree.nodes[n], done[n]); }
    ReviewAllTo(settled, finished, targets);
    ReopenedStale(settled, ReviewAll(settled, finished, targets), ReopenedBy(settled.nodes, finished, targets), n);
  }

  lemma FinishedHas(s: State, done: map<Id, Outcome>, n: Id)
    requires Elems(Finished(s, done)) == done.Keys
    ensures n in done <==> n in Finished(s, done)
  {
    assert n in Elems(Finished(s, done)) <==> n in Finished(s, done);
  }

  /** One collecting step: references stay current if and only if every completion with
      an older, different reference and no successful store is reopened in the round. */
  lemma CollectCurrentIff(c: Config, s: State, done: map<Id, Outcome>, targets: map<Id, set<Id>>)
    requires WellFormed(s) && Partitioned(s.tree, s.running) && LegalOutcomes(s, done) && AllCurrent(s.tree.nodes)
    ensures AllCurrent(CollectState(c, s, done, targets).tree.nodes) <==>
              forall n :: n in done && StaleCompletion(c, s.tree.nodes[n], done[n]) ==> n in RoundReopened(c, s, done, targets)
  {
    var r := CollectState(c, s, done, targets).tree.nodes;
    forall n | n in s.tree.nodes
      ensures StaleAt(r, n) <==>
                n in done && StaleCompletion(c, s.tree.nodes[n], done[n]) && n !in RoundReopened(c, s, done, targets)
    {
      CollectStale(c, s, done, targets, n);
      assert !StaleAt(s.tree.nodes, n);
    }
    forall n | n in done ensures n in s.tree.nodes {}
  }

  // ----- Any step -----------------------------------------------------------------

  /** The step settles n with an older reference and leaves it completed. */
  ghost predicate SettlesStale(c: Config, s: State, e: Event, n: Id) {
    && Enabled(c, s, e) && n in s.tree.nodes
    && match e
       case Collect(done, targets) =>
         n in done && StaleCompletion(c, s.tree.nodes[n], done[n]) && n !in RoundReopened(c, s, done, targets)
       case CancelStop(late) => n in late && StaleCompletion(c, s.tree.nodes[n], late[n])
       case _ => false
  }

  /** The step reopens n, or is a cut, which drops the bodies. */
  ghost predicate Refreshes(c: Config, s: State, e: Event, n: Id) {
    Enabled(c, s, e) && (e.Cut? || (e.Collect? && n in RoundReopened(c, s, e.done, e.targets)))
  }

  lemma CancelStale(c: Config, s: State, late: map<Id, Outcome>, n: Id)
    requires Inv(c, s) && s.phase != Done && LegalOutcomes(s, late) && n in s.tree.nodes
    ensures Stale(CancelState(c, s, late).tree.nodes[n]) <==>
              (n in late && StaleCompletion(c, s.tree.nodes[n], late[n])) || Stale(s.tree.nodes[n])
  {
    assert Placed(s.tree, s.running, {}, n);
    assert CancelState(c, s, late).tree.nodes[n] == CancelledAt(c, s, late, n);
    if n in s.running {
      StoppedStale(c, s.tree.nodes[n], if n in late then Some(late[n]) else None, s.phase.Waiting?, s.keepCompleted);
    }
  }

  lemma StoppedStale(c: Config, n: Node, late: Option<Outcome>, overriding: bool, keep: bool)
    ensures Stale(CancelledNode(StoppedNode(c, n, late, overriding), keep)) <==>
              late.Some? && StaleCompletion(c, n, late.value)
  {
  }

  lemma CutStale(c: Config, s: State, n: Id)
    requires Sound(c, s) && Enabled(c, s, Cut)
    ensures !StaleAt(Step(c, s, Cut).tree.nodes, n)
  {
    if n in Step(c, s, Cut).tree.nodes {
      assert n in s.spec && n in s.tree.nodes;
      CutNode(c, s, n);
    }
  }

  lemma GateStale(c: Config, s: State, n: Id)
    requires Inv(c, s) && WellFormed(s) && s.phase.Gating? && s.phase.rest != [] && n in s.tree.nodes
    ensures StaleAt(GateState(s).tree.nodes, n) <==> Stale(s.tree.nodes[n])
  {
    BatchPending(c, s, s.phase.rest[0]);
    assert Placed(s.tree, s.running, {}, n);
  }

  lemma LaunchStale(c: Config, s: State, n: Id)
    requires Inv(c, s) && s.phase.Gating? && n in s.tree.nodes
    ensures StaleAt(LaunchState(s).tree.nodes, n) <==> Stale(s.tree.nodes[n])
  {
    if n in s.phase.runnable { BatchPending(c, s, n); }
    assert Placed(s.tree, s.running, {}, n);
  }

  lemma SkipStale(nodes: map<Id, Node>, ids: set<Id>, n: Id)
    requires n in nodes && (n in ids ==> nodes[n].status != Completed)
    ensures StaleAt(SkipAll(nodes, ids), n) <==> Stale(nodes[n])
  {
  }

  lemma ClearStale(nodes: map<Id, Node>, ids: set<Id>, n: Id)
    requires n in nodes
    ensures StaleAt(ClearWaiting(nodes, ids), n) <==> Stale(nodes[n])
  {
  }

  /** Only settling, reopening and cutting decide whether a reference is stale. */
  lemma OtherStale(c: Config, s: State, e: Event, n: Id)
    requires Inv(c, s) && Enabled(c, s, e) && s.phase != Done && n in s.tree.nodes
    requires !e.Collect? && !e.Cut? && !e.CancelStop?
    ensures StaleAt(Apply(c, s, e).tree.nodes, n) <==> Stale(s.tree.nodes[n])
  {
    match e
    case Gate => GateStale(c, s, n);
    case Launch => LaunchStale(c, s, n);
    case Mount(extra, _) => MountStale(s.tree, extra, n);
    case WaitForResources => ClearStale(s.tree.nodes, Waiters(s), n);
    case SkipRest =>
      assert Placed(s.tree, s.running, {}, n);
      SkipStale(s.tree.nodes, s.tree.pending, n);
    case _ =>
  }

  lemma MountStale(t: Tree, extra: map<Id, Node>, n: Id)
    requires extra.Keys !! t.nodes.Keys && n in t.nodes
    ensures StaleAt(MountTree(t, extra).nodes, n) <==> Stale(t.nodes[n])
  {
    assert MountTree(t, extra).nodes[n] == SkipAll(t.nodes, Superseded(t.nodes))[n];
  }

  lemma CollectingStale(c: Config, s: State, e: Event, n: Id)
    requires Inv(c, s) && Enabled(c, s, e) && e.Collect? && n in s.tree.nodes
    ensures StaleAt(Apply(c, s, e).tree.nodes, n) <==>
              SettlesStale(c, s, e, n) || (Stale(s.tree.nodes[n]) && !Refreshes(c, s, e, n))
  {
    assert Placed(s.tree, s.running, {}, n);
    CollectStale(c, s, e.done, e.targets, n);
  }

  lemma CuttingStale(c: Config, s: State, e: Event, n: Id)
    requires Sound(c, s) && Enabled(c, s, e) && e.Cut?
    ensures !StaleAt(Apply(c, s, e).tree.nodes, n) && !SettlesStale(c, s, e, n) && Refreshes(c, s, e, n)
  {
    CutStale(c, s, n);
  }

  lemma CancellingStale(c: Config, s: State, e: Event, n: Id)
    requires Inv(c, s) && s.phase != Done && Enabled(c, s, e) && e.CancelStop? && n in s.tree.nodes
    ensures StaleAt(Apply(c, s, e).tree.nodes, n) <==> SettlesStale(c, s, e, n) || Stale(s.tree.nodes[n])
    ensures !Refreshes(c, s, e, n)
  {
    CancelStale(c, s, e.late, n);
  }

  lemma OtherSettlesNothing(c: Config, s: State, e: Event, n: Id)
    requires !e.Collect? && !e.Cut? && !e.CancelStop?
    ensures !SettlesStale(c, s, e, n) && !Refreshes(c, s, e, n)
  {
  }

  lemma IdleSettlesNothing(c: Config, s: State, e: Event, n: Id)
    requires !Enabled(c, s, e)
    ensures !SettlesStale(c, s, e, n) && !Refreshes(c, s, e, n)
  {
  }

  lemma StepStale(c: Config, s: State, e: Event, n: Id)
    requires Sound(c, s) && s.phase != Done && n in s.tree.nodes
    ensures StaleAt(Step(c, s, e).tree.nodes, n) <==>
              SettlesStale(c, s, e, n) || (Stale(s.tree.nodes[n]) && !Refreshes(c, s, e, n))
  {
    if !Enabled(c, s, e) {
      IdleSettlesNothing(c, s, e, n);
    } else if e.Collect? {
      CollectingStale(c, s, e, n);
    } else if e.Cut? {
      CuttingStale(c, s, e, n);
    } else if e.CancelStop? {
      CancellingStale(c, s, e, n);
    } else {
      OtherStale(c, s, e, n);
      OtherSettlesNothing(c, s, e, n);
    }
  }

  lemma NewCurrent(c: Config, s: State, e: Event, n: Id)
    requires Sound(c, s) && n !in s.tree.nodes
    ensures !StaleAt(Step(c, s, e).tree.nodes, n)
  {
    if Enabled(c, s, e) {
      if e.Mount? {
        if n in e.extra { assert Fresh(e.extra[n]); }
      } else if e.Cut? {
        CutStale(c, s, n);
      } else {
        StepKeys(c, s, e);
      }
    }
  }

  // ----- Whole runs -----------------------------------------------------------------

  /** Some step of the run settled n with an older reference, and no later one reopened n
      or cut the run. */
  ghost predicate StaleSettled(c: Config, s: State, es: seq<Event>, n: Id) {
    es != [] &&
    var (m, e) := (Run(c, s, es[..|es| - 1]), es[|es| - 1]);
    SettlesStale(c, m, e, n) || (StaleSettled(c, s, es[..|es| - 1], n) && !Refreshes(c, m, e, n))
  }

  lemma DoneSettlesNothing(c: Config, s: State, e: Event, n: Id)
    requires s.phase == Done
    ensures !SettlesStale(c, s, e, n) && !Refreshes(c, s, e, n)
  {
  }

  /** In every run, with any rejections, cuts and plans: a reference is stale at the end if
      and only if some step settled the node with an older reference and none reopened it
      or cut the run since. */
  lemma {:induction false} RunStaleIff(c: Config, s: State, es: seq<Event>, n: Id)
    requires Sound(c, s) && AllCurrent(s.tree.nodes)
    ensures StaleAt(Run(c, s, es).tree.nodes, n) <==> StaleSettled(c, s, es, n)
  {
    if es == [] {
      assert !StaleAt(s.tree.nodes, n);
    } else {
      var before, e := es[..|es| - 1], es[|es| - 1];
      var m := Run(c, s, before);
      RunStaleIff(c, s, before, n);
      RunSound(c, s, before);
      if m.phase == Done {
        DoneStays(c, m, e);
        DoneSettlesNothing(c, m, e, n);
      } else if n in m.tree.nodes {
        StepStale(c, m, e, n);
      } else {
        NewCurrent(c, m, e, n);
      }
    }
  }

  /** A cut at the end of any run gives the dependants of d the same content as before if
      and only if no such completion of d is left. */
  lemma CutDeliversIff(c: Config, s: State, es: seq<Event>, d: Id)
    requires Sound(c, s) && AllCurrent(s.tree.nodes)
    requires Enabled(c, Run(c, s, es), Cut) && d in Run(c, s, es).tree.completed
    ensures var m := Run(c, s, es);
            Denotes(Delivered(Step(c, m, Cut).tree.nodes, d)) == Denotes(Delivered(m.tree.nodes, d)) <==>
              !StaleSettled(c, s, es, d)
  {
    var m := Run(c, s, es);
    RunSound(c, s, es);
    RunStaleIff(c, s, es, d);
    CutStillDelivers(c, m, d);
    if m.tree.nodes[d].result.Some? { CutDeliversSameIff(c, m, d); }
  }

  /** References are current at every point of the run. */
  ghost predicate AlwaysCurrent(c: Config, s: State, es: seq<Event>) {
    AllCurrent(Run(c, s, es).tree.nodes) && (es == [] || AlwaysCurrent(c, s, es[..|es| - 1]))
  }

  ghost predicate NothingStale(c: Config, s: State, es: seq<Event>) {
    es == [] ||
    (&& NothingStale(c, s, es[..|es| - 1])
     && SettlesCurrent(c, Run(c, s, es[..|es| - 1]), es[|es| - 1]))
  }

  ghost predicate SettlesCurrent(c: Config, s: State, e: Event) { forall n :: !SettlesStale(c, s, e, n) }

  /** References are current throughout a run if and only if no step settles a node with
      an older one and leaves it completed. */
  lemma {:induction false} AlwaysCurrentIff(c: Config, s: State, es: seq<Event>)
    requires Sound(c, s) && AllCurrent(s.tree.nodes)
    ensures AlwaysCurrent(c, s, es) <==> NothingStale(c, s, es)
  {
    if es != [] {
      var before, e := es[..|es| - 1], es[|es| - 1];
      AlwaysCurrentIff(c, s, before);
      forall n ensures AlwaysCurrent(c, s, before) ==>
                         (StaleAt(Run(c, s, es).tree.nodes, n) <==> SettlesStale(c, Run(c, s, before), e, n))
      {
        RunStaleIff(c, s, before, n);
        RunStaleIff(c, s, es, n);
      }
    }
  }

  /** Without rejections no reference goes stale, so every cut delivers the same. */
  lemma QuietNeverStale(c: Config, s: State, es: seq<Event>, n: Id)
    requires Sound(c, s) && RefsCurrent(s.tree.nodes) && RejectionFree(c, s, es)
    ensures !StaleSettled(c, s, es, n)
  {
    forall m ensures !StaleAt(s.tree.nodes, m) {
      if m in s.tree.nodes { assert RefCurrent(s.tree.nodes[m]); }
    }
    RunStaleIff(c, s, es, n);
    RunRefsCurrent(c, s, es);
    if n in Run(c, s, es).tree.nodes { assert RefCurrent(Run(c, s, es).tree.nodes[n]); }
  }
}
