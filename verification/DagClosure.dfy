/** Downward closure: without review rejections nothing runs below a node that
    failed, was refused or was skipped; and exactly which rework breaks this. */
module DagClosure {
  import opened Prelude
  import opened DagModel
  import opened DagWriters
  import opened DagInvariants
  import opened DagNodes

  /** Everything completed or running has all its dependencies completed. */
  ghost predicate Closed(t: Tree, running: seq<Id>) {
    forall n :: n in t.nodes && (n in t.completed || n in running) ==> Within(t.nodes[n].dependsOn, t.completed)
  }

  /** A step that collects no verdict sending work back. */
  ghost predicate NoRejection(s: State, e: Event) {
    e.Collect? ==>
      forall n :: n in e.done && n in s.tree.nodes ==> RejectionBy(s.tree.nodes[n].agent, e.done[n].result) == None
  }

  ghost predicate RejectionFree(c: Config, s: State, es: seq<Event>) {
    es == [] ||
    (RejectionFree(c, s, es[..|es| - 1]) && NoRejection(Run(c, s, es[..|es| - 1]), es[|es| - 1]))
  }

  lemma {:induction false} ReviewAllIdle(t: Tree, finished: seq<Id>, targets: map<Id, set<Id>>)
    requires Within(finished, t.nodes.Keys)
    requires forall n :: n in finished ==> Rejection(t.nodes[n]) == None
    ensures ReviewAll(t, finished, targets) == t
  {
    if finished != [] {
      ReviewAllIdle(t, finished[..|finished| - 1], targets);
    }
  }

  /** Collecting without a rejection only settles. */
  lemma QuietCollect(c: Config, s: State, done: map<Id, Outcome>, targets: map<Id, set<Id>>)
    requires WellFormed(s) && Partitioned(s.tree, s.running) && LegalOutcomes(s, done)
    requires NoRejection(s, Collect(done, targets))
    ensures CollectState(c, s, done, targets).tree == SettleAll(c, s.tree, Finished(s, done), done)
  {
    var finished := Finished(s, done);
    DropToLimbo(s, done);
    var m := SettleAll(c, s.tree, finished, done);
    forall n | n in finished ensures Rejection(m.nodes[n]) == None {
      SettleAllAt(c, s.tree, finished, done, n);
    }
    ReviewAllIdle(m, finished, targets);
  }

  lemma QuietCollectClosed(c: Config, s: State, done: map<Id, Outcome>, targets: map<Id, set<Id>>)
    requires WellFormed(s) && Partitioned(s.tree, s.running) && LegalOutcomes(s, done)
    requires NoRejection(s, Collect(done, targets)) && Closed(s.tree, s.running)
    ensures Closed(CollectState(c, s, done, targets).tree, CollectState(c, s, done, targets).running)
  {
    QuietCollect(c, s, done, targets);
    var r := CollectState(c, s, done, targets);
    var finished := Finished(s, done);
    DropToLimbo(s, done);
    forall n | n in r.tree.nodes && (n in r.tree.completed || n in r.running)
      ensures Within(r.tree.nodes[n].dependsOn, r.tree.completed)
    {
      SettleAllAt(c, s.tree, finished, done, n);
      SettleAllSets(c, s.tree, finished, done, n);
      forall d | d in r.tree.nodes[n].dependsOn ensures d in r.tree.completed {
        assert d in s.tree.completed;
        SettleAllSets(c, s.tree, finished, done, d);
      }
    }
  }

  lemma LaunchClosed(c: Config, s: State)
    requires Inv(c, s) && s.phase.Gating? && s.phase.rest == [] && Closed(s.tree, s.running)
    ensures Closed(LaunchState(s).tree, LaunchState(s).running)
  {
    var r := LaunchState(s);
    forall n | n in r.tree.nodes && (n in r.tree.completed || n in r.running)
      ensures Within(r.tree.nodes[n].dependsOn, r.tree.completed)
    {
      if n in s.phase.runnable {
        assert n in s.phase.runnable + s.phase.rest;
        assert Startable(s.tree, n);
      }
    }
  }

  lemma MountClosed(t: Tree, extra: map<Id, Node>)
    requires PartitionedBut(t, [], {}) && Closed(t, []) && extra.Keys !! t.nodes.Keys
    ensures Closed(MountTree(t, extra), [])
  {
    var r := MountTree(t, extra);
    var skipped := SkipAll(t.nodes, Superseded(t.nodes));
    forall n | n in r.completed ensures n in t.nodes && r.nodes[n].dependsOn == t.nodes[n].dependsOn {
      assert r.nodes[n] == skipped[n];
    }
  }

  lemma CutSets(c: Config, s: State)
    requires Inv(c, s) && s.phase == Collected && s.running == [] && FromSpec(s)
    requires forall n :: n in s.spec ==> s.spec[n].status == Unset
    ensures CutState(s).tree.pending == s.tree.pending && CutState(s).tree.completed == s.tree.completed
    ensures forall n :: n in s.tree.nodes ==> CutState(s).tree.nodes[n].status == s.tree.nodes[n].status
  {
    forall n | n in s.tree.nodes ensures CutState(s).tree.nodes[n].status == s.tree.nodes[n].status {
      assert n in s.spec;
    }
    forall n | n in s.tree.nodes ensures n in s.tree.pending <==> n in CutState(s).tree.pending {
      assert Placed(s.tree, s.running, {}, n);
    }
    assert CutState(s).tree.pending <= s.tree.nodes.Keys;
  }

  /** The frozen spec never carries a status. */
  ghost predicate SpecPlain(s: State) {
    forall n :: n in s.spec ==> Fresh(s.spec[n])
  }

  lemma StepSpecPlain(c: Config, s: State, e: Event)
    requires SpecPlain(s)
    ensures SpecPlain(Step(c, s, e))
  {
    if Enabled(c, s, e) && e.Mount? {
      var r := s.spec + e.extra;
      assert forall n :: n in r ==> r[n] == if n in e.extra then e.extra[n] else s.spec[n];
    } else if Enabled(c, s, e) && !e.Cut? {
      StepKeys(c, s, e);
    }
  }

  ghost predicate Sound(c: Config, s: State) {
    Inv(c, s) && FromSpec(s) && SpecPlain(s)
  }

  lemma StepSound(c: Config, s: State, e: Event)
    requires Sound(c, s)
    ensures Sound(c, Step(c, s, e))
  {
    StepInv(c, s, e);
    StepFromSpec(c, s, e);
    StepSpecPlain(c, s, e);
  }

  lemma {:induction false} RunSound(c: Config, s: State, es: seq<Event>)
    requires Sound(c, s)
    ensures Sound(c, Run(c, s, es))
  {
    if es != [] {
      RunSound(c, s, es[..|es| - 1]);
      StepSound(c, Run(c, s, es[..|es| - 1]), es[|es| - 1]);
    }
  }

  lemma CutClosed(c: Config, s: State)
    requires Sound(c, s) && s.phase == Collected && s.running == [] && Closed(s.tree, [])
    ensures Closed(CutState(s).tree, [])
  {
    CutSets(c, s);
  }

  lemma StepClosed(c: Config, s: State, e: Event)
    requires Sound(c, s) && NoRejection(s, e)
    requires s.phase != Done ==> Closed(s.tree, s.running)
    ensures Step(c, s, e).phase != Done ==> Closed(Step(c, s, e).tree, Step(c, s, e).running)
  {
    if Enabled(c, s, e) && s.phase != Done {
      match e
      case Gate => GateClosed(c, s);
      case Launch => LaunchClosed(c, s);
      case WaitForResources =>
      case Collect(done, targets) => QuietCollectClosed(c, s, done, targets);
      case Mount(extra, _) => MountClosed(s.tree, extra);
      case Cut => CutClosed(c, s);
      case _ =>
    }
  }

  lemma GateClosed(c: Config, s: State)
    requires Inv(c, s) && WellFormed(s) && s.phase.Gating? && s.phase.rest != [] && Closed(s.tree, s.running)
    ensures Closed(GateState(s).tree, GateState(s).running)
  {
    var id := s.phase.rest[0];
    assert GateTree(s, id).completed == s.tree.completed;
    forall n | n in s.tree.nodes ensures GateTree(s, id).nodes[n].dependsOn == s.tree.nodes[n].dependsOn {}
  }

  /** In a run without review rejections the completed set is downward closed at
      every step, across resource waits, replacement plans and cuts. */
  lemma {:induction false} RunClosed(c: Config, s: State, es: seq<Event>)
    requires Sound(c, s) && RejectionFree(c, s, es)
    requires s.phase != Done ==> Closed(s.tree, s.running)
    ensures Run(c, s, es).phase != Done ==> Closed(Run(c, s, es).tree, Run(c, s, es).running)
  {
    if es != [] {
      RunClosed(c, s, es[..|es| - 1]);
      RunSound(c, s, es[..|es| - 1]);
      StepClosed(c, Run(c, s, es[..|es| - 1]), es[|es| - 1]);
    }
  }

  // ----- A node that did not complete never will ---------------------------

  /** Settled without completing: failed, escalated, skipped, cancelled or interrupted. */
  ghost predicate Lost(nodes: map<Id, Node>, n: Id) {
    n in nodes && Terminal(nodes[n].status) && nodes[n].status != Completed
  }

  lemma ReopenWriterLost(t: Tree, w: Id, text: string, n: Id)
    requires w in t.nodes && Lost(t.nodes, n)
    ensures Lost(ReopenWriter(t, w, text).nodes, n)
  {
  }

  lemma {:induction false} ReopenWritersLost(t: Tree, ws: seq<Id>, text: string, n: Id)
    requires Within(ws, t.nodes.Keys) && Lost(t.nodes, n)
    ensures Lost(ReopenWriters(t, ws, text).nodes, n)
  {
    if ws != [] {
      var k := |ws| - 1;
      ReopenWritersLost(t, ws[..k], text, n);
      ReopenWriterLost(ReopenWriters(t, ws[..k], text), ws[k], text, n);
    }
  }

  lemma {:induction false} ReviewAllLost(t: Tree, finished: seq<Id>, targets: map<Id, set<Id>>, n: Id)
    requires Within(finished, t.nodes.Keys) && Lost(t.nodes, n) && n !in finished
    ensures Lost(ReviewAll(t, finished, targets).nodes, n)
  {
    if finished != [] {
      var k := |finished| - 1;
      ReviewAllLost(t, finished[..k], targets, n);
      var m := ReviewAll(t, finished[..k], targets);
      match Rejection(m.nodes[finished[k]])
      case None =>
      case Some(text) => ReopenWritersLost(m, RejectedWriters(m.nodes, finished[k], targets), text, n);
    }
  }

  lemma CollectLost(c: Config, s: State, done: map<Id, Outcome>, targets: map<Id, set<Id>>, n: Id)
    requires WellFormed(s) && NoDup(s.running) && Lost(s.tree.nodes, n) && n !in s.running
    ensures Lost(CollectState(c, s, done, targets).tree.nodes, n)
  {
    var finished := Finished(s, done);
    PickNoDup(s.running, done.Keys);
    SettleAllAt(c, s.tree, finished, done, n);
    ReviewAllLost(SettleAll(c, s.tree, finished, done), finished, targets, n);
  }

  lemma LostIsIdle(c: Config, s: State, n: Id)
    requires Inv(c, s) && s.phase != Done && Lost(s.tree.nodes, n)
    ensures n !in s.running && n !in s.tree.pending && n !in s.tree.completed
  {
    assert Placed(s.tree, s.running, {}, n);
  }

  lemma StepLostUncut(c: Config, s: State, e: Event, n: Id)
    requires Inv(c, s) && s.phase != Done && Lost(s.tree.nodes, n) && Enabled(c, s, e) && !e.Cut?
    ensures Lost(Apply(c, s, e).tree.nodes, n)
  {
    LostIsIdle(c, s, n);
    match e
    case Gate => GateLost(c, s, n);
    case Launch => LaunchLost(c, s, n);
    case Collect(done, targets) => CollectLost(c, s, done, targets, n);
    case Mount(extra, _) => MountLost(s.tree, s.spec, extra, n);
    case WaitForResources => ClearLost(s.tree.nodes, Waiters(s), n);
    case SkipRest => SkipLost(s.tree.nodes, s.tree.pending, n);
    case CancelStop(late) => CancelLost(c, s, late, n);
    case _ =>
  }

  /** No step brings back a node that settled without completing: rework reopens
      completed nodes and the node that rejects, never a failed one. */
  lemma StepLost(c: Config, s: State, e: Event, n: Id)
    requires Sound(c, s) && s.phase != Done && Lost(s.tree.nodes, n)
    ensures Lost(Step(c, s, e).tree.nodes, n)
  {
    if Enabled(c, s, e) {
      if e.Cut? { CutLost(c, s, n); } else { StepLostUncut(c, s, e, n); }
    }
  }

  lemma CancelLost(c: Config, s: State, late: map<Id, Outcome>, n: Id)
    requires Lost(s.tree.nodes, n) && n !in s.running
    ensures Lost(CancelState(c, s, late).tree.nodes, n)
  {
    assert CancelState(c, s, late).tree.nodes[n] == CancelledNode(s.tree.nodes[n], s.keepCompleted);
  }

  lemma ClearLost(nodes: map<Id, Node>, ids: set<Id>, n: Id)
    requires Lost(nodes, n)
    ensures Lost(ClearWaiting(nodes, ids), n)
  {
  }

  lemma SkipLost(nodes: map<Id, Node>, ids: set<Id>, n: Id)
    requires Lost(nodes, n)
    ensures Lost(SkipAll(nodes, ids), n)
  {
  }

  lemma MountLost(t: Tree, spec: map<Id, Node>, extra: map<Id, Node>, n: Id)
    requires Lost(t.nodes, n) && LegalReplacement(t, spec, extra)
    ensures Lost(MountTree(t, extra).nodes, n)
  {
    MountedStatus(t, extra, n);
  }

  lemma CutLost(c: Config, s: State, n: Id)
    requires Sound(c, s) && s.phase == Collected && s.running == [] && Lost(s.tree.nodes, n)
    ensures Lost(CutState(s).tree.nodes, n)
  {
    CutSets(c, s);
    assert n in s.spec;
  }

  lemma BatchPending(c: Config, s: State, n: Id)
    requires Inv(c, s) && s.phase.Gating? && (n in s.phase.rest || n in s.phase.runnable)
    ensures n in s.tree.pending
  {
    assert n in s.phase.runnable + s.phase.rest;
    assert Startable(s.tree, n);
  }

  lemma GateLost(c: Config, s: State, n: Id)
    requires Inv(c, s) && WellFormed(s) && s.phase.Gating? && s.phase.rest != []
    requires Lost(s.tree.nodes, n) && n !in s.tree.pending
    ensures Lost(GateState(s).tree.nodes, n)
  {
    BatchPending(c, s, s.phase.rest[0]);
  }

  lemma LaunchLost(c: Config, s: State, n: Id)
    requires Inv(c, s) && s.phase.Gating? && Lost(s.tree.nodes, n) && n !in s.tree.pending
    ensures Lost(LaunchState(s).tree.nodes, n)
  {
    forall m | m in s.phase.runnable ensures m in s.tree.pending {
      BatchPending(c, s, m);
    }
  }

  lemma {:induction false} RunLost(c: Config, s: State, es: seq<Event>, n: Id)
    requires Sound(c, s) && s.phase != Done && Lost(s.tree.nodes, n)
    ensures Lost(Run(c, s, es).tree.nodes, n)
  {
    if es != [] {
      RunLost(c, s, es[..|es| - 1], n);
      var m := Run(c, s, es[..|es| - 1]);
      RunSound(c, s, es[..|es| - 1]);
      if m.phase == Done {
        DoneStays(c, m, es[|es| - 1]);
      } else {
        StepLost(c, m, es[|es| - 1], n);
      }
    }
  }

  lemma DoneStays(c: Config, s: State, e: Event)
    requires s.phase == Done
    ensures Step(c, s, e).phase == Done && Step(c, s, e).tree == s.tree && Step(c, s, e).running == s.running
  {
  }

  // ----- Nothing downstream of a lost node is launched ----------------------

  lemma {:induction false} PathCompleted(t: Tree, running: seq<Id>, p: seq<Id>, k: nat)
    requires Closed(t, running) && IsPath(t.nodes, p) && 1 <= k < |p|
    requires p[0] in t.completed || p[0] in running
    requires t.completed <= t.nodes.Keys && Within(running, t.nodes.Keys)
    ensures p[k] in t.completed
  {
    if k == 1 {
      assert p[0 + 1] in DepsOf(t.nodes, p[0]);
    } else {
      PathCompleted(t, running, p, k - 1);
      assert p[(k - 1) + 1] in DepsOf(t.nodes, p[k - 1]);
    }
  }

  lemma CutKeepsNode(c: Config, s: State, n: Id)
    requires FromSpec(s) && n in s.tree.nodes
    ensures n in Step(c, s, Cut).tree.nodes && Step(c, s, Cut).tree.nodes[n].dependsOn == s.tree.nodes[n].dependsOn
  {
    assert n in s.spec && SameContract(s.spec[n], s.tree.nodes[n]);
  }

  lemma {:induction false} RunKeepsNodes(c: Config, s: State, es: seq<Event>, n: Id)
    requires Sound(c, s) && n in s.tree.nodes
    ensures n in Run(c, s, es).tree.nodes && Run(c, s, es).tree.nodes[n].dependsOn == s.tree.nodes[n].dependsOn
  {
    if es != [] {
      RunKeepsNodes(c, s, es[..|es| - 1], n);
      var m := Run(c, s, es[..|es| - 1]);
      RunSound(c, s, es[..|es| - 1]);
      var e := es[|es| - 1];
      if e.Cut? {
        CutKeepsNode(c, m, n);
      } else {
        StepEvolves(c, m, e);
        assert Evolved(m.tree.nodes[n], Step(c, m, e).tree.nodes[n]);
      }
    }
  }

  lemma RunKeepsPath(c: Config, s: State, es: seq<Event>, p: seq<Id>)
    requires Sound(c, s) && IsPath(s.tree.nodes, p)
    ensures IsPath(Run(c, s, es).tree.nodes, p)
  {
    var r := Run(c, s, es);
    forall i | 0 <= i < |p| - 1 ensures p[i + 1] in DepsOf(r.tree.nodes, p[i]) {
      assert p[i + 1] in DepsOf(s.tree.nodes, p[i]);
      RunKeepsNodes(c, s, es, p[i]);
    }
  }

  /** Once a node has settled without completing, no node that depends on it,
      directly or through others, ever runs or completes in a run free of
      rejections. */
  lemma NothingDownstreamRuns(c: Config, s: State, es: seq<Event>, lost: Id, n: Id)
    requires Sound(c, s) && s.phase != Done && Closed(s.tree, s.running)
    requires RejectionFree(c, s, es)
    requires Lost(s.tree.nodes, lost) && Reaches(s.tree.nodes, n, lost)
    ensures Run(c, s, es).phase != Done ==> n !in Run(c, s, es).running && n !in Run(c, s, es).tree.completed
  {
    var r := Run(c, s, es);
    RunClosed(c, s, es);
    RunSound(c, s, es);
    RunLost(c, s, es, lost);
    if r.phase != Done && (n in r.running || n in r.tree.completed) {
      var p :| IsPath(s.tree.nodes, p) && p[0] == n && p[|p| - 1] == lost;
      RunKeepsPath(c, s, es, p);
      PathCompleted(r.tree, r.running, p, |p| - 1);
      LostIsIdle(c, r, lost);
    }
  }

  // ----- Exactly when rework breaks the closure -----------------------------

  /** Some node two levels below the writer has already run: it depends on the
      writer or on one of the writer's completed direct dependents, and is not
      itself sent back. */
  ghost predicate Stranded(t: Tree, running: seq<Id>, w: Id, m: Id) {
    && m in t.nodes
    && (m in running || (m in t.completed && m != w && m !in DirectDependents(t.nodes, w)))
    && exists d :: d in t.nodes[m].dependsOn && (d == w || d in DirectDependents(t.nodes, w))
  }

  /** Reopening a writer keeps the closure if and only if nothing is stranded. */
  lemma ReopenWriterClosedIff(t: Tree, running: seq<Id>, w: Id, text: string)
    requires PartitionedBut(t, running, {}) && Closed(t, running) && CanReopen(t.nodes, w)
    ensures Closed(ReopenWriter(t, w, text), running) <==> forall m :: !Stranded(t, running, w, m)
  {
    var r := ReopenWriter(t, w, text);
    forall m | Stranded(t, running, w, m) ensures !Closed(r, running) {
      var d :| d in t.nodes[m].dependsOn && (d == w || d in DirectDependents(t.nodes, w));
      assert d in r.nodes[m].dependsOn && d !in r.completed;
      if m !in running { assert m in r.completed; }
    }
    if forall m :: !Stranded(t, running, w, m) {
      forall m | m in r.nodes && (m in r.completed || m in running)
        ensures Within(r.nodes[m].dependsOn, r.completed)
      {
        assert !Stranded(t, running, w, m);
        forall d | d in r.nodes[m].dependsOn ensures d in r.completed {
          assert d in t.nodes[m].dependsOn && d in t.completed;
        }
      }
    }
  }

  /** The rejecting node itself: the closure survives if and only if nothing that
      ran depends on it. */
  lemma ReopenSelfClosedIff(t: Tree, running: seq<Id>, id: Id)
    requires PartitionedBut(t, running, {}) && Closed(t, running) && id in t.nodes && id !in running
    ensures Closed(ReopenSelf(t, id), running) <==>
            forall m :: m in t.nodes && m != id && (m in t.completed || m in running) ==> id !in t.nodes[m].dependsOn
  {
    var r := ReopenSelf(t, id);
    if m :| m in t.nodes && m != id && (m in t.completed || m in running) && id in t.nodes[m].dependsOn {
      assert id in r.nodes[m].dependsOn && id !in r.completed;
      assert m in r.completed || m in running;
      assert !Closed(r, running);
    } else {
      forall m | m in r.nodes && (m in r.completed || m in running)
        ensures Within(r.nodes[m].dependsOn, r.completed)
      {
        forall d | d in r.nodes[m].dependsOn ensures d in r.completed {
          assert d in t.nodes[m].dependsOn && d in t.completed;
        }
      }
    }
  }
}
