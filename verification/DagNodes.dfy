/** What one step can do to a single node: its contract never changes, and what
    happens to the rest is limited. */
module DagNodes {
  import opened Prelude
  import opened DagModel
  import opened DagWriters
  import opened DagInvariants

  /** b is a later stage of a: same contract, instructions only appended to, and
      only for writers; review rounds and launches only counted up. */
  ghost predicate Evolved(a: Node, b: Node) {
    && SameContract(a, b)
    && a.params <= b.params
    && a.reviewLoops <= b.reviewLoops
    && a.attempts <= b.attempts
    && (!IsWriter(a.agent) ==> a.params == b.params && a.reviewLoops == b.reviewLoops)
    && (a.reviewLoops <= MAX_REVIEW_LOOPS ==> b.reviewLoops <= MAX_REVIEW_LOOPS)
  }

  ghost predicate AllEvolved(a: map<Id, Node>, b: map<Id, Node>) {
    forall n :: n in a ==> n in b && Evolved(a[n], b[n])
  }

  lemma EvolvedTransitive(a: map<Id, Node>, b: map<Id, Node>, c: map<Id, Node>)
    requires AllEvolved(a, b) && AllEvolved(b, c)
    ensures AllEvolved(a, c)
  {
  }

  // ----- Settling, node by node --------------------------------------------

  function SettledNode(c: Config, n: Node, o: Outcome): Node {
    var m := Record(c, n, o);
    if m.status == WaitingResources then m.(status := Pending, waiting := true) else m
  }

  /** Settling touches the finished nodes only, and each exactly once. */
  lemma {:induction false} SettleAllAt(c: Config, t: Tree, finished: seq<Id>, done: map<Id, Outcome>, n: Id)
    requires Within(finished, t.nodes.Keys) && Within(finished, done.Keys) && NoDup(finished) && n in t.nodes
    ensures SettleAll(c, t, finished, done).nodes[n] ==
            if n in finished then SettledNode(c, t.nodes[n], done[n]) else t.nodes[n]
  {
    if finished != [] {
      var k := |finished| - 1;
      SettleAllAt(c, t, finished[..k], done, n);
      assert n in finished <==> n in finished[..k] || n == finished[k];
    }
  }

  lemma {:induction false} SettleAllSets(c: Config, t: Tree, finished: seq<Id>, done: map<Id, Outcome>, n: Id)
    requires Within(finished, t.nodes.Keys) && Within(finished, done.Keys)
    ensures n in SettleAll(c, t, finished, done).completed <==>
            n in t.completed || (n in finished && done[n].status == Completed)
    ensures n in SettleAll(c, t, finished, done).pending <==>
            n in t.pending || (n in finished && done[n].status == WaitingResources)
  {
    if finished != [] {
      var k := |finished| - 1;
      SettleAllSets(c, t, finished[..k], done, n);
      assert n in finished <==> n in finished[..k] || n == finished[k];
    }
  }

  lemma SettleAllEvolves(c: Config, t: Tree, finished: seq<Id>, done: map<Id, Outcome>)
    requires Within(finished, t.nodes.Keys) && Within(finished, done.Keys) && NoDup(finished)
    ensures AllEvolved(t.nodes, SettleAll(c, t, finished, done).nodes)
  {
    forall n | n in t.nodes ensures Evolved(t.nodes[n], SettleAll(c, t, finished, done).nodes[n]) {
      SettleAllAt(c, t, finished, done, n);
    }
  }

  // ----- Reviewing, node by node -------------------------------------------

  lemma ReopenWriterEvolves(t: Tree, w: Id, text: string)
    requires w in t.nodes && IsWriter(t.nodes[w].agent)
    ensures AllEvolved(t.nodes, ReopenWriter(t, w, text).nodes)
  {
  }

  ghost predicate AllWriters(nodes: map<Id, Node>, ws: seq<Id>) {
    forall w :: w in ws ==> WriterAt(nodes, w)
  }

  lemma {:induction false} ReopenWritersEvolves(t: Tree, ws: seq<Id>, text: string)
    requires Within(ws, t.nodes.Keys) && AllWriters(t.nodes, ws)
    ensures AllEvolved(t.nodes, ReopenWriters(t, ws, text).nodes)
  {
    if ws != [] {
      var k := |ws| - 1;
      ReopenWritersEvolves(t, ws[..k], text);
      var m := ReopenWriters(t, ws[..k], text);
      assert WriterAt(t.nodes, ws[k]);
      ReopenWriterEvolves(m, ws[k], text);
      EvolvedTransitive(t.nodes, m.nodes, ReopenWriter(m, ws[k], text).nodes);
    }
  }

  lemma RejectedAreWriters(nodes: map<Id, Node>, id: Id, targets: map<Id, set<Id>>)
    ensures AllWriters(nodes, RejectedWriters(nodes, id, targets))
  {
    WriterAncestorsExact(nodes, id);
  }

  lemma ReviewEvolves(t: Tree, id: Id, targets: map<Id, set<Id>>)
    requires id in t.nodes
    ensures AllEvolved(t.nodes, Review(t, id, targets).nodes)
  {
    match Rejection(t.nodes[id])
    case None =>
    case Some(text) =>
      var ws := RejectedWriters(t.nodes, id, targets);
      RejectedAreWriters(t.nodes, id, targets);
      ReopenWritersEvolves(t, ws, text);
  }

  lemma {:induction false} ReviewAllEvolves(t: Tree, finished: seq<Id>, targets: map<Id, set<Id>>)
    requires Within(finished, t.nodes.Keys)
    ensures AllEvolved(t.nodes, ReviewAll(t, finished, targets).nodes)
  {
    if finished != [] {
      var k := |finished| - 1;
      ReviewAllEvolves(t, finished[..k], targets);
      var m := ReviewAll(t, finished[..k], targets);
      ReviewEvolves(m, finished[k], targets);
      EvolvedTransitive(t.nodes, m.nodes, Review(m, finished[k], targets).nodes);
    }
  }

  lemma CollectEvolves(c: Config, s: State, done: map<Id, Outcome>, targets: map<Id, set<Id>>)
    requires WellFormed(s) && NoDup(s.running)
    ensures AllEvolved(s.tree.nodes, CollectState(c, s, done, targets).tree.nodes)
  {
    var finished := Finished(s, done);
    PickNoDup(s.running, done.Keys);
    var m := SettleAll(c, s.tree, finished, done);
    SettleAllEvolves(c, s.tree, finished, done);
    ReviewAllEvolves(m, finished, targets);
    EvolvedTransitive(s.tree.nodes, m.nodes, ReviewAll(m, finished, targets).nodes);
  }

  lemma SameEvolves(n: Node, m: Node)
    requires m == n.(status := m.status, result := m.result, waiting := m.waiting,
                     resultRef := m.resultRef, recovery := m.recovery)
    ensures Evolved(n, m)
  {
  }

  lemma StoppedEvolves(c: Config, n: Node, late: Option<Outcome>, overriding: bool, keep: bool)
    ensures Evolved(n, CancelledNode(n, keep))
    ensures Evolved(n, CancelledNode(StoppedNode(c, n, late, overriding), keep))
  {
    SameEvolves(n, CancelledNode(n, keep));
    SameEvolves(n, StoppedNode(c, n, late, overriding));
    SameEvolves(n, CancelledNode(StoppedNode(c, n, late, overriding), keep));
  }

  lemma CancelEvolves(c: Config, s: State, late: map<Id, Outcome>)
    ensures AllEvolved(s.tree.nodes, CancelState(c, s, late).tree.nodes)
  {
    forall n | n in s.tree.nodes ensures Evolved(s.tree.nodes[n], CancelState(c, s, late).tree.nodes[n]) {
      StoppedEvolves(c, s.tree.nodes[n], if n in late then Some(late[n]) else None, s.phase.Waiting?, s.keepCompleted);
    }
  }

  lemma SameNodesEvolve(nodes: map<Id, Node>)
    ensures AllEvolved(nodes, nodes)
  {
    forall n | n in nodes ensures Evolved(nodes[n], nodes[n]) {
      SameEvolves(nodes[n], nodes[n]);
    }
  }

  lemma LaunchedEvolves(nodes: map<Id, Node>, ids: set<Id>)
    ensures AllEvolved(nodes, Launched(nodes, ids))
  {
  }

  lemma ClearWaitingEvolves(nodes: map<Id, Node>, ids: set<Id>)
    ensures AllEvolved(nodes, ClearWaiting(nodes, ids))
  {
  }

  lemma SkipAllEvolves(nodes: map<Id, Node>, ids: set<Id>)
    ensures AllEvolved(nodes, SkipAll(nodes, ids))
  {
  }

  lemma MountEvolves(t: Tree, extra: map<Id, Node>)
    requires extra.Keys !! t.nodes.Keys
    ensures AllEvolved(t.nodes, MountTree(t, extra).nodes)
  {
    var skipped := SkipAll(t.nodes, Superseded(t.nodes));
    SkipAllEvolves(t.nodes, Superseded(t.nodes));
    forall n | n in t.nodes ensures Evolved(t.nodes[n], MountTree(t, extra).nodes[n]) {
      assert MountTree(t, extra).nodes[n] == skipped[n];
    }
  }

  lemma ApplyEvolves(c: Config, s: State, e: Event)
    requires Inv(c, s) && Enabled(c, s, e)
    requires e.Gate? || e.Launch? || e.WaitForResources? || e.SkipRest? || e.Collect? || e.Mount? || e.CancelStop?
    ensures AllEvolved(s.tree.nodes, Apply(c, s, e).tree.nodes)
  {
    match e
    case Gate => GateEvolves(s, s.phase.rest[0]);
    case Launch => LaunchedEvolves(s.tree.nodes, Elems(s.phase.runnable));
    case WaitForResources => ClearWaitingEvolves(s.tree.nodes, Waiters(s));
    case SkipRest => SkipAllEvolves(s.tree.nodes, s.tree.pending);
    case Collect(done, targets) => CollectEvolves(c, s, done, targets);
    case Mount(extra, _) => MountEvolves(s.tree, extra);
    case CancelStop(late) => CancelEvolves(c, s, late);
  }

  /** No step other than a cut changes a node's contract or undoes its history. */
  lemma StepEvolves(c: Config, s: State, e: Event)
    requires Inv(c, s) && !e.Cut?
    ensures AllEvolved(s.tree.nodes, Step(c, s, e).tree.nodes)
  {
    if Enabled(c, s, e) &&
       (e.Gate? || e.Launch? || e.WaitForResources? || e.SkipRest? || e.Collect? || e.Mount? || e.CancelStop?) {
      ApplyEvolves(c, s, e);
    } else {
      assert Step(c, s, e).tree.nodes == s.tree.nodes;
      SameNodesEvolve(s.tree.nodes);
    }
  }

  lemma GateEvolves(s: State, id: Id)
    requires id in s.tree.nodes
    ensures AllEvolved(s.tree.nodes, GateTree(s, id).nodes)
  {
    SameNodesEvolve(s.tree.nodes);
    SameEvolves(s.tree.nodes[id], GateTree(s, id).nodes[id]);
  }

  // ----- The frozen spec decides every contract ----------------------------

  /** Every node the run knows is declared by the frozen spec, with the same
      agent, dependencies, approval and effect declarations, and instructions
      that only extend the declared ones. */
  ghost predicate DeclaredBy(spec: map<Id, Node>, nodes: map<Id, Node>) {
    && nodes.Keys == spec.Keys
    && forall n :: n in spec ==> SameContract(spec[n], nodes[n]) && spec[n].params <= nodes[n].params
  }

  ghost predicate FromSpec(s: State) { DeclaredBy(s.spec, s.tree.nodes) }

  lemma DeclaredStays(spec: map<Id, Node>, a: map<Id, Node>, b: map<Id, Node>)
    requires DeclaredBy(spec, a) && AllEvolved(a, b) && a.Keys == b.Keys
    ensures DeclaredBy(spec, b)
  {
  }

  lemma MountDeclared(t: Tree, spec: map<Id, Node>, extra: map<Id, Node>)
    requires DeclaredBy(spec, t.nodes) && extra.Keys !! t.nodes.Keys
    ensures DeclaredBy(spec + extra, MountTree(t, extra).nodes)
  {
    MountEvolves(t, extra);
    var after := MountTree(t, extra).nodes;
    assert after.Keys == t.nodes.Keys + extra.Keys;
    forall n | n in spec + extra
      ensures SameContract((spec + extra)[n], after[n]) && (spec + extra)[n].params <= after[n].params
    {
      if n in extra {
        assert after[n] == extra[n];
      } else {
        assert Evolved(t.nodes[n], after[n]);
      }
    }
  }

  lemma RestoreDeclared(spec: map<Id, Node>, saved: map<Id, Node>)
    ensures DeclaredBy(spec, RestoreAll(spec, saved))
  {
  }

  lemma StepKeys(c: Config, s: State, e: Event)
    requires !e.Cut? && !e.Mount?
    ensures Step(c, s, e).tree.nodes.Keys == s.tree.nodes.Keys
    ensures Step(c, s, e).spec == s.spec
  {
  }

  lemma StepFromSpec(c: Config, s: State, e: Event)
    requires Inv(c, s) && FromSpec(s)
    ensures FromSpec(Step(c, s, e))
  {
    if Enabled(c, s, e) && e.Cut? {
      RestoreDeclared(s.spec, CompactAll(s.tree.nodes));
    } else if Enabled(c, s, e) && e.Mount? {
      MountDeclared(s.tree, s.spec, e.extra);
    } else if Enabled(c, s, e) {
      StepEvolves(c, s, e);
      StepKeys(c, s, e);
      DeclaredStays(s.spec, s.tree.nodes, Step(c, s, e).tree.nodes);
    }
  }

  /** What a run is authorised to execute comes from the frozen spec alone, in
      every reachable state, across rework, replacement plans and cuts. */
  lemma {:induction false} RunFromSpec(c: Config, s: State, es: seq<Event>)
    requires Inv(c, s) && FromSpec(s)
    ensures FromSpec(Run(c, s, es))
  {
    if es != [] {
      RunFromSpec(c, s, es[..|es| - 1]);
      RunInv(c, s, es[..|es| - 1]);
      StepFromSpec(c, Run(c, s, es[..|es| - 1]), es[|es| - 1]);
    }
  }
}
