/** Continue-As-New: compacting, cutting and restoring is invisible to scheduling,
    and what a dependant is given still denotes the result its dependency made. */
module DagContinue {
  import opened Prelude
  import opened DagModel
  import opened DagInvariants
  import opened DagNodes
  import opened DagClosure

  /** The rebuilt nodes trust the frozen spec, whatever the saved list says: saved
      nodes the spec does not declare disappear, and a declared one contributes
      nothing but run state. */
  lemma RestoreTrustsSpec(frozen: map<Id, Node>, saved: map<Id, Node>, n: Id)
    requires n in frozen
    ensures RestoreAll(frozen, saved).Keys == frozen.Keys
    ensures var r := RestoreAll(frozen, saved)[n];
            && SameContract(r, frozen[n])
            && r.params == frozen[n].params
            && r.reviewLoops == frozen[n].reviewLoops
            && r.waiting == frozen[n].waiting
    ensures n !in saved ==> RestoreAll(frozen, saved)[n] == frozen[n]
  {
  }

  /** Cutting changes neither what is pending nor what is completed, nor any
      node's status or declared contract; the only difference to scheduling is that
      a node waiting for resources is ready again without waiting. */
  lemma CutInvisible(c: Config, s: State)
    requires Sound(c, s) && Enabled(c, s, Cut)
    ensures var r := Step(c, s, Cut);
            && r.tree.pending == s.tree.pending
            && r.tree.completed == s.tree.completed
            && r.running == s.running
            && r.tree.nodes.Keys == s.tree.nodes.Keys
            && WellFormed(r)
            && (forall n :: n in s.tree.nodes ==>
                  && r.tree.nodes[n].status == s.tree.nodes[n].status
                  && SameContract(r.tree.nodes[n], s.tree.nodes[n])
                  && r.tree.nodes[n].params == s.spec[n].params)
            && (forall n :: n in ReadySet(r) <==>
                  n in s.tree.pending && Within(s.tree.nodes[n].dependsOn, s.tree.completed))
  {
    CutSets(c, s);
    var r := Step(c, s, Cut);
    StepSound(c, s, Cut);
    InvWellFormed(c, r);
    forall n | n in s.tree.nodes
      ensures SameContract(r.tree.nodes[n], s.tree.nodes[n]) && r.tree.nodes[n].params == s.spec[n].params
              && !r.tree.nodes[n].waiting
    {
      RestoreTrustsSpec(s.spec, CompactAll(s.tree.nodes), n);
      assert n in s.spec && Fresh(s.spec[n]) && SameContract(s.spec[n], s.tree.nodes[n]);
    }
  }

  // ----- What a dependant receives ------------------------------------------

  datatype Delivery = Nothing | Body(body: Result) | Reference(ref: Option<Result>)

  /** What _run_node passes on for one dependency. */
  function Delivered(nodes: map<Id, Node>, d: Id): Delivery {
    if d !in nodes || nodes[d].status != Completed then Nothing
    else match nodes[d].result
      case Some(b) => Body(b)
      case None => Reference(nodes[d].resultRef)
  }

  /** The content behind a delivery; references are by content. */
  function Denotes(d: Delivery): Option<Result> {
    match d
    case Nothing => None
    case Body(b) => Some(b)
    case Reference(r) => r
  }

  lemma CutNode(c: Config, s: State, d: Id)
    requires Sound(c, s) && Enabled(c, s, Cut) && d in s.tree.nodes
    ensures var r := Step(c, s, Cut).tree.nodes;
            && d in r
            && r[d].status == s.tree.nodes[d].status
            && r[d].resultRef == s.tree.nodes[d].resultRef
            && r[d].result == if s.tree.nodes[d].status == Completed then None else s.tree.nodes[d].result
  {
    assert d in s.spec && Fresh(s.spec[d]);
    assert CompactAll(s.tree.nodes)[d] == Compact(s.tree.nodes[d]);
  }

  /** No completed result is lost at a cut: a body becomes a reference, a reference
      stays what it was. */
  lemma CutStillDelivers(c: Config, s: State, d: Id)
    requires Sound(c, s) && Enabled(c, s, Cut) && d in s.tree.completed
    ensures var before := Delivered(s.tree.nodes, d);
            var after := Delivered(Step(c, s, Cut).tree.nodes, d);
            && (before.Body? ==> after.Reference? && after.ref.Some?)
            && (before.Reference? ==> after == before)
  {
    CutNode(c, s, d);
  }

  /** A dependant is given the same content after the cut if and only if the stored
      reference was made from the result that completed the node. */
  lemma CutDeliversSameIff(c: Config, s: State, d: Id)
    requires Sound(c, s) && Enabled(c, s, Cut) && d in s.tree.completed && s.tree.nodes[d].result.Some?
    ensures Denotes(Delivered(Step(c, s, Cut).tree.nodes, d)) == Denotes(Delivered(s.tree.nodes, d)) <==>
            s.tree.nodes[d].resultRef == s.tree.nodes[d].result
  {
    CutNode(c, s, d);
  }

  /** When a completion leaves a reference to its own result: exactly when this
      completion's reference was stored, or an earlier one has the same content.
      The test before a cut only asks for some reference. */
  lemma RecordedRefIff(c: Config, n: Node, o: Outcome)
    requires c.longDag && o.status == Completed && o.result.Some?
    ensures Record(c, n, o).resultRef == Record(c, n, o).result <==> o.persisted || n.resultRef == o.result
  {
  }

  /** A reworked writer keeps its old reference. If storing the new one fails, the
      node still passes the test before a cut and the cut delivers the old draft. */
  lemma StaleReference(c: Config, id: Id, n: Node, prior: Result, draft: Result)
    requires c.longDag && n.resultRef == Some(prior) && prior != draft
    ensures var m := SettledNode(c, Reopened(n), Outcome(Completed, Some(draft), None, false));
            var nodes := map[id := m];
            && CanContinueAsNew(nodes)
            && Denotes(Delivered(nodes, id)) == Some(draft)
            && Denotes(Delivered(CompactAll(nodes), id)) == Some(prior)
  {
    var m := SettledNode(c, Reopened(n), Outcome(Completed, Some(draft), None, false));
    assert CompactAll(map[id := m])[id] == m.(result := None);
  }

  /** References are current: only completed nodes have one, and beside a body it is
      the reference of that body. */
  ghost predicate RefCurrent(n: Node) {
    && (n.status != Completed ==> n.resultRef == None)
    && (n.status == Completed && n.result.Some? && n.resultRef.Some? ==> n.resultRef == n.result)
  }

  ghost predicate RefsCurrent(nodes: map<Id, Node>) {
    forall n :: n in nodes ==> RefCurrent(nodes[n])
  }

  lemma CollectRefs(c: Config, s: State, done: map<Id, Outcome>, targets: map<Id, set<Id>>)
    requires WellFormed(s) && Partitioned(s.tree, s.running) && LegalOutcomes(s, done)
    requires NoRejection(s, Collect(done, targets)) && RefsCurrent(s.tree.nodes)
    ensures RefsCurrent(CollectState(c, s, done, targets).tree.nodes)
  {
    QuietCollect(c, s, done, targets);
    DropToLimbo(s, done);
    var finished := Finished(s, done);
    forall n | n in s.tree.nodes ensures RefCurrent(SettleAll(c, s.tree, finished, done).nodes[n]) {
      SettleAllAt(c, s.tree, finished, done, n);
      if n in finished {
        assert Placed(s.tree, s.running, {}, n);
        assert RefCurrent(s.tree.nodes[n]);
      }
    }
  }

  lemma CancelRefs(c: Config, s: State, late: map<Id, Outcome>)
    requires Inv(c, s) && s.phase != Done && RefsCurrent(s.tree.nodes)
    ensures RefsCurrent(CancelState(c, s, late).tree.nodes)
  {
    forall n | n in s.tree.nodes ensures RefCurrent(CancelState(c, s, late).tree.nodes[n]) {
      assert Placed(s.tree, s.running, {}, n);
      StoppedRef(c, s.tree.nodes[n], if n in late then Some(late[n]) else None, s.phase.Waiting?, s.keepCompleted);
    }
  }

  lemma StoppedRef(c: Config, n: Node, late: Option<Outcome>, overriding: bool, keep: bool)
    requires RefCurrent(n)
    ensures RefCurrent(CancelledNode(n, keep))
    ensures n.status == Running ==> RefCurrent(CancelledNode(StoppedNode(c, n, late, overriding), keep))
  {
  }

  lemma CutRefs(c: Config, s: State)
    requires Sound(c, s) && Enabled(c, s, Cut) && RefsCurrent(s.tree.nodes)
    ensures RefsCurrent(Step(c, s, Cut).tree.nodes)
  {
    var r := Step(c, s, Cut).tree.nodes;
    RestoreDeclared(s.spec, CompactAll(s.tree.nodes));
    forall n | n in r ensures RefCurrent(r[n]) {
      assert n in s.spec && n in s.tree.nodes;
      CutNode(c, s, n);
    }
  }

  lemma MarkedRefs(nodes: map<Id, Node>, id: Id, st: Status)
    requires RefsCurrent(nodes) && id in nodes && nodes[id].status != Completed && st != Completed
    ensures RefsCurrent(nodes[id := nodes[id].(status := st)])
  {
    assert RefCurrent(nodes[id]);
  }

  lemma GateRefs(c: Config, s: State)
    requires Inv(c, s) && WellFormed(s) && s.phase.Gating? && s.phase.rest != [] && RefsCurrent(s.tree.nodes)
    ensures RefsCurrent(GateState(s).tree.nodes)
  {
    var id := s.phase.rest[0];
    BatchPending(c, s, id);
    assert Placed(s.tree, s.running, {}, id);
    MarkedRefs(s.tree.nodes, id, Running);
    MarkedRefs(s.tree.nodes, id, Skipped);
  }

  lemma LaunchRefs(c: Config, s: State)
    requires Inv(c, s) && s.phase.Gating? && RefsCurrent(s.tree.nodes)
    ensures RefsCurrent(LaunchState(s).tree.nodes)
  {
    forall n | n in s.tree.nodes ensures RefCurrent(LaunchState(s).tree.nodes[n]) {
      assert Placed(s.tree, s.running, {}, n);
      assert RefCurrent(s.tree.nodes[n]);
      if n in s.phase.runnable { BatchPending(c, s, n); }
    }
  }

  lemma SkipRefs(nodes: map<Id, Node>, ids: set<Id>)
    requires RefsCurrent(nodes) && forall n :: n in ids && n in nodes ==> nodes[n].status != Completed
    ensures RefsCurrent(SkipAll(nodes, ids))
  {
    forall n | n in nodes ensures RefCurrent(SkipAll(nodes, ids)[n]) {
      assert RefCurrent(nodes[n]);
    }
  }

  lemma MountRefs(t: Tree, spec: map<Id, Node>, extra: map<Id, Node>)
    requires RefsCurrent(t.nodes) && LegalReplacement(t, spec, extra)
    ensures RefsCurrent(MountTree(t, extra).nodes)
  {
    SkipRefs(t.nodes, Superseded(t.nodes));
    var skipped := SkipAll(t.nodes, Superseded(t.nodes));
    forall n | n in MountTree(t, extra).nodes ensures RefCurrent(MountTree(t, extra).nodes[n]) {
      if n in extra { assert Fresh(extra[n]); } else { assert RefCurrent(skipped[n]); }
    }
  }

  lemma ClearRefs(nodes: map<Id, Node>, ids: set<Id>)
    requires RefsCurrent(nodes)
    ensures RefsCurrent(ClearWaiting(nodes, ids))
  {
    forall n | n in nodes ensures RefCurrent(ClearWaiting(nodes, ids)[n]) {
      assert RefCurrent(nodes[n]);
    }
  }

  lemma SkipRestRefs(c: Config, s: State)
    requires Inv(c, s) && s.phase != Done && RefsCurrent(s.tree.nodes)
    ensures RefsCurrent(SkipAll(s.tree.nodes, s.tree.pending))
  {
    forall n | n in s.tree.pending ensures s.tree.nodes[n].status != Completed {
      assert Placed(s.tree, s.running, {}, n);
    }
    SkipRefs(s.tree.nodes, s.tree.pending);
  }

  lemma StepRefsUncut(c: Config, s: State, e: Event)
    requires Inv(c, s) && s.phase != Done && NoRejection(s, e) && RefsCurrent(s.tree.nodes)
    requires Enabled(c, s, e) && !e.Cut?
    ensures RefsCurrent(Apply(c, s, e).tree.nodes)
  {
    match e
    case Gate => GateRefs(c, s);
    case Launch => LaunchRefs(c, s);
    case WaitForResources => ClearRefs(s.tree.nodes, Waiters(s));
    case SkipRest => SkipRestRefs(c, s);
    case Collect(done, targets) => CollectRefs(c, s, done, targets);
    case Mount(extra, _) => MountRefs(s.tree, s.spec, extra);
    case CancelStop(late) => CancelRefs(c, s, late);
    case _ =>
  }

  lemma StepRefs(c: Config, s: State, e: Event)
    requires Sound(c, s) && NoRejection(s, e) && RefsCurrent(s.tree.nodes)
    ensures RefsCurrent(Step(c, s, e).tree.nodes)
  {
    if s.phase == Done {
      DoneStays(c, s, e);
    } else if Enabled(c, s, e) {
      if e.Cut? { CutRefs(c, s); } else { StepRefsUncut(c, s, e); }
    }
  }

  /** In a run without rejections references never go stale. */
  lemma {:induction false} RunRefsCurrent(c: Config, s: State, es: seq<Event>)
    requires Sound(c, s) && RefsCurrent(s.tree.nodes) && RejectionFree(c, s, es)
    ensures RefsCurrent(Run(c, s, es).tree.nodes)
  {
    if es != [] {
      RunRefsCurrent(c, s, es[..|es| - 1]);
      RunSound(c, s, es[..|es| - 1]);
      StepRefs(c, Run(c, s, es[..|es| - 1]), es[|es| - 1]);
    }
  }
}
