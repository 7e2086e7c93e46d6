/** The workflow object itself: the fields its coroutine and its signal handlers
    update, and its steps as loops over them, each proved to take exactly the step
    of the transition function. */
module DagWorkflow {
  import opened Prelude
  import opened DagModel
  import opened DagWriters
  import opened DagInvariants
  import opened DagOffers

  /** _restore_frozen_nodes: one restored node per frozen node, in order. */
  method RestoreFrozenNodes(frozen: seq<Entry>, savedNodes: seq<Entry>) returns (restored: seq<Entry>)
    ensures |restored| == |frozen|
    ensures forall i :: 0 <= i < |frozen| ==> restored[i].0 == frozen[i].0
    ensures AsMap(restored) == RestoreAll(AsMap(frozen), AsMap(savedNodes))
  {
    var saved: map<Id, Node> := map[];
    for i := 0 to |savedNodes|
      invariant saved == AsMap(savedNodes[..i])
    {
      assert savedNodes[..i + 1] == savedNodes[..i] + [savedNodes[i]];
      AsMapSnoc(savedNodes[..i], savedNodes[i]);
      saved := saved[savedNodes[i].0 := savedNodes[i].1];
    }
    assert savedNodes[..|savedNodes|] == savedNodes;
    restored := [];
    for i := 0 to |frozen|
      invariant |restored| == i
      invariant forall j :: 0 <= j < i ==> restored[j].0 == frozen[j].0
      invariant AsMap(restored) == RestoreAll(AsMap(frozen[..i]), saved)
    {
      var node := frozen[i].1;
      if frozen[i].0 in saved {
        node := Restore(node, saved[frozen[i].0]);
      }
      assert frozen[..i + 1] == frozen[..i] + [frozen[i]];
      AsMapSnoc(frozen[..i], frozen[i]);
      AsMapSnoc(restored, (frozen[i].0, node));
      RestoreUpdate(AsMap(frozen[..i]), saved, frozen[i].0, frozen[i].1);
      restored := restored + [(frozen[i].0, node)];
    }
    assert frozen[..|frozen|] == frozen;
  }

  lemma RestoreUpdate(frozen: map<Id, Node>, saved: map<Id, Node>, id: Id, n: Node)
    ensures RestoreAll(frozen[id := n], saved) ==
            RestoreAll(frozen, saved)[id := if id in saved then Restore(n, saved[id]) else n]
  {
  }

  /** _writer_ancestors: recursion over a shared set of ids already seen. */
  method ComputeWriterAncestors(nodes: map<Id, Node>, id: Id, seen: set<Id>) returns (out: seq<Id>, visited: set<Id>)
    requires Within(DepsOf(nodes, id), Universe(nodes))
    ensures (out, visited) == Visit(nodes, DepsOf(nodes, id), seen)
    decreases |Universe(nodes) - seen|
  {
    var deps := DepsOf(nodes, id);
    out, visited := [], seen;
    VisitEnds(nodes, deps, seen, out);
    for i := 0 to |deps|
      invariant seen <= visited
      invariant Within(deps[i..], Universe(nodes))
      invariant VisitFrom(nodes, deps, i, out, visited) == Visit(nodes, deps, seen)
    {
      VisitTurn(nodes, deps, i, out, visited);
      var d := deps[i];
      if d !in visited {
        SubsetCard(Universe(nodes) - visited, Universe(nodes) - seen);
        var inner, deeper := ComputeWriterAncestors(nodes, d, visited + {d});
        out := out + (if d in nodes && IsWriter(nodes[d].agent) then [d] else []) + inner;
        visited := deeper;
      }
    }
    VisitEnds(nodes, deps, visited, out);
  }

  /** What the walk still returns after the first i dependencies gave out. */
  ghost function VisitFrom(nodes: map<Id, Node>, deps: seq<Id>, i: nat, out: seq<Id>, seen: set<Id>): (seq<Id>, set<Id>)
    requires i <= |deps| && Within(deps[i..], Universe(nodes))
  {
    var rest := Visit(nodes, deps[i..], seen);
    (out + rest.0, rest.1)
  }

  lemma VisitEnds(nodes: map<Id, Node>, deps: seq<Id>, seen: set<Id>, out: seq<Id>)
    requires Within(deps, Universe(nodes))
    ensures Within(deps[0..], Universe(nodes)) && VisitFrom(nodes, deps, 0, [], seen) == Visit(nodes, deps, seen)
    ensures VisitFrom(nodes, deps, |deps|, out, seen) == (out, seen)
  {
    assert deps[0..] == deps;
    assert [] + Visit(nodes, deps, seen).0 == Visit(nodes, deps, seen).0;
    assert out + [] == out;
  }

  lemma VisitTurn(nodes: map<Id, Node>, deps: seq<Id>, i: nat, out: seq<Id>, seen: set<Id>)
    requires i < |deps| && Within(deps[i..], Universe(nodes))
    ensures Within(deps[i + 1..], Universe(nodes)) && Within(DepsOf(nodes, deps[i]), Universe(nodes))
    ensures deps[i] in seen ==>
              VisitFrom(nodes, deps, i, out, seen) == VisitFrom(nodes, deps, i + 1, out, seen)
    ensures deps[i] !in seen ==>
              var inner := Visit(nodes, DepsOf(nodes, deps[i]), seen + {deps[i]});
              var head := if WriterAt(nodes, deps[i]) then [deps[i]] else [];
              && VisitFrom(nodes, deps, i, out, seen) == VisitFrom(nodes, deps, i + 1, out + head + inner.0, inner.1)
              && |Universe(nodes) - (seen + {deps[i]})| < |Universe(nodes) - seen|
  {
    var d := deps[i];
    var tail := deps[i..];
    assert tail[0] == d && tail[1..] == deps[i + 1..];
    assert d in tail;
    DepsInUniverse(nodes, d);
    if d !in seen {
      VisitNew(nodes, tail, out, seen);
    }
  }

  lemma VisitNew(nodes: map<Id, Node>, deps: seq<Id>, out: seq<Id>, seen: set<Id>)
    requires deps != [] && Within(deps, Universe(nodes)) && deps[0] !in seen
    requires Within(DepsOf(nodes, deps[0]), Universe(nodes))
    ensures var inner := Visit(nodes, DepsOf(nodes, deps[0]), seen + {deps[0]});
            var head := if WriterAt(nodes, deps[0]) then [deps[0]] else [];
            var rest := Visit(nodes, deps[1..], inner.1);
            var all := Visit(nodes, deps, seen);
            out + all.0 == out + head + inner.0 + rest.0 && all.1 == rest.1
    ensures |Universe(nodes) - (seen + {deps[0]})| < |Universe(nodes) - seen|
  {
    var d := deps[0];
    SubsetCard(Universe(nodes) - (seen + {d}), Universe(nodes) - seen);
    var inner := Visit(nodes, DepsOf(nodes, d), seen + {d});
    var head := if WriterAt(nodes, d) then [d] else [];
    var rest := Visit(nodes, deps[1..], inner.1);
    assert Visit(nodes, deps, seen) == (head + inner.0 + rest.0, rest.1);
    ConcatAssoc(out, head, inner.0, rest.0);
  }

  lemma ConcatAssoc<T>(a: seq<T>, b: seq<T>, c: seq<T>, d: seq<T>)
    ensures a + (b + c + d) == a + b + c + d
  {
  }

  /** The writers a rejection sends back: only those the feedback names, if any. */
  method SelectWriters(nodes: map<Id, Node>, nid: Id, targets: map<Id, set<Id>>) returns (ws: seq<Id>)
    ensures ws == RejectedWriters(nodes, nid, targets)
  {
    DepsInUniverse(nodes, nid);
    var writerIds, _ := ComputeWriterAncestors(nodes, nid, {});
    var targeted := Pick(writerIds, NamedFor(targets, nid));
    ws := if targeted != [] then targeted else writerIds;
  }

  /** The pending nodes waiting for resources, and those that can start, in some order. */
  method SortPending(t: Tree) returns (waiting: set<Id>, ready: seq<Id>)
    requires t.pending <= t.nodes.Keys
    ensures forall n :: n in waiting <==> n in t.pending && t.nodes[n].waiting
    ensures NoDup(ready)
    ensures forall n :: n in ready <==> Startable(t, n)
  {
    waiting, ready := {}, [];
    var todo := t.pending;
    while todo != {}
      invariant todo <= t.pending
      invariant forall n :: n in waiting <==> n in t.pending && n !in todo && t.nodes[n].waiting
      invariant NoDup(ready)
      invariant forall n :: n in ready <==> n !in todo && Startable(t, n)
      decreases todo
    {
      var nid :| nid in todo;
      if t.nodes[nid].waiting {
        waiting := waiting + {nid};
      } else if Within(t.nodes[nid].dependsOn, t.completed) {
        ready := ready + [nid];
      }
      todo := todo - {nid};
    }
  }

  method ClearEach(nodes: map<Id, Node>, ids: set<Id>) returns (r: map<Id, Node>)
    requires ids <= nodes.Keys
    ensures r == ClearWaiting(nodes, ids)
  {
    r := nodes;
    var todo := ids;
    while todo != {}
      invariant todo <= ids && r.Keys == nodes.Keys
      invariant forall n :: n in nodes ==>
        r[n] == if n in ids && n !in todo then nodes[n].(waiting := false) else nodes[n]
      decreases todo
    {
      var nid :| nid in todo;
      r := r[nid := r[nid].(waiting := false)];
      todo := todo - {nid};
    }
  }

  /** Mark each listed node as running, and count the launch. */
  method LaunchEach(nodes: map<Id, Node>, ids: seq<Id>) returns (r: map<Id, Node>)
    requires Within(ids, nodes.Keys) && NoDup(ids)
    ensures r == Launched(nodes, Elems(ids))
  {
    r := nodes;
    for i := 0 to |ids|
      invariant r.Keys == nodes.Keys
      invariant forall n :: n in nodes ==>
        r[n] == if n in ids[..i] then nodes[n].(status := Running, attempts := nodes[n].attempts + 1) else nodes[n]
    {
      var nid := ids[i];
      assert ids[..i + 1] == ids[..i] + [nid];
      r := r[nid := r[nid].(attempts := r[nid].attempts + 1, status := Running)];
    }
    assert ids[..|ids|] == ids;
  }

  method SkipEach(nodes: map<Id, Node>, ids: set<Id>) returns (r: map<Id, Node>)
    requires ids <= nodes.Keys
    ensures r == SkipAll(nodes, ids)
  {
    r := nodes;
    var todo := ids;
    while todo != {}
      invariant todo <= ids && r.Keys == nodes.Keys
      invariant forall n :: n in nodes ==>
        r[n] == if n in ids && n !in todo then nodes[n].(status := Skipped) else nodes[n]
      decreases todo
    {
      var nid :| nid in todo;
      r := r[nid := r[nid].(status := Skipped)];
      todo := todo - {nid};
    }
  }

  /** The nodes that a replacement plan takes over, with the ids it skipped. */
  method SupersedeEach(nodes: map<Id, Node>) returns (r: map<Id, Node>, skipped: set<Id>)
    ensures skipped == Superseded(nodes)
    ensures r == SkipAll(nodes, skipped)
  {
    r, skipped := nodes, {};
    var todo := nodes.Keys;
    while todo != {}
      invariant todo <= nodes.Keys == r.Keys
      invariant forall n :: n in skipped <==> n in Superseded(nodes) && n !in todo
      invariant forall n :: n in nodes ==>
        r[n] == if n in skipped then nodes[n].(status := Skipped) else nodes[n]
      decreases todo
    {
      var nid :| nid in todo;
      if r[nid].status !in {Completed, Cancelled, Interrupted, Skipped} {
        r := r[nid := r[nid].(status := Skipped)];
        skipped := skipped + {nid};
      }
      todo := todo - {nid};
    }
  }

  /** Reset the completed direct dependents of a writer that was just sent back. */
  method ReopenDependents(nodes: map<Id, Node>, w: Id) returns (r: map<Id, Node>, reopened: set<Id>)
    requires w in nodes && nodes[w].status == Pending
    ensures reopened == DirectDependents(nodes, w)
    ensures r.Keys == nodes.Keys
    ensures forall n :: n in nodes ==> r[n] == if n in reopened then Reopened(nodes[n]) else nodes[n]
  {
    r, reopened := nodes, {};
    var todo := nodes.Keys;
    while todo != {}
      invariant todo <= nodes.Keys == r.Keys
      invariant forall n :: n in reopened <==> n in DirectDependents(nodes, w) && n !in todo
      invariant forall n :: n in nodes ==> r[n] == if n in reopened then Reopened(nodes[n]) else nodes[n]
      decreases todo
    {
      var other :| other in todo;
      if w in r[other].dependsOn && r[other].status == Completed {
        r := r[other := r[other].(status := Pending, result := None)];
        reopened := reopened + {other};
      }
      todo := todo - {other};
    }
  }

  lemma ReworkNodes(t: Tree, w: Id, text: string, reset: map<Id, Node>, ds: set<Id>)
    requires CanReopen(t.nodes, w)
    requires var sentBack := t.nodes[w := SentBack(t.nodes[w], text)];
             && ds == DirectDependents(sentBack, w)
             && reset.Keys == sentBack.Keys
             && forall n :: n in sentBack ==> reset[n] == if n in ds then Reopened(sentBack[n]) else sentBack[n]
    ensures ds == DirectDependents(t.nodes, w)
    ensures reset == ReopenWriter(t, w, text).nodes
  {
    var sentBack := t.nodes[w := SentBack(t.nodes[w], text)];
    forall m | m in t.nodes ensures m in DirectDependents(sentBack, w) <==> m in DirectDependents(t.nodes, w) {
    }
  }

  /** Frozen nodes with the compacted run state put back, as a cut rebuilds them. */
  method RebuildEach(spec: map<Id, Node>, nodes: map<Id, Node>) returns (r: map<Id, Node>)
    ensures r == RestoreAll(spec, CompactAll(nodes))
  {
    r := map[];
    var todo := spec.Keys;
    while todo != {}
      invariant todo <= spec.Keys && r.Keys == spec.Keys - todo
      invariant forall n :: n in r ==> r[n] == if n in nodes then Restore(spec[n], Compact(nodes[n])) else spec[n]
      decreases todo
    {
      var nid :| nid in todo;
      r := r[nid := if nid in nodes then Restore(spec[nid], Compact(nodes[nid])) else spec[nid]];
      todo := todo - {nid};
    }
  }

  /** One pass over the statuses: all completed, some failed. */
  method Survey(nodes: map<Id, Node>) returns (allCompleted: bool, anyFailed: bool)
    ensures allCompleted <==> forall n :: n in nodes ==> nodes[n].status == Completed
    ensures anyFailed <==> exists n :: n in nodes && nodes[n].status in {Failed, Skipped, Escalated}
  {
    allCompleted, anyFailed := true, false;
    var todo := nodes.Keys;
    while todo != {}
      invariant todo <= nodes.Keys
      invariant allCompleted <==> forall n :: n in nodes && n !in todo ==> nodes[n].status == Completed
      invariant anyFailed <==> exists n :: n in nodes && n !in todo && nodes[n].status in {Failed, Skipped, Escalated}
      decreases todo
    {
      var nid :| nid in todo;
      if nodes[nid].status != Completed {
        allCompleted := false;
      }
      if nodes[nid].status in {Failed, Skipped, Escalated} {
        anyFailed := true;
      }
      todo := todo - {nid};
    }
  }

  /** Interrupt what runs and close what is unfinished, node by node. */
  method StopEach(c: Config, s: State, late: map<Id, Outcome>) returns (r: map<Id, Node>)
    ensures r == CancelNodes(c, s, late)
  {
    var nodes := s.tree.nodes;
    r := nodes;
    var todo := nodes.Keys;
    while todo != {}
      invariant todo <= nodes.Keys == r.Keys
      invariant forall n :: n in nodes && n in todo ==> r[n] == nodes[n]
      invariant forall n :: n in nodes && n !in todo ==> r[n] == CancelledAt(c, s, late, n)
      decreases todo
    {
      var nid :| nid in todo;
      var node := nodes[nid];
      if nid in s.running {
        node := StoppedNode(c, node, if nid in late then Some(late[nid]) else None, s.phase.Waiting?);
      }
      r := r[nid := CancelledNode(node, s.keepCompleted)];
      todo := todo - {nid};
    }
  }

  /** The tests a replacement plan must pass, in the order the workflow makes them. */
  method AcceptReplan(c: Config, nodes: map<Id, Node>, spec: map<Id, Node>, replanCount: int, offer: Option<Offer>)
    returns (accepted: bool)
    ensures accepted <==>
            && replanCount < c.maxReplans
            && ReplanCandidates(nodes) != {}
            && (forall n :: n in spec ==> !spec[n].approval && !spec[n].effectful)
            && offer.Some?
            && Acceptable(offer.value)
  {
    if replanCount >= c.maxReplans || ReplanCandidates(nodes) == {} {
      return false;
    }
    if exists n :: n in spec && (spec[n].approval || spec[n].effectful) {
      return false;
    }
    if offer.None? || !offer.value.allowed || !offer.value.fingerprintMatches {
      return false;
    }
    var replacement := Named(offer.value.newSpec, offer.value.ids);
    return replacement != [] && |replacement| == |offer.value.ids|;
  }

  class AgentDagWorkflow {
    const cfg: Config
    var nodes: map<Id, Node>
    var pending: set<Id>
    var completed: set<Id>
    var running: seq<Id>
    var phase: Phase
    var jobStatus: JobStatus
    var sinceContinue: nat
    var paused: bool
    var cancelRequested: bool
    var keepCompleted: bool
    var approvals: map<Id, bool>
    var spec: map<Id, Node>
    var replanCount: int

    ghost function TreeView(): Tree
      reads this
    {
      Tree(nodes, pending, completed, jobStatus, sinceContinue)
    }

    ghost function View(): State
      reads this
    {
      State(TreeView(), running, phase, paused, cancelRequested, keepCompleted, approvals, spec, replanCount)
    }

    /** Entering a Workflow Run with restored nodes. */
    constructor (cfg: Config, restored: map<Id, Node>, spec: map<Id, Node>, job: JobStatus, replanCount: int)
      ensures this.cfg == cfg && View() == Begin(restored, spec, job, replanCount)
    {
      this.cfg := cfg;
      nodes, running, phase := restored, [], Top;
      pending, completed := Unfinished(restored), WithStatus(restored, Completed);
      paused, cancelRequested, keepCompleted := false, false, true;
      approvals, jobStatus, sinceContinue := map[], job, 0;
      this.spec, this.replanCount := spec, replanCount;
    }

    // ----- Signals ---------------------------------------------------------

    method PauseSignal()
      modifies this`paused
      ensures View() == old(View()).(paused := true)
    {
      paused := true;
    }

    method ResumeSignal()
      modifies this`paused
      ensures View() == old(View()).(paused := false)
    {
      paused := false;
    }

    method CancelSignal(keep: bool)
      modifies this`cancelRequested, this`keepCompleted
      ensures View() == old(View()).(cancelRequested := true, keepCompleted := keep)
    {
      cancelRequested, keepCompleted := true, keep;
    }

    method ApproveTask(id: Id, approved: bool)
      modifies this`approvals
      ensures View() == old(View()).(approvals := old(approvals)[id := approved])
    {
      approvals := approvals[id := approved];
    }

    // ----- Loop head -------------------------------------------------------

    /** What the loop head does when work is left and nothing stops it: select a
        batch, wait for resources, or give up on the rest. */
    method Schedule() returns (e: Event)
      requires WellFormed(View()) && AtWork(View())
      modifies this`nodes, this`jobStatus, this`phase
      ensures e.SelectBatch? || e.WaitForResources? || e.SkipRest?
      ensures Enabled(cfg, old(View()), e) && View() == Apply(cfg, old(View()), e)
    {
      var waitingResources, ready := SortPending(Tree(nodes, pending, completed, jobStatus, sinceContinue));
      var capacity := Max(0, Max(1, cfg.concurrency) - |running|);
      var batch := ready[..Min(|ready|, capacity)];
      assert IsBatch(cfg, View(), batch) by { BatchFromReady(cfg, View(), ready); }
      if batch == [] && running == [] {
        assert ready == [];
        assert waitingResources == Waiters(View()) && ReadySet(View()) == {};
        if waitingResources != {} {
          e := WaitForResources;
          nodes := ClearEach(nodes, waitingResources);
          jobStatus := JobRunning;
        } else {
          e := SkipRest;
          nodes := SkipEach(nodes, pending);
          Finalize(false);
          phase := Done;
        }
      } else {
        e := SelectBatch(batch);
        phase := Gating(batch, []);
      }
    }

    // ----- Gates and launching ---------------------------------------------

    /** One turn of the approval loop, once its wait is over. */
    method PassGate()
      requires WellFormed(View()) && phase.Gating? && phase.rest != [] && GatePasses(View(), phase.rest[0])
      modifies this`nodes, this`pending, this`jobStatus, this`phase
      ensures View() == GateState(old(View()))
    {
      var nid := phase.rest[0];
      var rest, runnable := phase.rest[1..], phase.runnable + [nid];
      if nodes[nid].approval {
        jobStatus := JobWaitingApproval;
        var status := Running;
        if !cancelRequested && !paused {
          if !(nid in approvals && approvals[nid]) {
            status := Skipped;
            pending := pending - {nid};
            runnable := phase.runnable;
          }
          jobStatus := JobRunning;
        }
        nodes := nodes[nid := nodes[nid].(status := status)];
      }
      assert TreeView() == GateTree(old(View()), nid);
      phase := Gating(rest, runnable);
    }

    /** Start every node that came through the gates. */
    method LaunchRunnable()
      requires WellFormed(View()) && phase.Gating? && phase.rest == [] && NoDup(phase.runnable)
      modifies this`nodes, this`pending, this`running, this`phase
      ensures View() == LaunchState(old(View()))
    {
      nodes := LaunchEach(nodes, phase.runnable);
      pending := pending - Elems(phase.runnable);
      running := running + phase.runnable;
      phase := if running == [] then Top else Waiting;
    }

    // ----- Collecting ------------------------------------------------------

    /** Settle the nodes that are done and act on the verdicts among them. */
    method CollectFinished(done: map<Id, Outcome>, targets: map<Id, set<Id>>)
      requires WellFormed(View())
      modifies this`nodes, this`pending, this`completed, this`jobStatus, this`sinceContinue, this`running, this`phase
      ensures View() == CollectState(cfg, old(View()), done, targets)
    {
      var finished := Pick(running, done.Keys);
      SettleFinished(finished, done);
      ReviewFinished(finished, targets);
      running := Omit(running, done.Keys);
      phase := Collected;
    }

    method SettleFinished(finished: seq<Id>, done: map<Id, Outcome>)
      requires Within(finished, nodes.Keys) && Within(finished, done.Keys)
      modifies this`nodes, this`pending, this`completed, this`jobStatus, this`sinceContinue
      ensures TreeView() == SettleAll(cfg, old(TreeView()), finished, done)
    {
      for i := 0 to |finished|
        invariant TreeView() == SettleAll(cfg, old(TreeView()), finished[..i], done)
      {
        assert finished[..i + 1][..i] == finished[..i];
        SettleNode(finished[i], done[finished[i]]);
      }
      assert finished[..|finished|] == finished;
    }

    method ReviewFinished(finished: seq<Id>, targets: map<Id, set<Id>>)
      requires Within(finished, nodes.Keys)
      modifies this`nodes, this`pending, this`completed
      ensures TreeView() == ReviewAll(old(TreeView()), finished, targets)
    {
      for i := 0 to |finished|
        invariant TreeView() == ReviewAll(old(TreeView()), finished[..i], targets)
      {
        assert finished[..i + 1][..i] == finished[..i];
        ReviewNode(finished[i], targets);
      }
      assert finished[..|finished|] == finished;
    }

    method SettleNode(nid: Id, o: Outcome)
      requires nid in nodes
      modifies this`nodes, this`pending, this`completed, this`jobStatus, this`sinceContinue
      ensures TreeView() == Settle(cfg, old(TreeView()), nid, o)
    {
      nodes := nodes[nid := Record(cfg, nodes[nid], o)];
      if nodes[nid].status == Completed {
        completed := completed + {nid};
        sinceContinue := sinceContinue + 1;
      } else if nodes[nid].status == WaitingResources {
        nodes := nodes[nid := nodes[nid].(status := Pending, waiting := true)];
        pending := pending + {nid};
        jobStatus := JobWaitingResources;
      }
    }

    /** One finished node's verdict: send the writers back, then the node itself. */
    method ReviewNode(nid: Id, targets: map<Id, set<Id>>)
      requires nid in nodes
      modifies this`nodes, this`pending, this`completed
      ensures TreeView() == Review(old(TreeView()), nid, targets)
    {
      var rejection := Rejection(nodes[nid]);
      if rejection.None? {
        return;
      }
      var writerIds := SelectWriters(nodes, nid, targets);
      for i := 0 to |writerIds|
        invariant TreeView() == ReopenWriters(old(TreeView()), writerIds[..i], rejection.value)
      {
        assert writerIds[..i + 1][..i] == writerIds[..i];
        SendBack(writerIds[i], rejection.value);
      }
      assert writerIds[..|writerIds|] == writerIds;
      nodes := nodes[nid := nodes[nid].(status := Pending, result := None)];
      pending := pending + {nid};
      completed := completed - {nid};
    }

    /** Reopen one writer, unless its rounds are used up, with its direct dependents. */
    method SendBack(w: Id, text: string)
      requires w in nodes
      modifies this`nodes, this`pending, this`completed
      ensures TreeView() == ReopenWriter(old(TreeView()), w, text)
    {
      if nodes[w].status != Completed || nodes[w].reviewLoops >= MAX_REVIEW_LOOPS {
        return;
      }
      var sentBack := nodes[w := SentBack(nodes[w], text)];
      var reset, ds := ReopenDependents(sentBack, w);
      ReworkNodes(TreeView(), w, text, reset, ds);
      nodes := reset;
      pending := pending + {w} + ds;
      completed := completed - ({w} + ds);
    }

    // ----- Replacement plans and cuts --------------------------------------

    /** Ask for, validate and mount a replacement plan; None is a failed Activity. */
    method MaybeMountStaticReplan(offer: Option<Offer>) returns (mounted: bool)
      requires running == []
      modifies this`nodes, this`pending, this`spec, this`replanCount, this`phase
      ensures mounted <==> MayReplan(cfg, old(View())) && offer.Some? && Acceptable(offer.value)
      ensures mounted ==> View() == OfferedState(old(View()), offer.value)
      ensures !mounted ==> View() == old(View())
    {
      mounted := AcceptReplan(cfg, nodes, spec, replanCount, offer);
      if mounted {
        Mount(offer.value);
      }
    }

    method Mount(offer: Offer)
      modifies this`nodes, this`pending, this`spec, this`replanCount, this`phase
      ensures View() == OfferedState(old(View()), offer)
    {
      var kept, skipped := SupersedeEach(nodes);
      nodes := kept + AsMap(Named(offer.newSpec, offer.ids));
      pending := (pending - skipped) + offer.ids;
      spec, replanCount, phase := AsMap(offer.newSpec), offer.replanCount, Top;
    }

    /** Cut the history: the next run starts from the frozen spec and the compacted
        nodes, with fresh signal state. */
    method ContinueAsNew()
      modifies this`nodes, this`pending, this`completed, this`running, this`phase, this`sinceContinue,
               this`paused, this`cancelRequested, this`keepCompleted, this`approvals
      ensures View() == CutState(old(View()))
    {
      var restored := RebuildEach(spec, nodes);
      Reenter(restored);
    }

    method Reenter(restored: map<Id, Node>)
      modifies this`nodes, this`pending, this`completed, this`running, this`phase, this`sinceContinue,
               this`paused, this`cancelRequested, this`keepCompleted, this`approvals
      ensures View() == Begin(restored, spec, jobStatus, replanCount)
    {
      nodes := restored;
      pending, completed := Unfinished(restored), WithStatus(restored, Completed);
      running, phase, sinceContinue := [], Top, 0;
      paused, cancelRequested, keepCompleted, approvals := false, false, true, map[];
    }

    // ----- Ending ----------------------------------------------------------

    /** The job status a run ends with. */
    method Finalize(hasResult: bool)
      modifies this`jobStatus
      ensures jobStatus == FinalStatus(nodes, old(jobStatus), hasResult)
    {
      if Protected(jobStatus) {
        return;
      }
      var allCompleted, anyFailed := Survey(nodes);
      if nodes != map[] && allCompleted {
        jobStatus := JobCompleted;
      } else if anyFailed {
        jobStatus := JobFailed;
      } else if nodes == map[] {
        jobStatus := if hasResult then JobCompleted else JobFailed;
      } else {
        jobStatus := JobRunning;
      }
    }

    /** Leaving the loop: answer synthesis, then the final status. */
    method Finish(hasResult: bool, synthesisFailed: bool)
      requires Enabled(cfg, View(), Exit(hasResult, synthesisFailed))
      modifies this`jobStatus, this`phase
      ensures View() == Apply(cfg, old(View()), Exit(hasResult, synthesisFailed))
    {
      if synthesisFailed {
        jobStatus := JobFailed;
      }
      Finalize(hasResult);
      phase := Done;
    }

    /** Cancellation: interrupt what runs, then close every unfinished node. */
    method StopCancelled(late: map<Id, Outcome>)
      modifies this`nodes, this`jobStatus, this`phase
      ensures View() == CancelState(cfg, old(View()), late)
    {
      var before := State(Tree(nodes, pending, completed, jobStatus, sinceContinue), running, phase, paused,
                          cancelRequested, keepCompleted, approvals, spec, replanCount);
      nodes := StopEach(cfg, before, late);
      jobStatus, phase := JobCancelled, Done;
    }
  }

  lemma BatchFromReady(c: Config, s: State, ready: seq<Id>)
    requires WellFormed(s) && NoDup(ready) && forall n :: n in ready <==> Startable(s.tree, n)
    ensures IsBatch(c, s, ready[..Min(|ready|, Capacity(c, s))])
  {
    NoDupCard(ready);
    assert Elems(ready) == ReadySet(s);
  }
}
