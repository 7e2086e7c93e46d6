/** The scheduler's safety invariant, kept by every step of every run. */
module DagInvariants {
  import opened Prelude
  import opened DagModel
  import opened DagWriters

  /** A node is running, or pending exactly when it is not terminal. Nodes in
      limbo have left the running table and have not been settled yet. */
  ghost predicate Placed(t: Tree, running: seq<Id>, limbo: set<Id>, n: Id)
    requires n in t.nodes
  {
    if n in limbo || n in running
    then n !in t.pending && t.nodes[n].status == Running
    else n in t.pending <==> !Terminal(t.nodes[n].status)
  }

  ghost predicate PartitionedBut(t: Tree, running: seq<Id>, limbo: set<Id>) {
    && t.pending <= t.nodes.Keys
    && (forall n :: n in t.completed <==> n in t.nodes && t.nodes[n].status == Completed)
    && (forall n :: n in t.nodes ==> Placed(t, running, limbo, n))
  }

  /** Pending, running and settled nodes partition the node set, and completed is
      exactly the settled nodes with status COMPLETED. */
  ghost predicate Partitioned(t: Tree, running: seq<Id>) {
    PartitionedBut(t, running, {}) && Within(running, t.nodes.Keys) && NoDup(running)
  }

  ghost predicate Startable(t: Tree, n: Id) {
    && n in t.pending
    && n in t.nodes
    && !t.nodes[n].waiting
    && Within(t.nodes[n].dependsOn, t.completed)
  }

  ghost predicate GatingOk(c: Config, s: State) {
    s.phase.Gating? ==>
      var batch := s.phase.runnable + s.phase.rest;
      && NoDup(batch)
      && (forall n :: n in batch ==> Startable(s.tree, n))
      && |batch| + |s.running| <= Slots(c)
  }

  ghost predicate Inv(c: Config, s: State) {
    s.phase != Done ==>
      && Partitioned(s.tree, s.running)
      && |s.running| <= Slots(c)
      && GatingOk(c, s)
      && (s.phase.Waiting? ==> s.running != [])
  }

  lemma InvWellFormed(c: Config, s: State)
    requires Inv(c, s) && s.phase != Done
    ensures WellFormed(s)
  {
    if s.phase.Gating? {
      var batch := s.phase.runnable + s.phase.rest;
      forall n | n in s.phase.rest || n in s.phase.runnable ensures n in s.tree.nodes {
        assert n in batch;
      }
    }
  }

  /** A Run always starts inside the invariant. */
  lemma BeginInv(c: Config, nodes: map<Id, Node>, spec: map<Id, Node>, job: JobStatus, replanCount: int)
    ensures Inv(c, Begin(nodes, spec, job, replanCount))
  {
  }

  /** Changing one node and its own bookkeeping, and nothing else. */
  lemma OneNodeKeeps(t: Tree, r: Tree, running: seq<Id>, id: Id, limbo: set<Id>)
    requires PartitionedBut(t, running, limbo) && id in t.nodes && id in r.nodes
    requires r.nodes == t.nodes[id := r.nodes[id]]
    requires r.pending == t.pending + {id} || r.pending == t.pending - {id} || r.pending == t.pending
    requires r.completed == if r.nodes[id].status == Completed then t.completed + {id} else t.completed - {id}
    requires Placed(r, running, limbo - {id}, id)
    ensures PartitionedBut(r, running, limbo - {id})
  {
    forall n | n in r.nodes ensures Placed(r, running, limbo - {id}, n) {
      assert Placed(t, running, limbo, n);
    }
  }

  // ----- Reopening keeps the partition -------------------------------------

  lemma ReopenWriterKeeps(t: Tree, running: seq<Id>, w: Id, text: string)
    requires PartitionedBut(t, running, {}) && w in t.nodes
    ensures PartitionedBut(ReopenWriter(t, w, text), running, {})
  {
    var r := ReopenWriter(t, w, text);
    forall n | n in r.nodes ensures Placed(r, running, {}, n) {
      assert Placed(t, running, {}, n);
    }
  }

  lemma {:induction false} ReopenWritersKeeps(t: Tree, running: seq<Id>, ws: seq<Id>, text: string)
    requires PartitionedBut(t, running, {}) && Within(ws, t.nodes.Keys)
    ensures PartitionedBut(ReopenWriters(t, ws, text), running, {})
  {
    if ws != [] {
      var k := |ws| - 1;
      ReopenWritersKeeps(t, running, ws[..k], text);
      ReopenWriterKeeps(ReopenWriters(t, ws[..k], text), running, ws[k], text);
    }
  }

  lemma ReviewKeeps(t: Tree, running: seq<Id>, id: Id, targets: map<Id, set<Id>>)
    requires PartitionedBut(t, running, {}) && id in t.nodes && id !in running
    ensures PartitionedBut(Review(t, id, targets), running, {})
  {
    match Rejection(t.nodes[id])
    case None =>
    case Some(text) =>
      var ws := RejectedWriters(t.nodes, id, targets);
      ReopenWritersKeeps(t, running, ws, text);
      var m := ReopenWriters(t, ws, text);
      OneNodeKeeps(m, ReopenSelf(m, id), running, id, {});
      assert {} - {id} == {};
  }

  lemma {:induction false} ReviewAllKeeps(t: Tree, running: seq<Id>, finished: seq<Id>, targets: map<Id, set<Id>>)
    requires PartitionedBut(t, running, {}) && Within(finished, t.nodes.Keys)
    requires forall n :: n in finished ==> n !in running
    ensures PartitionedBut(ReviewAll(t, finished, targets), running, {})
  {
    if finished != [] {
      var k := |finished| - 1;
      ReviewAllKeeps(t, running, finished[..k], targets);
      ReviewKeeps(ReviewAll(t, finished[..k], targets), running, finished[k], targets);
    }
  }

  // ----- Settling empties the limbo ----------------------------------------

  lemma SettleKeeps(c: Config, t: Tree, running: seq<Id>, id: Id, o: Outcome, limbo: set<Id>)
    requires PartitionedBut(t, running, limbo) && id in t.nodes && id in limbo && id !in running && LegalOutcome(o)
    ensures PartitionedBut(Settle(c, t, id, o), running, limbo - {id})
  {
    assert Placed(t, running, limbo, id);
    OneNodeKeeps(t, Settle(c, t, id, o), running, id, limbo);
  }

  lemma {:induction false} SettleAllKeeps(c: Config, t: Tree, running: seq<Id>, finished: seq<Id>,
                                          done: map<Id, Outcome>, limbo: set<Id>)
    requires PartitionedBut(t, running, limbo) && limbo <= t.nodes.Keys
    requires Within(finished, limbo) && Within(finished, done.Keys) && NoDup(finished)
    requires forall n :: n in limbo ==> n !in running
    requires forall n :: n in done ==> LegalOutcome(done[n])
    ensures PartitionedBut(SettleAll(c, t, finished, done), running, limbo - Elems(finished))
  {
    if finished == [] {
      assert limbo - Elems(finished) == limbo;
    } else {
      var k := |finished| - 1;
      var id := finished[k];
      var left := limbo - Elems(finished[..k]);
      SettleAllKeeps(c, t, running, finished[..k], done, limbo);
      assert id in left;
      SettleKeeps(c, SettleAll(c, t, finished[..k], done), running, id, done[id], left);
      assert left - {id} == limbo - Elems(finished);
    }
  }

  lemma DropToLimbo(s: State, done: map<Id, Outcome>)
    requires Partitioned(s.tree, s.running) && LegalOutcomes(s, done)
    ensures NoDup(Finished(s, done)) && Elems(Finished(s, done)) == done.Keys
    ensures NoDup(Omit(s.running, done.Keys))
    ensures PartitionedBut(s.tree, Omit(s.running, done.Keys), done.Keys)
  {
    PickNoDup(s.running, done.Keys);
    OmitNoDup(s.running, done.Keys);
    forall n | n in s.tree.nodes ensures Placed(s.tree, Omit(s.running, done.Keys), done.Keys, n) {
      assert Placed(s.tree, s.running, {}, n);
    }
  }

  lemma CollectKeeps(c: Config, s: State, done: map<Id, Outcome>, targets: map<Id, set<Id>>)
    requires WellFormed(s) && Partitioned(s.tree, s.running) && LegalOutcomes(s, done)
    ensures Partitioned(CollectState(c, s, done, targets).tree, CollectState(c, s, done, targets).running)
  {
    DropToLimbo(s, done);
    var finished := Finished(s, done);
    var running := Omit(s.running, done.Keys);
    SettleAllKeeps(c, s.tree, running, finished, done, done.Keys);
    assert done.Keys - Elems(finished) == {};
    ReviewAllKeeps(SettleAll(c, s.tree, finished, done), running, finished, targets);
  }

  // ----- The other steps ---------------------------------------------------

  lemma GateTreeKeeps(s: State, id: Id, running: seq<Id>)
    requires PartitionedBut(s.tree, running, {}) && id in s.tree.nodes && id in s.tree.pending
    ensures PartitionedBut(GateTree(s, id), running, {})
  {
    assert Placed(s.tree, running, {}, id);
    if s.tree.nodes[id].approval {
      OneNodeKeeps(s.tree, GateTree(s, id), running, id, {});
      assert {} - {id} == {};
    }
  }

  lemma GateTreeStartable(s: State, id: Id, n: Id)
    requires id in s.tree.nodes && Startable(s.tree, n) && (GateRefuses(s, id) ==> n != id)
    ensures Startable(GateTree(s, id), n)
  {
  }

  lemma GateKeeps(c: Config, s: State)
    requires Inv(c, s) && WellFormed(s) && s.phase.Gating? && s.phase.rest != []
    ensures Inv(c, GateState(s))
  {
    var r := GateState(s);
    var id := s.phase.rest[0];
    var batch := s.phase.runnable + s.phase.rest;
    var batch' := r.phase.runnable + r.phase.rest;
    var k := |s.phase.runnable|;
    assert batch[k] == id;
    assert Startable(s.tree, id);
    GateTreeKeeps(s, id, s.running);
    if GateRefuses(s, id) {
      assert batch' == batch[..k] + batch[k + 1..];
      assert id !in batch';
    } else {
      assert batch' == batch;
    }
    forall n | n in batch' ensures Startable(r.tree, n) {
      assert n in batch;
      GateTreeStartable(s, id, n);
    }
  }

  lemma LaunchKeeps(c: Config, s: State)
    requires Inv(c, s) && s.phase.Gating? && s.phase.rest == []
    ensures Inv(c, LaunchState(s))
  {
    var r := LaunchState(s);
    var batch := s.phase.runnable + s.phase.rest;
    assert batch == s.phase.runnable;
    forall n | n in s.phase.runnable ensures n in s.tree.pending && n in s.tree.nodes && n !in s.running {
      assert n in batch;
      assert Startable(s.tree, n);
      assert Placed(s.tree, s.running, {}, n);
    }
    NoDupConcat(s.running, s.phase.runnable);
    forall n | n in r.tree.nodes ensures Placed(r.tree, r.running, {}, n) {
      assert Placed(s.tree, s.running, {}, n);
    }
  }

  lemma ClearWaitingKeeps(t: Tree, running: seq<Id>, ids: set<Id>, job: JobStatus)
    requires PartitionedBut(t, running, {})
    ensures PartitionedBut(t.(nodes := ClearWaiting(t.nodes, ids), job := job), running, {})
  {
    var r := t.(nodes := ClearWaiting(t.nodes, ids), job := job);
    forall n | n in r.nodes ensures Placed(r, running, {}, n) {
      assert Placed(t, running, {}, n);
    }
  }

  lemma MountedStatus(t: Tree, extra: map<Id, Node>, n: Id)
    requires n in MountTree(t, extra).nodes
    ensures MountTree(t, extra).nodes[n].status ==
            if n in extra then extra[n].status
            else if n in Superseded(t.nodes) then Skipped
            else t.nodes[n].status
  {
  }

  lemma MountPending(t: Tree, extra: map<Id, Node>)
    requires PartitionedBut(t, [], {})
    ensures MountTree(t, extra).pending == extra.Keys
  {
    forall n | n in t.pending ensures n in Superseded(t.nodes) {
      assert Placed(t, [], {}, n);
    }
  }

  lemma MountKeeps(t: Tree, spec: map<Id, Node>, extra: map<Id, Node>)
    requires PartitionedBut(t, [], {}) && LegalReplacement(t, spec, extra)
    ensures PartitionedBut(MountTree(t, extra), [], {})
  {
    var r := MountTree(t, extra);
    MountPending(t, extra);
    forall n | n in r.nodes
      ensures Placed(r, [], {}, n)
      ensures n in r.completed <==> r.nodes[n].status == Completed
    {
      MountedStatus(t, extra, n);
      if n in extra {
        assert Fresh(extra[n]);
      } else {
        assert Placed(t, [], {}, n);
      }
    }
  }

  lemma SelectKeeps(c: Config, s: State, batch: seq<Id>)
    requires Inv(c, s) && Enabled(c, s, SelectBatch(batch))
    ensures Inv(c, Apply(c, s, SelectBatch(batch)))
  {
    assert [] + batch == batch;
  }

  /** Every step keeps the invariant. */
  lemma StepInv(c: Config, s: State, e: Event)
    requires Inv(c, s)
    ensures Inv(c, Step(c, s, e))
  {
    if Enabled(c, s, e) && s.phase != Done {
      match e
      case SelectBatch(batch) => SelectKeeps(c, s, batch);
      case Gate => GateKeeps(c, s);
      case Launch => LaunchKeeps(c, s);
      case WaitForResources => ClearWaitingKeeps(s.tree, s.running, Waiters(s), JobRunning);
      case Collect(done, targets) => CollectKeeps(c, s, done, targets);
      case Mount(extra, count) => MountKeeps(s.tree, s.spec, extra);
      case Cut => BeginInv(c, RestoreAll(s.spec, CompactAll(s.tree.nodes)), s.spec, s.tree.job, s.replanCount);
      case _ =>
    }
  }

  /** In every reachable state the invariant holds: over every run, with every
      signal, outcome, batch order, replacement plan and cut. */
  lemma {:induction false} RunInv(c: Config, s: State, es: seq<Event>)
    requires Inv(c, s)
    ensures Inv(c, Run(c, s, es))
  {
    if es != [] {
      RunInv(c, s, es[..|es| - 1]);
      StepInv(c, Run(c, s, es[..|es| - 1]), es[|es| - 1]);
    }
  }

  /** Whatever a step puts into the running table was idle, had every dependency
      completed, and stays within the concurrency limit. */
  lemma LaunchedOnlyWhenReady(c: Config, s: State, e: Event, n: Id)
    requires Inv(c, s) && s.phase != Done
    requires n in Step(c, s, e).running && n !in s.running
    ensures e == Launch && n in s.tree.pending && n in s.tree.nodes
    ensures forall d :: d in s.tree.nodes[n].dependsOn ==> d in s.tree.nodes && s.tree.nodes[d].status == Completed
    ensures Step(c, s, e).tree.nodes[n].attempts == s.tree.nodes[n].attempts + 1
    ensures |Step(c, s, e).running| <= Max(1, c.concurrency)
  {
    if e.Launch? && Enabled(c, s, e) {
      LaunchKeeps(c, s);
      assert n in s.phase.runnable + s.phase.rest;
      assert Startable(s.tree, n);
    }
  }
}
