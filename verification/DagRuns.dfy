/** Building runs block by block: launching a batch, collecting one node. */
module DagRuns {
  import opened Prelude
  import opened DagModel

  lemma RunSnoc(c: Config, s: State, es: seq<Event>, e: Event)
    ensures Run(c, s, es + [e]) == Step(c, Run(c, s, es), e)
  {
    assert (es + [e])[..|es + [e]| - 1] == es;
  }

  lemma {:induction false} RunConcat(c: Config, s: State, a: seq<Event>, b: seq<Event>)
    ensures Run(c, s, a + b) == Run(c, Run(c, s, a), b)
  {
    if b == [] {
      assert a + b == a;
    } else {
      var k := |b| - 1;
      assert (a + b)[..|a + b| - 1] == a + b[..k];
      RunConcat(c, s, a, b[..k]);
    }
  }

  lemma RunOne(c: Config, s: State, e: Event)
    ensures Run(c, s, [e]) == Step(c, s, e)
  {
    assert [] + [e] == [e];
    RunSnoc(c, s, [], e);
  }

  // ----- Launching ------------------------------------------------------------

  function Gates(n: nat): seq<Event> { if n == 0 then [] else Gates(n - 1) + [Gate] }

  function Launching(batch: seq<Id>): seq<Event> { [SelectBatch(batch)] + Gates(|batch|) + [Launch] }

  function LaunchedState(s: State, batch: seq<Id>): State {
    s.(tree := s.tree.(nodes := Launched(s.tree.nodes, Elems(batch)), pending := s.tree.pending - Elems(batch)),
       running := s.running + batch,
       phase := Waiting)
  }

  ghost predicate Ungated(s: State, batch: seq<Id>) {
    forall n :: n in batch ==> n in s.tree.nodes && !s.tree.nodes[n].approval
  }

  lemma {:induction false} GatesOpen(c: Config, s: State, batch: seq<Id>, k: nat)
    requires WellFormed(s) && Ungated(s, batch) && k <= |batch|
    ensures Run(c, s.(phase := Gating(batch, [])), Gates(k)) == s.(phase := Gating(batch[k..], batch[..k]))
  {
    if k == 0 {
      assert batch[0..] == batch && batch[..0] == [];
    } else {
      GatesOpen(c, s, batch, k - 1);
      RunSnoc(c, s.(phase := Gating(batch, [])), Gates(k - 1), Gate);
      GateOpens(c, s, batch, k - 1);
    }
  }

  lemma GateOpens(c: Config, s: State, batch: seq<Id>, k: nat)
    requires WellFormed(s) && Ungated(s, batch) && k < |batch|
    ensures Step(c, s.(phase := Gating(batch[k..], batch[..k])), Gate) ==
              s.(phase := Gating(batch[k + 1..], batch[..k + 1]))
  {
    assert batch[k] in batch;
    assert batch[k..][0] == batch[k] && batch[k..][1..] == batch[k + 1..] && batch[..k] + [batch[k]] == batch[..k + 1];
    GateIdle(c, s.(phase := Gating(batch[k..], batch[..k])));
  }

  lemma GateIdle(c: Config, g: State)
    requires WellFormed(g) && g.phase.Gating? && g.phase.rest != [] && !g.tree.nodes[g.phase.rest[0]].approval
    ensures Step(c, g, Gate) == g.(phase := Gating(g.phase.rest[1..], g.phase.runnable + [g.phase.rest[0]]))
  {}

  lemma SelectStep(c: Config, s: State, batch: seq<Id>)
    requires WellFormed(s) && AtWork(s) && IsBatch(c, s, batch) && batch != []
    ensures Step(c, s, SelectBatch(batch)) == s.(phase := Gating(batch, []))
  {}

  lemma LaunchStep(c: Config, s: State, batch: seq<Id>)
    requires WellFormed(s) && Ungated(s, batch) && batch != []
    ensures Step(c, s.(phase := Gating([], batch)), Launch) == LaunchedState(s, batch)
  {
    assert WellFormed(s.(phase := Gating([], batch)));
  }

  /** A batch without approvals goes through the gates and starts. */
  lemma LaunchBlock(c: Config, s: State, batch: seq<Id>)
    requires WellFormed(s) && AtWork(s) && IsBatch(c, s, batch) && batch != [] && Ungated(s, batch)
    ensures Run(c, s, Launching(batch)) == LaunchedState(s, batch)
  {
    var g := s.(phase := Gating(batch, []));
    RunOne(c, s, SelectBatch(batch));
    SelectStep(c, s, batch);
    RunConcat(c, s, [SelectBatch(batch)], Gates(|batch|));
    GatesOpen(c, s, batch, |batch|);
    assert batch[|batch|..] == [] && batch[..|batch|] == batch;
    RunSnoc(c, s, [SelectBatch(batch)] + Gates(|batch|), Launch);
    LaunchStep(c, s, batch);
  }

  function Ran(n: Node, st: Status): Node { n.(status := st, attempts := n.attempts + 1) }

  /** The only ready node is launched. */
  lemma LaunchOnly(c: Config, s: State, id: Id)
    requires WellFormed(s) && AtWork(s) && ReadySet(s) == {id} && Capacity(c, s) >= 1
    requires id in s.tree.nodes && !s.tree.nodes[id].approval
    ensures Run(c, s, Launching([id])) ==
              s.(tree := s.tree.(nodes := s.tree.nodes[id := Ran(s.tree.nodes[id], Running)],
                                 pending := s.tree.pending - {id}),
                 running := s.running + [id], phase := Waiting)
  {
    assert IsBatch(c, s, [id]);
    LaunchBlock(c, s, [id]);
    assert Elems([id]) == {id};
    assert Launched(s.tree.nodes, {id}) == s.tree.nodes[id := Ran(s.tree.nodes[id], Running)];
  }

  /** The only two ready nodes are launched. */
  lemma LaunchPair(c: Config, s: State, a: Id, b: Id)
    requires WellFormed(s) && AtWork(s) && a != b && ReadySet(s) == {a, b} && Capacity(c, s) >= 2
    requires Ungated(s, [a, b])
    ensures Run(c, s, Launching([a, b])) ==
              s.(tree := s.tree.(nodes := s.tree.nodes[a := Ran(s.tree.nodes[a], Running)][b := Ran(s.tree.nodes[b], Running)],
                                 pending := s.tree.pending - {a, b}),
                 running := s.running + [a, b], phase := Waiting)
  {
    assert a in [a, b] && b in [a, b];
    assert IsBatch(c, s, [a, b]);
    LaunchBlock(c, s, [a, b]);
    assert Elems([a, b]) == {a, b};
    assert Launched(s.tree.nodes, {a, b}) ==
           s.tree.nodes[a := Ran(s.tree.nodes[a], Running)][b := Ran(s.tree.nodes[b], Running)];
  }

  /** Nothing is ready: the loop goes back to waiting for what runs. */
  const Idling: seq<Event> := [SelectBatch([])] + [Launch]

  lemma IdleBlock(c: Config, s: State)
    requires WellFormed(s) && AtWork(s) && s.running != [] && ReadySet(s) == {}
    ensures Run(c, s, Idling) == s.(phase := Waiting)
  {
    var g := s.(phase := Gating([], []));
    assert IsBatch(c, s, []);
    RunOne(c, s, SelectBatch([]));
    assert Step(c, s, SelectBatch([])) == g;
    RunSnoc(c, s, [SelectBatch([])], Launch);
    IdleLaunch(c, s);
  }

  lemma IdleLaunch(c: Config, s: State)
    requires WellFormed(s) && s.running != []
    ensures Step(c, s.(phase := Gating([], [])), Launch) == s.(phase := Waiting)
  {
    assert Launched(s.tree.nodes, {}) == s.tree.nodes;
    assert Elems<Id>([]) == {} && s.running + [] == s.running && s.tree.pending - {} == s.tree.pending;
  }

  lemma Chain(c: Config, s: State, es: seq<Event>, m: State, block: seq<Event>, r: State)
    requires Run(c, s, es) == m && Run(c, m, block) == r
    ensures Run(c, s, es + block) == r
  {
    RunConcat(c, s, es, block);
  }

  // ----- Collecting one node ------------------------------------------------------

  function CollectedOne(c: Config, s: State, id: Id, o: Outcome): State
    requires id in s.tree.nodes
  {
    s.(tree := Review(Settle(c, s.tree, id, o), id, map[]), running := Omit(s.running, {id}), phase := Collected)
  }

  lemma {:induction false} PickOne(xs: seq<Id>, id: Id)
    requires NoDup(xs)
    ensures Pick(xs, {id}) == if id in xs then [id] else []
  {
    if xs != [] {
      assert xs == xs[..|xs| - 1] + [xs[|xs| - 1]];
      PickOne(xs[..|xs| - 1], id);
    }
  }

  lemma OneSettled(c: Config, t: Tree, id: Id, done: map<Id, Outcome>)
    requires id in t.nodes && id in done
    ensures SettleAll(c, t, [id], done) == Settle(c, t, id, done[id])
  {
    assert [id][..0] == [];
  }

  lemma OneReviewed(t: Tree, id: Id)
    requires id in t.nodes
    ensures ReviewAll(t, [id], map[]) == Review(t, id, map[])
  {
    assert [id][..0] == [];
  }

  lemma CollectStep(c: Config, s: State, id: Id, o: Outcome)
    requires WellFormed(s) && s.phase.Waiting? && !s.cancelRequested && NoDup(s.running)
    requires id in s.running && LegalOutcome(o)
    ensures id in s.tree.nodes && Step(c, s, Collect(map[id := o], map[])) == CollectedOne(c, s, id, o)
  {
    var done := map[id := o];
    assert done.Keys == {id} && id in done;
    PickOne(s.running, id);
    OneSettled(c, s.tree, id, done);
    OneReviewed(Settle(c, s.tree, id, o), id);
  }

  function Collecting(id: Id, o: Outcome): seq<Event> { [Collect(map[id := o], map[])] + [Proceed] }

  /** One node is collected, nothing is cut, and the loop goes on. */
  lemma CollectBlock(c: Config, s: State, id: Id, o: Outcome)
    requires WellFormed(s) && s.phase.Waiting? && !s.cancelRequested && NoDup(s.running)
    requires id in s.running && LegalOutcome(o)
    requires id in s.tree.nodes && WellFormed(CollectedOne(c, s, id, o)) && !MustCut(c, CollectedOne(c, s, id, o))
    ensures Run(c, s, Collecting(id, o)) == CollectedOne(c, s, id, o).(phase := Top)
  {
    RunOne(c, s, Collect(map[id := o], map[]));
    CollectStep(c, s, id, o);
    RunSnoc(c, s, [Collect(map[id := o], map[])], Proceed);
    ProceedStep(c, CollectedOne(c, s, id, o));
  }

  lemma ProceedStep(c: Config, s: State)
    requires WellFormed(s) && s.phase == Collected && !MustCut(c, s)
    ensures Step(c, s, Proceed) == s.(phase := Top)
  {}

  lemma {:induction false} OmitNone(xs: seq<Id>, id: Id)
    requires id !in xs
    ensures Omit(xs, {id}) == xs
  {
    if xs != [] {
      assert xs == xs[..|xs| - 1] + [xs[|xs| - 1]];
      OmitNone(xs[..|xs| - 1], id);
    }
  }

  lemma OmitLast(xs: seq<Id>, id: Id)
    requires id !in xs
    ensures Omit(xs + [id], {id}) == xs
  {
    assert (xs + [id])[..|xs|] == xs;
    OmitNone(xs, id);
  }

  function CompletedTree(c: Config, t: Tree, id: Id, o: Outcome): Tree
    requires id in t.nodes
  {
    Tree(t.nodes[id := Record(c, Ran(t.nodes[id], Running), o)], t.pending - {id}, t.completed + {id}, t.job,
         t.sinceContinue + 1)
  }

  lemma LaunchedCollected(c: Config, s: State, id: Id, o: Outcome)
    requires id in s.tree.nodes && id !in s.running && o.status == Completed
    requires RejectionBy(s.tree.nodes[id].agent, o.result) == None
    ensures var m := s.(tree := s.tree.(nodes := s.tree.nodes[id := Ran(s.tree.nodes[id], Running)],
                                        pending := s.tree.pending - {id}),
                        running := s.running + [id], phase := Waiting);
            CollectedOne(c, m, id, o) == s.(tree := CompletedTree(c, s.tree, id, o), phase := Collected)
  {
    OmitLast(s.running, id);
    var n := Ran(s.tree.nodes[id], Running);
    assert s.tree.nodes[id := n][id := Record(c, n, o)] == s.tree.nodes[id := Record(c, n, o)];
  }

  lemma SnocNoDup(xs: seq<Id>, id: Id)
    requires NoDup(xs) && id !in xs
    ensures NoDup(xs + [id])
  {}

  /** The only ready node is launched and collected: it completes. */
  lemma RunsAndCompletes(c: Config, s: State, id: Id, o: Outcome)
    requires WellFormed(s) && AtWork(s) && ReadySet(s) == {id} && Capacity(c, s) >= 1 && NoDup(s.running)
    requires id in s.tree.nodes && !s.tree.nodes[id].approval && id !in s.running && o.status == Completed
    requires RejectionBy(s.tree.nodes[id].agent, o.result) == None
    ensures var m := s.(tree := s.tree.(nodes := s.tree.nodes[id := Ran(s.tree.nodes[id], Running)],
                                        pending := s.tree.pending - {id}),
                        running := s.running + [id], phase := Waiting);
            && Run(c, s, Launching([id])) == m
            && Run(c, m, [Collect(map[id := o], map[])]) == s.(tree := CompletedTree(c, s.tree, id, o), phase := Collected)
  {
    LaunchOnly(c, s, id);
    var m := s.(tree := s.tree.(nodes := s.tree.nodes[id := Ran(s.tree.nodes[id], Running)],
                                pending := s.tree.pending - {id}),
                running := s.running + [id], phase := Waiting);
    LaunchedCollected(c, s, id, o);
    SnocNoDup(s.running, id);
    RunOne(c, m, Collect(map[id := o], map[]));
    CollectStep(c, m, id, o);
  }

  /** The same, and the loop goes on. */
  lemma CompletesBlock(c: Config, s: State, id: Id, o: Outcome)
    requires WellFormed(s) && AtWork(s) && ReadySet(s) == {id} && Capacity(c, s) >= 1 && NoDup(s.running)
    requires id in s.tree.nodes && !s.tree.nodes[id].approval && id !in s.running && o.status == Completed
    requires RejectionBy(s.tree.nodes[id].agent, o.result) == None
    requires !MustCut(c, s.(tree := CompletedTree(c, s.tree, id, o), phase := Collected))
    ensures Run(c, s, Launching([id]) + Collecting(id, o)) == s.(tree := CompletedTree(c, s.tree, id, o))
  {
    var m := Run(c, s, Launching([id]));
    RunsAndCompletes(c, s, id, o);
    RunConcat(c, s, Launching([id]), Collecting(id, o));
    RunConcat(c, m, [Collect(map[id := o], map[])], [Proceed]);
    var r := s.(tree := CompletedTree(c, s.tree, id, o), phase := Collected);
    RunOne(c, r, Proceed);
    ProceedStep(c, r);
  }

  // ----- Writers of small trees --------------------------------------------------------

  /** A node whose only dependency is a writer with none. */
  lemma OneWriter(nodes: map<Id, Node>, id: Id, w: Id)
    requires id in nodes && nodes[id].dependsOn == [w] && WriterAt(nodes, w) && nodes[w].dependsOn == []
    ensures RejectedWriters(nodes, id, map[]) == [w]
  {
    assert w in nodes[id].dependsOn;
    assert w in Universe(nodes);
    WalkOne(nodes, w);
    assert Pick([w], {}) == [];
  }

  lemma WalkOne(nodes: map<Id, Node>, w: Id)
    requires w in Universe(nodes) && WriterAt(nodes, w) && nodes[w].dependsOn == []
    ensures Visit(nodes, [w], {}).0 == [w]
  {
    var none: set<Id> := {};
    var deps := [w];
    assert none + {w} == {w} && deps[1..] == [];
    assert DepsOf(nodes, w) == [];
    assert Visit(nodes, [], {w}) == ([], {w});
    assert Visit(nodes, deps, none).0 == [w] + [] + [];
  }
}
