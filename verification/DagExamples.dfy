/** Runs from a submitted job that end where the general conditions say they can: a job that
    ends waiting for resources nothing waits for, after a cut and after a mounted plan. */
module DagExamples {
  import opened Prelude
  import opened DagModel
  import opened DagRuns

  const Fine: Outcome := Outcome(Completed, None, None, false)
  const Wait: Outcome := Outcome(WaitingResources, None, None, false)

  function Bare(agent: Agent, deps: seq<Id>): Node {
    Node(agent, "", deps, false, false, Unset, None, 0, false, None, None, 0)
  }

  const Worker: Node := Bare(OtherAgent("worker"), [])

  function Two(a: Id, b: Id, x: Node, y: Node): map<Id, Node> { map[a := x, b := y] }

  function At(spec: map<Id, Node>, tree: Tree, running: seq<Id>, phase: Phase): State {
    State(tree, running, phase, false, false, true, map[], spec, 0)
  }

  /** A node as a job is submitted with it: pending. */
  function Idle(n: Node): Node { n.(status := Pending) }

  function Submitted(spec: map<Id, Node>): map<Id, Node> { map n | n in spec :: Idle(spec[n]) }

  function Start(spec: map<Id, Node>): State { Begin(Submitted(spec), spec, JobRunning, 0) }

  // ----- Waiting for nothing after a cut ------------------------------------------

  /** A long DAG, two slots, a cut after every completion. */
  const CutOften: Config := Config(2, true, 1, 1)

  /** Two workers: the first completes, the second waits for resources, the run is cut,
      and the second completes in the next run. */
  function CutRun(a: Id, b: Id): seq<Event> {
    Launching([a, b]) + (Collecting(a, Fine) + Idling) + [Collect(map[b := Wait], map[])] + [Cut]
    + (Launching([b]) + Collecting(b, Fine)) + [Exit(true, false)]
  }

  function PairSpec(a: Id, b: Id): map<Id, Node> { Two(a, b, Worker, Worker) }

  lemma PairStart(a: Id, b: Id)
    requires a != b
    ensures Start(PairSpec(a, b)) ==
              At(PairSpec(a, b), Tree(Two(a, b, Idle(Worker), Idle(Worker)), {a, b}, {}, JobRunning, 0), [], Top)
    ensures ReadySet(Start(PairSpec(a, b))) == {a, b}
  {
    var s := Start(PairSpec(a, b));
    assert s.tree.nodes == Two(a, b, Idle(Worker), Idle(Worker));
    assert s.tree.pending == {a, b} && s.tree.completed == {};
  }

  lemma PairLaunches(c: Config, a: Id, b: Id)
    requires a != b && c.concurrency == 2
    ensures Run(c, Start(PairSpec(a, b)), Launching([a, b])) ==
              At(PairSpec(a, b), Tree(Two(a, b, Ran(Worker, Running), Ran(Worker, Running)), {}, {}, JobRunning, 0),
                 [a, b], Waiting)
  {
    PairStart(a, b);
    LaunchPair(c, Start(PairSpec(a, b)), a, b);
    assert {a, b} - {a, b} == {} && [] + [a, b] == [a, b];
    assert Two(a, b, Idle(Worker), Idle(Worker))[a := Ran(Worker, Running)][b := Ran(Worker, Running)] ==
           Two(a, b, Ran(Worker, Running), Ran(Worker, Running));
  }

  /** The first of the two ends with an outcome that does not reject. */
  lemma FirstEnds(c: Config, a: Id, b: Id, o: Outcome)
    requires a != b && o.result == None && o.status in {Completed, Failed}
    ensures var s := At(PairSpec(a, b), Tree(Two(a, b, Ran(Worker, Running), Ran(Worker, Running)), {}, {}, JobRunning, 0),
                        [a, b], Waiting);
            Run(c, s, Collecting(a, o) + Idling) ==
              At(PairSpec(a, b),
                 Tree(Two(a, b, Record(c, Ran(Worker, Running), o), Ran(Worker, Running)), {},
                      if o.status == Completed then {a} else {}, JobRunning, if o.status == Completed then 1 else 0),
                 [b], Waiting)
  {
    var s := At(PairSpec(a, b), Tree(Two(a, b, Ran(Worker, Running), Ran(Worker, Running)), {}, {}, JobRunning, 0),
                [a, b], Waiting);
    assert Omit([a, b], {a}) == [b] by {
      assert [a, b][..1] == [a] && [a][..0] == [];
      assert Omit([a], {a}) == [];
    }
    assert s.tree.nodes[a := Record(c, Ran(Worker, Running), o)] ==
           Two(a, b, Record(c, Ran(Worker, Running), o), Ran(Worker, Running));
    assert {} + {a} == {a};
    CollectBlock(c, s, a, o);
    var m := CollectedOne(c, s, a, o).(phase := Top);
    IdleBlock(c, m);
    RunConcat(c, s, Collecting(a, o), Idling);
  }

  /** The second reports a resource wait. */
  lemma SecondWaits(c: Config, a: Id, b: Id, x: Node, done: set<Id>, n: nat)
    requires a != b && done <= {a}
    ensures var s := At(PairSpec(a, b), Tree(Two(a, b, x, Ran(Worker, Running)), {}, done, JobRunning, n), [b], Waiting);
            Run(c, s, [Collect(map[b := Wait], map[])]) ==
              At(PairSpec(a, b), Tree(Two(a, b, x, Ran(Worker, Pending).(waiting := true)), {b}, done,
                                      JobWaitingResources, n), [], Collected)
  {
    var s := At(PairSpec(a, b), Tree(Two(a, b, x, Ran(Worker, Running)), {}, done, JobRunning, n), [b], Waiting);
    assert Omit([b], {b}) == [] by { assert [b][..0] == []; }
    assert s.tree.nodes[b := Ran(Worker, Pending).(waiting := true)] == Two(a, b, x, Ran(Worker, Pending).(waiting := true));
    assert {} + {b} == {b};
    RunOne(c, s, Collect(map[b := Wait], map[]));
    CollectStep(c, s, b, Wait);
  }

  function CutPoint(a: Id, b: Id): State {
    At(PairSpec(a, b), Tree(Two(a, b, Ran(Worker, Completed), Ran(Worker, Pending).(waiting := true)),
                            {b}, {a}, JobWaitingResources, 1), [], Collected)
  }

  lemma PairMayCut(a: Id, b: Id)
    requires a != b
    ensures Enabled(CutOften, CutPoint(a, b), Cut)
  {
    assert b in CutPoint(a, b).tree.pending;
    assert CanContinueAsNew(CutPoint(a, b).tree.nodes);
  }

  lemma RestoreTwo(a: Id, b: Id, f: Node, g: Node, x: Node, y: Node)
    requires a != b
    ensures RestoreAll(Two(a, b, f, g), CompactAll(Two(a, b, x, y))) ==
              Two(a, b, Restore(f, Compact(x)), Restore(g, Compact(y)))
  {
    CompactTwo(a, b, x, y);
    RestorePair(a, b, f, g, Compact(x), Compact(y));
  }

  lemma CompactTwo(a: Id, b: Id, x: Node, y: Node)
    requires a != b
    ensures CompactAll(Two(a, b, x, y)) == Two(a, b, Compact(x), Compact(y))
  {}

  lemma RestorePair(a: Id, b: Id, f: Node, g: Node, x: Node, y: Node)
    requires a != b
    ensures RestoreAll(Two(a, b, f, g), Two(a, b, x, y)) == Two(a, b, Restore(f, x), Restore(g, y))
  {}

  lemma BeginTwo(a: Id, b: Id, x: Node, y: Node, spec: map<Id, Node>, job: JobStatus)
    requires a != b && x.status == Completed && y.status == Pending
    ensures Begin(Two(a, b, x, y), spec, job, 0) == At(spec, Tree(Two(a, b, x, y), {b}, {a}, job, 0), [], Top)
  {
    assert Unfinished(Two(a, b, x, y)) == {b} && WithStatus(Two(a, b, x, y), Completed) == {a};
  }

  /** The cut carries the job status over and drops the flag. */
  lemma PairIsCut(a: Id, b: Id)
    requires a != b
    ensures Run(CutOften, CutPoint(a, b), [Cut]) ==
              At(PairSpec(a, b), Tree(Two(a, b, Ran(Worker, Completed), Ran(Worker, Pending)),
                                      {b}, {a}, JobWaitingResources, 0), [], Top)
  {
    RunOne(CutOften, CutPoint(a, b), Cut);
    PairMayCut(a, b);
    CutStep(CutOften, CutPoint(a, b));
    RestoreTwo(a, b, Worker, Worker, Ran(Worker, Completed), Ran(Worker, Pending).(waiting := true));
    BeginTwo(a, b, Ran(Worker, Completed), Ran(Worker, Pending), PairSpec(a, b), JobWaitingResources);
  }

  lemma CutStep(c: Config, s: State)
    requires Enabled(c, s, Cut)
    ensures Step(c, s, Cut) == CutState(s)
  {}

  lemma LastLaunches(c: Config, spec: map<Id, Node>, t: Tree, id: Id, count: int)
    requires id in t.nodes && !t.nodes[id].approval && !t.nodes[id].waiting && t.nodes[id].dependsOn == []
    requires t.pending == {id} && t.completed <= t.nodes.Keys
    ensures var s := At(spec, t, [], Top).(replanCount := count);
            Run(c, s, Launching([id])) ==
              At(spec, t.(nodes := t.nodes[id := Ran(t.nodes[id], Running)], pending := {}), [id], Waiting)
                .(replanCount := count)
  {
    var s := At(spec, t, [], Top).(replanCount := count);
    assert id in t.pending;
    OneReady(s, id);
    LaunchOnly(c, s, id);
    assert {id} - {id} == {} && [] + [id] == [id];
  }

  lemma OneReady(s: State, id: Id)
    requires WellFormed(s) && s.tree.pending == {id} && !s.tree.nodes[id].waiting && s.tree.nodes[id].dependsOn == []
    ensures ReadySet(s) == {id}
  {}

  lemma LastCollected(c: Config, spec: map<Id, Node>, t: Tree, id: Id, count: int)
    requires id in t.nodes && t.pending == {} && t.completed <= t.nodes.Keys
    ensures var m := At(spec, t, [id], Waiting).(replanCount := count);
            Run(c, m, Collecting(id, Fine)) ==
              At(spec, t.(nodes := t.nodes[id := Record(c, t.nodes[id], Fine)], completed := t.completed + {id},
                          sinceContinue := t.sinceContinue + 1), [], Top).(replanCount := count)
  {
    var m := At(spec, t, [id], Waiting).(replanCount := count);
    assert Omit([id], {id}) == [] by { assert [id][..0] == []; }
    CollectBlock(c, m, id, Fine);
  }

  /** One pending node is launched and completes. */
  lemma LastCompletes(c: Config, spec: map<Id, Node>, t: Tree, id: Id, count: int)
    requires id in t.nodes && !t.nodes[id].approval && !t.nodes[id].waiting && t.nodes[id].dependsOn == []
    requires t.pending == {id} && t.completed <= t.nodes.Keys
    ensures var s := At(spec, t, [], Top).(replanCount := count);
            Run(c, s, Launching([id]) + Collecting(id, Fine)) ==
              At(spec, Tree(t.nodes[id := Record(c, Ran(t.nodes[id], Running), Fine)], {}, t.completed + {id}, t.job,
                            t.sinceContinue + 1), [], Top).(replanCount := count)
  {
    var s := At(spec, t, [], Top).(replanCount := count);
    LastLaunches(c, spec, t, id, count);
    var m := t.(nodes := t.nodes[id := Ran(t.nodes[id], Running)], pending := {});
    LastCollected(c, spec, m, id, count);
    RunConcat(c, s, Launching([id]), Collecting(id, Fine));
    var end := Record(c, Ran(t.nodes[id], Running), Fine);
    assert m.nodes[id := end] == t.nodes[id := end];
  }

  lemma ExitStep(c: Config, s: State)
    requires WellFormed(s) && s.phase == Top && s.tree.pending == {} && s.running == []
    ensures Run(c, s, [Exit(true, false)]) ==
              s.(tree := s.tree.(job := FinalStatus(s.tree.nodes, s.tree.job, true)), phase := Done)
  {
    RunOne(c, s, Exit(true, false));
  }

  /** The last node completes, and the status the job shows survives the exit. */
  lemma EndsWaiting(c: Config, s: State, es: seq<Event>, spec: map<Id, Node>, t: Tree, id: Id, count: int)
    requires Run(c, s, es) == At(spec, t, [], Top).(replanCount := count) && t.job == JobWaitingResources
    requires id in t.nodes && !t.nodes[id].approval && !t.nodes[id].waiting && t.nodes[id].dependsOn == []
    requires t.pending == {id} && t.completed <= t.nodes.Keys
    ensures var r := Run(c, s, es + (Launching([id]) + Collecting(id, Fine)) + [Exit(true, false)]);
            && r.phase == Done && r.tree.job == JobWaitingResources
            && r.tree.nodes == t.nodes[id := Record(c, Ran(t.nodes[id], Running), Fine)]
  {
    LastCompletes(c, spec, t, id, count);
    var m := At(spec, t, [], Top).(replanCount := count);
    var e := At(spec, Tree(t.nodes[id := Record(c, Ran(t.nodes[id], Running), Fine)], {}, t.completed + {id}, t.job,
                           t.sinceContinue + 1), [], Top).(replanCount := count);
    Chain(c, s, es, m, Launching([id]) + Collecting(id, Fine), e);
    ExitStep(c, e);
    Chain(c, s, es + (Launching([id]) + Collecting(id, Fine)), e, [Exit(true, false)], Run(c, e, [Exit(true, false)]));
  }

  /** From a submitted job: every node completes, and the job ends WAITING_RESOURCES. */
  lemma CutEndsWaiting(a: Id, b: Id)
    requires a != b
    ensures var r := Run(CutOften, Start(PairSpec(a, b)), CutRun(a, b));
            && r.phase == Done && r.tree.job == JobWaitingResources
            && forall n :: n in r.tree.nodes ==> r.tree.nodes[n].status == Completed
  {
    var spec, s := PairSpec(a, b), Start(PairSpec(a, b));
    var run, done := Ran(Worker, Running), Ran(Worker, Completed);
    var es := Launching([a, b]);
    PairLaunches(CutOften, a, b);
    FirstEnds(CutOften, a, b, Fine);
    var s1 := At(spec, Tree(Two(a, b, run, run), {}, {}, JobRunning, 0), [a, b], Waiting);
    var s2 := At(spec, Tree(Two(a, b, done, run), {}, {a}, JobRunning, 1), [b], Waiting);
    Chain(CutOften, s, es, s1, Collecting(a, Fine) + Idling, s2);
    SecondWaits(CutOften, a, b, done, {a}, 1);
    var s3 := CutPoint(a, b);
    Chain(CutOften, s, es + (Collecting(a, Fine) + Idling), s2, [Collect(map[b := Wait], map[])], s3);
    PairIsCut(a, b);
    CutEnds(a, b, s, es + (Collecting(a, Fine) + Idling) + [Collect(map[b := Wait], map[])], s3);
    assert CutRun(a, b) == es + (Collecting(a, Fine) + Idling) + [Collect(map[b := Wait], map[])] + [Cut]
                           + (Launching([b]) + Collecting(b, Fine)) + [Exit(true, false)];
  }

  lemma CutEnds(a: Id, b: Id, s: State, es: seq<Event>, s3: State)
    requires a != b && Run(CutOften, s, es) == s3
    requires var s4 := At(PairSpec(a, b), Tree(Two(a, b, Ran(Worker, Completed), Ran(Worker, Pending)),
                                               {b}, {a}, JobWaitingResources, 0), [], Top);
             Run(CutOften, s3, [Cut]) == s4
    ensures var r := Run(CutOften, s, es + [Cut] + (Launching([b]) + Collecting(b, Fine)) + [Exit(true, false)]);
            && r.phase == Done && r.tree.job == JobWaitingResources
            && forall n :: n in r.tree.nodes ==> r.tree.nodes[n].status == Completed
  {
    var spec, nodes := PairSpec(a, b), Two(a, b, Ran(Worker, Completed), Ran(Worker, Pending));
    var s4 := At(spec, Tree(nodes, {b}, {a}, JobWaitingResources, 0), [], Top);
    Chain(CutOften, s, es, s3, [Cut], s4);
    EndsWaiting(CutOften, s, es + [Cut], spec, s4.tree, b, 0);
  }

  // ----- Waiting for nothing after a mounted plan -------------------------------------

  /** Two slots, one replacement plan. */
  const Replanning: Config := Config(2, false, 20, 1)

  const Broken: Outcome := Outcome(Failed, None, Some(true), false)

  /** Two workers: the first fails and asks for a plan, the second waits for resources;
      the plan replaces both, and its only node completes. */
  function MountRun(a: Id, b: Id, x: Id): seq<Event> {
    Launching([a, b]) + (Collecting(a, Broken) + Idling) + [Collect(map[b := Wait], map[])] + [Mount(map[x := Worker], 1)]
    + (Launching([x]) + Collecting(x, Fine)) + [Exit(true, false)]
  }

  function MountPoint(a: Id, b: Id): State {
    At(PairSpec(a, b), Tree(Two(a, b, Record(Replanning, Ran(Worker, Running), Broken), Ran(Worker, Pending).(waiting := true)),
                            {b}, {}, JobWaitingResources, 0), [], Collected)
  }

  lemma PairMayMount(a: Id, b: Id, x: Id)
    requires a != b && x != a && x != b
    ensures Enabled(Replanning, MountPoint(a, b), Mount(map[x := Worker], 1))
  {
    var s := MountPoint(a, b);
    assert a in ReplanCandidates(s.tree.nodes) && x in map[x := Worker];
    assert Fresh(Worker);
    assert MayReplan(Replanning, s) && LegalReplacement(s.tree, s.spec, map[x := Worker]);
  }

  lemma MountStep(c: Config, s: State, extra: map<Id, Node>, count: int)
    requires Enabled(c, s, Mount(extra, count))
    ensures Run(c, s, [Mount(extra, count)]) == MountState(s, extra, count)
  {
    RunOne(c, s, Mount(extra, count));
  }

  lemma PairMounts(a: Id, b: Id, x: Id)
    requires a != b && x != a && x != b
    ensures var t := MountTree(MountPoint(a, b).tree, map[x := Worker]);
            && t.pending == {x} && t.completed == {} && t.job == JobWaitingResources && t.sinceContinue == 0
            && t.nodes.Keys == {a, b, x} && t.nodes[x] == Worker
            && t.nodes[a].status == Skipped && t.nodes[b].status == Skipped
  {
    var s := MountPoint(a, b);
    assert Superseded(s.tree.nodes) == {a, b};
    assert {b} - {a, b} + {x} == {x};
  }

  /** From a submitted job: the plan's only node completes, the two it replaced are skipped,
      and the job ends WAITING_RESOURCES. */
  lemma MountEndsWaiting(a: Id, b: Id, x: Id)
    requires a != b && x != a && x != b
    ensures var r := Run(Replanning, Start(PairSpec(a, b)), MountRun(a, b, x));
            && r.phase == Done && r.tree.job == JobWaitingResources && r.tree.nodes.Keys == {a, b, x}
            && r.tree.nodes[x].status == Completed
            && r.tree.nodes[a].status == Skipped && r.tree.nodes[b].status == Skipped
  {
    var spec, s := PairSpec(a, b), Start(PairSpec(a, b));
    var run, broken := Ran(Worker, Running), Record(Replanning, Ran(Worker, Running), Broken);
    var es := Launching([a, b]);
    PairLaunches(Replanning, a, b);
    FirstEnds(Replanning, a, b, Broken);
    var s1 := At(spec, Tree(Two(a, b, run, run), {}, {}, JobRunning, 0), [a, b], Waiting);
    var s2 := At(spec, Tree(Two(a, b, broken, run), {}, {}, JobRunning, 0), [b], Waiting);
    Chain(Replanning, s, es, s1, Collecting(a, Broken) + Idling, s2);
    SecondWaits(Replanning, a, b, broken, {}, 0);
    Chain(Replanning, s, es + (Collecting(a, Broken) + Idling), s2, [Collect(map[b := Wait], map[])], MountPoint(a, b));
    MountEnds(a, b, x, s, es + (Collecting(a, Broken) + Idling) + [Collect(map[b := Wait], map[])]);
  }

  lemma MountEnds(a: Id, b: Id, x: Id, s: State, es: seq<Event>)
    requires a != b && x != a && x != b && Run(Replanning, s, es) == MountPoint(a, b)
    ensures var r := Run(Replanning, s, es + [Mount(map[x := Worker], 1)] + (Launching([x]) + Collecting(x, Fine))
                                        + [Exit(true, false)]);
            && r.phase == Done && r.tree.job == JobWaitingResources && r.tree.nodes.Keys == {a, b, x}
            && r.tree.nodes[x].status == Completed
            && r.tree.nodes[a].status == Skipped && r.tree.nodes[b].status == Skipped
  {
    var m := MountPoint(a, b);
    var extra := map[x := Worker];
    PairMayMount(a, b, x);
    MountStep(Replanning, m, extra, 1);
    PairMounts(a, b, x);
    var t := MountTree(m.tree, extra);
    var s4 := At(m.spec + extra, t, [], Top).(replanCount := 1);
    Chain(Replanning, s, es, m, [Mount(extra, 1)], s4);
    EndsWaiting(Replanning, s, es + [Mount(extra, 1)], m.spec + extra, t, x, 1);
  }
}
