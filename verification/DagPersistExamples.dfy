/** A run from a submitted job in which a rejection meets a writer whose new draft is written
    back but not stored yet. */
module DagPersistExamples {
  import opened Prelude
  import opened DagModel
  import opened DagReopen
  import opened DagPersist
  import opened DagRuns
  import opened DagExamples
  import opened DagReworkExamples

  /** A long DAG with three slots. */
  const ThreeSlots: Config := Config(3, true, 20, 1)

  function Three(w: Id, a: Id, b: Id, x: Node, y: Node, z: Node): map<Id, Node> { map[w := x, a := y, b := z] }

  /** A writer and two critics of it. */
  function TrioSpec(w: Id, a: Id, b: Id): map<Id, Node> { Three(w, a, b, Author, Critic(w), Critic(w)) }

  function TrioIdle(w: Id, a: Id, b: Id): map<Id, Node> { Three(w, a, b, Idle(Author), Idle(Critic(w)), Idle(Critic(w))) }

  /** The writer drafts, both critics start, the first refuses, the writer is launched
      again. */
  function TrioRun(w: Id, a: Id, b: Id, d: Result): seq<Event> {
    (Launching([w]) + Collecting(w, Drafted(d, true))) + (Launching([a, b]) + Collecting(a, Refuses)) + Launching([w])
  }

  function DraftBack(d: Result): Node { SentBack(Draft(ThreeSlots, d), "no") }

  function Refused3(w: Id): Node { Reopened(Record(ThreeSlots, Ran(Critic(w), Running), Refuses)) }

  lemma TrioStart(w: Id, a: Id, b: Id)
    requires w != a && w != b && a != b
    ensures Start(TrioSpec(w, a, b)) == At(TrioSpec(w, a, b), Tree(TrioIdle(w, a, b), {w, a, b}, {}, JobRunning, 0), [], Top)
    ensures ReadySet(Start(TrioSpec(w, a, b))) == {w}
  {
    var s := Start(TrioSpec(w, a, b));
    assert s.tree.nodes == TrioIdle(w, a, b);
    assert s.tree.pending == {w, a, b} && s.tree.completed == {};
    assert w in s.tree.nodes[a].dependsOn && w in s.tree.nodes[b].dependsOn;
  }

  function TrioDrafted(w: Id, a: Id, b: Id, d: Result): State {
    At(TrioSpec(w, a, b),
       Tree(Three(w, a, b, Draft(ThreeSlots, d), Idle(Critic(w)), Idle(Critic(w))), {a, b}, {w}, JobRunning, 1), [], Top)
  }

  lemma TrioDrafts(w: Id, a: Id, b: Id, d: Result)
    requires w != a && w != b && a != b
    ensures Run(ThreeSlots, Start(TrioSpec(w, a, b)), Launching([w]) + Collecting(w, Drafted(d, true))) ==
              TrioDrafted(w, a, b, d)
  {
    var s := Start(TrioSpec(w, a, b));
    TrioStart(w, a, b);
    CompletesBlock(ThreeSlots, s, w, Drafted(d, true));
    DraftedTree(w, a, b, d);
  }

  lemma DraftedTree(w: Id, a: Id, b: Id, d: Result)
    requires w != a && w != b && a != b
    ensures CompletedTree(ThreeSlots, Tree(TrioIdle(w, a, b), {w, a, b}, {}, JobRunning, 0), w, Drafted(d, true)) ==
              TrioDrafted(w, a, b, d).tree
  {
    assert {w, a, b} - {w} == {a, b} && {} + {w} == {w};
    assert TrioIdle(w, a, b)[w := Draft(ThreeSlots, d)] ==
           Three(w, a, b, Draft(ThreeSlots, d), Idle(Critic(w)), Idle(Critic(w)));
  }

  function TrioReviewing(w: Id, a: Id, b: Id, d: Result): State {
    At(TrioSpec(w, a, b), Tree(Three(w, a, b, Draft(ThreeSlots, d), Ran(Critic(w), Running), Ran(Critic(w), Running)), {}, {w},
                               JobRunning, 1), [a, b], Waiting)
  }

  lemma TrioReviews(w: Id, a: Id, b: Id, d: Result)
    requires w != a && w != b && a != b
    ensures Run(ThreeSlots, TrioDrafted(w, a, b, d), Launching([a, b])) == TrioReviewing(w, a, b, d)
  {
    var s := TrioDrafted(w, a, b, d);
    assert ReadySet(s) == {a, b};
    LaunchPair(ThreeSlots, s, a, b);
    assert {a, b} - {a, b} == {} && [] + [a, b] == [a, b];
    var run := Ran(Critic(w), Running);
    assert s.tree.nodes[a := run][b := run] == Three(w, a, b, Draft(ThreeSlots, d), run, run);
  }

  function TrioRefused(w: Id, a: Id, b: Id, d: Result): State {
    At(TrioSpec(w, a, b), Tree(Three(w, a, b, DraftBack(d), Refused3(w), Ran(Critic(w), Running)), {w, a}, {}, JobRunning, 2),
       [b], Top)
  }

  lemma SettledTrio(w: Id, a: Id, b: Id, d: Result)
    requires w != a && w != b && a != b
    ensures var y := Record(ThreeSlots, Ran(Critic(w), Running), Refuses);
            Settle(ThreeSlots, TrioReviewing(w, a, b, d).tree, a, Refuses) ==
              Tree(Three(w, a, b, Draft(ThreeSlots, d), y, Ran(Critic(w), Running)), {}, {w, a}, JobRunning, 2)
  {
    var y := Record(ThreeSlots, Ran(Critic(w), Running), Refuses);
    assert TrioReviewing(w, a, b, d).tree.nodes[a := y] == Three(w, a, b, Draft(ThreeSlots, d), y, Ran(Critic(w), Running));
    assert {w} + {a} == {w, a};
  }

  lemma TrioReopens(t: Tree, w: Id, a: Id, b: Id, x: Node, y: Node, z: Node)
    requires w != a && w != b && a != b
    requires t == Tree(Three(w, a, b, x, y, z), {}, {w, a}, JobRunning, 2)
    requires CanReopen(t.nodes, w) && DirectDependents(t.nodes, w) == {a}
    ensures ReopenSelf(ReopenWriter(t, w, "no"), a) ==
              Tree(Three(w, a, b, SentBack(x, "no"), Reopened(y), z), {w, a}, {}, JobRunning, 2)
  {
    var m := ReopenWriter(t, w, "no");
    assert m.nodes == Three(w, a, b, SentBack(x, "no"), Reopened(y), z);
    assert m.nodes[a := Reopened(Reopened(y))] == m.nodes;
    assert {} + {w} + {a} + {a} == {w, a} && {w, a} - ({w} + {a}) - {a} == {};
  }

  lemma TrioDependents(t: Tree, w: Id, a: Id, b: Id, x: Node, y: Node, z: Node)
    requires w != a && w != b && a != b && t.nodes == Three(w, a, b, x, y, z)
    requires y.status == Completed && y.dependsOn == [w] && z.status == Running
    ensures DirectDependents(t.nodes, w) == {a}
  {
    assert w in y.dependsOn;
  }

  lemma FirstVerdict(t: Tree, w: Id, a: Id, b: Id, x: Node, y: Node, z: Node)
    requires w != a && w != b && a != b
    requires t == Tree(Three(w, a, b, x, y, z), {}, {w, a}, JobRunning, 2)
    requires x.agent == CodeWriter && x.dependsOn == [] && x.status == Completed && x.reviewLoops == 0
    requires y.agent == CodeReviewer && y.dependsOn == [w] && y.status == Completed && y.result == Some(Refusal)
    requires z.status == Running
    ensures Review(t, a, map[]) ==
              Tree(Three(w, a, b, SentBack(x, "no"), Reopened(y), z), {w, a}, {}, JobRunning, 2)
  {
    OneWriter(t.nodes, a, w);
    RefusedOnce(t, w, a, "no");
    TrioDependents(t, w, a, b, x, y, z);
    TrioReopens(t, w, a, b, x, y, z);
  }

  lemma TrioRefuses(w: Id, a: Id, b: Id, d: Result)
    requires w != a && w != b && a != b
    ensures Run(ThreeSlots, TrioReviewing(w, a, b, d), Collecting(a, Refuses)) == TrioRefused(w, a, b, d)
  {
    SettledTrio(w, a, b, d);
    FirstVerdict(Settle(ThreeSlots, TrioReviewing(w, a, b, d).tree, a, Refuses), w, a, b, Draft(ThreeSlots, d),
                 Record(ThreeSlots, Ran(Critic(w), Running), Refuses), Ran(Critic(w), Running));
    assert Omit([a, b], {a}) == [b] by {
      assert [a, b][..1] == [a] && [a][..0] == [];
      assert Omit([a], {a}) == [];
    }
    CollectBlock(ThreeSlots, TrioReviewing(w, a, b, d), a, Refuses);
  }

  function TrioAgain(w: Id, a: Id, b: Id, d: Result): State {
    At(TrioSpec(w, a, b), Tree(Three(w, a, b, Ran(DraftBack(d), Running), Refused3(w), Ran(Critic(w), Running)), {a}, {},
                               JobRunning, 2), [b, w], Waiting)
  }

  lemma WriterReady(w: Id, a: Id, b: Id, d: Result)
    requires w != a && w != b && a != b
    ensures ReadySet(TrioRefused(w, a, b, d)) == {w} && AtWork(TrioRefused(w, a, b, d))
  {
    var s := TrioRefused(w, a, b, d);
    assert w in s.tree.nodes[a].dependsOn && w in s.tree.pending;
  }

  lemma TrioRelaunches(w: Id, a: Id, b: Id, d: Result)
    requires w != a && w != b && a != b
    ensures Run(ThreeSlots, TrioRefused(w, a, b, d), Launching([w])) == TrioAgain(w, a, b, d)
  {
    var s := TrioRefused(w, a, b, d);
    WriterReady(w, a, b, d);
    LaunchOnly(ThreeSlots, s, w);
    RelaunchedTree(w, a, b, d);
  }

  lemma RelaunchedTree(w: Id, a: Id, b: Id, d: Result)
    requires w != a && w != b && a != b
    ensures {w, a} - {w} == {a} && [b] + [w] == [b, w]
    ensures TrioRefused(w, a, b, d).tree.nodes[w := Ran(DraftBack(d), Running)] == TrioAgain(w, a, b, d).tree.nodes
  {}

  lemma TrioReaches(w: Id, a: Id, b: Id, d: Result)
    requires w != a && w != b && a != b
    ensures Run(ThreeSlots, Start(TrioSpec(w, a, b)), TrioRun(w, a, b, d)) == TrioAgain(w, a, b, d)
  {
    var s := Start(TrioSpec(w, a, b));
    var es := Launching([w]) + Collecting(w, Drafted(d, true));
    TrioDrafts(w, a, b, d);
    TrioReviews(w, a, b, d);
    TrioRefuses(w, a, b, d);
    RunConcat(ThreeSlots, TrioDrafted(w, a, b, d), Launching([a, b]), Collecting(a, Refuses));
    Chain(ThreeSlots, s, es, TrioDrafted(w, a, b, d), Launching([a, b]) + Collecting(a, Refuses), TrioRefused(w, a, b, d));
    TrioRelaunches(w, a, b, d);
    Chain(ThreeSlots, s, es + (Launching([a, b]) + Collecting(a, Refuses)), TrioRefused(w, a, b, d), Launching([w]),
          TrioAgain(w, a, b, d));
  }

  // ----- The rejection in the window -------------------------------------------------

  function Redrafted(d: Result): Outcome { Drafted(d, true) }

  function InWindow(w: Id, a: Id, b: Id, d: Result, e: Result): Window {
    var st := Stored(Ran(DraftBack(d), Running), Redrafted(e));
    var s := TrioAgain(w, a, b, d);
    Window(s.(tree := s.tree.(nodes := Three(w, a, b, Written(ThreeSlots, st), Refused3(w), Ran(Critic(w), Running)))),
           map[w := st])
  }

  lemma WritesBack(w: Id, a: Id, b: Id, d: Result, e: Result)
    requires w != a && w != b && a != b
    ensures WStep(ThreeSlots, Window(TrioAgain(w, a, b, d), map[]), WriteBack(w, Redrafted(e))) == InWindow(w, a, b, d, e)
  {
    var st := Stored(Ran(DraftBack(d), Running), Redrafted(e));
    assert TrioAgain(w, a, b, d).tree.nodes[w := Written(ThreeSlots, st)] ==
           Three(w, a, b, Written(ThreeSlots, st), Refused3(w), Ran(Critic(w), Running));
    assert w in [b, w];
  }

  lemma WindowSettles(w: Id, a: Id, b: Id, d: Result, e: Result)
    requires w != a && w != b && a != b
    ensures var v := InWindow(w, a, b, d, e);
            && b in v.s.tree.nodes
            && WSettleAll(ThreeSlots, v.s.tree, v.storing, [b], map[b := Refuses]).nodes ==
                 Three(w, a, b, v.s.tree.nodes[w], Refused3(w), Record(ThreeSlots, Ran(Critic(w), Running), Refuses))
  {
    assert [b][..0] == [];
  }

  lemma WindowVerdict(nodes: map<Id, Node>, w: Id, a: Id, b: Id, x: Node)
    requires w != a && w != b && a != b && x.agent == CodeWriter && x.dependsOn == []
    requires x.status == Completed && x.reviewLoops < MAX_REVIEW_LOOPS
    requires nodes == Three(w, a, b, x, Refused3(w), Record(ThreeSlots, Ran(Critic(w), Running), Refuses))
    ensures w in ReopenedBy(nodes, [b], map[])
  {
    OneWriter(nodes, b, w);
    OneReopened(nodes, w, b);
  }

  lemma WindowReopens(w: Id, a: Id, b: Id, d: Result, e: Result)
    requires w != a && w != b && a != b
    ensures WellFormed(InWindow(w, a, b, d, e).s)
    ensures w in RoundReopens(ThreeSlots, InWindow(w, a, b, d, e), map[b := Refuses], map[])
  {
    var v := InWindow(w, a, b, d, e);
    assert map[b := Refuses].Keys == {b};
    PickOne([b, w], b);
    WindowSettles(w, a, b, d, e);
    WindowVerdict(WSettleAll(ThreeSlots, v.s.tree, v.storing, [b], map[b := Refuses]).nodes, w, a, b, v.s.tree.nodes[w]);
  }

  lemma OneReopened(nodes: map<Id, Node>, w: Id, b: Id)
    requires b in nodes && Rejection(nodes[b]).Some? && RejectedWriters(nodes, b, map[]) == [w] && CanReopen(nodes, w)
    ensures w in ReopenedBy(nodes, [b], map[])
  {
    assert [b][..0] == [] && [w][..0] == [];
    assert ReopenedBy(nodes, [], map[]) == {};
    assert w in SentBackFrom(nodes, {}, [w]);
  }

  lemma WindowMayCollect(w: Id, a: Id, b: Id, d: Result, e: Result)
    requires w != a && w != b && a != b
    ensures WEnabled(ThreeSlots, InWindow(w, a, b, d, e), Plain(Collect(map[b := Refuses], map[])))
  {
    assert b in map[b := Refuses] && b in [b, w] && LegalOutcome(Refuses);
  }

  /** From a submitted job: the second critic's refusal is collected while the writer's new
      draft is written back but not stored; the writer is then pending and running. */
  lemma WindowFromStart(w: Id, a: Id, b: Id, d: Result, e: Result)
    requires w != a && w != b && a != b
    ensures var r := WRun(ThreeSlots, Window(Start(TrioSpec(w, a, b)), map[]),
                          Plains(TrioRun(w, a, b, d)) + [WriteBack(w, Redrafted(e))]
                          + [Plain(Collect(map[b := Refuses], map[]))]);
            w in r.s.running && w in r.s.tree.pending && !Split(r)
  {
    var s := Window(Start(TrioSpec(w, a, b)), map[]);
    var xs := Plains(TrioRun(w, a, b, d));
    var x := Plain(Collect(map[b := Refuses], map[]));
    PlainRun(ThreeSlots, Start(TrioSpec(w, a, b)), TrioRun(w, a, b, d));
    TrioReaches(w, a, b, d);
    WRunSnoc(ThreeSlots, s, xs, WriteBack(w, Redrafted(e)));
    WritesBack(w, a, b, d, e);
    WRunSnoc(ThreeSlots, s, xs + [WriteBack(w, Redrafted(e))], x);
    WindowReopens(w, a, b, d, e);
    WindowMayCollect(w, a, b, d, e);
    OverlapAt(ThreeSlots, InWindow(w, a, b, d, e), map[b := Refuses], map[], w);
    CollectIs(ThreeSlots, InWindow(w, a, b, d, e), map[b := Refuses], map[]);
  }
}
