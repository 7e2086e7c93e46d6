/** Runs from a submitted job in which rework shows its limits: a cut delivers an old draft,
    and a node runs above a reopened one. */
module DagReworkExamples {
  import opened Prelude
  import opened DagModel
  import opened DagClosure
  import opened DagContinue
  import opened DagRuns
  import opened DagExamples

  const Author: Node := Bare(CodeWriter, [])

  function Critic(w: Id): Node { Bare(CodeReviewer, [w]) }

  const Refusal: Result := Result(Some(false), None, "no")
  const Refuses: Outcome := Outcome(Completed, Some(Refusal), None, false)

  function Drafted(d: Result, stored: bool): Outcome { Outcome(Completed, Some(d), None, stored) }

  // ----- An old draft is delivered ---------------------------------------------

  /** A long DAG, one slot, a cut after three completions. */
  const CutThird: Config := Config(1, true, 3, 1)

  function DraftSpec(w: Id, r: Id): map<Id, Node> { Two(w, r, Author, Critic(w)) }

  /** The writer drafts, the draft is stored, the critic refuses it, the writer drafts
      again, and storing the new draft fails. */
  function DraftRun(w: Id, r: Id, first: Result, second: Result): seq<Event> {
    (Launching([w]) + Collecting(w, Drafted(first, true))) + (Launching([r]) + Collecting(r, Refuses))
    + (Launching([w]) + [Collect(map[w := Drafted(second, false)], map[])])
  }

  function Draft(c: Config, first: Result): Node { Record(c, Ran(Author, Running), Drafted(first, true)) }

  function Redraft(c: Config, first: Result, second: Result): Node {
    Record(c, Ran(SentBack(Draft(c, first), "no"), Running), Drafted(second, false))
  }

  function CriticAgain(c: Config, w: Id): Node { Reopened(Record(c, Ran(Critic(w), Running), Refuses)) }

  lemma DraftStart(w: Id, r: Id)
    requires w != r
    ensures Start(DraftSpec(w, r)) ==
              At(DraftSpec(w, r), Tree(Two(w, r, Idle(Author), Idle(Critic(w))), {w, r}, {}, JobRunning, 0), [], Top)
    ensures ReadySet(Start(DraftSpec(w, r))) == {w}
  {
    var s := Start(DraftSpec(w, r));
    assert s.tree.nodes == Two(w, r, Idle(Author), Idle(Critic(w)));
    assert s.tree.pending == {w, r} && s.tree.completed == {};
    assert w in s.tree.nodes[r].dependsOn;
  }

  lemma FirstDraft(w: Id, r: Id, first: Result)
    requires w != r
    ensures Run(CutThird, Start(DraftSpec(w, r)), Launching([w]) + Collecting(w, Drafted(first, true))) ==
              At(DraftSpec(w, r), Tree(Two(w, r, Draft(CutThird, first), Idle(Critic(w))), {r}, {w}, JobRunning, 1), [], Top)
  {
    var s := Start(DraftSpec(w, r));
    DraftStart(w, r);
    CompletesBlock(CutThird, s, w, Drafted(first, true));
    FirstTree(w, r, first);
  }

  lemma FirstTree(w: Id, r: Id, first: Result)
    requires w != r
    ensures CompletedTree(CutThird, Tree(Two(w, r, Idle(Author), Idle(Critic(w))), {w, r}, {}, JobRunning, 0), w,
                          Drafted(first, true)) ==
              Tree(Two(w, r, Draft(CutThird, first), Idle(Critic(w))), {r}, {w}, JobRunning, 1)
  {
    assert {w, r} - {w} == {r} && {} + {w} == {w};
    assert Two(w, r, Idle(Author), Idle(Critic(w)))[w := Draft(CutThird, first)] ==
           Two(w, r, Draft(CutThird, first), Idle(Critic(w)));
  }

  lemma ReopenBoth(t: Tree, w: Id, r: Id, x: Node, y: Node, text: string)
    requires w != r && t.nodes == Two(w, r, x, y) && CanReopen(t.nodes, w) && DirectDependents(t.nodes, w) == {r}
    ensures ReopenWriter(t, w, text) ==
              Tree(Two(w, r, SentBack(x, text), Reopened(y)), t.pending + {w} + {r}, t.completed - ({w} + {r}), t.job,
                   t.sinceContinue)
  {
    assert ReopenWriter(t, w, text).nodes == Two(w, r, SentBack(x, text), Reopened(y));
  }

  lemma SelfAgain(t: Tree, w: Id, r: Id, x: Node, y: Node)
    requires w != r && t.nodes == Two(w, r, x, Reopened(y)) && t.pending == {w, r} && t.completed == {}
    ensures ReopenSelf(t, r) == t
  {
    assert Two(w, r, x, Reopened(y))[r := Reopened(Reopened(y))] == t.nodes;
    assert {w, r} + {r} == {w, r};
  }

  /** The critic's verdict reopens the writer and the critic. */
  lemma RefusalReopens(t: Tree, w: Id, r: Id, x: Node, y: Node)
    requires w != r && t.nodes == Two(w, r, x, y) && t.pending == {} && t.completed == {w, r}
    requires x.agent == CodeWriter && x.dependsOn == [] && x.status == Completed && x.reviewLoops == 0
    requires y.agent == CodeReviewer && y.dependsOn == [w] && y.status == Completed && y.result == Some(Refusal)
    ensures Review(t, r, map[]) ==
              Tree(Two(w, r, SentBack(x, "no"), Reopened(y)), {w, r}, {}, t.job, t.sinceContinue)
  {
    OneWriter(t.nodes, r, w);
    assert DirectDependents(t.nodes, w) == {r} by { assert w in y.dependsOn; }
    RefusedOnce(t, w, r, "no");
    ReopenBoth(t, w, r, x, y, "no");
    assert {} + {w} + {r} == {w, r} && {w, r} - ({w} + {r}) == {};
    SelfAgain(ReopenWriter(t, w, "no"), w, r, SentBack(x, "no"), y);
  }

  lemma RefusedOnce(t: Tree, w: Id, r: Id, text: string)
    requires r in t.nodes && w in t.nodes && Rejection(t.nodes[r]) == Some(text)
    requires RejectedWriters(t.nodes, r, map[]) == [w]
    ensures Review(t, r, map[]) == ReopenSelf(ReopenWriter(t, w, text), r)
  {
    assert [w][..0] == [];
    assert ReopenWriters(t, [w], text) == ReopenWriter(t, w, text);
  }

  function Refused(w: Id, r: Id, first: Result): State {
    At(DraftSpec(w, r), Tree(Two(w, r, SentBack(Draft(CutThird, first), "no"), CriticAgain(CutThird, w)),
                             {w, r}, {}, JobRunning, 2), [], Top)
  }

  lemma CriticLaunches(w: Id, r: Id, first: Result)
    requires w != r
    ensures var s := At(DraftSpec(w, r), Tree(Two(w, r, Draft(CutThird, first), Idle(Critic(w))), {r}, {w}, JobRunning, 1),
                        [], Top);
            Run(CutThird, s, Launching([r])) ==
              At(DraftSpec(w, r), Tree(Two(w, r, Draft(CutThird, first), Ran(Critic(w), Running)), {}, {w}, JobRunning, 1),
                 [r], Waiting)
  {
    var s := At(DraftSpec(w, r), Tree(Two(w, r, Draft(CutThird, first), Idle(Critic(w))), {r}, {w}, JobRunning, 1), [], Top);
    assert ReadySet(s) == {r};
    assert r in s.tree.pending;
    LaunchOnly(CutThird, s, r);
    assert {r} - {r} == {} && [] + [r] == [r];
    assert s.tree.nodes[r := Ran(Critic(w), Running)] == Two(w, r, Draft(CutThird, first), Ran(Critic(w), Running));
  }

  lemma CriticRefuses(w: Id, r: Id, first: Result)
    requires w != r
    ensures var m := At(DraftSpec(w, r), Tree(Two(w, r, Draft(CutThird, first), Ran(Critic(w), Running)), {}, {w},
                                              JobRunning, 1), [r], Waiting);
            Run(CutThird, m, Collecting(r, Refuses)) == Refused(w, r, first)
  {
    var run := Ran(Critic(w), Running);
    var y := Record(CutThird, run, Refuses);
    var m := At(DraftSpec(w, r), Tree(Two(w, r, Draft(CutThird, first), run), {}, {w}, JobRunning, 1), [r], Waiting);
    var t := Settle(CutThird, m.tree, r, Refuses);
    assert m.tree.nodes[r := y] == Two(w, r, Draft(CutThird, first), y);
    assert {w} + {r} == {w, r};
    RefusalReopens(t, w, r, Draft(CutThird, first), y);
    assert Omit([r], {r}) == [] by { assert [r][..0] == []; }
    CollectBlock(CutThird, m, r, Refuses);
  }

  /** The state in which the cut is due: the new draft is there, the old reference too. */
  lemma SecondTree(w: Id, r: Id, first: Result, second: Result)
    requires w != r
    ensures CompletedTree(CutThird, Refused(w, r, first).tree, w, Drafted(second, false)) ==
              Tree(Two(w, r, Redraft(CutThird, first, second), CriticAgain(CutThird, w)), {r}, {w}, JobRunning, 3)
  {
    assert {w, r} - {w} == {r} && {} + {w} == {w};
    assert Refused(w, r, first).tree.nodes[w := Redraft(CutThird, first, second)] ==
           Two(w, r, Redraft(CutThird, first, second), CriticAgain(CutThird, w));
  }

  lemma SecondDraft(w: Id, r: Id, first: Result, second: Result)
    requires w != r
    ensures Run(CutThird, Refused(w, r, first), Launching([w]) + [Collect(map[w := Drafted(second, false)], map[])]) ==
              At(DraftSpec(w, r), Tree(Two(w, r, Redraft(CutThird, first, second), CriticAgain(CutThird, w)),
                                       {r}, {w}, JobRunning, 3), [], Collected)
  {
    var s := Refused(w, r, first);
    assert ReadySet(s) == {w} by { assert w in s.tree.nodes[r].dependsOn; }
    assert w in s.tree.pending;
    RunsAndCompletes(CutThird, s, w, Drafted(second, false));
    RunConcat(CutThird, s, Launching([w]), [Collect(map[w := Drafted(second, false)], map[])]);
    SecondTree(w, r, first, second);
  }

  lemma DraftRunEnds(w: Id, r: Id, first: Result, second: Result)
    requires w != r
    ensures Run(CutThird, Start(DraftSpec(w, r)), DraftRun(w, r, first, second)) ==
              At(DraftSpec(w, r), Tree(Two(w, r, Redraft(CutThird, first, second), CriticAgain(CutThird, w)),
                                       {r}, {w}, JobRunning, 3), [], Collected)
  {
    var s := Start(DraftSpec(w, r));
    var es := Launching([w]) + Collecting(w, Drafted(first, true));
    FirstDraft(w, r, first);
    var s1 := Run(CutThird, s, es);
    CriticLaunches(w, r, first);
    CriticRefuses(w, r, first);
    RunConcat(CutThird, s1, Launching([r]), Collecting(r, Refuses));
    RunConcat(CutThird, s, es, Launching([r]) + Collecting(r, Refuses));
    SecondDraft(w, r, first, second);
    RunConcat(CutThird, s, es + (Launching([r]) + Collecting(r, Refuses)),
              Launching([w]) + [Collect(map[w := Drafted(second, false)], map[])]);
  }

  /** From a submitted job: the run is due to be cut, a dependant of the writer would be given
      the second draft before the cut, and is given the first one after it. */
  lemma StaleFromStart(w: Id, r: Id, first: Result, second: Result)
    requires w != r && first != second
    ensures var m := Run(CutThird, Start(DraftSpec(w, r)), DraftRun(w, r, first, second));
            && Enabled(CutThird, m, Cut) && w in m.tree.completed
            && Denotes(Delivered(m.tree.nodes, w)) == Some(second)
            && Denotes(Delivered(Step(CutThird, m, Cut).tree.nodes, w)) == Some(first)
  {
    DraftRunEnds(w, r, first, second);
    var m := Run(CutThird, Start(DraftSpec(w, r)), DraftRun(w, r, first, second));
    DraftMayCut(w, r, first, second, m);
    CutStep(CutThird, m);
    RestoreTwo(w, r, Author, Critic(w), Redraft(CutThird, first, second), CriticAgain(CutThird, w));
  }

  lemma DraftMayCut(w: Id, r: Id, first: Result, second: Result, m: State)
    requires w != r
    requires m == At(DraftSpec(w, r), Tree(Two(w, r, Redraft(CutThird, first, second), CriticAgain(CutThird, w)),
                                           {r}, {w}, JobRunning, 3), [], Collected)
    ensures Enabled(CutThird, m, Cut)
  {
    assert r in m.tree.pending;
    assert CanContinueAsNew(m.tree.nodes);
  }

  // ----- A node runs above a reopened one --------------------------------------------

  const TwoSlots: Config := Config(2, false, 20, 1)

  /** writer <- tester <- publisher, and a critic of the writer. */
  datatype Cast = Cast(w: Id, t: Id, r: Id, p: Id) {
    predicate Distinct() { w != t && w != r && w != p && t != r && t != p && r != p }
  }

  function Four(k: Cast, x: Node, y: Node, z: Node, u: Node): map<Id, Node> {
    map[k.w := x, k.t := y, k.r := z, k.p := u]
  }

  function Tester(k: Cast): Node { Bare(CodeTester, [k.w]) }

  function Publisher(k: Cast): Node { Bare(OtherAgent("publish"), [k.t]) }

  function CastSpec(k: Cast): map<Id, Node> { Four(k, Author, Tester(k), Critic(k.w), Publisher(k)) }

  function CastIdle(k: Cast): map<Id, Node> {
    Four(k, Idle(Author), Idle(Tester(k)), Idle(Critic(k.w)), Idle(Publisher(k)))
  }

  /** The writer completes; critic and tester start, and the tester passes; the publisher
      starts, and the critic refuses. */
  function PublishRun(k: Cast): seq<Event> {
    (Launching([k.w]) + Collecting(k.w, Fine)) + (Launching([k.r, k.t]) + Collecting(k.t, Fine)) + Launching([k.p])
    + [Collect(map[k.r := Refuses], map[])]
  }

  function Fined(n: Node): Node { Record(TwoSlots, Ran(n, Running), Fine) }

  lemma CastSubmitted(k: Cast)
    requires k.Distinct()
    ensures Submitted(CastSpec(k)) == CastIdle(k)
  {
  }

  lemma CastStart(k: Cast)
    requires k.Distinct()
    ensures Start(CastSpec(k)) == At(CastSpec(k), Tree(CastIdle(k), {k.w, k.t, k.r, k.p}, {}, JobRunning, 0), [], Top)
    ensures ReadySet(Start(CastSpec(k))) == {k.w}
  {
    CastSubmitted(k);
    assert Unfinished(CastIdle(k)) == {k.w, k.t, k.r, k.p} && WithStatus(CastIdle(k), Completed) == {};
    CastReady(k);
  }

  lemma CastReady(k: Cast)
    requires k.Distinct()
    ensures ReadySet(At(CastSpec(k), Tree(CastIdle(k), {k.w, k.t, k.r, k.p}, {}, JobRunning, 0), [], Top)) == {k.w}
  {
    assert k.w in Tester(k).dependsOn && k.w in Critic(k.w).dependsOn && k.t in Publisher(k).dependsOn;
  }

  function AfterWriter(k: Cast): State {
    At(CastSpec(k), Tree(Four(k, Fined(Author), Idle(Tester(k)), Idle(Critic(k.w)), Idle(Publisher(k))), {k.t, k.r, k.p},
                         {k.w}, JobRunning, 1), [], Top)
  }

  lemma WriterDone(k: Cast)
    requires k.Distinct()
    ensures Run(TwoSlots, Start(CastSpec(k)), Launching([k.w]) + Collecting(k.w, Fine)) == AfterWriter(k)
  {
    var s := Start(CastSpec(k));
    CastStart(k);
    CompletesBlock(TwoSlots, s, k.w, Fine);
    WrittenTree(k);
  }

  lemma WrittenTree(k: Cast)
    requires k.Distinct()
    ensures CompletedTree(TwoSlots, Tree(CastIdle(k), {k.w, k.t, k.r, k.p}, {}, JobRunning, 0), k.w, Fine) ==
              AfterWriter(k).tree
  {
    assert {k.w, k.t, k.r, k.p} - {k.w} == {k.t, k.r, k.p} && {} + {k.w} == {k.w};
    assert CastIdle(k)[k.w := Fined(Author)] == Four(k, Fined(Author), Idle(Tester(k)), Idle(Critic(k.w)), Idle(Publisher(k)));
  }

  function BothRun(k: Cast): State {
    At(CastSpec(k), Tree(Four(k, Fined(Author), Ran(Tester(k), Running), Ran(Critic(k.w), Running), Idle(Publisher(k))), {k.p},
                         {k.w}, JobRunning, 1), [k.r, k.t], Waiting)
  }

  lemma WrittenReady(k: Cast)
    requires k.Distinct()
    ensures ReadySet(AfterWriter(k)) == {k.r, k.t}
  {
    assert k.t in Publisher(k).dependsOn;
  }

  lemma BothStart(k: Cast)
    requires k.Distinct()
    ensures Run(TwoSlots, AfterWriter(k), Launching([k.r, k.t])) == BothRun(k)
  {
    WrittenReady(k);
    assert k.t in AfterWriter(k).tree.pending;
    LaunchPair(TwoSlots, AfterWriter(k), k.r, k.t);
    assert {k.t, k.r, k.p} - {k.r, k.t} == {k.p} && [] + [k.r, k.t] == [k.r, k.t];
    assert AfterWriter(k).tree.nodes[k.r := Ran(Critic(k.w), Running)][k.t := Ran(Tester(k), Running)] ==
           Four(k, Fined(Author), Ran(Tester(k), Running), Ran(Critic(k.w), Running), Idle(Publisher(k)));
  }

  function Passed(k: Cast): State {
    At(CastSpec(k), Tree(Four(k, Fined(Author), Fined(Tester(k)), Ran(Critic(k.w), Running), Idle(Publisher(k))), {k.p},
                         {k.w, k.t}, JobRunning, 2), [k.r], Top)
  }

  lemma TesterSettles(k: Cast)
    requires k.Distinct()
    ensures CollectedOne(TwoSlots, BothRun(k), k.t, Fine) == Passed(k).(phase := Collected)
  {
    assert Omit([k.r, k.t], {k.t}) == [k.r] by { assert [k.r, k.t] == [k.r] + [k.t]; OmitLast([k.r], k.t); }
    assert {k.w} + {k.t} == {k.w, k.t};
    assert BothRun(k).tree.nodes[k.t := Fined(Tester(k))] ==
           Four(k, Fined(Author), Fined(Tester(k)), Ran(Critic(k.w), Running), Idle(Publisher(k)));
  }

  lemma TesterPasses(k: Cast)
    requires k.Distinct()
    ensures Run(TwoSlots, BothRun(k), Collecting(k.t, Fine)) == Passed(k)
  {
    TesterSettles(k);
    CollectBlock(TwoSlots, BothRun(k), k.t, Fine);
  }

  function Publishing(k: Cast): State {
    At(CastSpec(k), Tree(Four(k, Fined(Author), Fined(Tester(k)), Ran(Critic(k.w), Running), Ran(Publisher(k), Running)), {},
                         {k.w, k.t}, JobRunning, 2), [k.r, k.p], Waiting)
  }

  lemma PublisherStarts(k: Cast)
    requires k.Distinct()
    ensures Run(TwoSlots, Passed(k), Launching([k.p])) == Publishing(k)
  {
    assert ReadySet(Passed(k)) == {k.p};
    assert k.p in Passed(k).tree.pending;
    LaunchOnly(TwoSlots, Passed(k), k.p);
    assert {k.p} - {k.p} == {} && [k.r] + [k.p] == [k.r, k.p];
    assert Passed(k).tree.nodes[k.p := Ran(Publisher(k), Running)] ==
           Four(k, Fined(Author), Fined(Tester(k)), Ran(Critic(k.w), Running), Ran(Publisher(k), Running));
  }

  lemma ReachesPublishing(k: Cast)
    requires k.Distinct()
    ensures var es := (Launching([k.w]) + Collecting(k.w, Fine)) + (Launching([k.r, k.t]) + Collecting(k.t, Fine))
                      + Launching([k.p]);
            Run(TwoSlots, Start(CastSpec(k)), es) == Publishing(k)
  {
    var s := Start(CastSpec(k));
    var es := Launching([k.w]) + Collecting(k.w, Fine);
    WriterDone(k);
    BothStart(k);
    TesterPasses(k);
    RunConcat(TwoSlots, AfterWriter(k), Launching([k.r, k.t]), Collecting(k.t, Fine));
    Chain(TwoSlots, s, es, AfterWriter(k), Launching([k.r, k.t]) + Collecting(k.t, Fine), Passed(k));
    PublisherStarts(k);
    Chain(TwoSlots, s, es + (Launching([k.r, k.t]) + Collecting(k.t, Fine)), Passed(k), Launching([k.p]), Publishing(k));
  }

  /** A completed direct dependant goes with the writer, and no dependency changes. */
  lemma GoesWithWriter(t: Tree, w: Id, r: Id, m: Id, text: string)
    requires r in t.nodes && CanReopen(t.nodes, w) && m in DirectDependents(t.nodes, w)
    ensures var after := ReopenSelf(ReopenWriter(t, w, text), r);
            && after.nodes[m].status == Pending && m !in after.completed
            && forall p :: p in t.nodes ==> after.nodes[p].dependsOn == t.nodes[p].dependsOn
  {}

  lemma RefusedNodes(k: Cast)
    requires k.Distinct()
    ensures Settle(TwoSlots, Publishing(k).tree, k.r, Refuses).nodes ==
              Four(k, Fined(Author), Fined(Tester(k)), Record(TwoSlots, Ran(Critic(k.w), Running), Refuses),
                   Ran(Publisher(k), Running))
  {}

  lemma RefusedVerdict(t: Tree, k: Cast, y: Node, u: Node)
    requires k.Distinct() && y.status == Completed && y.dependsOn == [k.w]
    requires t.nodes == Four(k, Fined(Author), y, Record(TwoSlots, Ran(Critic(k.w), Running), Refuses), u)
    ensures Review(t, k.r, map[]) == ReopenSelf(ReopenWriter(t, k.w, "no"), k.r)
    ensures CanReopen(t.nodes, k.w) && k.t in DirectDependents(t.nodes, k.w)
  {
    OneWriter(t.nodes, k.r, k.w);
    RefusedOnce(t, k.w, k.r, "no");
    assert k.w in t.nodes[k.t].dependsOn;
  }

  lemma RefusedTree(k: Cast)
    requires k.Distinct()
    ensures var t := Settle(TwoSlots, Publishing(k).tree, k.r, Refuses);
            && Review(t, k.r, map[]) == ReopenSelf(ReopenWriter(t, k.w, "no"), k.r)
            && CanReopen(t.nodes, k.w) && k.t in DirectDependents(t.nodes, k.w)
            && t.nodes[k.p].dependsOn == [k.t] && t.nodes.Keys == {k.w, k.t, k.r, k.p}
  {
    RefusedNodes(k);
    RefusedVerdict(Settle(TwoSlots, Publishing(k).tree, k.r, Refuses), k, Fined(Tester(k)), Ran(Publisher(k), Running));
  }

  /** The refusal sends back the writer, its tester and the critic, not the publisher. */
  lemma RefusalStrands(k: Cast)
    requires k.Distinct()
    ensures var r := CollectedOne(TwoSlots, Publishing(k), k.r, Refuses);
            && r.running == [k.p] && r.tree.nodes.Keys == {k.w, k.t, k.r, k.p}
            && r.tree.nodes[k.p].dependsOn == [k.t]
            && r.tree.nodes[k.t].status == Pending && k.t !in r.tree.completed
  {
    RefusedTree(k);
    GoesWithWriter(Settle(TwoSlots, Publishing(k).tree, k.r, Refuses), k.w, k.r, k.t, "no");
    assert Omit([k.r, k.p], {k.r}) == [k.p] by {
      assert [k.r, k.p][..1] == [k.r] && [k.r][..0] == [];
      assert Omit([k.r], {k.r}) == [];
    }
  }

  lemma NotClosed(t: Tree, running: seq<Id>, p: Id, d: Id)
    requires p in t.nodes && p in running && d in t.nodes[p].dependsOn && d !in t.completed
    ensures !Closed(t, running)
  {}

  lemma CriticCollected(k: Cast)
    requires k.Distinct()
    ensures Step(TwoSlots, Publishing(k), Collect(map[k.r := Refuses], map[])) ==
              CollectedOne(TwoSlots, Publishing(k), k.r, Refuses)
  {
    CollectStep(TwoSlots, Publishing(k), k.r, Refuses);
  }

  /** From a submitted job: the publisher runs above a tester that is pending again. */
  lemma ReworkStrandsFromStart(k: Cast)
    requires k.Distinct()
    ensures var r := Run(TwoSlots, Start(CastSpec(k)), PublishRun(k));
            && r.running == [k.p] && r.tree.nodes.Keys == {k.w, k.t, k.r, k.p}
            && r.tree.nodes[k.p].dependsOn == [k.t] && r.tree.nodes[k.t].status == Pending
            && !Closed(r.tree, r.running)
  {
    ReachesPublishing(k);
    var s := Start(CastSpec(k));
    var es := (Launching([k.w]) + Collecting(k.w, Fine)) + (Launching([k.r, k.t]) + Collecting(k.t, Fine))
              + Launching([k.p]);
    RunSnoc(TwoSlots, s, es, Collect(map[k.r := Refuses], map[]));
    CriticCollected(k);
    RefusalStrands(k);
    var r := CollectedOne(TwoSlots, Publishing(k), k.r, Refuses);
    NotClosed(r.tree, r.running, k.p, k.t);
  }
}
