/** Which rounds make progress, how many there can be, and why a run may still
    go on for ever. */
module DagProgress {
  import opened Prelude
  import opened DagModel
  import opened DagInvariants
  import opened DagNodes
  import opened DagClosure
  import opened DagReopen
  import opened DagRework
  import opened DagRuns

  /** The review rounds not spent yet. */
  ghost function Tokens(nodes: map<Id, Node>): set<(Id, int)> {
    set w, i | w in nodes && IsWriter(nodes[w].agent) && nodes[w].reviewLoops <= i < MAX_REVIEW_LOOPS :: (w, i)
  }

  /** The nodes still to be finished. */
  ghost function Outstanding(s: State): set<Id> { s.tree.pending + Elems(s.running) }

  /** Some writer was sent back. */
  ghost predicate Reworked(a: map<Id, Node>, b: map<Id, Node>) {
    exists w :: w in a && w in b && a[w].reviewLoops < b[w].reviewLoops
  }

  lemma TokensShrink(a: map<Id, Node>, b: map<Id, Node>)
    requires AllEvolved(a, b) && b.Keys == a.Keys && LoopsBounded(b)
    ensures Tokens(b) <= Tokens(a)
    ensures Reworked(a, b) ==> Tokens(b) < Tokens(a)
    ensures !Reworked(a, b) ==> Tokens(b) == Tokens(a)
  {
    forall x | x in Tokens(b) ensures x in Tokens(a) {
      assert Evolved(a[x.0], b[x.0]);
    }
    if Reworked(a, b) {
      var w :| w in a && w in b && a[w].reviewLoops < b[w].reviewLoops;
      assert Evolved(a[w], b[w]);
      assert (w, a[w].reviewLoops) in Tokens(a) && (w, a[w].reviewLoops) !in Tokens(b);
    } else {
      forall x | x in Tokens(a) ensures x in Tokens(b) {
        assert Evolved(a[x.0], b[x.0]);
      }
    }
  }

  // ----- When a round sends a writer back -------------------------------------

  /** Some finished node rejects, and one of its writers is completed with a round left. */
  ghost predicate SendsBack(nodes: map<Id, Node>, finished: seq<Id>, targets: map<Id, set<Id>>)
    requires Within(finished, nodes.Keys)
  {
    exists n, w :: n in finished && Rejection(nodes[n]).Some? && w in RejectedWriters(nodes, n, targets)
                   && CanReopen(nodes, w)
  }

  lemma ReworkedStays(a: map<Id, Node>, b: map<Id, Node>, c: map<Id, Node>)
    requires AllEvolved(b, c) && Reworked(a, b)
    ensures Reworked(a, c)
  {
    var w :| w in a && w in b && a[w].reviewLoops < b[w].reviewLoops;
    assert Evolved(b[w], c[w]);
  }

  lemma {:induction false} ReopenWritersIdle(t: Tree, ws: seq<Id>, text: string)
    requires Within(ws, t.nodes.Keys) && forall w :: w in ws ==> !CanReopen(t.nodes, w)
    ensures ReopenWriters(t, ws, text) == t
  {
    if ws != [] { ReopenWritersIdle(t, ws[..|ws| - 1], text); }
  }

  lemma {:induction false} ReopenWritersRework(t: Tree, ws: seq<Id>, text: string)
    requires Within(ws, t.nodes.Keys) && AllWriters(t.nodes, ws)
    requires exists w :: w in ws && CanReopen(t.nodes, w)
    ensures Reworked(t.nodes, ReopenWriters(t, ws, text).nodes)
  {
    var k := |ws| - 1;
    assert ws == ws[..k] + [ws[k]];
    if exists w :: w in ws[..k] && CanReopen(t.nodes, w) {
      var m := ReopenWriters(t, ws[..k], text);
      ReopenWritersRework(t, ws[..k], text);
      ReopenWritersEvolves(t, ws[..k], text);
      assert WriterAt(t.nodes, ws[k]) && Evolved(t.nodes[ws[k]], m.nodes[ws[k]]);
      ReopenWriterEvolves(m, ws[k], text);
      ReworkedStays(t.nodes, m.nodes, ReopenWriters(t, ws, text).nodes);
    } else {
      ReopenWritersIdle(t, ws[..k], text);
      ReopenWriterAt(t, ws[k], text, ws[k]);
    }
  }

  ghost function Rejecting(nodes: map<Id, Node>, finished: seq<Id>): set<Id>
    requires Within(finished, nodes.Keys)
  {
    set n | n in finished && Rejection(nodes[n]).Some?
  }

  /** r is t with exactly the nodes of gone, none of them a writer, pending again. */
  ghost predicate OnlyPending(t: Tree, r: Tree, gone: set<Id>) {
    && r.nodes.Keys == t.nodes.Keys
    && r.pending == t.pending + gone
    && (forall m :: m in t.nodes && m !in gone ==> r.nodes[m] == t.nodes[m])
    && (forall m :: m in t.nodes && m in gone ==>
          && r.nodes[m] == Reopened(t.nodes[m]) && !IsWriter(t.nodes[m].agent))
  }

  /** Verdicts that reach no writer put the rejecting nodes back and change nothing else. */
  lemma {:induction false} QuietReview(t: Tree, finished: seq<Id>, targets: map<Id, set<Id>>)
    requires Within(finished, t.nodes.Keys) && NoDup(finished) && !SendsBack(t.nodes, finished, targets)
    ensures OnlyPending(t, ReviewAll(t, finished, targets), Rejecting(t.nodes, finished))
  {
    if finished != [] {
      var front, id := finished[..|finished| - 1], finished[|finished| - 1];
      assert finished == front + [id];
      QuietReview(t, front, targets);
      var m := ReviewAll(t, front, targets);
      var gone := Rejecting(t.nodes, front);
      assert id !in gone;
      if Rejection(t.nodes[id]).None? {
        assert Rejecting(t.nodes, finished) == gone;
      } else {
        assert Rejecting(t.nodes, finished) == gone + {id};
        QuietVerdict(t, m, gone, id, targets);
      }
    }
  }

  lemma QuietVerdict(t: Tree, m: Tree, gone: set<Id>, id: Id, targets: map<Id, set<Id>>)
    requires OnlyPending(t, m, gone) && id in t.nodes && id !in gone && Rejection(t.nodes[id]).Some?
    requires forall w :: w in RejectedWriters(t.nodes, id, targets) ==> !CanReopen(t.nodes, w)
    ensures OnlyPending(t, Review(m, id, targets), gone + {id})
  {
    SameVerdict(t, m, gone, id, targets);
    QuietSelf(t, m, gone, id);
    IdleReview(m, id, targets);
  }

  lemma IdleReview(m: Tree, id: Id, targets: map<Id, set<Id>>)
    requires id in m.nodes && Rejection(m.nodes[id]).Some?
    requires forall w :: w in RejectedWriters(m.nodes, id, targets) ==> !CanReopen(m.nodes, w)
    ensures Review(m, id, targets) == ReopenSelf(m, id)
  {
    ReopenWritersIdle(m, RejectedWriters(m.nodes, id, targets), Rejection(m.nodes[id]).value);
  }

  lemma QuietSelf(t: Tree, m: Tree, gone: set<Id>, id: Id)
    requires OnlyPending(t, m, gone) && id in t.nodes && id !in gone && !IsWriter(t.nodes[id].agent)
    ensures OnlyPending(t, ReopenSelf(m, id), gone + {id})
  {}

  /** The verdict's writers, and whether they can go, are what they were. */
  lemma SameVerdict(t: Tree, m: Tree, gone: set<Id>, id: Id, targets: map<Id, set<Id>>)
    requires OnlyPending(t, m, gone) && id in t.nodes
    ensures RejectedWriters(m.nodes, id, targets) == RejectedWriters(t.nodes, id, targets)
    ensures forall w :: w in RejectedWriters(t.nodes, id, targets) ==> (CanReopen(m.nodes, w) <==> CanReopen(t.nodes, w))
    ensures AllWriters(m.nodes, RejectedWriters(m.nodes, id, targets))
  {
    assert SameGraph(m.nodes, t.nodes);
    RejectedSame(m.nodes, t.nodes, id, targets);
    RejectedAreWriters(t.nodes, id, targets);
    RejectedAreWriters(m.nodes, id, targets);
    forall w | w in RejectedWriters(t.nodes, id, targets) ensures m.nodes[w] == t.nodes[w] {
      assert WriterAt(t.nodes, w);
    }
  }

  /** A round of verdicts raises some writer's rounds exactly when it sends one back. */
  lemma {:induction false} ReworkedIff(t: Tree, finished: seq<Id>, targets: map<Id, set<Id>>)
    requires Within(finished, t.nodes.Keys) && NoDup(finished)
    ensures Reworked(t.nodes, ReviewAll(t, finished, targets).nodes) <==> SendsBack(t.nodes, finished, targets)
  {
    if !SendsBack(t.nodes, finished, targets) {
      QuietReview(t, finished, targets);
    } else if finished != [] {
      var front, id := finished[..|finished| - 1], finished[|finished| - 1];
      assert finished == front + [id];
      ReworkedIff(t, front, targets);
      var m := ReviewAll(t, front, targets);
      ReviewEvolves(m, id, targets);
      if SendsBack(t.nodes, front, targets) {
        ReworkedStays(t.nodes, m.nodes, Review(m, id, targets).nodes);
      } else {
        QuietReview(t, front, targets);
        LastSendsBack(t, m, Rejecting(t.nodes, front), id, targets);
      }
    }
  }

  lemma LastSendsBack(t: Tree, m: Tree, gone: set<Id>, id: Id, targets: map<Id, set<Id>>)
    requires OnlyPending(t, m, gone) && id in t.nodes && id !in gone && Rejection(t.nodes[id]).Some?
    requires exists w :: w in RejectedWriters(t.nodes, id, targets) && CanReopen(t.nodes, w)
    ensures Reworked(t.nodes, Review(m, id, targets).nodes)
  {
    var ws, text := RejectedWriters(t.nodes, id, targets), Rejection(t.nodes[id]).value;
    SameVerdict(t, m, gone, id, targets);
    ReopenWritersRework(m, ws, text);
    var r := ReopenWriters(m, ws, text);
    var w :| w in m.nodes && w in r.nodes && m.nodes[w].reviewLoops < r.nodes[w].reviewLoops;
    assert ReopenSelf(r, id).nodes[w].reviewLoops == r.nodes[w].reviewLoops;
    assert m.nodes[w].reviewLoops == t.nodes[w].reviewLoops;
  }

  // ----- A round that sends no writer back --------------------------------------

  /** The finished node neither waits for resources nor rejects. */
  predicate Stays(s: State, done: map<Id, Outcome>, n: Id) {
    n in done && n in s.tree.nodes && done[n].status != WaitingResources
    && RejectionBy(s.tree.nodes[n].agent, done[n].result) == None
  }

  ghost predicate RoundSendsBack(c: Config, s: State, done: map<Id, Outcome>, targets: map<Id, set<Id>>)
    requires WellFormed(s)
  {
    SendsBack(SettleAll(c, s.tree, Finished(s, done), done).nodes, Finished(s, done), targets)
  }

  lemma RoundReworks(c: Config, s: State, done: map<Id, Outcome>, targets: map<Id, set<Id>>)
    requires WellFormed(s) && Partitioned(s.tree, s.running) && LegalOutcomes(s, done)
    ensures Reworked(s.tree.nodes, CollectState(c, s, done, targets).tree.nodes) <==>
              RoundSendsBack(c, s, done, targets)
  {
    var finished := Finished(s, done);
    DropToLimbo(s, done);
    var m := SettleAll(c, s.tree, finished, done);
    ReworkedIff(m, finished, targets);
    forall w | w in m.nodes ensures m.nodes[w].reviewLoops == s.tree.nodes[w].reviewLoops {
      SettleAllAt(c, s.tree, finished, done, w);
    }
    SameRework(s.tree.nodes, m.nodes, CollectState(c, s, done, targets).tree.nodes);
  }

  lemma SameRework(a: map<Id, Node>, b: map<Id, Node>, r: map<Id, Node>)
    requires a.Keys == b.Keys && forall w :: w in a ==> a[w].reviewLoops == b[w].reviewLoops
    ensures Reworked(a, r) <==> Reworked(b, r)
  {}

  /** After such a round a finished node is pending exactly when it waits or rejected. */
  lemma PendingAfter(c: Config, s: State, done: map<Id, Outcome>, targets: map<Id, set<Id>>, n: Id)
    requires WellFormed(s) && Partitioned(s.tree, s.running) && LegalOutcomes(s, done)
    requires !RoundSendsBack(c, s, done, targets) && n in s.tree.nodes
    ensures n in CollectState(c, s, done, targets).tree.pending <==>
              n in s.tree.pending || (n in done && !Stays(s, done, n))
  {
    var finished := Finished(s, done);
    DropToLimbo(s, done);
    var m := SettleAll(c, s.tree, finished, done);
    QuietReview(m, finished, targets);
    SettleAllAt(c, s.tree, finished, done, n);
    SettleAllSets(c, s.tree, finished, done, n);
  }

  /** A collecting round that sends no writer back only shrinks what is outstanding,
      and shrinks it exactly when some outcome is neither a wait nor a rejection. */
  lemma CollectOutstanding(c: Config, s: State, done: map<Id, Outcome>, targets: map<Id, set<Id>>)
    requires WellFormed(s) && Partitioned(s.tree, s.running) && LegalOutcomes(s, done)
    requires !RoundSendsBack(c, s, done, targets)
    ensures var r := CollectState(c, s, done, targets);
            && Outstanding(r) <= Outstanding(s)
            && (Outstanding(r) < Outstanding(s) <==> exists n :: Stays(s, done, n))
  {
    var r := CollectState(c, s, done, targets);
    CollectKeeps(c, s, done, targets);
    forall n | n in s.tree.nodes
      ensures n in Outstanding(r) <==> n in Outstanding(s) && !Stays(s, done, n)
    {
      PendingAfter(c, s, done, targets, n);
      assert Placed(s.tree, s.running, {}, n);
    }
    if n :| Stays(s, done, n) {
      assert n in Outstanding(s) && n !in Outstanding(r);
    }
  }

  // ----- A measure for whole runs ------------------------------------------

  /** A collecting round that spends review budget or finishes a node for good.
      Every other round only sees resource waits and rejections that reach no writer. */
  ghost predicate Productive(c: Config, s: State, e: Event) {
    && Enabled(c, s, e)
    && e.Collect?
    && (RoundSendsBack(c, s, e.done, e.targets) || exists n :: Stays(s, e.done, n))
  }

  ghost function Weigh(budget: nat, size: nat, outstanding: nat): nat {
    budget * (size + 1) + outstanding
  }

  /** Remaining review budget first, outstanding nodes second, as one number. */
  ghost function Measure(s: State): nat {
    Weigh(|Tokens(s.tree.nodes)|, |s.tree.nodes.Keys|, |Outstanding(s)|)
  }

  lemma WeighDrops(b: nat, a: nat, size: nat, left: nat, out: nat)
    requires b < a && left <= size
    ensures Weigh(b, size, left) < Weigh(a, size, out)
  {
    assert a * (size + 1) == (a - 1) * (size + 1) + (size + 1);
    assert b * (size + 1) <= (a - 1) * (size + 1);
  }

  lemma WeighKeeps(b: nat, a: nat, size: nat, left: nat, out: nat)
    requires b <= a && left <= out
    ensures Weigh(b, size, left) <= Weigh(a, size, out)
    ensures left < out ==> Weigh(b, size, left) < Weigh(a, size, out)
  {
    assert b * (size + 1) <= a * (size + 1);
  }

  /** r is lexicographically no larger than s, and smaller when step is set. */
  ghost predicate LexBelow(s: State, r: State, step: bool) {
    && r.tree.nodes.Keys == s.tree.nodes.Keys
    && Outstanding(r) <= r.tree.nodes.Keys
    && (Tokens(r.tree.nodes) < Tokens(s.tree.nodes) ||
        (&& Tokens(r.tree.nodes) <= Tokens(s.tree.nodes)
         && Outstanding(r) <= Outstanding(s)
         && (step ==> Outstanding(r) < Outstanding(s))))
  }

  lemma LexMeasure(s: State, r: State, step: bool)
    requires LexBelow(s, r, step)
    ensures Measure(r) + One(step) <= Measure(s)
  {
    var size := |s.tree.nodes.Keys|;
    SubsetCard(Tokens(r.tree.nodes), Tokens(s.tree.nodes));
    if Tokens(r.tree.nodes) < Tokens(s.tree.nodes) {
      SubsetCard(Outstanding(r), r.tree.nodes.Keys);
      WeighDrops(|Tokens(r.tree.nodes)|, |Tokens(s.tree.nodes)|, size, |Outstanding(r)|, |Outstanding(s)|);
    } else {
      SubsetCard(Outstanding(r), Outstanding(s));
      WeighKeeps(|Tokens(r.tree.nodes)|, |Tokens(s.tree.nodes)|, size, |Outstanding(r)|, |Outstanding(s)|);
    }
  }

  lemma OutstandingFits(s: State)
    requires Partitioned(s.tree, s.running)
    ensures Outstanding(s) <= s.tree.nodes.Keys
  {
  }

  /** The lexicographic measure falls on every productive round and never rises on
      another one. */
  lemma CollectMeasure(c: Config, s: State, done: map<Id, Outcome>, targets: map<Id, set<Id>>)
    requires Inv(c, s) && WellFormed(s) && s.phase.Waiting? && LegalOutcomes(s, done)
    requires LoopsBounded(CollectState(c, s, done, targets).tree.nodes)
    ensures var r := CollectState(c, s, done, targets);
            LexBelow(s, r, RoundSendsBack(c, s, done, targets) || exists n :: Stays(s, done, n))
  {
    var r := CollectState(c, s, done, targets);
    CollectEvolves(c, s, done, targets);
    TokensShrink(s.tree.nodes, r.tree.nodes);
    CollectKeeps(c, s, done, targets);
    OutstandingFits(r);
    RoundReworks(c, s, done, targets);
    if !RoundSendsBack(c, s, done, targets) {
      CollectOutstanding(c, s, done, targets);
    }
  }

  lemma LaunchMeasure(c: Config, s: State)
    requires Inv(c, s) && s.phase.Gating? && s.phase.rest == []
    ensures Outstanding(LaunchState(s)) == Outstanding(s)
  {
    forall n | n in s.phase.runnable ensures n in s.tree.pending {
      BatchPending(c, s, n);
    }
  }

  /** Steps other than collecting, mounting and cutting leave the budget alone and
      add nothing outstanding. */
  lemma CalmMeasure(c: Config, s: State, e: Event)
    requires Sound(c, s) && s.phase != Done && LoopsBounded(s.tree.nodes) && Enabled(c, s, e)
    requires !e.Collect? && !e.Mount? && !e.Cut?
    ensures Tokens(Step(c, s, e).tree.nodes) <= Tokens(s.tree.nodes)
    ensures Outstanding(Step(c, s, e)) <= Outstanding(s)
    ensures Step(c, s, e).tree.nodes.Keys == s.tree.nodes.Keys
  {
    StepEvolves(c, s, e);
    StepKeys(c, s, e);
    StepLoopsBounded(c, s, e);
    TokensShrink(s.tree.nodes, Step(c, s, e).tree.nodes);
    CalmOutstanding(c, s, e);
  }

  lemma CalmOutstanding(c: Config, s: State, e: Event)
    requires Inv(c, s) && s.phase != Done && Enabled(c, s, e)
    requires !e.Collect? && !e.Mount? && !e.Cut?
    ensures Outstanding(Step(c, s, e)) <= Outstanding(s)
  {
    if e.Launch? {
      LaunchMeasure(c, s);
    }
  }

  lemma DoneMeasure(c: Config, s: State, e: Event)
    requires s.phase == Done
    ensures Measure(Step(c, s, e)) == Measure(s) && !Productive(c, s, e)
  {
    DoneStays(c, s, e);
  }

  lemma StepMeasure(c: Config, s: State, e: Event)
    requires Sound(c, s) && LoopsBounded(s.tree.nodes) && !e.Mount? && !e.Cut?
    ensures Measure(Step(c, s, e)) + One(Productive(c, s, e)) <= Measure(s)
  {
    if s.phase == Done {
      DoneMeasure(c, s, e);
    } else if Enabled(c, s, e) && e.Collect? {
      StepLoopsBounded(c, s, e);
      CollectMeasure(c, s, e.done, e.targets);
      LexMeasure(s, Step(c, s, e), Productive(c, s, e));
    } else if Enabled(c, s, e) {
      CalmMeasure(c, s, e);
      OutstandingFits(s);
      LexMeasure(s, Step(c, s, e), false);
    }
  }

  ghost function ProductiveCount(c: Config, s: State, es: seq<Event>): nat {
    if es == [] then 0
    else
      ProductiveCount(c, s, es[..|es| - 1]) + One(Productive(c, Run(c, s, es[..|es| - 1]), es[|es| - 1]))
  }

  ghost predicate SingleTree(es: seq<Event>) {
    forall k :: 0 <= k < |es| ==> !es[k].Mount? && !es[k].Cut?
  }

  /** A run over one tree has only so many productive rounds. */
  lemma {:induction false} ProductiveRoundsBounded(c: Config, s: State, es: seq<Event>)
    requires Sound(c, s) && LoopsBounded(s.tree.nodes) && SingleTree(es)
    ensures ProductiveCount(c, s, es) + Measure(Run(c, s, es)) <= Measure(s)
  {
    if es != [] {
      ProductiveRoundsBounded(c, s, es[..|es| - 1]);
      RunSound(c, s, es[..|es| - 1]);
      RunLoopsBounded(c, s, es[..|es| - 1]);
      StepMeasure(c, Run(c, s, es[..|es| - 1]), es[|es| - 1]);
    }
  }

  // ----- But a run need not end --------------------------------------------

  const LoneReviewer: Id := "reviewer"
  const Nay: Result := Result(Some(false), None, "no")
  const OneSlot: Config := Config(1, false, 20, 1)

  function Lone(st: Status, result: Option<Result>, k: nat): Node {
    Node(CodeReviewer, "", [], false, false, st, result, 0, false, None, None, k)
  }

  function LoneState(n: Node, pending: set<Id>, running: seq<Id>, phase: Phase): State {
    State(Tree(map[LoneReviewer := n], pending, {}, JobRunning, 0), running, phase, false, false, true, map[],
          map[LoneReviewer := Lone(Unset, None, 0)], 0)
  }

  /** A reviewing node that has been launched k times and has rejected each time, with no
      writer above it. */
  function Stuck(k: nat): State {
    LoneState(Lone(Pending, None, k), {LoneReviewer}, [], Top)
  }

  const NayOutcome: Outcome := Outcome(Failed, Some(Nay), None, false)

  function Round(): seq<Event> {
    [SelectBatch([LoneReviewer]), Gate, Launch, Collect(map[LoneReviewer := NayOutcome], map[]), Proceed]
  }

  lemma StuckLaunches(k: nat)
    ensures var g := LoneState(Lone(Pending, None, k), {LoneReviewer}, [],
                               Gating([LoneReviewer], []));
            && Step(OneSlot, Stuck(k), SelectBatch([LoneReviewer])) == g
            && Step(OneSlot, g, Gate) == g.(phase := Gating([], [LoneReviewer]))
            && Step(OneSlot, g.(phase := Gating([], [LoneReviewer])), Launch) ==
               LoneState(Lone(Running, None, k + 1), {}, [LoneReviewer], Waiting)
  {
    var s := Stuck(k);
    var r := LoneReviewer;
    assert ReadySet(s) == {r};
    assert IsBatch(OneSlot, s, [r]);
    var g := s.(phase := Gating([r], []));
    assert [r][1..] == [];
    assert [] + [r] == [r];
    var h := s.(phase := Gating([], [r]));
    assert Step(OneSlot, g, Gate) == h;
    assert Elems([r]) == {r};
    assert Launched(h.tree.nodes, {r}) == map[r := Lone(Running, None, k + 1)];
    assert h.tree.pending - {r} == {};
  }

  lemma StuckReviews(k: nat)
    ensures var t := Tree(map[LoneReviewer := Lone(Failed, Some(Nay), k + 1)], {}, {}, JobRunning, 0);
            ReviewAll(t, [LoneReviewer], map[]) == Stuck(k + 1).tree
  {
    var r := LoneReviewer;
    var t := Tree(map[r := Lone(Failed, Some(Nay), k + 1)], {}, {}, JobRunning, 0);
    assert [r][..0] == [];
    assert ReviewAll(t, [], map[]) == t;
    assert ReviewAll(t, [r], map[]) == Review(t, r, map[]);
    assert WriterAncestors(t.nodes, r) == [];
    assert RejectedWriters(t.nodes, r, map[]) == [];
    assert Review(t, r, map[]) == ReopenSelf(ReopenWriters(t, [], "no"), r);
    assert ReopenSelf(t, r) == Stuck(k + 1).tree;
  }

  lemma StuckSettles(k: nat)
    ensures var t := LoneState(Lone(Running, None, k + 1), {}, [LoneReviewer], Waiting).tree;
            SettleAll(OneSlot, t, [LoneReviewer], map[LoneReviewer := NayOutcome]) ==
            Tree(map[LoneReviewer := Lone(Failed, Some(Nay), k + 1)], {}, {}, JobRunning, 0)
  {
    var r := LoneReviewer;
    var t := LoneState(Lone(Running, None, k + 1), {}, [r], Waiting).tree;
    assert [r][..0] == [];
    assert SettleAll(OneSlot, t, [], map[r := NayOutcome]) == t;
    assert Settle(OneSlot, t, r, NayOutcome).nodes == map[r := Lone(Failed, Some(Nay), k + 1)];
  }

  lemma StuckMayCollect(k: nat)
    ensures Enabled(OneSlot, LoneState(Lone(Running, None, k + 1), {}, [LoneReviewer], Waiting),
                    Collect(map[LoneReviewer := NayOutcome], map[]))
  {
    var done := map[LoneReviewer := NayOutcome];
    assert LoneReviewer in done;
    assert LegalOutcome(NayOutcome);
  }

  lemma StuckCollects(k: nat)
    ensures CollectState(OneSlot, LoneState(Lone(Running, None, k + 1), {}, [LoneReviewer], Waiting),
                         map[LoneReviewer := NayOutcome], map[]) == Stuck(k + 1).(phase := Collected)
  {
    var r := LoneReviewer;
    var done := map[r := NayOutcome];
    assert [r][..0] == [];
    assert done.Keys == {r};
    assert Pick([r], {r}) == [r] && Omit([r], {r}) == [];
    StuckSettles(k);
    StuckReviews(k);
  }

  lemma RunFive(c: Config, s: State, es: seq<Event>, s1: State, s2: State, s3: State, s4: State)
    requires |es| == 5
    requires Step(c, s, es[0]) == s1 && Step(c, s1, es[1]) == s2 && Step(c, s2, es[2]) == s3 && Step(c, s3, es[3]) == s4
    ensures Run(c, s, es) == Step(c, s4, es[4])
  {
    RunSnoc(c, s, [], es[0]);
    RunSnoc(c, s, [] + [es[0]], es[1]);
    RunSnoc(c, s, [] + [es[0]] + [es[1]], es[2]);
    RunSnoc(c, s, [] + [es[0]] + [es[1]] + [es[2]], es[3]);
    RunSnoc(c, s, [] + [es[0]] + [es[1]] + [es[2]] + [es[3]], es[4]);
    assert es == [] + [es[0]] + [es[1]] + [es[2]] + [es[3]] + [es[4]];
  }

  lemma StuckProceeds(k: nat)
    ensures Step(OneSlot, Stuck(k).(phase := Collected), Proceed) == Stuck(k)
  {
  }

  lemma StuckRound(k: nat)
    ensures Run(OneSlot, Stuck(k), Round()) == Stuck(k + 1)
  {
    StuckLaunches(k);
    StuckMayCollect(k);
    StuckCollects(k);
    StuckProceeds(k + 1);
    var g := Stuck(k).(phase := Gating([LoneReviewer], []));
    var w := LoneState(Lone(Running, None, k + 1), {}, [LoneReviewer], Waiting);
    var d := Stuck(k + 1).(phase := Collected);
    RunFive(OneSlot, Stuck(k), Round(), g, g.(phase := Gating([], [LoneReviewer])), w, d);
  }

  /** Termination does not hold without further assumptions: a submitted job with one
      rejecting review node and no writer is launched as often as one likes, and is
      still not done. */
  lemma {:induction false} RejectsForEver(k: nat) returns (es: seq<Event>)
    ensures Stuck(0) == Begin(map[LoneReviewer := Lone(Pending, None, 0)], map[LoneReviewer := Lone(Unset, None, 0)],
                              JobRunning, 0)
    ensures SingleTree(es) && Run(OneSlot, Stuck(0), es) == Stuck(k)
    ensures Run(OneSlot, Stuck(0), es).tree.nodes[LoneReviewer].attempts == k
    ensures Run(OneSlot, Stuck(0), es).phase != Done
  {
    if k == 0 {
      es := [];
      assert Unfinished(Stuck(0).tree.nodes) == {LoneReviewer};
      assert WithStatus(Stuck(0).tree.nodes, Completed) == {};
    } else {
      var before := RejectsForEver(k - 1);
      es := before + Round();
      RunConcat(OneSlot, Stuck(0), before, Round());
      StuckRound(k - 1);
    }
  }
}
