/** Which writers a round of verdicts sends back and with which words, and who goes with
    them: told by the outcomes and the paths of the tree. */
module DagFeedback {
  import opened Prelude
  import opened DagModel
  import opened DagWriters
  import opened DagInvariants
  import opened DagNodes
  import opened DagReopen
  import opened DagVerdicts

  // ----- The writers a rejection is about ---------------------------------------------------

  predicate Writes(n: Node) { n.agent == CodeWriter || n.agent == Code }

  ghost predicate WriterAbove(nodes: map<Id, Node>, id: Id, w: Id) {
    w in nodes && Writes(nodes[w]) && Reaches(nodes, id, w)
  }

  /** The writers id depends on, directly or through others: those the feedback names, when
      it names any. */
  ghost predicate Addressed(nodes: map<Id, Node>, targets: map<Id, set<Id>>, id: Id, w: Id) {
    && WriterAbove(nodes, id, w)
    && (id in targets && (exists v :: v in targets[id] && WriterAbove(nodes, id, v)) ==> w in targets[id])
  }

  lemma NoMember(xs: seq<Id>)
    ensures xs == [] <==> forall x :: x !in xs
  {
    if xs != [] { assert xs[0] in xs; }
  }

  lemma AddressedIff(nodes: map<Id, Node>, targets: map<Id, set<Id>>, id: Id, w: Id)
    ensures w in RejectedWriters(nodes, id, targets) <==> Addressed(nodes, targets, id, w)
  {
    WriterAncestorsExact(nodes, id);
    var ws, named := WriterAncestors(nodes, id), NamedFor(targets, id);
    forall v ensures v in ws <==> WriterAbove(nodes, id, v) {}
    if v :| v in named && v in ws {
      assert v in Pick(ws, named);
    } else {
      NoMember(Pick(ws, named));
    }
  }

  lemma AddressedSame(a: map<Id, Node>, b: map<Id, Node>, targets: map<Id, set<Id>>, id: Id, w: Id)
    requires SameGraph(a, b)
    ensures Addressed(a, targets, id, w) <==> Addressed(b, targets, id, w)
  {
    AddressedIff(a, targets, id, w);
    AddressedIff(b, targets, id, w);
    RejectedSame(a, b, id, targets);
  }

  // ----- What became of each node -------------------------------------------------------------

  function Again(n: Node): Node { n.(status := Pending, result := None) }

  ghost predicate SentWith(before: Node, after: Node, text: string) {
    after == Again(before).(reviewLoops := before.reviewLoops + 1, params := before.params + text)
  }

  /** The node's review rounds rose. */
  ghost predicate Rose(a: map<Id, Node>, b: map<Id, Node>, v: Id) {
    v in a && v in b && a[v].reviewLoops < b[v].reviewLoops
  }

  /** Whose verdicts count so far, and which writers they send back with which words. */
  ghost function Refusing(nodes: map<Id, Node>, finished: seq<Id>): set<Id> {
    set n | n in finished && n in nodes && SaysNo(nodes[n], nodes[n].result)
  }

  ghost predicate Feedback(nodes: map<Id, Node>, no: set<Id>, targets: map<Id, set<Id>>, w: Id, text: string) {
    exists id :: id in no && id in nodes && nodes[id].result.Some? && nodes[id].result.value.text == text
                 && w in RejectedWriters(nodes, id, targets)
  }

  ghost predicate TakenAlong(t: map<Id, Node>, r: map<Id, Node>, m: Id) {
    m in t && t[m].status == Completed && exists v :: Rose(t, r, v) && v in t[m].dependsOn && v != m
  }

  ghost predicate Trace(t: map<Id, Node>, r: map<Id, Node>, no: set<Id>, targets: map<Id, set<Id>>, m: Id)
    requires m in t && m in r
  {
    || r[m] == t[m]
    || (r[m] == Again(t[m]) && (m in no || TakenAlong(t, r, m)))
    || (&& t[m].status == Completed && t[m].reviewLoops < 3
        && exists text :: Feedback(t, no, targets, m, text) && SentWith(t[m], r[m], text))
  }

  ghost predicate Traced(t: map<Id, Node>, r: map<Id, Node>, no: set<Id>, targets: map<Id, set<Id>>) {
    && r.Keys == t.Keys
    && (forall m :: m in t ==> Trace(t, r, no, targets, m))
    && (forall m :: TakenAlong(t, r, m) ==> r[m].status == Pending)
  }

  lemma TracedGraph(t: map<Id, Node>, r: map<Id, Node>, no: set<Id>, targets: map<Id, set<Id>>)
    requires Traced(t, r, no, targets)
    ensures SameGraph(t, r)
  {
    forall m | m in t ensures SameContract(t[m], r[m]) { assert Trace(t, r, no, targets, m); }
  }

  /** A node that is completed, or has a result, was not touched yet. */
  lemma Untouched(t: map<Id, Node>, r: map<Id, Node>, no: set<Id>, targets: map<Id, set<Id>>, m: Id)
    requires Traced(t, r, no, targets) && m in t && (r[m].status == Completed || r[m].result.Some?)
    ensures r[m] == t[m]
  {
    assert Trace(t, r, no, targets, m);
  }

  lemma RoseStays(t: map<Id, Node>, r: map<Id, Node>, after: map<Id, Node>, m: Id)
    requires forall v :: v in r ==> v in after && r[v].reviewLoops <= after[v].reviewLoops
    ensures forall v :: Rose(t, r, v) ==> Rose(t, after, v)
    ensures TakenAlong(t, r, m) ==> TakenAlong(t, after, m)
  {
    if TakenAlong(t, r, m) {
      var v :| Rose(t, r, v) && v in t[m].dependsOn && v != m;
      assert Rose(t, after, v);
    }
  }

  lemma WriterTrace(t: map<Id, Node>, r: Tree, no: set<Id>, targets: map<Id, set<Id>>, w: Id, text: string, m: Id)
    requires Traced(t, r.nodes, no, targets) && Feedback(t, no, targets, w, text) && CanReopen(r.nodes, w) && m in t
    ensures Trace(t, ReopenWriter(r, w, text).nodes, no, targets, m)
  {
    var after := ReopenWriter(r, w, text).nodes;
    assert Trace(t, r.nodes, no, targets, m);
    Untouched(t, r.nodes, no, targets, w);
    RoseStays(t, r.nodes, after, m);
    if m == w {
      assert SentWith(t[m], after[m], text);
    } else if m in DirectDependents(r.nodes, w) {
      Untouched(t, r.nodes, no, targets, m);
      assert Rose(t, after, w);
    } else {
      assert after[m] == r.nodes[m];
    }
  }

  lemma WriterTaken(t: map<Id, Node>, r: Tree, no: set<Id>, targets: map<Id, set<Id>>, w: Id, text: string, m: Id)
    requires Traced(t, r.nodes, no, targets) && CanReopen(r.nodes, w)
    requires TakenAlong(t, ReopenWriter(r, w, text).nodes, m)
    ensures ReopenWriter(r, w, text).nodes[m].status == Pending
  {
    var after := ReopenWriter(r, w, text).nodes;
    var v :| Rose(t, after, v) && v in t[m].dependsOn && v != m;
    assert Trace(t, r.nodes, no, targets, m);
    if v == w {
      if r.nodes[m].status == Completed { Untouched(t, r.nodes, no, targets, m); }
    } else {
      assert Rose(t, r.nodes, v);
      assert TakenAlong(t, r.nodes, m);
    }
  }

  lemma WriterTraced(t: map<Id, Node>, r: Tree, no: set<Id>, targets: map<Id, set<Id>>, w: Id, text: string)
    requires Traced(t, r.nodes, no, targets) && Feedback(t, no, targets, w, text) && w in t
    ensures Traced(t, ReopenWriter(r, w, text).nodes, no, targets)
  {
    if CanReopen(r.nodes, w) {
      var after := ReopenWriter(r, w, text).nodes;
      forall m | m in t ensures Trace(t, after, no, targets, m) { WriterTrace(t, r, no, targets, w, text, m); }
      forall m | TakenAlong(t, after, m) ensures after[m].status == Pending { WriterTaken(t, r, no, targets, w, text, m); }
    }
  }

  lemma {:induction false} WritersTraced(t: map<Id, Node>, r: Tree, no: set<Id>, targets: map<Id, set<Id>>, ws: seq<Id>,
                                         text: string)
    requires Traced(t, r.nodes, no, targets) && Within(ws, t.Keys)
    requires forall w :: w in ws ==> Feedback(t, no, targets, w, text)
    ensures Traced(t, ReopenWriters(r, ws, text).nodes, no, targets)
  {
    if ws != [] {
      var k := |ws| - 1;
      WritersTraced(t, r, no, targets, ws[..k], text);
      WriterTraced(t, ReopenWriters(r, ws[..k], text), no, targets, ws[k], text);
    }
  }

  lemma SelfTraced(t: map<Id, Node>, r: Tree, no: set<Id>, targets: map<Id, set<Id>>, id: Id)
    requires Traced(t, r.nodes, no, targets) && id in no && id in t
    requires r.nodes[id] == t[id] || r.nodes[id] == Again(t[id])
    ensures Traced(t, ReopenSelf(r, id).nodes, no, targets)
  {
    var after := ReopenSelf(r, id).nodes;
    assert after[id] == Again(t[id]);
    forall m ensures TakenAlong(t, after, m) <==> TakenAlong(t, r.nodes, m) {
      forall v ensures Rose(t, after, v) <==> Rose(t, r.nodes, v) {}
      if TakenAlong(t, after, m) { var v :| Rose(t, after, v) && v in t[m].dependsOn && v != m; assert Rose(t, r.nodes, v); }
      if TakenAlong(t, r.nodes, m) { var v :| Rose(t, r.nodes, v) && v in t[m].dependsOn && v != m; assert Rose(t, after, v); }
    }
    forall m | m in t ensures Trace(t, after, no, targets, m) { assert Trace(t, r.nodes, no, targets, m); }
  }

  lemma FeedbackOf(t: map<Id, Node>, r: map<Id, Node>, no: set<Id>, targets: map<Id, set<Id>>, id: Id, w: Id)
    requires Traced(t, r, no, targets) && id in no && id in t && t[id].result.Some?
    requires w in RejectedWriters(r, id, targets)
    ensures Feedback(t, no, targets, w, t[id].result.value.text)
  {
    TracedGraph(t, r, no, targets);
    RejectedSame(t, r, id, targets);
  }

  lemma {:induction false} WritersLeave(r: Tree, ws: seq<Id>, text: string, id: Id)
    requires Within(ws, r.nodes.Keys) && AllWriters(r.nodes, ws) && id in r.nodes && !IsWriter(r.nodes[id].agent)
    ensures ReopenWriters(r, ws, text).nodes[id] in {r.nodes[id], Again(r.nodes[id])}
  {
    if ws != [] {
      var k := |ws| - 1;
      WritersLeave(r, ws[..k], text, id);
      assert WriterAt(r.nodes, ws[k]);
    }
  }

  lemma ReviewTraced(t: map<Id, Node>, r: Tree, no: set<Id>, targets: map<Id, set<Id>>, id: Id)
    requires Traced(t, r.nodes, no, targets) && id in t && (SaysNo(t[id], t[id].result) ==> id in no)
    ensures Traced(t, Review(r, id, targets).nodes, no, targets)
  {
    SaysNoIff(r.nodes[id]);
    if Rejection(r.nodes[id]).Some? {
      Untouched(t, r.nodes, no, targets, id);
      var ws, text := RejectedWriters(r.nodes, id, targets), Rejection(r.nodes[id]).value;
      forall w | w in ws ensures Feedback(t, no, targets, w, text) { FeedbackOf(t, r.nodes, no, targets, id, w); }
      WritersTraced(t, r, no, targets, ws, text);
      RejectedAreWriters(r.nodes, id, targets);
      WritersLeave(r, ws, text, id);
      SelfTraced(t, ReopenWriters(r, ws, text), no, targets, id);
    }
  }

  lemma TracedNothing(t: map<Id, Node>, no: set<Id>, targets: map<Id, set<Id>>)
    ensures Traced(t, t, no, targets)
  {}

  lemma MoreTraced(t: map<Id, Node>, r: map<Id, Node>, no: set<Id>, more: set<Id>, targets: map<Id, set<Id>>)
    requires Traced(t, r, no, targets) && no <= more
    ensures Traced(t, r, more, targets)
  {
    forall m | m in t ensures Trace(t, r, more, targets, m) {
      assert Trace(t, r, no, targets, m);
      if text :| Feedback(t, no, targets, m, text) && SentWith(t[m], r[m], text) { assert Feedback(t, more, targets, m, text); }
    }
  }

  lemma {:induction false} ReviewAllTraced(t: Tree, finished: seq<Id>, targets: map<Id, set<Id>>)
    requires Within(finished, t.nodes.Keys)
    ensures Traced(t.nodes, ReviewAll(t, finished, targets).nodes, Refusing(t.nodes, finished), targets)
  {
    if finished == [] {
      TracedNothing(t.nodes, Refusing(t.nodes, finished), targets);
    } else {
      var front, id := finished[..|finished| - 1], finished[|finished| - 1];
      ReviewAllTraced(t, front, targets);
      var r, no := ReviewAll(t, front, targets), Refusing(t.nodes, finished);
      MoreTraced(t.nodes, r.nodes, Refusing(t.nodes, front), no, targets);
      ReviewTraced(t.nodes, r, no, targets, id);
    }
  }

  // ----- Whoever is addressed goes back -----------------------------------------------------

  lemma {:induction false} AddressedSent(nodes: map<Id, Node>, gone: set<Id>, ws: seq<Id>, w: Id)
    requires w in ws && CanReopen(nodes, w)
    ensures w in SentBackFrom(nodes, gone, ws)
  {
    var k := |ws| - 1;
    assert ws == ws[..k] + [ws[k]];
    if w != ws[k] { AddressedSent(nodes, gone, ws[..k], w); }
  }

  lemma LaterRose(t: Tree, front: seq<Id>, id: Id, targets: map<Id, set<Id>>, v: Id)
    requires Within(front, t.nodes.Keys) && id in t.nodes && Rose(t.nodes, ReviewAll(t, front, targets).nodes, v)
    ensures Rose(t.nodes, Review(ReviewAll(t, front, targets), id, targets).nodes, v)
  {
    ReviewEvolves(ReviewAll(t, front, targets), id, targets);
    assert Evolved(ReviewAll(t, front, targets).nodes[v], Review(ReviewAll(t, front, targets), id, targets).nodes[v]);
  }

  /** A verdict is carried out, unless it was overtaken: its node directly depends on a
      writer an earlier verdict of the round sent back. */
  lemma {:induction false} CarriedOut(t: Tree, finished: seq<Id>, targets: map<Id, set<Id>>, id: Id, w: Id)
    requires Within(finished, t.nodes.Keys) && NoDup(finished) && id in finished && Rejection(t.nodes[id]).Some?
    requires w in RejectedWriters(t.nodes, id, targets) && CanReopen(t.nodes, w)
    ensures w in ReopenedBy(t.nodes, finished, targets) || TakenAlong(t.nodes, ReviewAll(t, finished, targets).nodes, id)
  {
    var front, last := finished[..|finished| - 1], finished[|finished| - 1];
    assert finished == front + [last];
    var r, before := ReviewAll(t, front, targets), ReopenedBy(t.nodes, front, targets);
    if id == last {
      if id in before {
        ReviewAllTraced(t, front, targets);
        ReviewAllTo(t, front, targets);
        OvertakenBy(t, r, front, targets, id);
        StillTaken(t, front, last, targets, id);
      } else {
        AddressedSent(t.nodes, before, RejectedWriters(t.nodes, id, targets), w);
      }
    } else {
      CarriedOut(t, front, targets, id, w);
      SentBackGrows(t.nodes, before, RejectedWriters(t.nodes, last, targets));
      if TakenAlong(t.nodes, r.nodes, id) { StillTaken(t, front, last, targets, id); }
    }
  }

  lemma StillTaken(t: Tree, front: seq<Id>, last: Id, targets: map<Id, set<Id>>, id: Id)
    requires Within(front, t.nodes.Keys) && last in t.nodes && TakenAlong(t.nodes, ReviewAll(t, front, targets).nodes, id)
    ensures TakenAlong(t.nodes, Review(ReviewAll(t, front, targets), last, targets).nodes, id)
  {
    var v :| Rose(t.nodes, ReviewAll(t, front, targets).nodes, v) && v in t.nodes[id].dependsOn && v != id;
    LaterRose(t, front, last, targets, v);
  }

  lemma OvertakenBy(t: Tree, r: Tree, front: seq<Id>, targets: map<Id, set<Id>>, id: Id)
    requires Traced(t.nodes, r.nodes, Refusing(t.nodes, front), targets) && id !in front && id in t.nodes
    requires r.nodes[id].result == None && Rejection(t.nodes[id]).Some?
    ensures TakenAlong(t.nodes, r.nodes, id)
  {
    assert Trace(t.nodes, r.nodes, Refusing(t.nodes, front), targets, id);
    NobodyTells(t.nodes, Refusing(t.nodes, front), targets, id);
  }

  lemma NobodyTells(nodes: map<Id, Node>, no: set<Id>, targets: map<Id, set<Id>>, id: Id)
    requires id in nodes && !IsWriter(nodes[id].agent)
    ensures forall text :: !Feedback(nodes, no, targets, id, text)
  {
    forall x ensures id !in RejectedWriters(nodes, x, targets) { RejectedAreWriters(nodes, x, targets); }
  }

  // ----- A collecting step ------------------------------------------------------------------------

  /** Some node's rejection addresses the writer with these words. */
  ghost predicate ToldBy(s: State, done: map<Id, Outcome>, targets: map<Id, set<Id>>, w: Id, text: string) {
    exists id :: SaidNo(s, done, id) && Addressed(s.tree.nodes, targets, id, w) && done[id].result.value.text == text
  }

  /** A completed node directly depends on a writer whose rounds rose in the step. */
  ghost predicate GoesAlong(s: State, r: State, done: map<Id, Outcome>, m: Id) {
    && m in s.tree.nodes && DoneNow(s, done, m)
    && exists v :: Rose(s.tree.nodes, r.tree.nodes, v) && v in s.tree.nodes[m].dependsOn && v != m
  }

  lemma SameTree(c: Config, s: State, done: map<Id, Outcome>)
    requires WellFormed(s) && Partitioned(s.tree, s.running) && LegalOutcomes(s, done)
    ensures SameGraph(s.tree.nodes, Settled(c, s, done).nodes)
    ensures forall m :: m in s.tree.nodes ==> Settled(c, s, done).nodes[m].reviewLoops == s.tree.nodes[m].reviewLoops
  {
    forall m | m in s.tree.nodes
      ensures SameContract(s.tree.nodes[m], Settled(c, s, done).nodes[m])
      ensures Settled(c, s, done).nodes[m].reviewLoops == s.tree.nodes[m].reviewLoops
    {
      SettledAt(c, s, done, m);
    }
  }

  lemma AlongIff(c: Config, s: State, r: State, done: map<Id, Outcome>, m: Id)
    requires WellFormed(s) && Partitioned(s.tree, s.running) && LegalOutcomes(s, done)
    ensures TakenAlong(Settled(c, s, done).nodes, r.tree.nodes, m) <==> GoesAlong(s, r, done, m)
  {
    SameTree(c, s, done);
    forall v ensures Rose(Settled(c, s, done).nodes, r.tree.nodes, v) <==> Rose(s.tree.nodes, r.tree.nodes, v) {}
    if m in s.tree.nodes {
      SettledSets(c, s, done, m);
      assert SameContract(s.tree.nodes[m], Settled(c, s, done).nodes[m]);
    }
  }

  lemma ToldIs(c: Config, s: State, done: map<Id, Outcome>, targets: map<Id, set<Id>>, w: Id, text: string)
    requires WellFormed(s) && Partitioned(s.tree, s.running) && LegalOutcomes(s, done)
    requires var t := Settled(c, s, done).nodes; Feedback(t, Refusing(t, Finished(s, done)), targets, w, text)
    ensures ToldBy(s, done, targets, w, text)
  {
    var t := Settled(c, s, done).nodes;
    var id :| id in Refusing(t, Finished(s, done)) && id in t && t[id].result.Some? && t[id].result.value.text == text
              && w in RejectedWriters(t, id, targets);
    SettledAt(c, s, done, id);
    SaysNoIff(t[id]);
    SameTree(c, s, done);
    AddressedIff(t, targets, id, w);
    AddressedSame(s.tree.nodes, t, targets, id, w);
  }

  lemma RefusingIs(c: Config, s: State, done: map<Id, Outcome>, m: Id)
    requires WellFormed(s) && Partitioned(s.tree, s.running) && LegalOutcomes(s, done)
    requires m in Refusing(Settled(c, s, done).nodes, Finished(s, done))
    ensures SaidNo(s, done, m)
  {
    SettledAt(c, s, done, m);
    SaysNoIff(Settled(c, s, done).nodes[m]);
  }

  /** What a collecting step can make of a node: it holds its outcome or what it was; it is
      pending again because it rejected or goes along; or it is a completed writer, with
      fewer than three rounds behind it, sent back with the words of a rejection that
      addresses it. */
  ghost predicate Accounted(s: State, r: State, done: map<Id, Outcome>, targets: map<Id, set<Id>>, m: Id, before: Node)
    requires m in s.tree.nodes && m in r.tree.nodes
  {
    || r.tree.nodes[m] == before
    || (r.tree.nodes[m] == Again(before) && (SaidNo(s, done, m) || GoesAlong(s, r, done, m)))
    || (&& DoneNow(s, done, m) && s.tree.nodes[m].reviewLoops < 3
        && exists text :: ToldBy(s, done, targets, m, text) && SentWith(before, r.tree.nodes[m], text))
  }

  lemma TraceAccounts(c: Config, s: State, done: map<Id, Outcome>, targets: map<Id, set<Id>>, m: Id)
    requires WellFormed(s) && Partitioned(s.tree, s.running) && LegalOutcomes(s, done) && m in s.tree.nodes
    requires var t, r := Settled(c, s, done).nodes, CollectState(c, s, done, targets).tree.nodes;
             Trace(t, r, Refusing(t, Finished(s, done)), targets, m)
    ensures Accounted(s, CollectState(c, s, done, targets), done, targets, m, Settled(c, s, done).nodes[m])
  {
    var t, r := Settled(c, s, done).nodes, CollectState(c, s, done, targets);
    var no := Refusing(t, Finished(s, done));
    AlongIff(c, s, r, done, m);
    SettledAt(c, s, done, m);
    SettledSets(c, s, done, m);
    if m in no { RefusingIs(c, s, done, m); }
    if text :| Feedback(t, no, targets, m, text) && SentWith(t[m], r.tree.nodes[m], text) {
      ToldIs(c, s, done, targets, m, text);
    }
  }

  lemma EveryNodeAccounted(c: Config, s: State, done: map<Id, Outcome>, targets: map<Id, set<Id>>, m: Id)
    requires Inv(c, s) && Enabled(c, s, Collect(done, targets)) && m in s.tree.nodes
    ensures m in Step(c, s, Collect(done, targets)).tree.nodes
    ensures exists before :: GivenOutcome(c, s, done, m, before)
                             && Accounted(s, Step(c, s, Collect(done, targets)), done, targets, m, before)
  {
    ReviewAllTraced(Settled(c, s, done), Finished(s, done), targets);
    TraceAccounts(c, s, done, targets, m);
    SettledAt(c, s, done, m);
  }

  /** Whoever directly depends on a writer whose rounds rose is not done any more. */
  lemma DependentsGoAlong(c: Config, s: State, done: map<Id, Outcome>, targets: map<Id, set<Id>>, m: Id)
    requires Inv(c, s) && Enabled(c, s, Collect(done, targets))
    requires GoesAlong(s, Step(c, s, Collect(done, targets)), done, m)
    ensures var r := Step(c, s, Collect(done, targets)).tree;
            m in r.nodes && r.nodes[m].status == Pending && m in r.pending && m !in r.completed
  {
    var r := CollectState(c, s, done, targets);
    ReviewAllTraced(Settled(c, s, done), Finished(s, done), targets);
    AlongIff(c, s, r, done, m);
    PendingIsOpen(c, s, done, targets, m);
  }

  lemma OpenAt(t: Tree, running: seq<Id>, m: Id)
    requires Partitioned(t, running) && m in t.nodes && t.nodes[m].status == Pending
    ensures m in t.pending && m !in t.completed
  {
    assert Placed(t, running, {}, m);
  }

  lemma PendingIsOpen(c: Config, s: State, done: map<Id, Outcome>, targets: map<Id, set<Id>>, m: Id)
    requires WellFormed(s) && Partitioned(s.tree, s.running) && LegalOutcomes(s, done) && m in s.tree.nodes
    requires CollectState(c, s, done, targets).tree.nodes[m].status == Pending
    ensures m in CollectState(c, s, done, targets).tree.pending && m !in CollectState(c, s, done, targets).tree.completed
  {
    CollectKeeps(c, s, done, targets);
    OpenAt(CollectState(c, s, done, targets).tree, CollectState(c, s, done, targets).running, m);
  }

  /** Every writer a rejection addresses that is completed and has been sent back fewer than
      three times is pending afterwards, unless the rejecting node itself goes along with a
      writer another verdict of the step sent back. */
  lemma AddressedGoBack(c: Config, s: State, done: map<Id, Outcome>, targets: map<Id, set<Id>>, id: Id, w: Id)
    requires Inv(c, s) && Enabled(c, s, Collect(done, targets)) && SaidNo(s, done, id)
    requires Addressed(s.tree.nodes, targets, id, w) && DoneNow(s, done, w) && s.tree.nodes[w].reviewLoops < 3
    ensures var r := Step(c, s, Collect(done, targets));
            || (w in r.tree.pending && w !in r.tree.completed && r.tree.nodes[w].status == Pending)
            || GoesAlong(s, r, done, id)
  {
    var t, finished, r := Settled(c, s, done), Finished(s, done), CollectState(c, s, done, targets);
    SameTree(c, s, done);
    SettledAt(c, s, done, id);
    SettledSets(c, s, done, w);
    FinishedIff(s, done, id);
    AddressedSame(s.tree.nodes, t.nodes, targets, id, w);
    AddressedIff(t.nodes, targets, id, w);
    CarriedOut(t, finished, targets, id, w);
    AlongIff(c, s, r, done, id);
    CollectReopens(c, s, done, targets);
  }
}
