/** What one round of verdicts reopens, read from the tree before it, and exactly when
    the round keeps the completed set downward closed. */
module DagReopen {
  import opened Prelude
  import opened DagModel
  import opened DagWriters
  import opened DagInvariants
  import opened DagNodes
  import opened DagClosure

  // ----- The reopened nodes ---------------------------------------------------

  /** The writers of the list in turn, when gone is reopened already: one that is still
      completed and has a round left goes, with its completed direct dependents. */
  function SentBackFrom(nodes: map<Id, Node>, gone: set<Id>, ws: seq<Id>): set<Id> {
    if ws == [] then gone
    else
      var before := SentBackFrom(nodes, gone, ws[..|ws| - 1]);
      var w := ws[|ws| - 1];
      if w !in before && CanReopen(nodes, w) then before + {w} + DirectDependents(nodes, w) else before
  }

  /** All the verdicts in turn: a node that rejects and is not reopened yet sends its
      writers back and goes itself. */
  function ReopenedBy(nodes: map<Id, Node>, finished: seq<Id>, targets: map<Id, set<Id>>): set<Id>
    requires Within(finished, nodes.Keys)
  {
    if finished == [] then {}
    else
      var before := ReopenedBy(nodes, finished[..|finished| - 1], targets);
      var id := finished[|finished| - 1];
      if id in before || Rejection(nodes[id]).None? then before
      else SentBackFrom(nodes, before, RejectedWriters(nodes, id, targets)) + {id}
  }

  /** r is t with exactly the nodes of gone reopened. */
  ghost predicate ReopenedTo(t: Tree, r: Tree, gone: set<Id>) {
    && r.nodes.Keys == t.nodes.Keys
    && r.completed == t.completed - gone
    && r.pending == t.pending + gone
    && (forall m :: m in t.nodes && m !in gone ==> r.nodes[m] == t.nodes[m])
    && (forall m :: m in t.nodes && m in gone ==>
          && r.nodes[m].status == Pending && r.nodes[m].result == None
          && SameContract(t.nodes[m], r.nodes[m]))
  }

  lemma DependentsLeft(t: Tree, r: Tree, gone: set<Id>, w: Id)
    requires ReopenedTo(t, r, gone)
    ensures DirectDependents(r.nodes, w) == DirectDependents(t.nodes, w) - gone
  {
    forall m | m in t.nodes ensures m in DirectDependents(r.nodes, w) <==> m in DirectDependents(t.nodes, w) - gone {
      assert SameContract(t.nodes[m], r.nodes[m]);
    }
  }

  lemma ReopenWriterTo(t: Tree, r: Tree, gone: set<Id>, w: Id, text: string)
    requires ReopenedTo(t, r, gone) && w in t.nodes
    ensures ReopenedTo(t, ReopenWriter(r, w, text),
                       if w !in gone && CanReopen(t.nodes, w) then gone + {w} + DirectDependents(t.nodes, w) else gone)
  {
    if w !in gone && CanReopen(t.nodes, w) {
      var extra := {w} + DirectDependents(t.nodes, w);
      DependentsLeft(t, r, gone, w);
      ReopenWriterShape(r, w, text);
      assert {w} + DirectDependents(r.nodes, w) == extra - gone;
      GoesToo(t, r, gone, extra, ReopenWriter(r, w, text));
      assert gone + extra == gone + {w} + DirectDependents(t.nodes, w);
    } else {
      assert !CanReopen(r.nodes, w);
    }
  }

  lemma ReopenWriterShape(r: Tree, w: Id, text: string)
    requires w in r.nodes && CanReopen(r.nodes, w)
    ensures var ds, after := {w} + DirectDependents(r.nodes, w), ReopenWriter(r, w, text);
            && after.completed == r.completed - ds && after.pending == r.pending + ds
            && (forall m :: m in r.nodes && m !in ds ==> after.nodes[m] == r.nodes[m])
            && (forall m :: m in r.nodes && m in ds ==>
                  && after.nodes[m].status == Pending && after.nodes[m].result == None
                  && SameContract(r.nodes[m], after.nodes[m]))
  {}

  /** From gone to more, when a step reopens what is left of extra. */
  lemma GoesToo(t: Tree, r: Tree, gone: set<Id>, extra: set<Id>, after: Tree)
    requires ReopenedTo(t, r, gone) && after.nodes.Keys == r.nodes.Keys
    requires after.completed == r.completed - (extra - gone) && after.pending == r.pending + (extra - gone)
    requires forall m :: m in r.nodes && m !in extra - gone ==> after.nodes[m] == r.nodes[m]
    requires forall m :: m in r.nodes && m in extra - gone ==>
               && after.nodes[m].status == Pending && after.nodes[m].result == None
               && SameContract(r.nodes[m], after.nodes[m])
    ensures ReopenedTo(t, after, gone + extra)
  {}

  lemma {:induction false} ReopenWritersTo(t: Tree, r: Tree, gone: set<Id>, ws: seq<Id>, text: string)
    requires ReopenedTo(t, r, gone) && Within(ws, t.nodes.Keys)
    ensures ReopenedTo(t, ReopenWriters(r, ws, text), SentBackFrom(t.nodes, gone, ws))
  {
    if ws != [] {
      var k := |ws| - 1;
      ReopenWritersTo(t, r, gone, ws[..k], text);
      ReopenWriterTo(t, ReopenWriters(r, ws[..k], text), SentBackFrom(t.nodes, gone, ws[..k]), ws[k], text);
    }
  }

  // ----- The same graph ----------------------------------------------------------

  ghost predicate SameGraph(a: map<Id, Node>, b: map<Id, Node>) {
    a.Keys == b.Keys && forall m :: m in a ==> SameContract(a[m], b[m])
  }

  lemma SameUniverse(a: map<Id, Node>, b: map<Id, Node>)
    requires SameGraph(a, b)
    ensures Universe(a) == Universe(b)
  {
    forall d ensures d in Universe(a) <==> d in Universe(b) {
      if m :| m in a && d in a[m].dependsOn { assert SameContract(a[m], b[m]) && d in b[m].dependsOn; }
      if m :| m in b && d in b[m].dependsOn { assert SameContract(a[m], b[m]) && d in a[m].dependsOn; }
    }
  }

  lemma {:induction false} VisitSame(a: map<Id, Node>, b: map<Id, Node>, deps: seq<Id>, seen: set<Id>)
    requires SameGraph(a, b) && Universe(a) == Universe(b) && Within(deps, Universe(a))
    ensures Visit(a, deps, seen) == Visit(b, deps, seen)
    decreases |Universe(a) - seen|, |deps|
  {
    if deps != [] {
      var d := deps[0];
      if d in seen {
        VisitSame(a, b, deps[1..], seen);
      } else {
        assert d in a ==> SameContract(a[d], b[d]);
        SubsetCard(Universe(a) - (seen + {d}), Universe(a) - seen);
        DepsInUniverse(a, d);
        var inner := Visit(a, DepsOf(a, d), seen + {d});
        VisitSame(a, b, DepsOf(a, d), seen + {d});
        SubsetCard(Universe(a) - inner.1, Universe(a) - (seen + {d}));
        VisitSame(a, b, deps[1..], inner.1);
      }
    }
  }

  lemma RejectedSame(a: map<Id, Node>, b: map<Id, Node>, id: Id, targets: map<Id, set<Id>>)
    requires SameGraph(a, b)
    ensures RejectedWriters(a, id, targets) == RejectedWriters(b, id, targets)
  {
    SameUniverse(a, b);
    DepsInUniverse(a, id);
    assert id in a ==> SameContract(a[id], b[id]);
    VisitSame(a, b, DepsOf(a, id), {});
  }

  // ----- One round ---------------------------------------------------------------

  lemma ReviewTo(t: Tree, r: Tree, gone: set<Id>, id: Id, targets: map<Id, set<Id>>)
    requires ReopenedTo(t, r, gone) && id in t.nodes
    ensures ReopenedTo(t, Review(r, id, targets),
                       if id in gone || Rejection(t.nodes[id]).None? then gone
                       else SentBackFrom(t.nodes, gone, RejectedWriters(t.nodes, id, targets)) + {id})
  {
    if id in gone {
      assert r.nodes[id].result == None;
    } else if Rejection(t.nodes[id]).Some? {
      var text := Rejection(t.nodes[id]).value;
      assert SameGraph(t.nodes, r.nodes);
      RejectedSame(t.nodes, r.nodes, id, targets);
      var ws := RejectedWriters(t.nodes, id, targets);
      ReopenWritersTo(t, r, gone, ws, text);
      ReopenSelfTo(t, ReopenWriters(r, ws, text), SentBackFrom(t.nodes, gone, ws), id);
    }
  }

  lemma ReopenSelfTo(t: Tree, r: Tree, gone: set<Id>, id: Id)
    requires ReopenedTo(t, r, gone) && id in t.nodes
    ensures ReopenedTo(t, ReopenSelf(r, id), gone + {id})
  {
    assert id !in gone ==> r.nodes[id] == t.nodes[id];
  }

  /** The verdicts of a round reopen exactly that set. */
  lemma {:induction false} ReviewAllTo(t: Tree, finished: seq<Id>, targets: map<Id, set<Id>>)
    requires Within(finished, t.nodes.Keys)
    ensures ReopenedTo(t, ReviewAll(t, finished, targets), ReopenedBy(t.nodes, finished, targets))
  {
    if finished != [] {
      var k := |finished| - 1;
      ReviewAllTo(t, finished[..k], targets);
      ReviewTo(t, ReviewAll(t, finished[..k], targets), ReopenedBy(t.nodes, finished[..k], targets), finished[k], targets);
    }
  }

  /** Some node that stays completed, or runs, depends on a reopened one. */
  ghost predicate Undermined(t: Tree, running: seq<Id>, gone: set<Id>) {
    exists m, d :: m in t.nodes && (m in running || (m in t.completed && m !in gone))
                   && d in t.nodes[m].dependsOn && d in gone
  }

  lemma ReopenedClosedIff(t: Tree, r: Tree, running: seq<Id>, gone: set<Id>)
    requires Closed(t, running) && ReopenedTo(t, r, gone) && t.completed <= t.nodes.Keys
    ensures Closed(r, running) <==> !Undermined(t, running, gone)
  {
    forall m | m in t.nodes ensures r.nodes[m].dependsOn == t.nodes[m].dependsOn {
      assert m !in gone ==> r.nodes[m] == t.nodes[m];
    }
    if Undermined(t, running, gone) {
      var m, d :| m in t.nodes && (m in running || (m in t.completed && m !in gone))
                  && d in t.nodes[m].dependsOn && d in gone;
      assert m in r.nodes && d in r.nodes[m].dependsOn && d !in r.completed;
    } else {
      forall m | m in r.nodes && (m in r.completed || m in running) ensures Within(r.nodes[m].dependsOn, r.completed) {
        assert Within(t.nodes[m].dependsOn, t.completed);
      }
    }
  }

  /** One verdict: its writers in order, then the rejecting node. */
  lemma ReviewClosedIff(t: Tree, running: seq<Id>, id: Id, targets: map<Id, set<Id>>)
    requires Closed(t, running) && t.completed <= t.nodes.Keys && id in t.nodes
    ensures Closed(Review(t, id, targets), running) <==>
              !Undermined(t, running, ReopenedBy(t.nodes, [id], targets))
  {
    assert [id][..0] == [];
    ReviewAllTo(t, [id], targets);
    assert ReviewAll(t, [id], targets) == Review(t, id, targets);
    ReopenedClosedIff(t, Review(t, id, targets), running, ReopenedBy(t.nodes, [id], targets));
  }

  lemma SettledClosed(c: Config, s: State, done: map<Id, Outcome>)
    requires WellFormed(s) && Partitioned(s.tree, s.running) && LegalOutcomes(s, done) && Closed(s.tree, s.running)
    ensures var t := SettleAll(c, s.tree, Finished(s, done), done);
            Closed(t, Omit(s.running, done.Keys)) && t.completed <= t.nodes.Keys
  {
    var finished := Finished(s, done);
    var t := SettleAll(c, s.tree, finished, done);
    DropToLimbo(s, done);
    SettleAllKeeps(c, s.tree, Omit(s.running, done.Keys), finished, done, done.Keys);
    forall n | n in t.nodes && (n in t.completed || n in Omit(s.running, done.Keys))
      ensures Within(t.nodes[n].dependsOn, t.completed)
    {
      SettleAllAt(c, s.tree, finished, done, n);
      SettleAllSets(c, s.tree, finished, done, n);
      forall d | d in t.nodes[n].dependsOn ensures d in t.completed {
        assert d in s.tree.completed;
        SettleAllSets(c, s.tree, finished, done, d);
      }
    }
  }

  /** A whole collecting step, with any number of outcomes and verdicts: from a closed
      state it leads to a closed one if and only if no node that stays completed or keeps
      running depends on one the verdicts reopen. */
  lemma CollectClosedIff(c: Config, s: State, done: map<Id, Outcome>, targets: map<Id, set<Id>>)
    requires WellFormed(s) && Partitioned(s.tree, s.running) && LegalOutcomes(s, done) && Closed(s.tree, s.running)
    ensures var settled := SettleAll(c, s.tree, Finished(s, done), done);
            var r := CollectState(c, s, done, targets);
            Closed(r.tree, r.running) <==>
              !Undermined(settled, r.running, ReopenedBy(settled.nodes, Finished(s, done), targets))
  {
    var finished := Finished(s, done);
    var settled := SettleAll(c, s.tree, finished, done);
    var r := CollectState(c, s, done, targets);
    SettledClosed(c, s, done);
    ReviewAllTo(settled, finished, targets);
    ReopenedClosedIff(settled, r.tree, r.running, ReopenedBy(settled.nodes, finished, targets));
  }

  /** Every collecting step of the run reopens nothing that completed or running nodes
      stand on. */
  ghost predicate Supported(c: Config, s: State, es: seq<Event>) {
    es == [] ||
    var (front, e) := (es[..|es| - 1], es[|es| - 1]);
    && Supported(c, s, front)
    && (e.Collect? && Enabled(c, Run(c, s, front), e) ==>
          var m := Run(c, s, front);
          var settled := SettleAll(c, m.tree, Finished(m, e.done), e.done);
          !Undermined(settled, Omit(m.running, e.done.Keys), ReopenedBy(settled.nodes, Finished(m, e.done), e.targets)))
  }

  /** Closed at every point of the run. */
  ghost predicate AlwaysClosed(c: Config, s: State, es: seq<Event>) {
    && (Run(c, s, es).phase != Done ==> Closed(Run(c, s, es).tree, Run(c, s, es).running))
    && (es == [] || AlwaysClosed(c, s, es[..|es| - 1]))
  }

  lemma StepClosedIff(c: Config, s: State, e: Event)
    requires Sound(c, s) && (s.phase != Done ==> Closed(s.tree, s.running))
    requires e.Collect? ==> Enabled(c, s, e) && s.phase != Done
    ensures var r := Step(c, s, e);
            (r.phase != Done ==> Closed(r.tree, r.running)) <==>
              (e.Collect? ==>
                 var settled := SettleAll(c, s.tree, Finished(s, e.done), e.done);
                 !Undermined(settled, Omit(s.running, e.done.Keys), ReopenedBy(settled.nodes, Finished(s, e.done), e.targets)))
  {
    if e.Collect? {
      CollectClosedIff(c, s, e.done, e.targets);
    } else {
      StepClosed(c, s, e);
    }
  }

  /** With rejections: a run is closed at every point if and only if every one of its
      collecting steps is supported. */
  lemma {:induction false} RunClosedIff(c: Config, s: State, es: seq<Event>)
    requires Sound(c, s) && (s.phase != Done ==> Closed(s.tree, s.running))
    ensures AlwaysClosed(c, s, es) <==> Supported(c, s, es)
  {
    if es != [] {
      var front, e := es[..|es| - 1], es[|es| - 1];
      RunClosedIff(c, s, front);
      RunSound(c, s, front);
      var m := Run(c, s, front);
      if AlwaysClosed(c, s, front) {
        if e.Collect? && !(Enabled(c, m, e) && m.phase != Done) {
          assert Step(c, m, e) == m;
        } else {
          StepClosedIff(c, m, e);
        }
      }
    }
  }
}
