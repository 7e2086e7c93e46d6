/** What a collecting step makes of the outcomes, told without the scheduler's own reading
    of verdicts: who goes back, because of whom, and what stays done. */
module DagVerdicts {
  import opened Prelude
  import opened DagModel
  import opened DagInvariants
  import opened DagNodes
  import opened DagReopen

  /** A reviewer that did not approve, or a tester whose tests did not pass. */
  predicate SaysNo(n: Node, r: Option<Result>) {
    && r.Some?
    && ((n.agent == CodeReviewer && r.value.approved == Some(false))
        || (n.agent == CodeTester && r.value.testsPassed == Some(false)))
  }

  lemma SaysNoIff(n: Node)
    ensures Rejection(n).Some? <==> SaysNo(n, n.result)
    ensures Rejection(n).Some? ==> Rejection(n).value == n.result.value.text
  {}

  predicate SaidNo(s: State, done: map<Id, Outcome>, n: Id) {
    n in done && n in s.tree.nodes && SaysNo(s.tree.nodes[n], done[n].result)
  }

  // ----- The settled tree --------------------------------------------------------------

  function Settled(c: Config, s: State, done: map<Id, Outcome>): (t: Tree)
    requires WellFormed(s)
    ensures t.nodes.Keys == s.tree.nodes.Keys
  {
    SettleAll(c, s.tree, Finished(s, done), done)
  }

  /** An outcome written into its node. */
  ghost predicate Holds(c: Config, before: Node, o: Outcome, after: Node) {
    && SameContract(before, after) && after.params == before.params
    && after.reviewLoops == before.reviewLoops && after.attempts == before.attempts
    && after.result == o.result
    && after.status == (if o.status == WaitingResources then Pending else o.status)
    && after.waiting == (o.status == WaitingResources || before.waiting)
    && after.recovery == (if o.recovery.Some? then o.recovery else before.recovery)
    && after.resultRef == (if o.status == Completed && c.longDag && o.persisted && o.result.Some? then o.result
                           else before.resultRef)
  }

  /** A node was given its outcome, or none was there. */
  ghost predicate GivenOutcome(c: Config, s: State, done: map<Id, Outcome>, n: Id, after: Node)
    requires n in s.tree.nodes
  {
    if n in done then Holds(c, s.tree.nodes[n], done[n], after) else after == s.tree.nodes[n]
  }

  /** Completed before, or by this step's outcomes. */
  predicate DoneNow(s: State, done: map<Id, Outcome>, n: Id) {
    n in s.tree.completed || (n in done && done[n].status == Completed)
  }

  lemma FinishedIff(s: State, done: map<Id, Outcome>, n: Id)
    requires Partitioned(s.tree, s.running) && LegalOutcomes(s, done)
    ensures n in done <==> n in Finished(s, done)
    ensures NoDup(Finished(s, done))
  {
    DropToLimbo(s, done);
    assert n in Elems(Finished(s, done)) <==> n in done;
  }

  lemma SettledHolds(c: Config, before: Node, o: Outcome)
    requires LegalOutcome(o)
    ensures Holds(c, before, o, SettledNode(c, before, o))
    ensures SettledNode(c, before, o).status == Completed <==> o.status == Completed
    ensures Rejection(SettledNode(c, before, o)).Some? <==> SaysNo(before, o.result)
    ensures Rejection(SettledNode(c, before, o)).Some? ==> Rejection(SettledNode(c, before, o)).value == o.result.value.text
  {}

  lemma SettledAt(c: Config, s: State, done: map<Id, Outcome>, n: Id)
    requires WellFormed(s) && Partitioned(s.tree, s.running) && LegalOutcomes(s, done) && n in s.tree.nodes
    ensures n in done <==> n in Finished(s, done)
    ensures GivenOutcome(c, s, done, n, Settled(c, s, done).nodes[n])
    ensures n in done ==> (Rejection(Settled(c, s, done).nodes[n]).Some? <==> SaidNo(s, done, n))
    ensures SaidNo(s, done, n) ==> Rejection(Settled(c, s, done).nodes[n]).value == done[n].result.value.text
  {
    FinishedIff(s, done, n);
    SettleAllAt(c, s.tree, Finished(s, done), done, n);
    if n in done { SettledHolds(c, s.tree.nodes[n], done[n]); }
  }

  lemma SettledSets(c: Config, s: State, done: map<Id, Outcome>, n: Id)
    requires WellFormed(s) && Partitioned(s.tree, s.running) && LegalOutcomes(s, done) && n in s.tree.nodes
    ensures n in Settled(c, s, done).completed <==> DoneNow(s, done, n)
    ensures Settled(c, s, done).nodes[n].status == Completed <==> DoneNow(s, done, n)
    ensures n in Settled(c, s, done).pending <==>
              n in s.tree.pending || (n in done && done[n].status == WaitingResources)
  {
    FinishedIff(s, done, n);
    SettleAllAt(c, s.tree, Finished(s, done), done, n);
    SettleAllSets(c, s.tree, Finished(s, done), done, n);
    assert Placed(s.tree, s.running, {}, n);
    if n in done { SettledHolds(c, s.tree.nodes[n], done[n]); }
  }

  // ----- Who goes back --------------------------------------------------------------------

  lemma {:induction false} SentBackGrows(nodes: map<Id, Node>, gone: set<Id>, ws: seq<Id>)
    ensures gone <= SentBackFrom(nodes, gone, ws)
  {
    if ws != [] { SentBackGrows(nodes, gone, ws[..|ws| - 1]); }
  }

  /** Whoever rejects is among the reopened. */
  lemma {:induction false} RejectingReopened(nodes: map<Id, Node>, finished: seq<Id>, targets: map<Id, set<Id>>, n: Id)
    requires Within(finished, nodes.Keys) && n in finished && Rejection(nodes[n]).Some?
    ensures n in ReopenedBy(nodes, finished, targets)
  {
    var k := |finished| - 1;
    var before, id := ReopenedBy(nodes, finished[..k], targets), finished[k];
    assert finished == finished[..k] + [id];
    SentBackGrows(nodes, before, RejectedWriters(nodes, id, targets));
    if n != id { RejectingReopened(nodes, finished[..k], targets, n); }
  }

  lemma {:induction false} NobodyReopened(nodes: map<Id, Node>, finished: seq<Id>, targets: map<Id, set<Id>>)
    requires Within(finished, nodes.Keys) && forall n :: n in finished ==> Rejection(nodes[n]).None?
    ensures ReopenedBy(nodes, finished, targets) == {}
  {
    if finished != [] { NobodyReopened(nodes, finished[..|finished| - 1], targets); }
  }

  lemma CollectReopens(c: Config, s: State, done: map<Id, Outcome>, targets: map<Id, set<Id>>)
    requires WellFormed(s)
    ensures ReopenedTo(Settled(c, s, done), CollectState(c, s, done, targets).tree,
                       ReopenedBy(Settled(c, s, done).nodes, Finished(s, done), targets))
  {
    ReviewAllTo(Settled(c, s, done), Finished(s, done), targets);
  }

  /** In every collecting step each reviewer that did not approve and each tester whose
      tests did not pass is pending again, without a result, whatever status it came with. */
  lemma NoGoesBack(c: Config, s: State, done: map<Id, Outcome>, targets: map<Id, set<Id>>, n: Id)
    requires Inv(c, s) && Enabled(c, s, Collect(done, targets)) && SaidNo(s, done, n)
    ensures var r := Step(c, s, Collect(done, targets)).tree;
            && n in r.pending && n !in r.completed
            && r.nodes[n].status == Pending && r.nodes[n].result == None
  {
    SettledAt(c, s, done, n);
    SettledSets(c, s, done, n);
    RejectingReopened(Settled(c, s, done).nodes, Finished(s, done), targets, n);
    CollectReopens(c, s, done, targets);
  }

  /** Without such an outcome a collecting step writes the outcomes into their nodes and
      does nothing else: a missing verdict rejects nothing. */
  lemma QuietRoundSettles(c: Config, s: State, done: map<Id, Outcome>, targets: map<Id, set<Id>>, n: Id)
    requires Inv(c, s) && Enabled(c, s, Collect(done, targets)) && n in s.tree.nodes
    requires forall m :: m in done ==> !SaidNo(s, done, m)
    ensures var r := Step(c, s, Collect(done, targets)).tree;
            && GivenOutcome(c, s, done, n, r.nodes[n])
            && (n in r.completed <==> DoneNow(s, done, n))
            && (n in r.pending <==> n in s.tree.pending || (n in done && done[n].status == WaitingResources))
  {
    SettledAt(c, s, done, n);
    SettledSets(c, s, done, n);
    forall m | m in Finished(s, done) ensures Rejection(Settled(c, s, done).nodes[m]).None? { SettledAt(c, s, done, m); }
    NobodyReopened(Settled(c, s, done).nodes, Finished(s, done), targets);
    CollectReopens(c, s, done, targets);
  }
}
