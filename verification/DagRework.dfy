/** Rework is bounded: how often a node can be launched, and which rounds make
    progress. */
module DagRework {
  import opened Prelude
  import opened DagModel
  import opened DagInvariants
  import opened DagNodes
  import opened DagClosure

  // ----- Counting launches -------------------------------------------------

  /** Review rounds spent by the nodes listed in deps. */
  ghost function LoopSum(nodes: map<Id, Node>, deps: seq<Id>): nat {
    if deps == [] then 0
    else
      var d := deps[|deps| - 1];
      LoopSum(nodes, deps[..|deps| - 1]) + if d in nodes then nodes[d].reviewLoops else 0
  }

  ghost function WriterDeps(nodes: map<Id, Node>, deps: seq<Id>): nat {
    if deps == [] then 0
    else WriterDeps(nodes, deps[..|deps| - 1]) + if WriterAt(nodes, deps[|deps| - 1]) then 1 else 0
  }

  /** Launches the spent review rounds account for, minus launches made or due. */
  ghost function Slack(t: Tree, n: Id): int
    requires n in t.nodes
  {
    1 + t.nodes[n].reviewLoops + LoopSum(t.nodes, t.nodes[n].dependsOn)
    - t.nodes[n].attempts - if n in t.pending then 1 else 0
  }

  lemma {:induction false} LoopSumMono(a: map<Id, Node>, b: map<Id, Node>, deps: seq<Id>)
    requires AllEvolved(a, b)
    ensures LoopSum(a, deps) <= LoopSum(b, deps)
  {
    if deps != [] {
      LoopSumMono(a, b, deps[..|deps| - 1]);
      var d := deps[|deps| - 1];
      if d in a { assert Evolved(a[d], b[d]); }
    }
  }

  lemma {:induction false} LoopSumBump(a: map<Id, Node>, b: map<Id, Node>, deps: seq<Id>, w: Id)
    requires AllEvolved(a, b) && w in deps && w in a && a[w].reviewLoops < b[w].reviewLoops
    ensures LoopSum(a, deps) < LoopSum(b, deps)
  {
    var k := |deps| - 1;
    var d := deps[k];
    LoopSumMono(a, b, deps[..k]);
    if d in a { assert Evolved(a[d], b[d]); }
    if d != w {
      assert w in deps[..k];
      LoopSumBump(a, b, deps[..k], w);
    }
  }

  /** Sending a writer back pays for every launch it causes. */
  lemma ReopenWriterSlack(t: Tree, w: Id, text: string, n: Id)
    requires w in t.nodes && IsWriter(t.nodes[w].agent) && n in t.nodes
    ensures Slack(ReopenWriter(t, w, text), n) >= Slack(t, n)
  {
    var r := ReopenWriter(t, w, text);
    ReopenWriterEvolves(t, w, text);
    assert Evolved(t.nodes[n], r.nodes[n]);
    LoopSumMono(t.nodes, r.nodes, t.nodes[n].dependsOn);
    if CanReopen(t.nodes, w) && n in DirectDependents(t.nodes, w) {
      assert r.nodes[w] == SentBack(t.nodes[w], text);
      LoopSumBump(t.nodes, r.nodes, t.nodes[n].dependsOn, w);
    }
    ReopenWriterAt(t, w, text, n);
  }

  lemma ReopenWriterAt(t: Tree, w: Id, text: string, n: Id)
    requires w in t.nodes && n in t.nodes
    ensures var r := ReopenWriter(t, w, text);
            && r.nodes[n].attempts == t.nodes[n].attempts
            && r.nodes[n].dependsOn == t.nodes[n].dependsOn
            && r.nodes[n].reviewLoops == t.nodes[n].reviewLoops + (if CanReopen(t.nodes, w) && n == w then 1 else 0)
            && (n in r.pending ==>
                  n in t.pending || (CanReopen(t.nodes, w) && (n == w || n in DirectDependents(t.nodes, w))))
  {
  }

  lemma {:induction false} ReopenWritersSlack(t: Tree, ws: seq<Id>, text: string, n: Id)
    requires Within(ws, t.nodes.Keys) && AllWriters(t.nodes, ws) && n in t.nodes
    ensures Slack(ReopenWriters(t, ws, text), n) >= Slack(t, n)
  {
    if ws != [] {
      var k := |ws| - 1;
      ReopenWritersSlack(t, ws[..k], text, n);
      ReopenWritersEvolves(t, ws[..k], text);
      var m := ReopenWriters(t, ws[..k], text);
      assert WriterAt(t.nodes, ws[k]) && Evolved(t.nodes[ws[k]], m.nodes[ws[k]]);
      ReopenWriterSlack(m, ws[k], text, n);
    }
  }

  lemma {:induction false} LoopSumSame(a: map<Id, Node>, b: map<Id, Node>, deps: seq<Id>)
    requires forall n :: n in a <==> n in b
    requires forall n :: n in a && n in b ==> a[n].reviewLoops == b[n].reviewLoops
    ensures LoopSum(a, deps) == LoopSum(b, deps)
  {
    if deps != [] {
      LoopSumSame(a, b, deps[..|deps| - 1]);
    }
  }

  lemma ReopenSelfSlack(t: Tree, id: Id, n: Id)
    requires id in t.nodes && n in t.nodes
    ensures Slack(ReopenSelf(t, id), n) >= Slack(t, n) - if n == id then 1 else 0
  {
    LoopSumSame(t.nodes, ReopenSelf(t, id).nodes, t.nodes[n].dependsOn);
  }

  ghost predicate Rejects(nodes: map<Id, Node>, id: Id) {
    id in nodes && Rejection(nodes[id]).Some?
  }

  lemma ReviewSlack(t: Tree, id: Id, targets: map<Id, set<Id>>, n: Id)
    requires id in t.nodes && n in t.nodes
    ensures Slack(Review(t, id, targets), n) >= Slack(t, n) - if n == id && Rejects(t.nodes, id) then 1 else 0
  {
    match Rejection(t.nodes[id])
    case None =>
    case Some(text) =>
      var ws := RejectedWriters(t.nodes, id, targets);
      RejectedAreWriters(t.nodes, id, targets);
      ReopenWritersSlack(t, ws, text, n);
      ReopenSelfSlack(ReopenWriters(t, ws, text), id, n);
  }

  /** Reviewing can erase a verdict that is still to be read, never make one. */
  ghost predicate VerdictsOnlyErased(a: map<Id, Node>, b: map<Id, Node>) {
    forall n :: n in a ==> n in b && b[n].agent == a[n].agent && (b[n].result == a[n].result || b[n].result == None)
  }

  lemma {:induction false} ReopenWritersVerdicts(t: Tree, ws: seq<Id>, text: string)
    requires Within(ws, t.nodes.Keys)
    ensures VerdictsOnlyErased(t.nodes, ReopenWriters(t, ws, text).nodes)
  {
    if ws != [] {
      ReopenWritersVerdicts(t, ws[..|ws| - 1], text);
    }
  }

  lemma {:induction false} ReviewAllVerdicts(t: Tree, finished: seq<Id>, targets: map<Id, set<Id>>)
    requires Within(finished, t.nodes.Keys)
    ensures VerdictsOnlyErased(t.nodes, ReviewAll(t, finished, targets).nodes)
  {
    if finished != [] {
      var k := |finished| - 1;
      ReviewAllVerdicts(t, finished[..k], targets);
      ReviewVerdicts(ReviewAll(t, finished[..k], targets), finished[k], targets);
    }
  }

  lemma ReviewVerdicts(t: Tree, id: Id, targets: map<Id, set<Id>>)
    requires id in t.nodes
    ensures VerdictsOnlyErased(t.nodes, Review(t, id, targets).nodes)
  {
    match Rejection(t.nodes[id])
    case None =>
    case Some(text) => ReopenWritersVerdicts(t, RejectedWriters(t.nodes, id, targets), text);
  }

  lemma {:induction false} ReviewAllSlack(t: Tree, finished: seq<Id>, targets: map<Id, set<Id>>, n: Id)
    requires Within(finished, t.nodes.Keys) && NoDup(finished) && n in t.nodes
    ensures Slack(ReviewAll(t, finished, targets), n) >=
            Slack(t, n) - if n in finished && Rejects(t.nodes, n) then 1 else 0
  {
    if finished != [] {
      var k := |finished| - 1;
      var m := ReviewAll(t, finished[..k], targets);
      ReviewAllSlack(t, finished[..k], targets, n);
      ReviewSlack(m, finished[k], targets, n);
      ReviewAllVerdicts(t, finished[..k], targets);
      assert n in finished <==> n in finished[..k] || n == finished[k];
      if n == finished[k] {
        assert m.nodes[n].agent == t.nodes[n].agent;
        assert m.nodes[n].result == t.nodes[n].result || m.nodes[n].result == None;
      }
    }
  }

  /** What happened to n in one collecting step: a resource wait, a rejection by it. */
  ghost predicate WaitedNow(s: State, e: Event, n: Id) {
    e.Collect? && n in e.done && e.done[n].status == WaitingResources
  }

  ghost predicate RejectedNow(s: State, e: Event, n: Id) {
    e.Collect? && n in e.done && n in s.tree.nodes && RejectionBy(s.tree.nodes[n].agent, e.done[n].result).Some?
  }

  ghost function One(b: bool): nat { if b then 1 else 0 }

  lemma SettleAllSlack(c: Config, t: Tree, finished: seq<Id>, done: map<Id, Outcome>, n: Id)
    requires Within(finished, t.nodes.Keys) && Within(finished, done.Keys) && NoDup(finished) && n in t.nodes
    ensures Slack(SettleAll(c, t, finished, done), n) >=
            Slack(t, n) - One(n in finished && done[n].status == WaitingResources)
  {
    var r := SettleAll(c, t, finished, done);
    forall m | m in t.nodes ensures r.nodes[m].reviewLoops == t.nodes[m].reviewLoops {
      SettleAllAt(c, t, finished, done, m);
    }
    LoopSumSame(t.nodes, r.nodes, t.nodes[n].dependsOn);
    SettleAllAt(c, t, finished, done, n);
    SettleAllSets(c, t, finished, done, n);
  }

  lemma CollectSlack(c: Config, s: State, done: map<Id, Outcome>, targets: map<Id, set<Id>>, n: Id)
    requires WellFormed(s) && Partitioned(s.tree, s.running) && LegalOutcomes(s, done) && n in s.tree.nodes
    ensures var e := Collect(done, targets);
            Slack(CollectState(c, s, done, targets).tree, n) >=
            Slack(s.tree, n) - One(WaitedNow(s, e, n)) - One(RejectedNow(s, e, n))
  {
    DropToLimbo(s, done);
    var finished := Finished(s, done);
    var m := SettleAll(c, s.tree, finished, done);
    SettleAllSlack(c, s.tree, finished, done, n);
    SettleAllAt(c, s.tree, finished, done, n);
    ReviewAllSlack(m, finished, targets, n);
  }

  lemma LaunchSlack(c: Config, s: State, n: Id)
    requires Inv(c, s) && s.phase.Gating? && n in s.tree.nodes
    ensures Slack(LaunchState(s).tree, n) >= Slack(s.tree, n)
  {
    var r := LaunchState(s).tree;
    LoopSumSame(s.tree.nodes, r.nodes, s.tree.nodes[n].dependsOn);
    if n in s.phase.runnable { BatchPending(c, s, n); }
  }

  /** A step that launches nothing and reopens nothing. */
  lemma CalmSlack(a: Tree, b: Tree, n: Id)
    requires n in a.nodes && n in b.nodes && b.nodes[n].attempts == a.nodes[n].attempts
    requires AllEvolved(a.nodes, b.nodes) && (n in b.pending ==> n in a.pending)
    ensures Slack(b, n) >= Slack(a, n)
  {
    assert Evolved(a.nodes[n], b.nodes[n]);
    LoopSumMono(a.nodes, b.nodes, a.nodes[n].dependsOn);
  }

  lemma CalmStep(c: Config, s: State, e: Event, n: Id)
    requires Inv(c, s) && Enabled(c, s, e) && n in s.tree.nodes && !e.Launch? && !e.Collect? && !e.Cut?
    ensures n in Apply(c, s, e).tree.nodes
    ensures Apply(c, s, e).tree.nodes[n].attempts == s.tree.nodes[n].attempts
    ensures n in Apply(c, s, e).tree.pending ==> n in s.tree.pending
  {
    match e
    case CancelStop(late) => CancelAttempts(c, s, late, n);
    case _ =>
  }

  lemma CancelAttempts(c: Config, s: State, late: map<Id, Outcome>, n: Id)
    requires n in s.tree.nodes
    ensures CancelState(c, s, late).tree.nodes[n].attempts == s.tree.nodes[n].attempts
  {
  }

  lemma StepSlack(c: Config, s: State, e: Event, n: Id)
    requires Inv(c, s) && n in s.tree.nodes && !e.Cut?
    ensures n in Step(c, s, e).tree.nodes
    ensures Slack(Step(c, s, e).tree, n) >=
            Slack(s.tree, n) - One(Enabled(c, s, e) && WaitedNow(s, e, n)) - One(Enabled(c, s, e) && RejectedNow(s, e, n))
  {
    if Enabled(c, s, e) {
      StepEvolves(c, s, e);
      if e.Launch? {
        LaunchSlack(c, s, n);
      } else if e.Collect? {
        CollectSlack(c, s, e.done, e.targets, n);
      } else {
        CalmStep(c, s, e, n);
        CalmSlack(s.tree, Apply(c, s, e).tree, n);
      }
    }
  }

  ghost function WaitCount(c: Config, s: State, es: seq<Event>, n: Id): nat {
    if es == [] then 0
    else
      var m := Run(c, s, es[..|es| - 1]);
      var e := es[|es| - 1];
      WaitCount(c, s, es[..|es| - 1], n) + One(Enabled(c, m, e) && WaitedNow(m, e, n))
  }

  ghost function RejectCount(c: Config, s: State, es: seq<Event>, n: Id): nat {
    if es == [] then 0
    else
      var m := Run(c, s, es[..|es| - 1]);
      var e := es[|es| - 1];
      RejectCount(c, s, es[..|es| - 1], n) + One(Enabled(c, m, e) && RejectedNow(m, e, n))
  }

  ghost predicate LoopsBounded(nodes: map<Id, Node>) {
    forall n :: n in nodes ==>
      nodes[n].reviewLoops <= MAX_REVIEW_LOOPS && (!IsWriter(nodes[n].agent) ==> nodes[n].reviewLoops == 0)
  }

  lemma StepLoopsBounded(c: Config, s: State, e: Event)
    requires Sound(c, s) && LoopsBounded(s.tree.nodes)
    ensures LoopsBounded(Step(c, s, e).tree.nodes)
  {
    if Enabled(c, s, e) && e.Cut? {
      assert forall n :: n in s.spec ==> Fresh(s.spec[n]);
    } else if Enabled(c, s, e) && e.Mount? {
      MountBounded(s.tree, s.spec, e.extra);
    } else if Enabled(c, s, e) {
      StepEvolves(c, s, e);
      StepKeys(c, s, e);
    }
  }

  lemma MountBounded(t: Tree, spec: map<Id, Node>, extra: map<Id, Node>)
    requires LoopsBounded(t.nodes) && LegalReplacement(t, spec, extra)
    ensures LoopsBounded(MountTree(t, extra).nodes)
  {
    MountEvolves(t, extra);
    var after := MountTree(t, extra).nodes;
    forall n | n in after
      ensures after[n].reviewLoops <= MAX_REVIEW_LOOPS && (!IsWriter(after[n].agent) ==> after[n].reviewLoops == 0)
    {
      if n in extra { assert Fresh(extra[n]); } else { assert Evolved(t.nodes[n], after[n]); }
    }
  }

  /** In every reachable state no writer has been sent back more than
      MAX_REVIEW_LOOPS times since the run began, and nothing else ever was. */
  lemma {:induction false} RunLoopsBounded(c: Config, s: State, es: seq<Event>)
    requires Sound(c, s) && LoopsBounded(s.tree.nodes)
    ensures LoopsBounded(Run(c, s, es).tree.nodes)
  {
    if es != [] {
      RunLoopsBounded(c, s, es[..|es| - 1]);
      RunSound(c, s, es[..|es| - 1]);
      StepLoopsBounded(c, Run(c, s, es[..|es| - 1]), es[|es| - 1]);
    }
  }

  lemma {:induction false} LoopSumBounded(nodes: map<Id, Node>, deps: seq<Id>)
    requires LoopsBounded(nodes)
    ensures LoopSum(nodes, deps) <= MAX_REVIEW_LOOPS * WriterDeps(nodes, deps)
  {
    if deps != [] {
      LoopSumBounded(nodes, deps[..|deps| - 1]);
    }
  }

  // ----- Launches over a whole run --------------------------------------------

  ghost predicate CutNow(c: Config, s: State, e: Event) { e.Cut? && Enabled(c, s, e) }

  ghost function CutCount(c: Config, s: State, es: seq<Event>): nat {
    if es == [] then 0
    else
      CutCount(c, s, es[..|es| - 1]) + One(CutNow(c, Run(c, s, es[..|es| - 1]), es[|es| - 1]))
  }

  /** The review rounds a node and its direct dependencies can use up between two cuts. */
  ghost function Rounds(nodes: map<Id, Node>, n: Id): nat
    requires n in nodes
  {
    MAX_REVIEW_LOOPS * (One(IsWriter(nodes[n].agent)) + WriterDeps(nodes, nodes[n].dependsOn))
  }

  lemma SpentRounds(nodes: map<Id, Node>, n: Id)
    requires LoopsBounded(nodes) && n in nodes
    ensures nodes[n].reviewLoops + LoopSum(nodes, nodes[n].dependsOn) <= Rounds(nodes, n)
  {
    LoopSumBounded(nodes, nodes[n].dependsOn);
  }

  ghost predicate KeepsAgents(a: map<Id, Node>, b: map<Id, Node>) {
    forall n :: n in a ==> n in b && b[n].agent == a[n].agent && b[n].dependsOn == a[n].dependsOn
  }

  lemma {:induction false} WriterDepsMono(a: map<Id, Node>, b: map<Id, Node>, deps: seq<Id>)
    requires KeepsAgents(a, b)
    ensures WriterDeps(a, deps) <= WriterDeps(b, deps)
  {
    if deps != [] {
      WriterDepsMono(a, b, deps[..|deps| - 1]);
    }
  }

  lemma RoundsMono(a: map<Id, Node>, b: map<Id, Node>, n: Id)
    requires KeepsAgents(a, b) && n in a
    ensures Rounds(a, n) <= Rounds(b, n)
  {
    WriterDepsMono(a, b, a[n].dependsOn);
  }

  lemma StepKeepsAgents(c: Config, s: State, e: Event)
    requires Sound(c, s)
    ensures KeepsAgents(s.tree.nodes, Step(c, s, e).tree.nodes)
  {
    var r := Step(c, s, e).tree.nodes;
    if Enabled(c, s, e) && e.Cut? {
      RestoreDeclared(s.spec, CompactAll(s.tree.nodes));
      forall n | n in s.tree.nodes
        ensures n in r && r[n].agent == s.tree.nodes[n].agent && r[n].dependsOn == s.tree.nodes[n].dependsOn
      {
        assert n in s.spec && SameContract(s.spec[n], s.tree.nodes[n]) && SameContract(s.spec[n], r[n]);
      }
    } else if Enabled(c, s, e) {
      StepEvolves(c, s, e);
      forall n | n in s.tree.nodes
        ensures n in r && r[n].agent == s.tree.nodes[n].agent && r[n].dependsOn == s.tree.nodes[n].dependsOn
      {
        assert Evolved(s.tree.nodes[n], r[n]);
      }
    }
  }

  /** A cut takes away the rounds that paid for launches, and nothing else. */
  lemma CutSlack(c: Config, s: State, n: Id)
    requires Sound(c, s) && LoopsBounded(s.tree.nodes) && Enabled(c, s, Cut) && n in s.tree.nodes
    ensures n in Step(c, s, Cut).tree.nodes
    ensures Slack(Step(c, s, Cut).tree, n) >= Slack(s.tree, n) - Rounds(s.tree.nodes, n)
  {
    CutSets(c, s);
    CutRefundsBudget(c, s, n);
    StepKeepsAgents(c, s, Cut);
    SpentRounds(s.tree.nodes, n);
  }

  /** A mounted node is paid for by its first start. */
  lemma NewSlack(c: Config, s: State, e: Event, n: Id)
    requires Sound(c, s) && n !in s.tree.nodes && n in Step(c, s, e).tree.nodes
    ensures Slack(Step(c, s, e).tree, n) >= 0
  {
    if Enabled(c, s, e) && e.Mount? {
      assert n in e.extra && Fresh(e.extra[n]);
    } else if !e.Cut? {
      StepKeys(c, s, e);
    }
  }

  ghost function Times(k: nat, x: nat): nat { if k == 0 then 0 else Times(k - 1, x) + x }

  lemma {:induction false} TimesMono(k: nat, x: nat, y: nat)
    requires x <= y
    ensures Times(k, x) <= Times(k, y)
  {
    if k > 0 { TimesMono(k - 1, x, y); }
  }

  lemma {:induction false} TimesIs(k: nat, x: nat)
    ensures Times(k, x) + x == x * (1 + k)
  {
    if k > 0 { TimesIs(k - 1, x); }
  }

  /** A step charged with at most dw waits, dv verdicts and a cut. */
  ghost predicate StepPays(t: Tree, r: Tree, n: Id, dw: nat, dv: nat, more: bool)
    requires n in t.nodes
  {
    && n in r.nodes
    && Rounds(t.nodes, n) <= Rounds(r.nodes, n)
    && Slack(r, n) >= Slack(t, n) - dw - dv - if more then Rounds(t.nodes, n) else 0
  }

  lemma AnyStepSlack(c: Config, s: State, e: Event, n: Id) returns (dw: nat, dv: nat, more: bool)
    requires Sound(c, s) && LoopsBounded(s.tree.nodes) && n in s.tree.nodes
    ensures StepPays(s.tree, Step(c, s, e).tree, n, dw, dv, more)
    ensures dw == One(Enabled(c, s, e) && WaitedNow(s, e, n)) && dv == One(Enabled(c, s, e) && RejectedNow(s, e, n))
    ensures more == CutNow(c, s, e)
  {
    dw, dv := One(Enabled(c, s, e) && WaitedNow(s, e, n)), One(Enabled(c, s, e) && RejectedNow(s, e, n));
    more := CutNow(c, s, e);
    StepKeepsAgents(c, s, e);
    RoundsMono(s.tree.nodes, Step(c, s, e).tree.nodes, n);
    if e.Cut? {
      if Enabled(c, s, e) { CutSlack(c, s, n); }
    } else {
      StepSlack(c, s, e, n);
    }
  }

  /** The account of a node after w waits, v verdicts of its own and k cuts. */
  ghost predicate Covers(base: int, t: Tree, n: Id, w: nat, v: nat, k: nat) {
    n in t.nodes ==> Slack(t, n) + w + v + Times(k, Rounds(t.nodes, n)) >= base
  }

  lemma CoversNext(base: int, t: Tree, r: Tree, n: Id, w: nat, v: nat, k: nat, dw: nat, dv: nat, more: bool)
    requires n in t.nodes && Covers(base, t, n, w, v, k) && StepPays(t, r, n, dw, dv, more)
    ensures Covers(base, r, n, w + dw, v + dv, k + One(more))
  {
    var x, y := Rounds(t.nodes, n), Rounds(r.nodes, n);
    TimesMono(k, x, y);
    TimesNext(k, more, y);
  }

  /** What launches are paid for in a whole run: the first start, the review rounds of
      the node and of its direct dependencies, once more after each cut, resource waits,
      and the node's own rejections. */
  ghost predicate Paid(c: Config, s: State, es: seq<Event>, n: Id) {
    Covers(if n in s.tree.nodes then Slack(s.tree, n) else 0,
           Run(c, s, es).tree, n, WaitCount(c, s, es, n), RejectCount(c, s, es, n), CutCount(c, s, es))
  }

  lemma SnocPays(c: Config, s: State, es: seq<Event>, e: Event, n: Id) returns (dw: nat, dv: nat, more: bool)
    requires Sound(c, Run(c, s, es)) && LoopsBounded(Run(c, s, es).tree.nodes) && n in Run(c, s, es).tree.nodes
    ensures StepPays(Run(c, s, es).tree, Run(c, s, es + [e]).tree, n, dw, dv, more)
    ensures WaitCount(c, s, es + [e], n) == WaitCount(c, s, es, n) + dw
    ensures RejectCount(c, s, es + [e], n) == RejectCount(c, s, es, n) + dv
    ensures CutCount(c, s, es + [e]) == CutCount(c, s, es) + One(more)
  {
    dw, dv, more := AnyStepSlack(c, Run(c, s, es), e, n);
    SnocCounts(c, s, es, e, n);
  }

  lemma TimesNext(k: nat, more: bool, x: nat)
    ensures Times(k + One(more), x) == Times(k, x) + if more then x else 0
  {
  }

  lemma SnocCounts(c: Config, s: State, es: seq<Event>, e: Event, n: Id)
    ensures var m := Run(c, s, es);
            && Run(c, s, es + [e]) == Step(c, m, e)
            && WaitCount(c, s, es + [e], n) == WaitCount(c, s, es, n) + One(Enabled(c, m, e) && WaitedNow(m, e, n))
            && RejectCount(c, s, es + [e], n) == RejectCount(c, s, es, n) + One(Enabled(c, m, e) && RejectedNow(m, e, n))
            && CutCount(c, s, es + [e]) == CutCount(c, s, es) + One(CutNow(c, m, e))
  {
    assert (es + [e])[..|es + [e]| - 1] == es;
  }

  lemma {:induction false} RunSlack(c: Config, s: State, es: seq<Event>, n: Id)
    requires Sound(c, s) && LoopsBounded(s.tree.nodes)
    ensures Paid(c, s, es, n)
  {
    if es != [] {
      var before, e := es[..|es| - 1], es[|es| - 1];
      var m := Run(c, s, before);
      RunSlack(c, s, before, n);
      RunSound(c, s, before);
      RunLoopsBounded(c, s, before);
      if n in m.tree.nodes {
        assert before + [e] == es;
        var dw, dv, more := SnocPays(c, s, before, e, n);
        CoversNext(if n in s.tree.nodes then Slack(s.tree, n) else 0, m.tree, Run(c, s, es).tree, n,
                   WaitCount(c, s, before, n), RejectCount(c, s, before, n), CutCount(c, s, before), dw, dv, more);
      } else if n in Run(c, s, es).tree.nodes {
        if n in s.tree.nodes { RunKeepsNodes(c, s, before, n); }
        NewSlack(c, m, e, n);
      }
    }
  }

  /** In every run, over any number of cuts and mounted plans, a node is launched at most
      once, plus three times if it is a writer and three times for each writer it directly
      depends on, these again after each cut, plus its resource waits and its own
      rejections. */
  lemma LaunchBound(c: Config, s: State, es: seq<Event>, n: Id)
    requires Sound(c, s) && LoopsBounded(s.tree.nodes) && n in Run(c, s, es).tree.nodes
    ensures Run(c, s, es).tree.nodes[n].attempts <=
              (if n in s.tree.nodes then s.tree.nodes[n].attempts else 0)
              + 1 + Rounds(Run(c, s, es).tree.nodes, n) * (1 + CutCount(c, s, es))
              + WaitCount(c, s, es, n) + RejectCount(c, s, es, n)
  {
    RunSlack(c, s, es, n);
    RunLoopsBounded(c, s, es);
    SpentRounds(Run(c, s, es).tree.nodes, n);
    TimesIs(CutCount(c, s, es), Rounds(Run(c, s, es).tree.nodes, n));
  }

  /** A submitted job: saved nodes of any status over a frozen spec. */
  lemma JobLaunchBound(c: Config, nodes: map<Id, Node>, spec: map<Id, Node>, job: JobStatus, count: int,
                       es: seq<Event>, n: Id)
    requires DeclaredBy(spec, nodes) && (forall m :: m in spec ==> Fresh(spec[m]))
    requires forall m :: m in nodes ==> nodes[m].attempts == 0 && nodes[m].reviewLoops == 0
    requires n in Run(c, Begin(nodes, spec, job, count), es).tree.nodes
    ensures var s := Begin(nodes, spec, job, count);
            Run(c, s, es).tree.nodes[n].attempts <=
              1 + Rounds(Run(c, s, es).tree.nodes, n) * (1 + CutCount(c, s, es))
              + WaitCount(c, s, es, n) + RejectCount(c, s, es, n)
  {
    BeginInv(c, nodes, spec, job, count);
    LaunchBound(c, Begin(nodes, spec, job, count), es, n);
  }

  ghost predicate MayReject(nodes: map<Id, Node>, n: Id) {
    n in nodes && (nodes[n].agent.CodeReviewer? || nodes[n].agent.CodeTester?)
  }

  /** Only reviewers and testers reject, in every run. */
  lemma {:induction false} OthersNeverReject(c: Config, s: State, es: seq<Event>, n: Id)
    requires Sound(c, s)
    ensures RejectCount(c, s, es, n) > 0 ==> MayReject(Run(c, s, es).tree.nodes, n)
  {
    if es != [] {
      var before := es[..|es| - 1];
      OthersNeverReject(c, s, before, n);
      RunSound(c, s, before);
      StepKeepsAgents(c, Run(c, s, before), es[|es| - 1]);
    }
  }

  /** A cut refunds the whole review budget: the rounds are not carried over. */
  lemma CutRefundsBudget(c: Config, s: State, n: Id)
    requires Sound(c, s) && Enabled(c, s, Cut) && n in s.tree.nodes
    ensures Step(c, s, Cut).tree.nodes[n].reviewLoops == 0
    ensures Step(c, s, Cut).tree.nodes[n].attempts == s.tree.nodes[n].attempts
  {
    assert n in s.spec && Fresh(s.spec[n]);
  }
}
