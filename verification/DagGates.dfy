/** The approval gate: who passes it, and what a whole run without pauses and
    cancellations guarantees about nodes that need approval. */
module DagGates {
  import opened Prelude
  import opened DagModel
  import opened DagInvariants

  /** A node that needs approval leaves the gate for launching exactly when it was
      approved, or the job was paused or cancelled while it stood there. */
  lemma GatePassIff(c: Config, s: State)
    requires Inv(c, s) && s.phase != Done && Enabled(c, s, Gate) && s.tree.nodes[s.phase.rest[0]].approval
    ensures var id := s.phase.rest[0];
            var r := Step(c, s, Gate);
            && (id in r.phase.runnable <==>
                  (id in s.approvals && s.approvals[id]) || s.paused || s.cancelRequested)
            && (id !in r.phase.runnable ==> r.tree.nodes[id].status == Skipped && id !in r.tree.pending)
  {
    var id := s.phase.rest[0];
    var batch := s.phase.runnable + s.phase.rest;
    var k := |s.phase.runnable|;
    assert batch[k] == id;
    forall i | 0 <= i < k ensures s.phase.runnable[i] != id {
      assert batch[i] == s.phase.runnable[i];
    }
  }

  // ----- Decisions and gates of a run -------------------------------------------

  /** The latest decision about n since the run was last cut. */
  ghost function LastSaid(c: Config, s: State, es: seq<Event>, n: Id): Option<bool> {
    if es == [] then None
    else
      var (m, e) := (Run(c, s, es[..|es| - 1]), es[|es| - 1]);
      if Enabled(c, m, e) && e.Approve? && e.id == n then Some(e.approved)
      else if Enabled(c, m, e) && e.Cut? then None
      else LastSaid(c, s, es[..|es| - 1], n)
  }

  function SaidIn(s: State, n: Id): Option<bool> { if n in s.approvals then Some(s.approvals[n]) else None }

  lemma StepSaid(c: Config, s: State, e: Event, n: Id)
    ensures SaidIn(Step(c, s, e), n) ==
              if Enabled(c, s, e) && e.Approve? && e.id == n then Some(e.approved)
              else if Enabled(c, s, e) && e.Cut? then None
              else SaidIn(s, n)
  {
  }

  lemma {:induction false} RunSaid(c: Config, s: State, es: seq<Event>, n: Id)
    requires s.approvals == map[]
    ensures SaidIn(Run(c, s, es), n) == LastSaid(c, s, es, n)
  {
    if es != [] {
      RunSaid(c, s, es[..|es| - 1], n);
      StepSaid(c, Run(c, s, es[..|es| - 1]), es[|es| - 1], n);
    }
  }

  ghost predicate PassesGate(c: Config, s: State, e: Event, n: Id) {
    Enabled(c, s, e) && e.Gate? && s.phase.rest[0] == n
  }

  /** At its latest gate n was approved by the latest decision, or the job stood paused
      or cancelled. */
  ghost predicate LetThrough(c: Config, s: State, es: seq<Event>, n: Id) {
    es != [] &&
    var (m, e) := (Run(c, s, es[..|es| - 1]), es[|es| - 1]);
    if PassesGate(c, m, e, n)
    then LastSaid(c, s, es[..|es| - 1], n) == Some(true) || m.paused || m.cancelRequested
    else LetThrough(c, s, es[..|es| - 1], n)
  }

  /** At its latest gate n was approved by the latest decision. */
  ghost predicate Approved(c: Config, s: State, es: seq<Event>, n: Id) {
    es != [] &&
    if PassesGate(c, Run(c, s, es[..|es| - 1]), es[|es| - 1], n)
    then LastSaid(c, s, es[..|es| - 1], n) == Some(true)
    else Approved(c, s, es[..|es| - 1], n)
  }

  ghost predicate Undisturbed(es: seq<Event>) {
    forall k :: 0 <= k < |es| ==> es[k] != Pause && !es[k].CancelRequest?
  }

  /** Running, or through its gate, and in need of approval. */
  ghost predicate Heading(s: State, n: Id) {
    && s.phase != Done
    && n in s.tree.nodes && s.tree.nodes[n].approval
    && (n in s.running || (s.phase.Gating? && n in s.phase.runnable))
  }

  ghost predicate SameApprovalFlags(a: map<Id, Node>, b: map<Id, Node>) {
    forall n :: n in b ==> n in a && a[n].approval == b[n].approval
  }

  lemma {:induction false} SettleAllFlags(c: Config, t: Tree, finished: seq<Id>, done: map<Id, Outcome>)
    requires Within(finished, t.nodes.Keys) && Within(finished, done.Keys)
    ensures SameApprovalFlags(t.nodes, SettleAll(c, t, finished, done).nodes)
  {
    if finished != [] {
      SettleAllFlags(c, t, finished[..|finished| - 1], done);
    }
  }

  lemma {:induction false} ReopenWritersFlags(t: Tree, ws: seq<Id>, text: string)
    requires Within(ws, t.nodes.Keys)
    ensures SameApprovalFlags(t.nodes, ReopenWriters(t, ws, text).nodes)
  {
    if ws != [] {
      ReopenWritersFlags(t, ws[..|ws| - 1], text);
    }
  }

  lemma {:induction false} ReviewAllFlags(t: Tree, finished: seq<Id>, targets: map<Id, set<Id>>)
    requires Within(finished, t.nodes.Keys)
    ensures SameApprovalFlags(t.nodes, ReviewAll(t, finished, targets).nodes)
  {
    if finished != [] {
      var k := |finished| - 1;
      ReviewAllFlags(t, finished[..k], targets);
      var m := ReviewAll(t, finished[..k], targets);
      match Rejection(m.nodes[finished[k]])
      case None =>
      case Some(text) => ReopenWritersFlags(m, RejectedWriters(m.nodes, finished[k], targets), text);
    }
  }

  lemma CollectHeading(c: Config, s: State, done: map<Id, Outcome>, targets: map<Id, set<Id>>, n: Id)
    requires WellFormed(s) && s.phase.Waiting? && Heading(CollectState(c, s, done, targets), n)
    ensures Heading(s, n)
  {
    var finished := Finished(s, done);
    SettleAllFlags(c, s.tree, finished, done);
    ReviewAllFlags(SettleAll(c, s.tree, finished, done), finished, targets);
  }

  /** The gate's own node. */
  lemma GateOwn(c: Config, s: State, n: Id)
    requires Inv(c, s) && s.phase != Done && PassesGate(c, s, Gate, n) && Heading(GateState(s), n)
    ensures SaidIn(s, n) == Some(true) || s.paused || s.cancelRequested
  {
    assert n in s.phase.runnable + s.phase.rest;
    assert Startable(s.tree, n) && Placed(s.tree, s.running, {}, n);
    GatePassIff(c, s);
  }

  lemma GateOther(c: Config, s: State, n: Id)
    requires Enabled(c, s, Gate) && s.phase.rest[0] != n && Heading(GateState(s), n)
    ensures Heading(s, n)
  {
  }

  lemma QuietHeading(c: Config, s: State, e: Event, n: Id)
    requires Enabled(c, s, e) && s.phase != Done && !e.Gate? && !e.Collect? && Heading(Apply(c, s, e), n)
    ensures Heading(s, n)
  {
  }

  /** Only its own gate puts a node on its way. */
  lemma StepHeading(c: Config, s: State, e: Event, n: Id)
    requires Inv(c, s) && Heading(Step(c, s, e), n)
    ensures if PassesGate(c, s, e, n) then SaidIn(s, n) == Some(true) || s.paused || s.cancelRequested else Heading(s, n)
  {
    if Enabled(c, s, e) && s.phase != Done {
      match e
      case Gate => if s.phase.rest[0] == n { GateOwn(c, s, n); } else { GateOther(c, s, n); }
      case Collect(done, targets) => CollectHeading(c, s, done, targets, n);
      case _ => QuietHeading(c, s, e, n);
    }
  }

  /** In every run: whatever is running or about to be launched and needs approval passed
      its latest gate on the latest decision of that run, or while the job stood paused or
      cancelled. */
  lemma {:induction false} RunLetThrough(c: Config, s: State, es: seq<Event>, n: Id)
    requires Inv(c, s) && s.approvals == map[] && !Heading(s, n) && Heading(Run(c, s, es), n)
    ensures LetThrough(c, s, es, n)
  {
    if es != [] {
      var before, e := es[..|es| - 1], es[|es| - 1];
      var m := Run(c, s, before);
      RunInv(c, s, before);
      RunSaid(c, s, before, n);
      StepHeading(c, m, e, n);
      if !PassesGate(c, m, e, n) { RunLetThrough(c, s, before, n); }
    }
  }

  lemma StepCalm(c: Config, s: State, e: Event)
    requires !s.paused && !s.cancelRequested && e != Pause && !e.CancelRequest?
    ensures !Step(c, s, e).paused && !Step(c, s, e).cancelRequested
  {
  }

  lemma {:induction false} RunCalm(c: Config, s: State, es: seq<Event>)
    requires !s.paused && !s.cancelRequested && Undisturbed(es)
    ensures !Run(c, s, es).paused && !Run(c, s, es).cancelRequested
  {
    if es != [] {
      RunCalm(c, s, es[..|es| - 1]);
      StepCalm(c, Run(c, s, es[..|es| - 1]), es[|es| - 1]);
    }
  }

  lemma {:induction false} CalmApproved(c: Config, s: State, es: seq<Event>, n: Id)
    requires !s.paused && !s.cancelRequested && Undisturbed(es) && LetThrough(c, s, es, n)
    ensures Approved(c, s, es, n)
  {
    var before := es[..|es| - 1];
    RunCalm(c, s, before);
    if !PassesGate(c, Run(c, s, before), es[|es| - 1], n) { CalmApproved(c, s, before, n); }
  }

  /** Without pauses and cancellations it was approved there. */
  lemma RunApproved(c: Config, s: State, es: seq<Event>, n: Id)
    requires Inv(c, s) && s.approvals == map[] && !s.paused && !s.cancelRequested && !Heading(s, n)
    requires Undisturbed(es) && Heading(Run(c, s, es), n)
    ensures Approved(c, s, es, n)
  {
    RunLetThrough(c, s, es, n);
    CalmApproved(c, s, es, n);
  }
}
