/** The scheduler of a tree of nodes: its state, and every step between two suspension
    points of its coroutine, as a total transition function. */
module DagModel {
  import opened Prelude

  type Id = string

  const MAX_REVIEW_LOOPS: nat := 3

  // ----- Nodes -------------------------------------------------------------

  datatype Agent = CodeWriter | Code | CodeReviewer | CodeTester | OtherAgent(name: string)

  /** Unset is a node dictionary without a "status" key, as a frozen spec has it. */
  datatype Status =
    | Unset | Pending | Ready | Running | Retrying
    | Completed | Failed | Escalated | Skipped | Cancelled | Interrupted
    | WaitingResources

  predicate Terminal(s: Status) {
    match s
    case Completed => true
    case Failed => true
    case Escalated => true
    case Skipped => true
    case Cancelled => true
    case Interrupted => true
    case _ => false
  }

  /** A non-empty result dictionary; the verdict keys may be absent. */
  datatype Result = Result(approved: Option<bool>, testsPassed: Option<bool>, text: string)

  /** agent to effectful are declared by the frozen spec; the rest is run state.
      result is None for a missing or an empty dictionary. */
  datatype Node = Node(
    agent: Agent,
    params: string,
    dependsOn: seq<Id>,
    approval: bool,
    effectful: bool,
    status: Status,
    result: Option<Result>,
    reviewLoops: nat,
    waiting: bool,
    resultRef: Option<Result>,
    recovery: Option<bool>,
    attempts: nat)

  /** A node as a frozen spec declares it: no status and no run metadata. */
  predicate Fresh(n: Node) {
    && n.status == Unset
    && n.result == None
    && n.reviewLoops == 0
    && !n.waiting
    && n.resultRef == None
    && n.recovery == None
    && n.attempts == 0
  }

  predicate IsWriter(a: Agent) { a.CodeWriter? || a.Code? }

  function DepsOf(nodes: map<Id, Node>, id: Id): seq<Id> {
    if id in nodes then nodes[id].dependsOn else []
  }

  predicate WriterAt(nodes: map<Id, Node>, id: Id) {
    id in nodes && IsWriter(nodes[id].agent)
  }

  /** The reason a reviewer or tester sends work back, if it does. */
  function RejectionBy(a: Agent, r: Option<Result>): Option<string> {
    match r
    case None => None
    case Some(res) =>
      if a.CodeReviewer? && res.approved == Some(false) then Some(res.text)
      else if a.CodeTester? && res.testsPassed == Some(false) then Some(res.text)
      else None
  }

  function Rejection(n: Node): Option<string> { RejectionBy(n.agent, n.result) }

  // ----- Writer ancestors --------------------------------------------------

  function Universe(nodes: map<Id, Node>): set<Id> {
    set m, d | m in nodes && d in nodes[m].dependsOn :: d
  }

  /** Depth-first walk over deps, threading the ids already seen. */
  function Visit(nodes: map<Id, Node>, deps: seq<Id>, seen: set<Id>): (r: (seq<Id>, set<Id>))
    requires Within(deps, Universe(nodes))
    ensures seen <= r.1
    ensures forall w :: w in r.0 ==> WriterAt(nodes, w)
    decreases |Universe(nodes) - seen|, |deps|
  {
    if deps == [] then ([], seen)
    else
      var d := deps[0];
      if d in seen then Visit(nodes, deps[1..], seen)
      else
        SubsetCard(Universe(nodes) - (seen + {d}), Universe(nodes) - seen);
        var inner := Visit(nodes, DepsOf(nodes, d), seen + {d});
        SubsetCard(Universe(nodes) - inner.1, Universe(nodes) - (seen + {d}));
        var rest := Visit(nodes, deps[1..], inner.1);
        ((if WriterAt(nodes, d) then [d] else []) + inner.0 + rest.0, rest.1)
  }

  function WriterAncestors(nodes: map<Id, Node>, id: Id): (r: seq<Id>)
    ensures Within(r, nodes.Keys)
  {
    Visit(nodes, DepsOf(nodes, id), {}).0
  }

  // ----- Scheduler state ---------------------------------------------------

  datatype JobStatus =
    | JobRunning | JobPaused | JobCompleted | JobFailed | JobCancelled
    | JobInterrupted | JobWaitingApproval | JobWaitingResources

  /** Where the coroutine stands: at the loop head, inside the approval gates of
      a batch, waiting for a task, just after collecting, or finished. */
  datatype Phase =
    | Top
    | Gating(rest: seq<Id>, runnable: seq<Id>)
    | Waiting
    | Collected
    | Done

  datatype Config = Config(concurrency: int, longDag: bool, continueAfter: nat, maxReplans: int)

  /** The part of the state that settling and reviewing finished nodes rewrites. */
  datatype Tree = Tree(
    nodes: map<Id, Node>,
    pending: set<Id>,
    completed: set<Id>,
    job: JobStatus,
    sinceContinue: nat)

  datatype State = State(
    tree: Tree,
    running: seq<Id>,
    phase: Phase,
    paused: bool,
    cancelRequested: bool,
    keepCompleted: bool,
    approvals: map<Id, bool>,
    spec: map<Id, Node>,
    replanCount: int)

  predicate WellFormed(s: State) {
    && s.tree.pending <= s.tree.nodes.Keys
    && s.tree.completed <= s.tree.nodes.Keys
    && Within(s.running, s.tree.nodes.Keys)
    && (s.phase.Gating? ==> Within(s.phase.rest, s.tree.nodes.Keys) && Within(s.phase.runnable, s.tree.nodes.Keys))
  }

  function Unfinished(nodes: map<Id, Node>): set<Id> {
    set n | n in nodes && !Terminal(nodes[n].status)
  }

  function WithStatus(nodes: map<Id, Node>, st: Status): set<Id> {
    set n | n in nodes && nodes[n].status == st
  }

  /** A Workflow Run entered with these nodes. */
  function Begin(nodes: map<Id, Node>, spec: map<Id, Node>, job: JobStatus, replanCount: int): State {
    State(Tree(nodes, Unfinished(nodes), WithStatus(nodes, Completed), job, 0),
          [], Top, false, false, true, map[], spec, replanCount)
  }

  function Slots(c: Config): int { Max(1, c.concurrency) }

  function Capacity(c: Config, s: State): nat { Max(0, Slots(c) - |s.running|) }

  function Waiters(s: State): (r: set<Id>)
    requires WellFormed(s)
  {
    set n | n in s.tree.pending && s.tree.nodes[n].waiting
  }

  function ReadySet(s: State): (r: set<Id>)
    requires WellFormed(s)
  {
    set n | n in s.tree.pending && !s.tree.nodes[n].waiting && Within(s.tree.nodes[n].dependsOn, s.tree.completed)
  }

  // ----- Activity outcomes and collecting ----------------------------------

  datatype Outcome = Outcome(status: Status, result: Option<Result>, recovery: Option<bool>, persisted: bool)

  predicate LegalOutcome(o: Outcome) {
    o.status in {Completed, Failed, Escalated, Skipped, Interrupted, WaitingResources}
  }

  /** What _run_node writes back; a persisted reference names the result by content. */
  function Record(c: Config, n: Node, o: Outcome): Node {
    n.(status := o.status,
       result := o.result,
       recovery := if o.recovery.Some? then o.recovery else n.recovery,
       resultRef := if o.status == Completed && c.longDag && o.persisted && o.result.Some? then o.result
                    else n.resultRef)
  }

  function Settle(c: Config, t: Tree, id: Id, o: Outcome): (r: Tree)
    requires id in t.nodes
    ensures r.nodes.Keys == t.nodes.Keys
  {
    var n := Record(c, t.nodes[id], o);
    if n.status == Completed then
      t.(nodes := t.nodes[id := n], completed := t.completed + {id}, sinceContinue := t.sinceContinue + 1)
    else if n.status == WaitingResources then
      t.(nodes := t.nodes[id := n.(status := Pending, waiting := true)],
         pending := t.pending + {id},
         job := JobWaitingResources)
    else t.(nodes := t.nodes[id := n])
  }

  function SettleAll(c: Config, t: Tree, finished: seq<Id>, done: map<Id, Outcome>): (r: Tree)
    requires Within(finished, t.nodes.Keys) && Within(finished, done.Keys)
    ensures r.nodes.Keys == t.nodes.Keys
  {
    if finished == [] then t
    else
      var k := |finished| - 1;
      Settle(c, SettleAll(c, t, finished[..k], done), finished[k], done[finished[k]])
  }

  function Reopened(n: Node): Node { n.(status := Pending, result := None) }

  function DirectDependents(nodes: map<Id, Node>, w: Id): set<Id> {
    set m | m in nodes && m != w && w in nodes[m].dependsOn && nodes[m].status == Completed
  }

  predicate CanReopen(nodes: map<Id, Node>, w: Id) {
    w in nodes && nodes[w].status == Completed && nodes[w].reviewLoops < MAX_REVIEW_LOOPS
  }

  function SentBack(n: Node, text: string): Node {
    Reopened(n).(reviewLoops := n.reviewLoops + 1, params := n.params + text)
  }

  /** Send one writer back for rework, together with its completed direct dependents. */
  function ReopenWriter(t: Tree, w: Id, text: string): (r: Tree)
    requires w in t.nodes
    ensures r.nodes.Keys == t.nodes.Keys
  {
    if !CanReopen(t.nodes, w) then t
    else
      var ds := DirectDependents(t.nodes, w);
      t.(nodes := map m | m in t.nodes ::
           if m == w then SentBack(t.nodes[m], text)
           else if m in ds then Reopened(t.nodes[m])
           else t.nodes[m],
         pending := t.pending + {w} + ds,
         completed := t.completed - ({w} + ds))
  }

  function ReopenWriters(t: Tree, ws: seq<Id>, text: string): (r: Tree)
    requires Within(ws, t.nodes.Keys)
    ensures r.nodes.Keys == t.nodes.Keys
  {
    if ws == [] then t
    else
      var k := |ws| - 1;
      ReopenWriter(ReopenWriters(t, ws[..k], text), ws[k], text)
  }

  function ReopenSelf(t: Tree, id: Id): (r: Tree)
    requires id in t.nodes
    ensures r.nodes.Keys == t.nodes.Keys
  {
    t.(nodes := t.nodes[id := Reopened(t.nodes[id])],
       pending := t.pending + {id},
       completed := t.completed - {id})
  }

  /** Only the writers whose file the feedback names, when it names any of them. */
  function Targeted(ws: seq<Id>, named: set<Id>): (r: seq<Id>)
    ensures forall x :: x in r ==> x in ws
  {
    if Pick(ws, named) == [] then ws else Pick(ws, named)
  }

  function NamedFor(targets: map<Id, set<Id>>, id: Id): set<Id> {
    if id in targets then targets[id] else {}
  }

  /** The writers a rejection by this node sends back, in order. */
  function RejectedWriters(nodes: map<Id, Node>, id: Id, targets: map<Id, set<Id>>): (r: seq<Id>)
    ensures Within(r, nodes.Keys)
  {
    Targeted(WriterAncestors(nodes, id), NamedFor(targets, id))
  }

  /** One finished node's verdict, applied. */
  function Review(t: Tree, id: Id, targets: map<Id, set<Id>>): (r: Tree)
    requires id in t.nodes
    ensures r.nodes.Keys == t.nodes.Keys
  {
    match Rejection(t.nodes[id])
    case None => t
    case Some(text) => ReopenSelf(ReopenWriters(t, RejectedWriters(t.nodes, id, targets), text), id)
  }

  function ReviewAll(t: Tree, finished: seq<Id>, targets: map<Id, set<Id>>): (r: Tree)
    requires Within(finished, t.nodes.Keys)
    ensures r.nodes.Keys == t.nodes.Keys
  {
    if finished == [] then t
    else
      var k := |finished| - 1;
      Review(ReviewAll(t, finished[..k], targets), finished[k], targets)
  }

  predicate LegalOutcomes(s: State, done: map<Id, Outcome>) {
    forall n :: n in done ==> n in s.running && LegalOutcome(done[n])
  }

  /** The running nodes found done, in the order they were launched. */
  function Finished(s: State, done: map<Id, Outcome>): seq<Id> { Pick(s.running, done.Keys) }

  /** Everything the loop does after a task ended, up to the replan and cut tests. */
  function CollectState(c: Config, s: State, done: map<Id, Outcome>, targets: map<Id, set<Id>>): (r: State)
    requires WellFormed(s)
    ensures r.tree.nodes.Keys == s.tree.nodes.Keys
  {
    var finished := Finished(s, done);
    s.(tree := ReviewAll(SettleAll(c, s.tree, finished, done), finished, targets),
       running := Omit(s.running, done.Keys),
       phase := Collected)
  }

  // ----- Launching ---------------------------------------------------------

  ghost predicate IsBatch(c: Config, s: State, batch: seq<Id>)
    requires WellFormed(s)
  {
    && NoDup(batch)
    && Within(batch, ReadySet(s))
    && |batch| == Min(|ReadySet(s)|, Capacity(c, s))
  }

  predicate GatePasses(s: State, id: Id)
    requires id in s.tree.nodes
  {
    !s.tree.nodes[id].approval || id in s.approvals || s.cancelRequested || s.paused
  }

  function MarkNode(t: Tree, id: Id, st: Status): (r: Tree)
    requires id in t.nodes
    ensures r.nodes.Keys == t.nodes.Keys
  {
    t.(nodes := t.nodes[id := t.nodes[id].(status := st)])
  }

  /** The gate turns a node away only on an explicit refusal; a pause or a
      cancellation lets it through. */
  predicate GateRefuses(s: State, id: Id)
    requires id in s.tree.nodes
  {
    && s.tree.nodes[id].approval
    && !s.cancelRequested
    && !s.paused
    && !(id in s.approvals && s.approvals[id])
  }

  function GateTree(s: State, id: Id): (r: Tree)
    requires id in s.tree.nodes
    ensures r.nodes.Keys == s.tree.nodes.Keys
  {
    if !s.tree.nodes[id].approval then s.tree
    else if GateRefuses(s, id) then
      MarkNode(s.tree, id, Skipped).(job := JobRunning, pending := s.tree.pending - {id})
    else
      MarkNode(s.tree, id, Running).(job := if s.cancelRequested || s.paused then JobWaitingApproval else JobRunning)
  }

  /** The approval gate of the next node in the batch. */
  function GateState(s: State): (r: State)
    requires WellFormed(s) && s.phase.Gating? && s.phase.rest != []
  {
    var id := s.phase.rest[0];
    s.(tree := GateTree(s, id),
       phase := Gating(s.phase.rest[1..], if GateRefuses(s, id) then s.phase.runnable else s.phase.runnable + [id]))
  }

  function Launched(nodes: map<Id, Node>, ids: set<Id>): (r: map<Id, Node>)
    ensures r.Keys == nodes.Keys
  {
    map n | n in nodes ::
      if n in ids then nodes[n].(status := Running, attempts := nodes[n].attempts + 1) else nodes[n]
  }

  function LaunchState(s: State): (r: State)
    requires s.phase.Gating?
    ensures r.tree.nodes.Keys == s.tree.nodes.Keys
  {
    var ids := Elems(s.phase.runnable);
    var running1 := s.running + s.phase.runnable;
    s.(tree := s.tree.(nodes := Launched(s.tree.nodes, ids), pending := s.tree.pending - ids),
       running := running1,
       phase := if running1 == [] then Top else Waiting)
  }

  // ----- Nothing can start -------------------------------------------------

  function ClearWaiting(nodes: map<Id, Node>, ids: set<Id>): (r: map<Id, Node>)
    ensures r.Keys == nodes.Keys
  {
    map n | n in nodes :: if n in ids then nodes[n].(waiting := false) else nodes[n]
  }

  function SkipAll(nodes: map<Id, Node>, ids: set<Id>): (r: map<Id, Node>)
    ensures r.Keys == nodes.Keys
  {
    map n | n in nodes :: if n in ids then nodes[n].(status := Skipped) else nodes[n]
  }

  // ----- Ending a run ------------------------------------------------------

  predicate Protected(j: JobStatus) {
    j.JobCancelled? || j.JobInterrupted? || j.JobPaused? || j.JobWaitingResources?
  }

  /** The job status _finalize leaves behind. */
  function FinalStatus(nodes: map<Id, Node>, job: JobStatus, hasResult: bool): JobStatus {
    if Protected(job) then job
    else if nodes != map[] && (forall n :: n in nodes ==> nodes[n].status == Completed) then JobCompleted
    else if exists n :: n in nodes && nodes[n].status in {Failed, Skipped, Escalated} then JobFailed
    else if nodes == map[] then (if hasResult then JobCompleted else JobFailed)
    else JobRunning
  }

  function CancelledNode(n: Node, keep: bool): Node {
    if n.status in {Pending, Ready, Retrying} then n.(status := Cancelled)
    else if !keep && n.status in {Running, Interrupted} then n.(status := Cancelled)
    else n
  }

  /** A task at cancellation: already done with an outcome, or interrupted; a
      cancel seen while waiting also overrides every outcome but a completion. */
  function StoppedNode(c: Config, n: Node, late: Option<Outcome>, overriding: bool): Node {
    match late
    case None => n.(status := Interrupted)
    case Some(o) =>
      if overriding && o.status != Completed then Record(c, n, o).(status := Interrupted)
      else Record(c, n, o)
  }

  function CancelledAt(c: Config, s: State, late: map<Id, Outcome>, n: Id): Node
    requires n in s.tree.nodes
  {
    CancelledNode(
      if n in s.running then
        StoppedNode(c, s.tree.nodes[n], if n in late then Some(late[n]) else None, s.phase.Waiting?)
      else s.tree.nodes[n],
      s.keepCompleted)
  }

  function CancelNodes(c: Config, s: State, late: map<Id, Outcome>): (r: map<Id, Node>)
    ensures r.Keys == s.tree.nodes.Keys
  {
    map n | n in s.tree.nodes :: CancelledAt(c, s, late, n)
  }

  function CancelState(c: Config, s: State, late: map<Id, Outcome>): (r: State)
    ensures r.tree.nodes.Keys == s.tree.nodes.Keys
  {
    s.(tree := s.tree.(nodes := CancelNodes(c, s, late), job := JobCancelled), phase := Done)
  }

  // ----- Replanning and Continue-As-New ------------------------------------

  function ReplanCandidates(nodes: map<Id, Node>): set<Id> {
    set n | n in nodes && nodes[n].status in {Failed, Escalated} && nodes[n].recovery == Some(true)
  }

  predicate SameContract(a: Node, b: Node) {
    && a.agent == b.agent
    && a.dependsOn == b.dependsOn
    && a.approval == b.approval
    && a.effectful == b.effectful
  }

  predicate MayReplan(c: Config, s: State) {
    && s.running == []
    && s.replanCount < c.maxReplans
    && ReplanCandidates(s.tree.nodes) != {}
    && (forall n :: n in s.spec ==> !s.spec[n].approval && !s.spec[n].effectful)
  }

  /** What a mounted plan adds to the old spec: nodes under new names that carry no run
      state. DagOffers shows that the workflow accepts nothing else. */
  predicate LegalReplacement(t: Tree, spec: map<Id, Node>, extra: map<Id, Node>) {
    && extra != map[]
    && extra.Keys !! t.nodes.Keys
    && extra.Keys !! spec.Keys
    && (forall n :: n in extra ==> Fresh(extra[n]))
  }

  function Superseded(nodes: map<Id, Node>): set<Id> {
    set n | n in nodes && nodes[n].status !in {Completed, Cancelled, Interrupted, Skipped}
  }

  function MountTree(t: Tree, extra: map<Id, Node>): Tree {
    t.(nodes := SkipAll(t.nodes, Superseded(t.nodes)) + extra,
       pending := (t.pending - Superseded(t.nodes)) + extra.Keys)
  }

  function MountState(s: State, extra: map<Id, Node>, replanCount: int): State {
    s.(tree := MountTree(s.tree, extra), spec := s.spec + extra, replanCount := replanCount, phase := Top)
  }

  predicate CanContinueAsNew(nodes: map<Id, Node>) {
    forall n :: n in nodes && nodes[n].status == Completed && nodes[n].result.Some? ==> nodes[n].resultRef.Some?
  }

  predicate MustCut(c: Config, s: State) {
    && c.longDag
    && s.running == []
    && s.tree.pending != {}
    && s.tree.sinceContinue >= c.continueAfter
    && CanContinueAsNew(s.tree.nodes)
  }

  function Compact(n: Node): Node {
    if n.status == Completed then n.(result := None) else n
  }

  /** A frozen node with the terminal state of an earlier run put back. */
  function Restore(frozen: Node, prior: Node): Node {
    frozen.(
      status := if prior.status.Unset? then frozen.status else prior.status,
      result := prior.result,
      resultRef := if prior.resultRef.Some? then prior.resultRef else frozen.resultRef,
      recovery := if prior.recovery.Some? then prior.recovery else frozen.recovery,
      attempts := if prior.attempts > 0 then prior.attempts else frozen.attempts)
  }

  function RestoreAll(frozen: map<Id, Node>, saved: map<Id, Node>): map<Id, Node> {
    map n | n in frozen :: if n in saved then Restore(frozen[n], saved[n]) else frozen[n]
  }

  function CompactAll(nodes: map<Id, Node>): map<Id, Node> {
    map n | n in nodes :: Compact(nodes[n])
  }

  function CutState(s: State): State {
    Begin(RestoreAll(s.spec, CompactAll(s.tree.nodes)), s.spec, s.tree.job, s.replanCount)
  }

  // ----- Events ------------------------------------------------------------

  datatype Event =
    | Pause
    | Resume
    | CancelRequest(keep: bool)
    | Approve(id: Id, approved: bool)
    | SelectBatch(batch: seq<Id>)
    | Gate
    | Launch
    | WaitForResources
    | SkipRest
    | Collect(done: map<Id, Outcome>, targets: map<Id, set<Id>>)
    | Mount(extra: map<Id, Node>, newReplanCount: int)
    | Cut
    | Proceed
    | Exit(hasResult: bool, synthesisFailed: bool)
    | CancelStop(late: map<Id, Outcome>)

  predicate AtWork(s: State) {
    s.phase.Top? && !s.cancelRequested && !s.paused && (s.tree.pending != {} || s.running != [])
  }

  /** When a step can happen. Signals always can; they change nothing once done. */
  ghost predicate Enabled(c: Config, s: State, e: Event) {
    && WellFormed(s)
    && match e
       case Pause => true
       case Resume => true
       case CancelRequest(_) => true
       case Approve(_, _) => true
       case SelectBatch(batch) =>
         AtWork(s) && IsBatch(c, s, batch) && (batch != [] || s.running != [])
       case Gate =>
         s.phase.Gating? && s.phase.rest != [] && GatePasses(s, s.phase.rest[0])
       case Launch => s.phase.Gating? && s.phase.rest == []
       case WaitForResources => AtWork(s) && s.running == [] && ReadySet(s) == {} && Waiters(s) != {}
       case SkipRest => AtWork(s) && s.running == [] && ReadySet(s) == {} && Waiters(s) == {}
       case Collect(done, _) =>
         s.phase.Waiting? && !s.cancelRequested && LegalOutcomes(s, done) && (done != map[] || s.paused)
       case Mount(extra, _) => s.phase.Collected? && MayReplan(c, s) && LegalReplacement(s.tree, s.spec, extra)
       case Cut => s.phase.Collected? && MustCut(c, s)
       case Proceed => s.phase.Collected? && !MustCut(c, s)
       case Exit(_, _) => s.phase.Top? && s.tree.pending == {} && s.running == []
       case CancelStop(late) =>
         && s.cancelRequested
         && LegalOutcomes(s, late)
         && (s.phase.Waiting? || (s.phase.Top? && (s.tree.pending != {} || s.running != [])))
  }

  function Apply(c: Config, s: State, e: Event): State
    requires Enabled(c, s, e)
  {
    match e
    case Pause => s.(paused := true)
    case Resume => s.(paused := false)
    case CancelRequest(keep) => s.(cancelRequested := true, keepCompleted := keep)
    case Approve(id, approved) => s.(approvals := s.approvals[id := approved])
    case SelectBatch(batch) => s.(phase := Gating(batch, []))
    case Gate => GateState(s)
    case Launch => LaunchState(s)
    case WaitForResources => s.(tree := s.tree.(nodes := ClearWaiting(s.tree.nodes, Waiters(s)), job := JobRunning))
    case SkipRest =>
      var nodes1 := SkipAll(s.tree.nodes, s.tree.pending);
      s.(tree := s.tree.(nodes := nodes1, job := FinalStatus(nodes1, s.tree.job, false)), phase := Done)
    case Collect(done, targets) => CollectState(c, s, done, targets)
    case Mount(extra, count) => MountState(s, extra, count)
    case Cut => CutState(s)
    case Proceed => s.(phase := Top)
    case Exit(hasResult, synthesisFailed) =>
      s.(tree := s.tree.(job := FinalStatus(s.tree.nodes, if synthesisFailed then JobFailed else s.tree.job, hasResult)),
         phase := Done)
    case CancelStop(late) => CancelState(c, s, late)
  }

  /** A step that is not enabled leaves the state alone, so Run is total and the
      states it reaches are exactly the reachable ones. */
  ghost function Step(c: Config, s: State, e: Event): State {
    if Enabled(c, s, e) then Apply(c, s, e) else s
  }

  ghost function Run(c: Config, s: State, es: seq<Event>): State {
    if es == [] then s else Step(c, Run(c, s, es[..|es| - 1]), es[|es| - 1])
  }
}
