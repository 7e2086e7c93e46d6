/** In a long DAG a finished node first writes its outcome back and then stores a
    reference to its result; until that is done its task still counts as running. This
    module splits the one step of the scheduler model into the two, shows when the split
    makes no difference, and what goes wrong otherwise. */
module DagPersist {
  import opened Prelude
  import opened DagModel
  import opened DagInvariants
  import opened DagNodes
  import opened DagClosure
  import opened DagReopen
  import opened DagRuns

  /** The node before its outcome was written back, and that outcome. */
  datatype Stored = Stored(before: Node, outcome: Outcome)

  /** storing holds the running nodes whose outcome is written back already. */
  datatype Window = Window(s: State, storing: map<Id, Stored>)

  datatype WEvent = Plain(event: Event) | WriteBack(id: Id, outcome: Outcome)

  function Written(c: Config, st: Stored): Node { Record(c, st.before, st.outcome.(persisted := false)) }

  /** The reference arrives, or does not. */
  function StoreEnd(n: Node, st: Stored, persisted: bool): Node {
    n.(resultRef := if persisted && st.outcome.result.Some? then st.outcome.result else n.resultRef)
  }

  /** The reported outcomes are the ones written back. */
  predicate Agrees(w: Window, done: map<Id, Outcome>) {
    forall n :: n in done && n in w.storing ==> done[n] == w.storing[n].outcome.(persisted := done[n].persisted)
  }

  // ----- Steps ------------------------------------------------------------------

  function WSettle(c: Config, t: Tree, storing: map<Id, Stored>, id: Id, o: Outcome): (r: Tree)
    requires id in t.nodes
    ensures r.nodes.Keys == t.nodes.Keys
  {
    if id !in storing then Settle(c, t, id, o)
    else
      var n := StoreEnd(t.nodes[id], storing[id], o.persisted);
      if n.status == Completed then
        t.(nodes := t.nodes[id := n], completed := t.completed + {id}, sinceContinue := t.sinceContinue + 1)
      else t.(nodes := t.nodes[id := n])
  }

  function WSettleAll(c: Config, t: Tree, storing: map<Id, Stored>, finished: seq<Id>, done: map<Id, Outcome>): (r: Tree)
    requires Within(finished, t.nodes.Keys) && Within(finished, done.Keys)
    ensures r.nodes.Keys == t.nodes.Keys
  {
    if finished == [] then t
    else
      var k := |finished| - 1;
      WSettle(c, WSettleAll(c, t, storing, finished[..k], done), storing, finished[k], done[finished[k]])
  }

  function Without(storing: map<Id, Stored>, ids: set<Id>): map<Id, Stored> {
    map n | n in storing && n !in ids :: storing[n]
  }

  function WCollect(c: Config, w: Window, done: map<Id, Outcome>, targets: map<Id, set<Id>>): Window
    requires WellFormed(w.s)
  {
    var finished := Finished(w.s, done);
    var settled := WSettleAll(c, w.s.tree, w.storing, finished, done);
    Window(w.s.(tree := ReviewAll(settled, finished, targets),
                running := Omit(w.s.running, done.Keys),
                phase := Collected),
           Without(w.storing, done.Keys))
  }

  /** A cancellation leaves the written-back nodes as they are. */
  function WCancelNodes(c: Config, w: Window, late: map<Id, Outcome>): map<Id, Node>
    requires w.storing.Keys <= late.Keys
  {
    map n | n in w.s.tree.nodes ::
      if n in w.storing
      then CancelledNode(StoreEnd(w.s.tree.nodes[n], w.storing[n], late[n].persisted), w.s.keepCompleted)
      else CancelledAt(c, w.s, late, n)
  }

  function WCancelled(c: Config, w: Window, late: map<Id, Outcome>): Window
    requires w.storing.Keys <= late.Keys
  {
    Window(w.s.(tree := w.s.tree.(nodes := WCancelNodes(c, w, late), job := JobCancelled), phase := Done), map[])
  }

  ghost predicate WEnabled(c: Config, w: Window, x: WEvent) {
    match x
    case WriteBack(id, o) =>
      && c.longDag && w.s.phase != Done
      && id in w.s.running && id in w.s.tree.nodes && id !in w.storing && o.status == Completed
    case Plain(e) =>
      && Enabled(c, w.s, e)
      && (e.Collect? ==> Agrees(w, e.done))
      && (e.CancelStop? ==> Agrees(w, e.late) && w.storing.Keys <= e.late.Keys)
  }

  ghost function WApply(c: Config, w: Window, x: WEvent): Window
    requires WEnabled(c, w, x)
  {
    match x
    case WriteBack(id, o) =>
      var st := Stored(w.s.tree.nodes[id], o);
      Window(w.s.(tree := w.s.tree.(nodes := w.s.tree.nodes[id := Written(c, st)])), w.storing[id := st])
    case Plain(e) =>
      if e.Collect? then WCollect(c, w, e.done, e.targets)
      else if e.CancelStop? then WCancelled(c, w, e.late)
      else w.(s := Apply(c, w.s, e))
  }

  ghost function WStep(c: Config, w: Window, x: WEvent): Window {
    if WEnabled(c, w, x) then WApply(c, w, x) else w
  }

  ghost function WRun(c: Config, w: Window, xs: seq<WEvent>): Window {
    if xs == [] then w else WStep(c, WRun(c, w, xs[..|xs| - 1]), xs[|xs| - 1])
  }

  // ----- Seen as one step ----------------------------------------------------------

  /** The nodes with every write-back still to come. */
  function Hide(nodes: map<Id, Node>, storing: map<Id, Stored>): (r: map<Id, Node>)
    ensures r.Keys == nodes.Keys
  {
    map n | n in nodes :: if n in storing then storing[n].before else nodes[n]
  }

  function HideTree(t: Tree, storing: map<Id, Stored>): Tree { t.(nodes := Hide(t.nodes, storing)) }

  function Atomic(w: Window): State { w.s.(tree := HideTree(w.s.tree, w.storing)) }

  ghost predicate Writes(c: Config, t: Tree, storing: map<Id, Stored>) {
    forall n :: n in storing ==>
                  && n in t.nodes && t.nodes[n] == Written(c, storing[n])
                  && storing[n].outcome.status == Completed && storing[n].before.status == Running
  }

  ghost predicate WInv(c: Config, w: Window) {
    && Inv(c, Atomic(w))
    && (w.storing != map[] ==> c.longDag && w.s.phase != Done)
    && (forall n :: n in w.storing ==> n in w.s.running)
    && Writes(c, w.s.tree, w.storing)
  }

  /** The step reopens a node whose reference is still being stored. */
  ghost predicate Disturbs(c: Config, w: Window, x: WEvent) {
    && WEnabled(c, w, x) && x.Plain? && x.event.Collect?
    && var finished := Finished(w.s, x.event.done);
       var settled := WSettleAll(c, w.s.tree, w.storing, finished, x.event.done);
       exists n :: n in w.storing && n !in x.event.done && n in ReopenedBy(settled.nodes, finished, x.event.targets)
  }

  // ----- Collecting ------------------------------------------------------------------

  lemma HideAt(t: Tree, storing: map<Id, Stored>, id: Id, n: Node)
    requires id !in storing
    ensures Hide(t.nodes[id := n], storing) == Hide(t.nodes, storing)[id := n]
  {}

  lemma SettlePlain(c: Config, t: Tree, storing: map<Id, Stored>, id: Id, o: Outcome)
    requires id in t.nodes && Writes(c, t, storing) && id !in storing
    ensures HideTree(Settle(c, t, id, o), storing) == Settle(c, HideTree(t, storing), id, o)
    ensures Writes(c, Settle(c, t, id, o), storing)
  {
    HideAt(t, storing, id, Settle(c, t, id, o).nodes[id]);
  }

  lemma StoreEndRecords(c: Config, st: Stored, o: Outcome)
    requires c.longDag && st.outcome.status == Completed && o == st.outcome.(persisted := o.persisted)
    ensures StoreEnd(Written(c, st), st, o.persisted) == Record(c, st.before, o)
  {}

  lemma SettleStored(c: Config, t: Tree, storing: map<Id, Stored>, id: Id, o: Outcome)
    requires id in t.nodes && Writes(c, t, storing) && c.longDag
    requires id in storing && o == storing[id].outcome.(persisted := o.persisted)
    ensures HideTree(WSettle(c, t, storing, id, o), Without(storing, {id})) == Settle(c, HideTree(t, storing), id, o)
    ensures Writes(c, WSettle(c, t, storing, id, o), Without(storing, {id}))
  {
    var r := WSettle(c, t, storing, id, o);
    StoreEndRecords(c, storing[id], o);
    assert Hide(r.nodes, Without(storing, {id})) == Hide(t.nodes, storing)[id := r.nodes[id]];
  }

  lemma SettleHidden(c: Config, t: Tree, storing: map<Id, Stored>, id: Id, o: Outcome)
    requires id in t.nodes && Writes(c, t, storing) && (storing != map[] ==> c.longDag)
    requires id in storing ==> o == storing[id].outcome.(persisted := o.persisted)
    ensures HideTree(WSettle(c, t, storing, id, o), Without(storing, {id})) == Settle(c, HideTree(t, storing), id, o)
    ensures Writes(c, WSettle(c, t, storing, id, o), Without(storing, {id}))
  {
    if id in storing {
      SettleStored(c, t, storing, id, o);
    } else {
      assert Without(storing, {id}) == storing;
      SettlePlain(c, t, storing, id, o);
    }
  }

  lemma WithoutMore(storing: map<Id, Stored>, a: set<Id>, b: set<Id>)
    ensures Without(Without(storing, a), b) == Without(storing, a + b)
    ensures Without(storing, {}) == storing
  {}

  /** The nodes already settled no longer count as stored. */
  lemma SettleRest(c: Config, t: Tree, storing: map<Id, Stored>, ids: set<Id>, id: Id, o: Outcome)
    requires id in t.nodes && id !in ids
    ensures WSettle(c, t, storing, id, o) == WSettle(c, t, Without(storing, ids), id, o)
  {}

  lemma {:induction false} SettleAllHidden(c: Config, t: Tree, storing: map<Id, Stored>, finished: seq<Id>,
                                           done: map<Id, Outcome>)
    requires Within(finished, t.nodes.Keys) && Within(finished, done.Keys) && NoDup(finished)
    requires Writes(c, t, storing) && (storing != map[] ==> c.longDag)
    requires forall n :: n in done && n in storing ==> done[n] == storing[n].outcome.(persisted := done[n].persisted)
    ensures var r := WSettleAll(c, t, storing, finished, done);
            && HideTree(r, Without(storing, Elems(finished))) == SettleAll(c, HideTree(t, storing), finished, done)
            && Writes(c, r, Without(storing, Elems(finished)))
  {
    if finished == [] {
      assert Elems(finished) == {};
      WithoutMore(storing, {}, {});
    } else {
      var k := |finished| - 1;
      var id := finished[k];
      var front := Elems(finished[..k]);
      SettleAllHidden(c, t, storing, finished[..k], done);
      var m := WSettleAll(c, t, storing, finished[..k], done);
      assert id !in front;
      SettleRest(c, m, storing, front, id, done[id]);
      SettleHidden(c, m, Without(storing, front), id, done[id]);
      WithoutMore(storing, front, {id});
      assert Elems(finished) == front + {id};
    }
  }

  /** a is b with the write-backs of storing made. */
  ghost predicate Ahead(c: Config, a: Tree, b: Tree, storing: map<Id, Stored>) {
    b == HideTree(a, storing) && Writes(c, a, storing)
  }

  /** Reopening a writer does the same to both when nothing stored goes with it. */
  lemma ReopenAhead(c: Config, a: Tree, b: Tree, storing: map<Id, Stored>, w: Id, text: string)
    requires Ahead(c, a, b, storing) && w in a.nodes
    requires CanReopen(a.nodes, w) ==> w !in storing && forall m :: m in DirectDependents(a.nodes, w) ==> m !in storing
    ensures Ahead(c, ReopenWriter(a, w, text), ReopenWriter(b, w, text), storing)
  {
    if CanReopen(a.nodes, w) {
      assert DirectDependents(b.nodes, w) == DirectDependents(a.nodes, w) by {
        forall m | m in a.nodes ensures m in DirectDependents(b.nodes, w) <==> m in DirectDependents(a.nodes, w) {
          if m in storing { assert SameContract(storing[m].before, a.nodes[m]); }
        }
      }
      assert ReopenWriter(b, w, text).nodes == Hide(ReopenWriter(a, w, text).nodes, storing);
    }
  }

  lemma {:induction false} SentBackGrows(nodes: map<Id, Node>, gone: set<Id>, ws: seq<Id>)
    ensures gone <= SentBackFrom(nodes, gone, ws)
  {
    if ws != [] { SentBackGrows(nodes, gone, ws[..|ws| - 1]); }
  }

  ghost predicate Apart(gone: set<Id>, storing: map<Id, Stored>) {
    forall n :: n in gone ==> n !in storing
  }

  lemma {:induction false} ReopenAllAhead(c: Config, t: Tree, a: Tree, b: Tree, storing: map<Id, Stored>, gone: set<Id>,
                                          ws: seq<Id>, text: string)
    requires ReopenedTo(t, a, gone) && Ahead(c, a, b, storing) && Within(ws, t.nodes.Keys)
    requires Apart(SentBackFrom(t.nodes, gone, ws), storing)
    ensures Ahead(c, ReopenWriters(a, ws, text), ReopenWriters(b, ws, text), storing)
  {
    if ws != [] {
      var k := |ws| - 1;
      var before := SentBackFrom(t.nodes, gone, ws[..k]);
      assert before <= SentBackFrom(t.nodes, gone, ws);
      ReopenAllAhead(c, t, a, b, storing, gone, ws[..k], text);
      ReopenWritersTo(t, a, gone, ws[..k], text);
      var m := ReopenWriters(a, ws[..k], text);
      DependentsLeft(t, m, before, ws[k]);
      ReopenAhead(c, m, ReopenWriters(b, ws[..k], text), storing, ws[k], text);
    }
  }

  lemma SelfAhead(c: Config, a: Tree, b: Tree, storing: map<Id, Stored>, id: Id)
    requires Ahead(c, a, b, storing) && id in a.nodes && id !in storing
    ensures Ahead(c, ReopenSelf(a, id), ReopenSelf(b, id), storing)
  {
    HideAt(a, storing, id, Reopened(a.nodes[id]));
  }

  lemma AheadGraph(c: Config, a: Tree, b: Tree, storing: map<Id, Stored>)
    requires Ahead(c, a, b, storing)
    ensures SameGraph(a.nodes, b.nodes)
  {}

  lemma ReviewAhead(c: Config, t: Tree, a: Tree, b: Tree, storing: map<Id, Stored>, gone: set<Id>, id: Id,
                    targets: map<Id, set<Id>>)
    requires ReopenedTo(t, a, gone) && Ahead(c, a, b, storing) && id in t.nodes && id !in storing
    requires id in gone || Rejection(t.nodes[id]).None?
             || Apart(SentBackFrom(t.nodes, gone, RejectedWriters(t.nodes, id, targets)), storing)
    ensures Ahead(c, Review(a, id, targets), Review(b, id, targets), storing)
  {
    if id in gone || Rejection(t.nodes[id]).None? {
      assert Rejection(a.nodes[id]).None?;
    } else {
      var text := Rejection(t.nodes[id]).value;
      var ws := RejectedWriters(t.nodes, id, targets);
      assert SameGraph(t.nodes, a.nodes);
      RejectedSame(t.nodes, a.nodes, id, targets);
      AheadGraph(c, a, b, storing);
      RejectedSame(a.nodes, b.nodes, id, targets);
      ReopenAllAhead(c, t, a, b, storing, gone, ws, text);
      SelfAhead(c, ReopenWriters(a, ws, text), ReopenWriters(b, ws, text), storing, id);
    }
  }

  lemma {:induction false} ReviewAllAhead(c: Config, t: Tree, b: Tree, storing: map<Id, Stored>, finished: seq<Id>,
                                          targets: map<Id, set<Id>>)
    requires Ahead(c, t, b, storing) && Within(finished, t.nodes.Keys)
    requires forall n :: n in finished ==> n !in storing
    requires Apart(ReopenedBy(t.nodes, finished, targets), storing)
    ensures Ahead(c, ReviewAll(t, finished, targets), ReviewAll(b, finished, targets), storing)
  {
    if finished != [] {
      var k := |finished| - 1;
      var before, id := ReopenedBy(t.nodes, finished[..k], targets), finished[k];
      SentBackGrows(t.nodes, before, RejectedWriters(t.nodes, id, targets));
      ReviewAllAhead(c, t, b, storing, finished[..k], targets);
      ReviewAllTo(t, finished[..k], targets);
      ReviewAhead(c, t, ReviewAll(t, finished[..k], targets), ReviewAll(b, finished[..k], targets), storing, before, id,
                  targets);
    }
  }

  // ----- One step --------------------------------------------------------------------

  lemma SameShape(c: Config, w: Window)
    requires WInv(c, w) && w.s.phase != Done
    ensures WellFormed(w.s) && WellFormed(Atomic(w))
    ensures forall n :: n in w.storing ==> n !in w.s.tree.pending && n !in w.s.tree.completed && n in w.s.tree.nodes
    ensures ReadySet(Atomic(w)) == ReadySet(w.s) && Waiters(Atomic(w)) == Waiters(w.s)
  {
    InvWellFormed(c, Atomic(w));
    forall n | n in w.storing ensures n !in w.s.tree.pending && n !in w.s.tree.completed {
      assert Placed(Atomic(w).tree, w.s.running, {}, n);
    }
    assert WellFormed(w.s);
  }

  lemma NothingStored(c: Config, w: Window)
    requires WInv(c, w) && (w.s.running == [] || w.s.phase == Done)
    ensures w.storing == map[] && Atomic(w) == w.s
  {
    assert forall n :: n !in w.storing;
    assert Hide(w.s.tree.nodes, w.storing) == w.s.tree.nodes;
  }

  lemma PlainWInv(c: Config, w: Window)
    requires w.storing == map[] && Inv(c, w.s)
    ensures WInv(c, w)
  {
    assert Hide(w.s.tree.nodes, w.storing) == w.s.tree.nodes;
  }

  /** Every run begins with nothing stored, inside the invariant. */
  lemma BeginWInv(c: Config, nodes: map<Id, Node>, spec: map<Id, Node>, job: JobStatus, count: int)
    ensures WInv(c, Window(Begin(nodes, spec, job, count), map[]))
  {
    BeginInv(c, nodes, spec, job, count);
    PlainWInv(c, Window(Begin(nodes, spec, job, count), map[]));
  }

  lemma WriteBackHidden(c: Config, t: Tree, storing: map<Id, Stored>, id: Id, o: Outcome)
    requires id in t.nodes && id !in storing && o.status == Completed && t.nodes[id].status == Running
    requires Writes(c, t, storing)
    ensures var st := Stored(t.nodes[id], o);
            var r := t.(nodes := t.nodes[id := Written(c, st)]);
            HideTree(r, storing[id := st]) == HideTree(t, storing) && Writes(c, r, storing[id := st])
  {
    var st := Stored(t.nodes[id], o);
    assert Hide(t.nodes[id := Written(c, st)], storing[id := st]) == Hide(t.nodes, storing);
  }

  lemma RunningRuns(c: Config, w: Window, id: Id)
    requires WInv(c, w) && w.s.phase != Done && id in w.s.running && id in w.s.tree.nodes && id !in w.storing
    ensures w.s.tree.nodes[id].status == Running
  {
    assert Placed(Atomic(w).tree, w.s.running, {}, id);
  }

  lemma WriteBackSimulates(c: Config, w: Window, id: Id, o: Outcome)
    requires WInv(c, w) && WEnabled(c, w, WriteBack(id, o))
    ensures WInv(c, WStep(c, w, WriteBack(id, o))) && Atomic(WStep(c, w, WriteBack(id, o))) == Atomic(w)
  {
    RunningRuns(c, w, id);
    WriteBackHidden(c, w.s.tree, w.storing, id, o);
    SameInv(c, w, WStep(c, w, WriteBack(id, o)));
  }

  lemma SameInv(c: Config, w: Window, r: Window)
    requires WInv(c, w) && w.s.phase != Done && c.longDag && Atomic(r) == Atomic(w)
    requires Writes(c, r.s.tree, r.storing) && forall n :: n in r.storing ==> n in w.s.running
    ensures WInv(c, r)
  {
    assert r.s.running == Atomic(r).running == w.s.running && r.s.phase == Atomic(r).phase;
  }

  lemma CollectAhead(c: Config, w: Window, done: map<Id, Outcome>)
    requires WInv(c, w) && w.s.phase != Done && WellFormed(w.s) && LegalOutcomes(w.s, done) && Agrees(w, done)
    ensures var finished := Finished(w.s, done);
            var settled := WSettleAll(c, w.s.tree, w.storing, finished, done);
            && Ahead(c, settled, SettleAll(c, Atomic(w).tree, finished, done), Without(w.storing, done.Keys))
            && forall n :: n in finished ==> n !in Without(w.storing, done.Keys)
  {
    var finished := Finished(w.s, done);
    DropToLimbo(Atomic(w), done);
    SettleAllHidden(c, w.s.tree, w.storing, finished, done);
  }

  lemma CollectSimulates(c: Config, w: Window, done: map<Id, Outcome>, targets: map<Id, set<Id>>)
    requires WInv(c, w) && w.s.phase != Done && WellFormed(w.s) && WellFormed(Atomic(w))
    requires LegalOutcomes(w.s, done) && Agrees(w, done)
    requires var finished := Finished(w.s, done);
             var settled := WSettleAll(c, w.s.tree, w.storing, finished, done);
             Apart(ReopenedBy(settled.nodes, finished, targets), Without(w.storing, done.Keys))
    ensures var r := WCollect(c, w, done, targets);
            && Atomic(r) == CollectState(c, Atomic(w), done, targets)
            && Writes(c, r.s.tree, r.storing)
  {
    var finished := Finished(w.s, done);
    var settled := WSettleAll(c, w.s.tree, w.storing, finished, done);
    CollectAhead(c, w, done);
    ReviewAllAhead(c, settled, SettleAll(c, Atomic(w).tree, finished, done), Without(w.storing, done.Keys), finished,
                   targets);
  }

  lemma CancelAt(c: Config, w: Window, late: map<Id, Outcome>, n: Id)
    requires WInv(c, w) && Agrees(w, late) && w.storing.Keys <= late.Keys && n in w.s.tree.nodes
    ensures WCancelNodes(c, w, late)[n] == CancelledAt(c, Atomic(w), late, n)
  {
    if n in w.storing {
      StoreEndRecords(c, w.storing[n], late[n]);
    }
  }

  lemma CancelSimulates(c: Config, w: Window, late: map<Id, Outcome>)
    requires WInv(c, w) && Agrees(w, late) && w.storing.Keys <= late.Keys
    ensures WCancelNodes(c, w, late) == CancelNodes(c, Atomic(w), late)
  {
    forall n | n in w.s.tree.nodes ensures WCancelNodes(c, w, late)[n] == CancelNodes(c, Atomic(w), late)[n] {
      CancelAt(c, w, late, n);
    }
  }

  lemma GateTreeHidden(c: Config, w: Window, id: Id)
    requires Writes(c, w.s.tree, w.storing) && id in w.s.tree.nodes && id !in w.storing
    ensures HideTree(GateTree(w.s, id), w.storing) == GateTree(Atomic(w), id) && Writes(c, GateTree(w.s, id), w.storing)
    ensures GateRefuses(w.s, id) == GateRefuses(Atomic(w), id) && GatePasses(w.s, id) == GatePasses(Atomic(w), id)
  {
    HideAt(w.s.tree, w.storing, id, GateTree(w.s, id).nodes[id]);
  }

  lemma LaunchedHidden(c: Config, t: Tree, storing: map<Id, Stored>, ids: set<Id>)
    requires Writes(c, t, storing) && Apart(ids, storing)
    ensures Hide(Launched(t.nodes, ids), storing) == Launched(Hide(t.nodes, storing), ids)
    ensures Writes(c, t.(nodes := Launched(t.nodes, ids)), storing)
  {}

  /** Signals and choices touch no node. */
  predicate Light(e: Event) {
    e.Pause? || e.Resume? || e.CancelRequest? || e.Approve? || e.SelectBatch? || e.Proceed?
  }

  lemma LightSimulates(c: Config, w: Window, e: Event)
    requires WInv(c, w) && w.s.phase != Done && Light(e) && Enabled(c, w.s, e)
    ensures Enabled(c, Atomic(w), e) && Atomic(w.(s := Apply(c, w.s, e))) == Apply(c, Atomic(w), e)
    ensures Apply(c, w.s, e).tree == w.s.tree && Apply(c, w.s, e).running == w.s.running
    ensures Apply(c, w.s, e).phase != Done
  {
    SameShape(c, w);
    if e.Proceed? && w.s.running == [] { NothingStored(c, w); }
  }

  /** What stands in the gates is pending, so it is not stored. */
  lemma BatchNotStored(c: Config, w: Window, n: Id)
    requires WInv(c, w) && w.s.phase.Gating? && (n in w.s.phase.rest || n in w.s.phase.runnable)
    ensures n !in w.storing
  {
    SameShape(c, w);
    assert n in w.s.phase.runnable + w.s.phase.rest;
    assert Startable(Atomic(w).tree, n);
  }

  /** r is what the step makes of w, and the scheduler model makes the same step. */
  ghost predicate Simulated(c: Config, w: Window, r: Window, e: Event) {
    && Enabled(c, Atomic(w), e) && Atomic(r) == Apply(c, Atomic(w), e)
    && Writes(c, r.s.tree, r.storing)
    && (forall n :: n in r.storing ==> n in r.s.running)
    && (r.storing != map[] ==> c.longDag && r.s.phase != Done)
  }

  lemma GateStep(c: Config, w: Window)
    requires WInv(c, w) && Enabled(c, w.s, Gate) && w.s.phase != Done
    ensures Simulated(c, w, w.(s := GateState(w.s)), Gate)
  {
    BatchNotStored(c, w, w.s.phase.rest[0]);
    GateTreeHidden(c, w, w.s.phase.rest[0]);
    SameShape(c, w);
  }

  lemma LaunchSeen(c: Config, w: Window)
    requires WInv(c, w) && Enabled(c, w.s, Launch) && w.s.phase != Done
    ensures Simulated(c, w, w.(s := LaunchState(w.s)), Launch)
  {
    forall n | n in w.s.phase.runnable ensures n !in w.storing { BatchNotStored(c, w, n); }
    LaunchedHidden(c, w.s.tree, w.storing, Elems(w.s.phase.runnable));
    SameShape(c, w);
  }

  lemma MayCollect(c: Config, w: Window, done: map<Id, Outcome>, targets: map<Id, set<Id>>)
    requires WEnabled(c, w, Plain(Collect(done, targets)))
    ensures w.s.phase.Waiting? && WellFormed(w.s) && LegalOutcomes(w.s, done) && Agrees(w, done)
    ensures !w.s.cancelRequested && (done != map[] || w.s.paused)
  {}

  lemma StoredApart(c: Config, w: Window, done: map<Id, Outcome>, targets: map<Id, set<Id>>)
    requires WEnabled(c, w, Plain(Collect(done, targets))) && !Disturbs(c, w, Plain(Collect(done, targets)))
    requires WellFormed(w.s)
    ensures var finished := Finished(w.s, done);
            var settled := WSettleAll(c, w.s.tree, w.storing, finished, done);
            Apart(ReopenedBy(settled.nodes, finished, targets), Without(w.storing, done.Keys))
  {}

  lemma CollectedSeen(c: Config, w: Window, done: map<Id, Outcome>, targets: map<Id, set<Id>>)
    requires WInv(c, w) && w.s.phase != Done
    requires var x := Plain(Collect(done, targets)); WEnabled(c, w, x) && !Disturbs(c, w, x)
    ensures Simulated(c, w, WCollect(c, w, done, targets), Collect(done, targets))
  {
    MayCollect(c, w, done, targets);
    SameShape(c, w);
    StoredApart(c, w, done, targets);
    CollectSimulates(c, w, done, targets);
    CollectSeen(c, w, WCollect(c, w, done, targets), done, targets);
  }

  lemma CollectEnabled(c: Config, s: State, done: map<Id, Outcome>, targets: map<Id, set<Id>>)
    requires s.phase.Waiting? && WellFormed(s) && LegalOutcomes(s, done)
    requires !s.cancelRequested && (done != map[] || s.paused)
    ensures Enabled(c, s, Collect(done, targets))
    ensures Apply(c, s, Collect(done, targets)) == CollectState(c, s, done, targets)
  {}

  lemma CollectSeen(c: Config, w: Window, r: Window, done: map<Id, Outcome>, targets: map<Id, set<Id>>)
    requires w.s.phase.Waiting? && WellFormed(Atomic(w)) && LegalOutcomes(w.s, done)
    requires !w.s.cancelRequested && (done != map[] || w.s.paused)
    requires (w.storing != map[] ==> c.longDag) && forall n :: n in w.storing ==> n in w.s.running
    requires Atomic(r) == CollectState(c, Atomic(w), done, targets) && Writes(c, r.s.tree, r.storing)
    requires r.storing == Without(w.storing, done.Keys) && r.s.running == Omit(w.s.running, done.Keys)
    requires r.s.phase == Collected
    ensures Simulated(c, w, r, Collect(done, targets))
  {
    CollectEnabled(c, Atomic(w), done, targets);
  }

  lemma MayCancel(c: Config, w: Window, late: map<Id, Outcome>)
    requires WEnabled(c, w, Plain(CancelStop(late)))
    ensures WellFormed(w.s) && LegalOutcomes(w.s, late) && Agrees(w, late) && w.storing.Keys <= late.Keys
    ensures w.s.cancelRequested
    ensures w.s.phase.Waiting? || (w.s.phase.Top? && (w.s.tree.pending != {} || w.s.running != []))
  {}

  lemma CancelStep(c: Config, w: Window, late: map<Id, Outcome>)
    requires WInv(c, w) && w.s.phase != Done && WEnabled(c, w, Plain(CancelStop(late)))
    ensures w.storing.Keys <= late.Keys && Simulated(c, w, WCancelled(c, w, late), CancelStop(late))
  {
    MayCancel(c, w, late);
    SameShape(c, w);
    CancelSimulates(c, w, late);
    CancelSeen(c, w, WCancelled(c, w, late), late);
  }

  lemma CancelEnabled(c: Config, s: State, late: map<Id, Outcome>)
    requires WellFormed(s) && LegalOutcomes(s, late) && s.cancelRequested
    requires s.phase.Waiting? || (s.phase.Top? && (s.tree.pending != {} || s.running != []))
    ensures Enabled(c, s, CancelStop(late)) && Apply(c, s, CancelStop(late)) == CancelState(c, s, late)
  {}

  lemma CancelSeen(c: Config, w: Window, r: Window, late: map<Id, Outcome>)
    requires WellFormed(Atomic(w)) && LegalOutcomes(w.s, late) && w.s.cancelRequested
    requires w.s.phase.Waiting? || (w.s.phase.Top? && (w.s.tree.pending != {} || w.s.running != []))
    requires r == Window(CancelState(c, Atomic(w), late), map[])
    ensures Simulated(c, w, r, CancelStop(late))
  {
    CancelEnabled(c, Atomic(w), late);
    NoneHidden(r.s);
  }

  lemma IdleStep(c: Config, w: Window, e: Event)
    requires WInv(c, w) && w.s.phase != Done && Enabled(c, w.s, e)
    requires e.WaitForResources? || e.SkipRest? || e.Mount? || e.Cut? || e.Exit?
    ensures Simulated(c, w, w.(s := Apply(c, w.s, e)), e)
  {
    RunsNothing(c, w.s, e);
    NothingStored(c, w);
    var r := Apply(c, w.s, e);
    NoneHidden(r);
    AlreadyAtomic(c, w, Window(r, map[]), e);
  }

  lemma NoneHidden(s: State)
    ensures Atomic(Window(s, map[])) == s
  {
    assert Hide(s.tree.nodes, map[]) == s.tree.nodes;
  }

  lemma AlreadyAtomic(c: Config, w: Window, r: Window, e: Event)
    requires Atomic(w) == w.s && Enabled(c, w.s, e) && r.storing == map[] && Atomic(r) == Apply(c, w.s, e)
    ensures Simulated(c, w, r, e)
  {}

  lemma RunsNothing(c: Config, s: State, e: Event)
    requires Enabled(c, s, e) && (e.WaitForResources? || e.SkipRest? || e.Mount? || e.Cut? || e.Exit?)
    ensures s.running == []
  {}

  lemma LightStep(c: Config, w: Window, e: Event)
    requires WInv(c, w) && w.s.phase != Done && Light(e) && Enabled(c, w.s, e)
    ensures Simulated(c, w, w.(s := Apply(c, w.s, e)), e)
  {
    LightSimulates(c, w, e);
  }

  lemma PlainStep(c: Config, w: Window, e: Event)
    requires WInv(c, w) && w.s.phase != Done && WEnabled(c, w, Plain(e)) && !Disturbs(c, w, Plain(e))
    ensures Simulated(c, w, WStep(c, w, Plain(e)), e)
  {
    if e.Gate? { GateStep(c, w); }
    else if e.Launch? { LaunchSeen(c, w); }
    else if e.Collect? { CollectedSeen(c, w, e.done, e.targets); }
    else if e.CancelStop? { CancelStep(c, w, e.late); }
    else if Light(e) { LightStep(c, w, e); }
    else { IdleStep(c, w, e); }
  }

  /** An undisturbed step of the split model is a step of the scheduler model, and a
      write-back is no step at all. */
  lemma StepSimulates(c: Config, w: Window, x: WEvent)
    requires WInv(c, w) && !Disturbs(c, w, x)
    ensures WInv(c, WStep(c, w, x))
    ensures Atomic(WStep(c, w, x)) == if WEnabled(c, w, x) && x.Plain? then Step(c, Atomic(w), x.event) else Atomic(w)
  {
    if WEnabled(c, w, x) {
      match x
      case WriteBack(id, o) => WriteBackSimulates(c, w, id, o);
      case Plain(e) =>
        if w.s.phase == Done {
          DoneSimulates(c, w, e);
        } else {
          PlainStep(c, w, e);
          StepInv(c, Atomic(w), e);
        }
    }
  }

  lemma DoneSimulates(c: Config, w: Window, e: Event)
    requires WInv(c, w) && w.s.phase == Done && WEnabled(c, w, Plain(e))
    ensures WInv(c, WStep(c, w, Plain(e))) && Atomic(WStep(c, w, Plain(e))) == Step(c, Atomic(w), e)
  {
    NothingStored(c, w);
    DoneStays(c, w.s, e);
    var r := WStep(c, w, Plain(e));
    StepInv(c, w.s, e);
    PlainWInv(c, r);
    NothingStored(c, r);
  }

  // ----- Whole runs ------------------------------------------------------------------

  /** No node is pending and running at once. */
  ghost predicate Split(w: Window) {
    w.s.phase != Done ==> forall n :: n in w.s.running ==> n !in w.s.tree.pending
  }

  lemma WInvSplit(c: Config, w: Window)
    requires WInv(c, w)
    ensures Split(w)
  {
    if w.s.phase != Done {
      forall n | n in w.s.running ensures n !in w.s.tree.pending {
        assert Placed(Atomic(w).tree, w.s.running, {}, n);
      }
    }
  }

  /** What the verdicts of the round reopen, read after its outcomes. */
  function RoundReopens(c: Config, w: Window, done: map<Id, Outcome>, targets: map<Id, set<Id>>): set<Id>
    requires WellFormed(w.s)
  {
    var finished := Finished(w.s, done);
    ReopenedBy(WSettleAll(c, w.s.tree, w.storing, finished, done).nodes, finished, targets)
  }

  lemma DisturbsIff(c: Config, w: Window, done: map<Id, Outcome>, targets: map<Id, set<Id>>)
    requires WEnabled(c, w, Plain(Collect(done, targets))) && WellFormed(w.s)
    ensures Disturbs(c, w, Plain(Collect(done, targets))) <==>
              exists n :: n in w.storing && n !in done && n in RoundReopens(c, w, done, targets)
  {}

  lemma OverlapAt(c: Config, w: Window, done: map<Id, Outcome>, targets: map<Id, set<Id>>, n: Id)
    requires WellFormed(w.s) && n in w.s.running && n !in done && n in RoundReopens(c, w, done, targets)
    ensures var r := WCollect(c, w, done, targets); n in r.s.tree.pending && n in r.s.running
    ensures WCollect(c, w, done, targets).s.phase == Collected
  {
    var finished := Finished(w.s, done);
    ReviewAllTo(WSettleAll(c, w.s.tree, w.storing, finished, done), finished, targets);
  }

  lemma CollectOverlaps(c: Config, w: Window, done: map<Id, Outcome>, targets: map<Id, set<Id>>)
    requires WellFormed(w.s) && forall n :: n in w.storing ==> n in w.s.running
    requires exists n :: n in w.storing && n !in done && n in RoundReopens(c, w, done, targets)
    ensures !Split(WCollect(c, w, done, targets))
  {
    var n :| n in w.storing && n !in done && n in RoundReopens(c, w, done, targets);
    OverlapAt(c, w, done, targets, n);
  }

  lemma DisturbedOverlaps(c: Config, w: Window, done: map<Id, Outcome>, targets: map<Id, set<Id>>)
    requires WInv(c, w) && Disturbs(c, w, Plain(Collect(done, targets)))
    ensures !Split(WStep(c, w, Plain(Collect(done, targets))))
  {
    MayCollect(c, w, done, targets);
    DisturbsIff(c, w, done, targets);
    CollectIs(c, w, done, targets);
    CollectOverlaps(c, w, done, targets);
  }

  lemma CollectIs(c: Config, w: Window, done: map<Id, Outcome>, targets: map<Id, set<Id>>)
    requires WEnabled(c, w, Plain(Collect(done, targets))) && WellFormed(w.s)
    ensures WStep(c, w, Plain(Collect(done, targets))) == WCollect(c, w, done, targets)
  {}

  /** A step keeps pending and running apart if and only if it reopens no node whose
      reference is still being stored. */
  lemma StepSplitIff(c: Config, w: Window, x: WEvent)
    requires WInv(c, w)
    ensures Split(WStep(c, w, x)) <==> !Disturbs(c, w, x)
  {
    if Disturbs(c, w, x) {
      DisturbedOverlaps(c, w, x.event.done, x.event.targets);
    } else {
      StepSimulates(c, w, x);
      WInvSplit(c, WStep(c, w, x));
    }
  }

  ghost predicate Undisturbed(c: Config, w: Window, xs: seq<WEvent>) {
    xs == [] || (Undisturbed(c, w, xs[..|xs| - 1]) && !Disturbs(c, WRun(c, w, xs[..|xs| - 1]), xs[|xs| - 1]))
  }

  ghost predicate AlwaysSplit(c: Config, w: Window, xs: seq<WEvent>) {
    Split(WRun(c, w, xs)) && (xs == [] || AlwaysSplit(c, w, xs[..|xs| - 1]))
  }

  /** The scheduler events of a run: its plain steps that happened. */
  ghost function Trace(c: Config, w: Window, xs: seq<WEvent>): seq<Event> {
    if xs == [] then []
    else
      var front, x := xs[..|xs| - 1], xs[|xs| - 1];
      if x.Plain? && WEnabled(c, WRun(c, w, front), x) then Trace(c, w, front) + [x.event] else Trace(c, w, front)
  }

  /** As long as no stored node is reopened, the run is a run of the scheduler model, in
      which a node's outcome and its leaving the running table are one step: everything
      proved about such runs holds of it, stored nodes counting as running. */
  lemma {:induction false} RunSimulates(c: Config, w: Window, xs: seq<WEvent>)
    requires WInv(c, w) && Undisturbed(c, w, xs)
    ensures WInv(c, WRun(c, w, xs))
    ensures Atomic(WRun(c, w, xs)) == Run(c, Atomic(w), Trace(c, w, xs))
  {
    if xs != [] {
      var front, x := xs[..|xs| - 1], xs[|xs| - 1];
      RunSimulates(c, w, front);
      StepSimulates(c, WRun(c, w, front), x);
      if x.Plain? { RunSnoc(c, Atomic(w), Trace(c, w, front), x.event); }
    }
  }

  /** Pending and running are disjoint at every point of a run if and only if no
      collecting step of it reopens a node whose reference is still being stored. */
  lemma {:induction false} RunSplitIff(c: Config, w: Window, xs: seq<WEvent>)
    requires WInv(c, w)
    ensures AlwaysSplit(c, w, xs) <==> Undisturbed(c, w, xs)
  {
    if xs == [] {
      WInvSplit(c, w);
    } else {
      var front, x := xs[..|xs| - 1], xs[|xs| - 1];
      RunSplitIff(c, w, front);
      if Undisturbed(c, w, front) {
        RunSimulates(c, w, front);
        StepSplitIff(c, WRun(c, w, front), x);
      }
    }
  }

  // ----- Before anything is stored ------------------------------------------------------

  lemma {:induction false} SettleAllNone(c: Config, t: Tree, finished: seq<Id>, done: map<Id, Outcome>)
    requires Within(finished, t.nodes.Keys) && Within(finished, done.Keys)
    ensures WSettleAll(c, t, map[], finished, done) == SettleAll(c, t, finished, done)
  {
    if finished != [] { SettleAllNone(c, t, finished[..|finished| - 1], done); }
  }

  lemma CollectNone(c: Config, s: State, done: map<Id, Outcome>, targets: map<Id, set<Id>>)
    requires WellFormed(s)
    ensures WCollect(c, Window(s, map[]), done, targets) == Window(CollectState(c, s, done, targets), map[])
  {
    SettleAllNone(c, s.tree, Finished(s, done), done);
    assert Without(map[], done.Keys) == map[];
  }

  lemma CancelNone(c: Config, s: State, late: map<Id, Outcome>)
    ensures WCancelled(c, Window(s, map[]), late) == Window(CancelState(c, s, late), map[])
  {
    assert WCancelNodes(c, Window(s, map[]), late) == CancelNodes(c, s, late);
  }

  lemma PlainNone(c: Config, s: State, e: Event)
    ensures WStep(c, Window(s, map[]), Plain(e)) == Window(Step(c, s, e), map[])
  {
    if Enabled(c, s, e) {
      if e.Collect? { CollectNone(c, s, e.done, e.targets); }
      if e.CancelStop? { CancelNone(c, s, e.late); }
    }
  }

  function Plains(es: seq<Event>): seq<WEvent> {
    if es == [] then [] else Plains(es[..|es| - 1]) + [Plain(es[|es| - 1])]
  }

  lemma WRunSnoc(c: Config, w: Window, xs: seq<WEvent>, x: WEvent)
    ensures WRun(c, w, xs + [x]) == WStep(c, WRun(c, w, xs), x)
  {
    assert (xs + [x])[..|xs|] == xs;
  }

  /** Every run of the scheduler model is a run of the split one. */
  lemma {:induction false} PlainRun(c: Config, s: State, es: seq<Event>)
    ensures WRun(c, Window(s, map[]), Plains(es)) == Window(Run(c, s, es), map[])
  {
    if es != [] {
      var front, e := es[..|es| - 1], es[|es| - 1];
      PlainRun(c, s, front);
      WRunSnoc(c, Window(s, map[]), Plains(front), Plain(e));
      PlainNone(c, Run(c, s, front), e);
    }
  }

  // ----- When nothing can be disturbed -------------------------------------------------

  /** Outside long DAGs nothing is ever stored. */
  lemma {:induction false} ShortNeverStores(c: Config, w: Window, xs: seq<WEvent>)
    requires WInv(c, w) && !c.longDag
    ensures Undisturbed(c, w, xs)
  {
    if xs != [] {
      var front := xs[..|xs| - 1];
      ShortNeverStores(c, w, front);
      RunSimulates(c, w, front);
    }
  }

  lemma {:induction false} NothingReopened(nodes: map<Id, Node>, finished: seq<Id>, targets: map<Id, set<Id>>)
    requires Within(finished, nodes.Keys) && forall n :: n in finished ==> Rejection(nodes[n]).None?
    ensures ReopenedBy(nodes, finished, targets) == {}
  {
    if finished != [] { NothingReopened(nodes, finished[..|finished| - 1], targets); }
  }

  lemma QuietRound(c: Config, w: Window, done: map<Id, Outcome>, targets: map<Id, set<Id>>)
    requires WInv(c, w) && w.s.phase != Done && WellFormed(w.s) && LegalOutcomes(w.s, done) && Agrees(w, done)
    requires NoRejection(Atomic(w), Collect(done, targets))
    ensures RoundReopens(c, w, done, targets) == {}
  {
    var finished := Finished(w.s, done);
    var settled := WSettleAll(c, w.s.tree, w.storing, finished, done);
    CollectAhead(c, w, done);
    DropToLimbo(Atomic(w), done);
    forall n | n in finished ensures Rejection(settled.nodes[n]).None? {
      SettledQuiet(c, Atomic(w).tree, settled, Without(w.storing, done.Keys), finished, done, n);
    }
    NothingReopened(settled.nodes, finished, targets);
  }

  lemma SettledQuiet(c: Config, t: Tree, settled: Tree, storing: map<Id, Stored>, finished: seq<Id>,
                     done: map<Id, Outcome>, n: Id)
    requires Within(finished, t.nodes.Keys) && Within(finished, done.Keys) && NoDup(finished)
    requires HideTree(settled, storing) == SettleAll(c, t, finished, done) && n in finished && n !in storing
    requires RejectionBy(t.nodes[n].agent, done[n].result) == None
    ensures n in settled.nodes && Rejection(settled.nodes[n]).None?
  {
    SettleAllAt(c, t, finished, done, n);
    assert Hide(settled.nodes, storing)[n] == settled.nodes[n];
  }

  lemma QuietNeverDisturbs(c: Config, w: Window, done: map<Id, Outcome>, targets: map<Id, set<Id>>)
    requires WInv(c, w) && w.s.phase != Done && WEnabled(c, w, Plain(Collect(done, targets)))
    requires NoRejection(Atomic(w), Collect(done, targets))
    ensures !Disturbs(c, w, Plain(Collect(done, targets)))
  {
    MayCollect(c, w, done, targets);
    QuietRound(c, w, done, targets);
    DisturbsIff(c, w, done, targets);
  }

  /** Neither is anything disturbed in a run without rejections. */
  lemma {:induction false} QuietUndisturbed(c: Config, w: Window, xs: seq<WEvent>)
    requires WInv(c, w) && RejectionFree(c, Atomic(w), Trace(c, w, xs))
    ensures Undisturbed(c, w, xs)
  {
    if xs != [] {
      var front, x := xs[..|xs| - 1], xs[|xs| - 1];
      var m := WRun(c, w, front);
      if x.Plain? && WEnabled(c, m, x) {
        assert Trace(c, w, xs)[..|Trace(c, w, front)|] == Trace(c, w, front);
        QuietUndisturbed(c, w, front);
        RunSimulates(c, w, front);
        if x.event.Collect? && m.s.phase != Done { QuietNeverDisturbs(c, m, x.event.done, x.event.targets); }
      } else {
        QuietUndisturbed(c, w, front);
      }
    }
  }
}
