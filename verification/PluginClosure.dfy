/** The enabled plugins stay closed under their requirements and free of cycles, and
    exactly which operations can break that. */
module PluginClosure {
  import opened PluginVersions
  import opened PluginModel

  // ----- Replacing or removing one installation --------------------------------

  lemma SatisfiedIsReady(reg: Registry, m: Manifest)
    ensures Satisfied(reg, m) <==> Ready(reg, m)
  {
    forall e ensures Met(Others(reg, m.id), e) <==> !Names(e, m.id) && Met(reg, e) {}
  }

  /** The installation meets every entry by which enabled plugins ask for it. */
  ghost predicate Supports(reg: Registry, id: string, i: Installation) {
    forall k, e :: k in Dependents(reg, id) && e in reg[k].manifest.needs && Names(e, id) ==>
                     i.enabled && VersionSatisfies(i.manifest.version, Requirement(e).1)
  }

  lemma MetAfterReplace(reg: Registry, id: string, i: Installation, e: string)
    ensures Met(reg[id := i], e) <==>
              if Names(e, id) then i.enabled && VersionSatisfies(i.manifest.version, Requirement(e).1) else Met(reg, e)
  {}

  lemma ReplaceClosedIff(reg: Registry, id: string, i: Installation)
    requires Keyed(reg) && Closed(reg) && i.manifest.id == id
    requires i.enabled ==> Ready(reg, i.manifest)
    ensures Closed(reg[id := i]) <==> Supports(reg, id, i)
  {
    var after := reg[id := i];
    if Closed(after) {
      forall k, e | k in Dependents(reg, id) && e in reg[k].manifest.needs && Names(e, id)
        ensures i.enabled && VersionSatisfies(i.manifest.version, Requirement(e).1)
      {
        assert after[k] == reg[k];
        MetAfterReplace(reg, id, i, e);
      }
    }
    if Supports(reg, id, i) {
      forall k | k in after && after[k].enabled ensures Ready(after, after[k].manifest) {
        ReadyAfterReplace(reg, id, i, k);
      }
    }
  }

  lemma ReadyAfterReplace(reg: Registry, id: string, i: Installation, k: string)
    requires Keyed(reg) && Closed(reg) && i.manifest.id == id && Supports(reg, id, i)
    requires i.enabled ==> Ready(reg, i.manifest)
    requires var after := reg[id := i]; k in after && after[k].enabled
    ensures Ready(reg[id := i], reg[id := i][k].manifest)
  {
    var m := reg[id := i][k].manifest;
    forall e | e in m.needs ensures !Names(e, m.id) && Met(reg[id := i], e) {
      MetAfterReplace(reg, id, i, e);
      if k != id && Names(e, id) { assert k in Dependents(reg, id); }
    }
  }

  /** No enabled plugin that stays asks for one that goes. */
  ghost predicate NobodyAsks(reg: Registry, gone: set<string>) {
    forall k, b :: k in reg && k !in gone && reg[k].enabled && b in gone ==> !Asks(reg[k].manifest, b)
  }

  lemma RemoveClosedIff(reg: Registry, gone: set<string>)
    requires Keyed(reg) && Closed(reg)
    ensures Closed(Without(reg, gone)) <==> NobodyAsks(reg, gone)
  {
    var after := Without(reg, gone);
    if Closed(after) {
      forall k, b | k in reg && k !in gone && reg[k].enabled && b in gone ensures !Asks(reg[k].manifest, b) {
        assert Ready(after, after[k].manifest);
      }
    }
    if NobodyAsks(reg, gone) {
      forall k | k in after && after[k].enabled ensures Ready(after, after[k].manifest) {
        ReadyAfterRemove(reg, gone, k);
      }
    }
  }

  lemma ReadyAfterRemove(reg: Registry, gone: set<string>, k: string)
    requires Closed(reg) && NobodyAsks(reg, gone) && k in reg && k !in gone && reg[k].enabled
    ensures Ready(Without(reg, gone), reg[k].manifest)
  {
    var m := reg[k].manifest;
    forall e | e in m.needs ensures !Names(e, m.id) && Met(Without(reg, gone), e) {
      assert Met(reg, e);
      if Requirement(e).0 in gone { assert Asks(m, Requirement(e).0); }
    }
  }

  /** Health plays no part in what is asked for and met. */
  lemma HealthIsApart(reg: Registry, sick: set<string>)
    ensures Closed(Reexamined(reg, sick)) <==> Closed(reg)
    ensures forall a, b :: Edge(Reexamined(reg, sick), a, b) <==> Edge(reg, a, b)
  {
    var after := Reexamined(reg, sick);
    forall e ensures Met(after, e) <==> Met(reg, e) {}
    forall k | k in reg ensures Ready(after, after[k].manifest) <==> Ready(reg, reg[k].manifest) {}
  }

  // ----- Cycles -----------------------------------------------------------------

  lemma FewerEdges(reg: Registry, after: Registry)
    requires Acyclic(reg)
    requires forall a, b :: Edge(after, a, b) ==> Edge(reg, a, b)
    ensures Acyclic(after)
  {
    forall p | Path(after, p) ensures p[0] != p[|p| - 1] {
      forall i | 0 <= i < |p| - 1 ensures EdgeAt(reg, p, i) { assert EdgeAt(after, p, i); }
      assert Path(reg, p);
    }
  }

  lemma FirstVisit(p: seq<string>, id: string) returns (j: nat)
    requires id in p
    ensures j < |p| && p[j] == id && forall i :: 0 <= i < j ==> p[i] != id
  {
    j := 0;
    while p[j] != id
      invariant j < |p| && forall i :: 0 <= i < j ==> p[i] != id
      invariant id in p[j..]
      decreases |p| - j
    {
      assert p[j..] == [p[j]] + p[j + 1..];
      j := j + 1;
    }
  }

  lemma WalkSlice(reg: Registry, p: seq<string>, i: nat, j: nat)
    requires Walk(reg, p) && i < j <= |p|
    ensures Walk(reg, p[i..j])
  {
    forall n | 0 <= n < j - i - 1 ensures EdgeAt(reg, p[i..j], n) { assert EdgeAt(reg, p, i + n); }
  }

  lemma WalkJoin(reg: Registry, p: seq<string>, q: seq<string>)
    requires Walk(reg, p) && Walk(reg, q) && p[|p| - 1] == q[0]
    ensures Walk(reg, p + q[1..])
  {
    var r := p + q[1..];
    forall n | 0 <= n < |r| - 1 ensures EdgeAt(reg, r, n) {
      if n < |p| - 1 {
        assert EdgeAt(reg, p, n);
      } else {
        assert r[n] == q[n - (|p| - 1)];
        assert EdgeAt(reg, q, n - (|p| - 1));
      }
    }
  }

  /** A cycle through id can be walked from id to id. */
  lemma Rotate(reg: Registry, p: seq<string>, k: nat) returns (q: seq<string>)
    requires Path(reg, p) && p[0] == p[|p| - 1] && k < |p|
    ensures Path(reg, q) && q[0] == q[|q| - 1] == p[k]
  {
    WalkSlice(reg, p, k, |p|);
    WalkSlice(reg, p, 0, k + 1);
    WalkJoin(reg, p[k..|p|], p[0..k + 1]);
    q := p[k..|p|] + p[0..k + 1][1..];
  }

  lemma SameEdge(reg: Registry, id: string, i: Installation, a: string, b: string)
    requires Closed(reg) && a != id
    ensures Edge(reg[id := i], a, b) ==> Edge(reg, a, b)
    ensures i.enabled && Edge(reg, a, b) ==> Edge(reg[id := i], a, b)
  {
    if Edge(reg[id := i], a, b) {
      assert Ready(reg, reg[a].manifest);
      var e :| e in reg[a].manifest.needs && Names(e, b);
      assert Met(reg, e);
    }
  }

  /** A walk that leaves id never does not notice its replacement. */
  lemma SameWalk(reg: Registry, id: string, i: Installation, p: seq<string>)
    requires Closed(reg) && forall n :: 0 <= n < |p| - 1 ==> p[n] != id
    ensures Walk(reg[id := i], p) ==> Walk(reg, p)
    ensures i.enabled && Walk(reg, p) ==> Walk(reg[id := i], p)
  {
    var after := reg[id := i];
    if Walk(after, p) {
      forall n | 0 <= n < |p| - 1 ensures EdgeAt(reg, p, n) {
        assert EdgeAt(after, p, n);
        SameEdge(reg, id, i, p[n], p[n + 1]);
      }
    }
    if i.enabled && Walk(reg, p) {
      forall n | 0 <= n < |p| - 1 ensures EdgeAt(after, p, n) {
        assert EdgeAt(reg, p, n);
        SameEdge(reg, id, i, p[n], p[n + 1]);
      }
    }
  }

  /** Something the manifest asks for needs id in turn. */
  ghost predicate AsksBack(reg: Registry, m: Manifest, id: string) {
    exists e :: e in m.needs && Reaches(reg, Requirement(e).0, id)
  }

  /** The beginning of a walk, up to its first visit of id. */
  lemma UpTo(reg: Registry, p: seq<string>, id: string) returns (q: seq<string>)
    requires Walk(reg, p) && id in p
    ensures Walk(reg, q) && q[0] == p[0] && q[|q| - 1] == id
    ensures forall n :: 0 <= n < |q| - 1 ==> q[n] != id
  {
    var j := FirstVisit(p, id);
    WalkSlice(reg, p, 0, j + 1);
    q := p[0..j + 1];
  }

  /** From a way back to id, a cycle through its new installation. */
  lemma WayBackCloses(reg: Registry, id: string, i: Installation, p: seq<string>)
    requires Closed(reg) && i.enabled && Ready(reg, i.manifest) && i.manifest.id == id
    requires Walk(reg, p) && Asks(i.manifest, p[0]) && p[|p| - 1] == id
    ensures !Acyclic(reg[id := i])
  {
    var after := reg[id := i];
    var q := UpTo(reg, p, id);
    SameWalk(reg, id, i, q);
    FirstStep(reg, id, i, q[0]);
    WalkJoin(after, [id, q[0]], q);
    var cycle := [id, q[0]] + q[1..];
    assert Path(after, cycle) && cycle[0] == cycle[|cycle| - 1];
  }

  lemma FirstStep(reg: Registry, id: string, i: Installation, b: string)
    requires i.enabled && Ready(reg, i.manifest) && i.manifest.id == id && Asks(i.manifest, b)
    ensures b != id && Walk(reg[id := i], [id, b])
  {
    NewEdge(reg, id, i, b);
    EdgeWalk(reg[id := i], id, b);
  }

  lemma NewEdge(reg: Registry, id: string, i: Installation, b: string)
    requires i.enabled && Ready(reg, i.manifest) && i.manifest.id == id && Asks(i.manifest, b)
    ensures b != id && Edge(reg[id := i], id, b)
  {
    var e :| e in i.manifest.needs && Names(e, b);
    assert !Names(e, id) && Met(reg, e);
  }

  lemma EdgeWalk(reg: Registry, a: string, b: string)
    requires Edge(reg, a, b)
    ensures Walk(reg, [a, b])
  {
    assert EdgeAt(reg, [a, b], 0);
  }

  lemma FirstEdge(reg: Registry, q: seq<string>)
    requires Path(reg, q)
    ensures Edge(reg, q[0], q[1]) && Walk(reg, q[1..|q|]) && q[1..|q|][0] == q[1]
    ensures q[1..|q|][|q| - 2] == q[|q| - 1]
  {
    assert EdgeAt(reg, q, 0);
    WalkSlice(reg, q, 1, |q|);
  }

  lemma WayBack(reg: Registry, id: string, m: Manifest, p: seq<string>)
    requires Path(reg, p) && p[|p| - 1] == id && Asks(m, p[0])
    ensures AsksBack(reg, m, id)
  {
    var e :| e in m.needs && Names(e, p[0]);
    assert Reaches(reg, Requirement(e).0, id);
  }

  /** From a cycle through the new installation, a way back to id. */
  lemma CycleAsksBack(reg: Registry, id: string, i: Installation, q: seq<string>)
    requires Closed(reg) && i.manifest.id == id && (i.enabled ==> Ready(reg, i.manifest))
    requires Path(reg[id := i], q) && q[0] == q[|q| - 1] == id
    ensures i.enabled && AsksBack(reg, i.manifest, id)
  {
    var after := reg[id := i];
    FirstEdge(after, q);
    NewEdge(reg, id, i, q[1]);
    var p := UpTo(after, q[1..|q|], id);
    SameWalk(reg, id, i, p);
    WayBack(reg, id, i.manifest, p);
  }

  lemma ReplaceAcyclicIff(reg: Registry, id: string, i: Installation)
    requires Closed(reg) && Acyclic(reg) && i.manifest.id == id
    requires i.enabled ==> Ready(reg, i.manifest)
    ensures Acyclic(reg[id := i]) <==> !(i.enabled && AsksBack(reg, i.manifest, id))
  {
    if i.enabled && AsksBack(reg, i.manifest, id) {
      var e :| e in i.manifest.needs && Reaches(reg, Requirement(e).0, id);
      assert !Names(e, id);
      var p :| Path(reg, p) && p[0] == Requirement(e).0 && p[|p| - 1] == id;
      assert Names(e, p[0]);
      WayBackCloses(reg, id, i, p);
    } else {
      forall p | Path(reg[id := i], p) ensures p[0] != p[|p| - 1] {
        NoNewCycle(reg, id, i, p);
      }
    }
  }

  lemma NoNewCycle(reg: Registry, id: string, i: Installation, p: seq<string>)
    requires Closed(reg) && Acyclic(reg) && i.manifest.id == id
    requires i.enabled ==> Ready(reg, i.manifest)
    requires !(i.enabled && AsksBack(reg, i.manifest, id))
    requires Path(reg[id := i], p)
    ensures p[0] != p[|p| - 1]
  {
    if p[0] == p[|p| - 1] {
      if id in p {
        var k := FirstVisit(p, id);
        var q := Rotate(reg[id := i], p, k);
        CycleAsksBack(reg, id, i, q);
      } else {
        forall n | 0 <= n < |p| - 1 ensures EdgeAt(reg, p, n) {
          assert EdgeAt(reg[id := i], p, n);
          SameEdge(reg, id, i, p[n], p[n + 1]);
        }
        assert Path(reg, p);
      }
    }
  }
}
