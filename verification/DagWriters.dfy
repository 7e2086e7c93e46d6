/** Which writers a rejection reaches: the walk over depends_on visits exactly the
    nodes reachable by one or more edges, on any graph, and names each writer once. */
module DagWriters {
  import opened Prelude
  import opened DagModel

  ghost predicate IsPath(nodes: map<Id, Node>, p: seq<Id>) {
    && |p| >= 2
    && forall i :: 0 <= i < |p| - 1 ==> p[i + 1] in DepsOf(nodes, p[i])
  }

  /** There is a path of at least one depends_on edge from a to b. */
  ghost predicate Reaches(nodes: map<Id, Node>, a: Id, b: Id) {
    exists p :: IsPath(nodes, p) && p[0] == a && p[|p| - 1] == b
  }

  lemma EdgeReaches(nodes: map<Id, Node>, a: Id, b: Id)
    requires b in DepsOf(nodes, a)
    ensures Reaches(nodes, a, b)
  {
    assert IsPath(nodes, [a, b]);
  }

  lemma EdgeThenReaches(nodes: map<Id, Node>, a: Id, b: Id, c: Id)
    requires b in DepsOf(nodes, a) && Reaches(nodes, b, c)
    ensures Reaches(nodes, a, c)
  {
    var p :| IsPath(nodes, p) && p[0] == b && p[|p| - 1] == c;
    var q := [a] + p;
    assert forall i :: 0 < i < |q| ==> q[i] == p[i - 1];
    assert IsPath(nodes, q) && q[0] == a && q[|q| - 1] == c;
  }

  lemma DepsInUniverse(nodes: map<Id, Node>, id: Id)
    ensures Within(DepsOf(nodes, id), Universe(nodes))
  {
  }

  /** Everything the walk adds to seen is reachable through deps. */
  ghost predicate Below(nodes: map<Id, Node>, deps: seq<Id>, x: Id) {
    exists d :: d in deps && (x == d || Reaches(nodes, d, x))
  }

  lemma BelowTail(nodes: map<Id, Node>, deps: seq<Id>, x: Id)
    requires deps != [] && Below(nodes, deps[1..], x)
    ensures Below(nodes, deps, x)
  {
    var d :| d in deps[1..] && (x == d || Reaches(nodes, d, x));
    assert d in deps;
  }

  lemma BelowHead(nodes: map<Id, Node>, deps: seq<Id>, x: Id)
    requires deps != [] && Below(nodes, DepsOf(nodes, deps[0]), x)
    ensures Below(nodes, deps, x)
  {
    var d := deps[0];
    var e :| e in DepsOf(nodes, d) && (x == e || Reaches(nodes, e, x));
    if x == e { EdgeReaches(nodes, d, e); } else { EdgeThenReaches(nodes, d, e, x); }
    assert d in deps && Reaches(nodes, d, x);
  }

  lemma {:induction false} VisitSound(nodes: map<Id, Node>, deps: seq<Id>, seen: set<Id>, x: Id)
    requires Within(deps, Universe(nodes))
    requires x in Visit(nodes, deps, seen).1 && x !in seen
    ensures Below(nodes, deps, x)
    decreases |Universe(nodes) - seen|, |deps|
  {
    var d := deps[0];
    if d in seen {
      VisitSound(nodes, deps[1..], seen, x);
      BelowTail(nodes, deps, x);
    } else if x == d {
      assert d in deps;
    } else {
      SubsetCard(Universe(nodes) - (seen + {d}), Universe(nodes) - seen);
      var inner := Visit(nodes, DepsOf(nodes, d), seen + {d});
      if x in inner.1 {
        VisitSound(nodes, DepsOf(nodes, d), seen + {d}, x);
        BelowHead(nodes, deps, x);
      } else {
        SubsetCard(Universe(nodes) - inner.1, Universe(nodes) - (seen + {d}));
        VisitSound(nodes, deps[1..], inner.1, x);
        BelowTail(nodes, deps, x);
      }
    }
  }

  ghost predicate ClosedBeyond(nodes: map<Id, Node>, seen: set<Id>, after: set<Id>) {
    forall x :: x in after && x !in seen ==> Within(DepsOf(nodes, x), after)
  }

  /** What the walk has seen it has finished: the dependencies of everything new
      are seen too. */
  lemma {:induction false} VisitClosed(nodes: map<Id, Node>, deps: seq<Id>, seen: set<Id>)
    requires Within(deps, Universe(nodes))
    ensures Within(deps, Visit(nodes, deps, seen).1)
    ensures ClosedBeyond(nodes, seen, Visit(nodes, deps, seen).1)
    decreases |Universe(nodes) - seen|, |deps|
  {
    if deps != [] {
      var d := deps[0];
      assert forall y :: y in deps ==> y == d || y in deps[1..];
      if d in seen {
        VisitClosed(nodes, deps[1..], seen);
      } else {
        SubsetCard(Universe(nodes) - (seen + {d}), Universe(nodes) - seen);
        var inner := Visit(nodes, DepsOf(nodes, d), seen + {d});
        VisitClosed(nodes, DepsOf(nodes, d), seen + {d});
        SubsetCard(Universe(nodes) - inner.1, Universe(nodes) - (seen + {d}));
        VisitClosed(nodes, deps[1..], inner.1);
      }
    }
  }

  /** The walk lists each writer it newly sees, once, and nothing else. */
  lemma {:induction false} VisitLists(nodes: map<Id, Node>, deps: seq<Id>, seen: set<Id>)
    requires Within(deps, Universe(nodes))
    ensures NoDup(Visit(nodes, deps, seen).0)
    ensures forall w :: w in Visit(nodes, deps, seen).0 <==>
                        w in Visit(nodes, deps, seen).1 && w !in seen && WriterAt(nodes, w)
    decreases |Universe(nodes) - seen|, |deps|
  {
    if deps != [] {
      var d := deps[0];
      if d in seen {
        VisitLists(nodes, deps[1..], seen);
      } else {
        SubsetCard(Universe(nodes) - (seen + {d}), Universe(nodes) - seen);
        var inner := Visit(nodes, DepsOf(nodes, d), seen + {d});
        VisitLists(nodes, DepsOf(nodes, d), seen + {d});
        SubsetCard(Universe(nodes) - inner.1, Universe(nodes) - (seen + {d}));
        VisitLists(nodes, deps[1..], inner.1);
        var rest := Visit(nodes, deps[1..], inner.1);
        var head := if WriterAt(nodes, d) then [d] else [];
        assert forall x :: x in head ==> x !in inner.0 && x !in rest.0;
        assert forall x :: x in inner.0 ==> x !in rest.0;
        NoDupConcat(head, inner.0);
        NoDupConcat(head + inner.0, rest.0);
      }
    }
  }

  lemma NoDupConcat<T>(a: seq<T>, b: seq<T>)
    requires NoDup(a) && NoDup(b)
    requires forall x :: x in a ==> x !in b
    ensures NoDup(a + b)
  {
    var c := a + b;
    forall i, j | 0 <= i < j < |c| ensures c[i] != c[j] {
      if i < |a| <= j { assert c[i] in a && c[j] in b; }
    }
  }

  lemma {:induction false} PathStaysInside(nodes: map<Id, Node>, p: seq<Id>, k: nat, seen: set<Id>)
    requires IsPath(nodes, p) && 1 <= k < |p|
    requires Within(DepsOf(nodes, p[0]), seen)
    requires ClosedBeyond(nodes, {}, seen)
    ensures p[k] in seen
  {
    if k == 1 {
      assert p[1] in DepsOf(nodes, p[0]);
    } else {
      PathStaysInside(nodes, p, k - 1, seen);
      assert p[(k - 1) + 1] in DepsOf(nodes, p[k - 1]);
    }
  }

  /** _writer_ancestors, on any graph: cyclic, or with dangling ids. */
  lemma WriterAncestorsExact(nodes: map<Id, Node>, id: Id)
    ensures NoDup(WriterAncestors(nodes, id))
    ensures forall w :: w in WriterAncestors(nodes, id) <==> WriterAt(nodes, w) && Reaches(nodes, id, w)
  {
    var deps := DepsOf(nodes, id);
    var v := Visit(nodes, deps, {});
    VisitLists(nodes, deps, {});
    VisitClosed(nodes, deps, {});
    forall w | w in v.1 ensures Reaches(nodes, id, w) {
      VisitSound(nodes, deps, {}, w);
      var d :| d in deps && (w == d || Reaches(nodes, d, w));
      if w == d { EdgeReaches(nodes, id, d); } else { EdgeThenReaches(nodes, id, d, w); }
    }
    forall w | Reaches(nodes, id, w) ensures w in v.1 {
      var p :| IsPath(nodes, p) && p[0] == id && p[|p| - 1] == w;
      PathStaysInside(nodes, p, |p| - 1, v.1);
    }
  }
}
