/** Node lists, and what the replan Activity answers: which answers the workflow accepts,
    and that an accepted one is a replacement the scheduler can mount. */
module DagOffers {
  import opened Prelude
  import opened DagModel
  import opened DagNodes

  type Entry = (Id, Node)

  /** The dictionary a list of nodes denotes: the last entry of an id wins. */
  function AsMap(entries: seq<Entry>): map<Id, Node> {
    if entries == [] then map[]
    else AsMap(entries[..|entries| - 1])[entries[|entries| - 1].0 := entries[|entries| - 1].1]
  }

  lemma AsMapSnoc(entries: seq<Entry>, e: Entry)
    ensures AsMap(entries + [e]) == AsMap(entries)[e.0 := e.1]
  {
    assert (entries + [e])[..|entries + [e]| - 1] == entries;
  }

  function Ids(entries: seq<Entry>): seq<Id> {
    if entries == [] then [] else Ids(entries[..|entries| - 1]) + [entries[|entries| - 1].0]
  }

  /** The replan Activity's answer; the new spec is a list and may repeat ids. */
  datatype Offer = Offer(allowed: bool, fingerprintMatches: bool, newSpec: seq<Entry>, ids: set<Id>, replanCount: int)

  /** The entries whose ids are named, in their order. */
  function Named(entries: seq<Entry>, ids: set<Id>): seq<Entry> {
    if entries == [] then []
    else
      var e := entries[|entries| - 1];
      Named(entries[..|entries| - 1], ids) + if e.0 in ids then [e] else []
  }

  predicate Acceptable(o: Offer) {
    && o.allowed && o.fingerprintMatches
    && Named(o.newSpec, o.ids) != []
    && |Named(o.newSpec, o.ids)| == |o.ids|
  }

  /** Old nodes superseded, the named entries added, the named ids pending. */
  function OfferedState(s: State, o: Offer): State {
    var nodes := s.tree.nodes;
    s.(tree := s.tree.(nodes := SkipAll(nodes, Superseded(nodes)) + AsMap(Named(o.newSpec, o.ids)),
                       pending := (s.tree.pending - Superseded(nodes)) + o.ids),
       spec := AsMap(o.newSpec), replanCount := o.replanCount, phase := Top)
  }

  // ----- Answers that append to the old spec ---------------------------------------

  lemma {:induction false} AsMapKeys(entries: seq<Entry>)
    ensures AsMap(entries).Keys == Elems(Ids(entries)) && |Ids(entries)| == |entries|
  {
    if entries != [] {
      AsMapKeys(entries[..|entries| - 1]);
      assert Elems(Ids(entries)) == Elems(Ids(entries[..|entries| - 1])) + {entries[|entries| - 1].0};
    }
  }

  lemma {:induction false} AsMapConcat(a: seq<Entry>, b: seq<Entry>)
    ensures AsMap(a + b) == AsMap(a) + AsMap(b)
  {
    if b == [] {
      assert a + b == a;
    } else {
      var k := |b| - 1;
      AsMapConcat(a, b[..k]);
      assert a + b == (a + b[..k]) + [b[k]];
      AsMapSnoc(a + b[..k], b[k]);
    }
  }

  lemma {:induction false} NamedConcat(a: seq<Entry>, b: seq<Entry>, ids: set<Id>)
    ensures Named(a + b, ids) == Named(a, ids) + Named(b, ids)
  {
    if b == [] {
      assert a + b == a;
    } else {
      var k := |b| - 1;
      NamedConcat(a, b[..k], ids);
      assert (a + b)[..|a + b| - 1] == a + b[..k];
    }
  }

  lemma {:induction false} NamedAll(entries: seq<Entry>, ids: set<Id>)
    requires Elems(Ids(entries)) <= ids
    ensures Named(entries, ids) == entries
  {
    if entries != [] {
      var k := |entries| - 1;
      assert entries[k].0 in Elems(Ids(entries));
      forall x | x in Elems(Ids(entries[..k])) ensures x in ids { assert x in Elems(Ids(entries)); }
      NamedAll(entries[..k], ids);
    }
  }

  lemma {:induction false} NamedNone(entries: seq<Entry>, ids: set<Id>)
    ensures Named(entries, ids) == [] <==> Elems(Ids(entries)) !! ids
  {
    if entries != [] {
      var k := |entries| - 1;
      NamedNone(entries[..k], ids);
      assert Elems(Ids(entries)) == Elems(Ids(entries[..k])) + {entries[k].0};
    }
  }

  lemma NoDupSnoc(xs: seq<Id>, x: Id)
    ensures NoDup(xs + [x]) <==> NoDup(xs) && x !in xs
  {
    var ys := xs + [x];
    assert ys[|xs|] == x;
    if NoDup(ys) {
      forall i, j | 0 <= i < j < |xs| ensures xs[i] != xs[j] { assert ys[i] != ys[j]; }
      forall i | 0 <= i < |xs| ensures xs[i] != x { assert ys[i] != ys[|xs|]; }
    }
  }

  lemma ElemsSnoc(xs: seq<Id>, x: Id)
    ensures |Elems(xs + [x])| == |Elems(xs)| + if x in xs then 0 else 1
  {
    assert Elems(xs + [x]) == Elems(xs) + {x};
    if x in xs { assert Elems(xs) + {x} == Elems(xs); }
  }

  lemma {:induction false} CardNoDup(xs: seq<Id>)
    ensures |Elems(xs)| <= |xs|
    ensures |Elems(xs)| == |xs| <==> NoDup(xs)
  {
    if xs == [] {
      assert Elems(xs) == {};
    } else {
      var k := |xs| - 1;
      assert xs == xs[..k] + [xs[k]];
      CardNoDup(xs[..k]);
      NoDupSnoc(xs[..k], xs[k]);
      ElemsSnoc(xs[..k], xs[k]);
    }
  }

  /** The Activity returns the old spec followed by the new nodes and names those. Such an
      answer is accepted if and only if it is allowed, its fingerprint matches, and the new
      ids, of which there are some, repeat neither each other nor an old one. */
  lemma AppendedAcceptableIff(o: Offer, before: seq<Entry>, added: seq<Entry>)
    requires o.newSpec == before + added && o.ids == Elems(Ids(added))
    ensures Acceptable(o) <==>
              && o.allowed && o.fingerprintMatches
              && added != [] && NoDup(Ids(added)) && AsMap(added).Keys !! AsMap(before).Keys
  {
    NamedConcat(before, added, o.ids);
    NamedAll(added, o.ids);
    NamedNone(before, o.ids);
    CardNoDup(Ids(added));
    AsMapKeys(added);
    AsMapKeys(before);
    assert |Named(o.newSpec, o.ids)| == |Named(before, o.ids)| + |added|;
  }

  lemma AppendedNames(o: Offer, before: seq<Entry>, added: seq<Entry>)
    requires o.newSpec == before + added && o.ids == Elems(Ids(added)) && Acceptable(o)
    ensures Named(o.newSpec, o.ids) == added && AsMap(added).Keys == o.ids && AsMap(added) != map[]
    ensures AsMap(o.newSpec) == AsMap(before) + AsMap(added) && AsMap(added).Keys !! AsMap(before).Keys
  {
    AppendedAcceptableIff(o, before, added);
    NamedConcat(before, added, o.ids);
    NamedAll(added, o.ids);
    AsMapKeys(before);
    NamedNone(before, o.ids);
    AsMapKeys(added);
    AsMapConcat(before, added);
    assert added[|added| - 1].0 in AsMap(added);
  }

  /** An accepted answer of this form, whose new nodes carry no run state, is a legal
      replacement, and mounting it is the scheduler's step. */
  lemma AppendedMounts(s: State, o: Offer, before: seq<Entry>, added: seq<Entry>)
    requires o.newSpec == before + added && o.ids == Elems(Ids(added)) && Acceptable(o)
    requires FromSpec(s) && AsMap(before) == s.spec
    requires forall n :: n in AsMap(added) ==> Fresh(AsMap(added)[n])
    ensures LegalReplacement(s.tree, s.spec, AsMap(added))
    ensures OfferedState(s, o) == MountState(s, AsMap(added), o.replanCount)
  {
    AppendedNames(o, before, added);
  }
}
