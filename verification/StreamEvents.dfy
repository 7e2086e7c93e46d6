/** The normal form in terms of the frames' own fields: which frames stay, which go, and in
    what order. */
module StreamEvents {
  import opened StreamModel
  import opened StreamLaws
  import opened StreamView

  /** Two deliveries of one event: the same event id, or none and the same place in the
      job's numbering. */
  predicate SameEvent(f: Frame, g: Frame) {
    if f.eventId != "" || g.eventId != "" then f.eventId == g.eventId
    else f.jobId == g.jobId && f.number == g.number
  }

  lemma SameKey(f: Frame, g: Frame)
    ensures SameEvent(f, g) <==> DedupeKey(f) == DedupeKey(g)
  {}

  /** Arrival i comes before arrival j: a lower number, or the same and earlier. */
  predicate Before(frames: seq<Frame>, i: nat, j: nat)
    requires i < |frames| && j < |frames|
  {
    frames[i].number < frames[j].number || (frames[i].number == frames[j].number && i < j)
  }

  ghost predicate Ordered(frames: seq<Frame>, places: seq<nat>) {
    && (forall i :: 0 <= i < |places| ==> places[i] < |frames|)
    && (forall i, j :: 0 <= i < j < |places| ==> Before(frames, places[i], places[j]))
  }

  ghost predicate Shows(frames: seq<Frame>, places: seq<nat>, out: seq<Frame>)
    requires forall i :: 0 <= i < |places| ==> places[i] < |frames|
  {
    |out| == |places| && forall i :: 0 <= i < |out| ==> out[i] == frames[places[i]]
  }

  // ----- Sorting -----------------------------------------------------------------

  /** The arrivals in the order of the sorted frames. */
  ghost function Places(frames: seq<Frame>): (r: seq<nat>)
    ensures |r| == |frames|
  {
    if frames == [] then []
    else
      var k := |frames| - 1;
      var p := Position(StableSort(frames[..k]), frames[k].number);
      var before := Places(frames[..k]);
      StableSortLength(frames[..k]);
      before[..p] + [k] + before[p..]
  }

  lemma {:induction false} StableSortLength(frames: seq<Frame>)
    ensures |StableSort(frames)| == |frames|
  {
    if frames != [] { StableSortLength(frames[..|frames| - 1]); }
  }

  lemma InsertShows(frames: seq<Frame>, f: Frame, places: seq<nat>, sorted: seq<Frame>, p: nat)
    requires Ordered(frames, places) && Shows(frames, places, sorted) && p <= |places|
    ensures var r := places[..p] + [|frames|] + places[p..];
            && (forall i :: 0 <= i < |r| ==> r[i] < |frames + [f]|)
            && Shows(frames + [f], r, sorted[..p] + [f] + sorted[p..])
  {}

  lemma OldBefore(frames: seq<Frame>, f: Frame, places: seq<nat>, i: nat, j: nat)
    requires Ordered(frames, places) && i < j < |places|
    ensures Before(frames + [f], places[i], places[j])
  {
    assert Before(frames, places[i], places[j]);
  }

  lemma InsertOrders(frames: seq<Frame>, f: Frame, places: seq<nat>, p: nat)
    requires Ordered(frames, places) && p <= |places|
    requires forall i :: 0 <= i < |places| ==> (i < p <==> frames[places[i]].number <= f.number)
    ensures Ordered(frames + [f], places[..p] + [|frames|] + places[p..])
  {
    var longer, r := frames + [f], places[..p] + [|frames|] + places[p..];
    forall i, j | 0 <= i < j < |r| ensures Before(longer, r[i], r[j]) {
      if i != p && j != p {
        OldBefore(frames, f, places, if i < p then i else i - 1, if j < p then j else j - 1);
      }
    }
  }

  lemma InsertOrdered(frames: seq<Frame>, f: Frame, places: seq<nat>, sorted: seq<Frame>)
    requires Ordered(frames, places) && Shows(frames, places, sorted) && Sorted(sorted)
    ensures var p := Position(sorted, f.number);
            && p <= |places|
            && Ordered(frames + [f], places[..p] + [|frames|] + places[p..])
            && Shows(frames + [f], places[..p] + [|frames|] + places[p..], Insert(sorted, f))
  {
    var p := Position(sorted, f.number);
    PositionIs(sorted, f.number);
    InsertOrders(frames, f, places, p);
    InsertShows(frames, f, places, sorted, p);
  }

  lemma PlacesSnoc(frames: seq<Frame>, f: Frame)
    ensures |StableSort(frames)| == |frames|
    ensures var p := Position(StableSort(frames), f.number);
            && Places(frames + [f]) == Places(frames)[..p] + [|frames|] + Places(frames)[p..]
            && StableSort(frames + [f]) == Insert(StableSort(frames), f)
  {
    StableSortLength(frames);
    assert (frames + [f])[..|frames|] == frames;
  }

  /** Sorting orders the arrivals by number, equal numbers as they came. */
  lemma {:induction false} SortOrders(frames: seq<Frame>)
    ensures Ordered(frames, Places(frames)) && Shows(frames, Places(frames), StableSort(frames))
  {
    if frames != [] {
      var front, f := frames[..|frames| - 1], frames[|frames| - 1];
      SortOrders(front);
      StableSortSorted(front);
      InsertOrdered(front, f, Places(front), StableSort(front));
      PlacesSnoc(front, f);
      assert frames == front + [f];
    }
  }

  lemma {:induction false} AllPlaced(frames: seq<Frame>, k: nat)
    requires k < |frames|
    ensures k in Places(frames)
  {
    var last := |frames| - 1;
    var before := Places(frames[..last]);
    var p := Position(StableSort(frames[..last]), frames[last].number);
    StableSortLength(frames[..last]);
    if k == last {
      assert Places(frames)[p] == k;
    } else {
      AllPlaced(frames[..last], k);
      assert before == before[..p] + before[p..];
    }
  }

  // ----- Keeping first deliveries ----------------------------------------------------

  /** Arrival k is kept, or its event was seen before, or is kept at an earlier place. */
  ghost predicate Accounted(frames: seq<Frame>, kept: seq<nat>, seen: set<Key>, k: nat)
    requires k < |frames| && forall i :: 0 <= i < |kept| ==> kept[i] < |frames|
  {
    || k in kept
    || DedupeKey(frames[k]) in seen
    || exists i :: 0 <= i < |kept| && SameEvent(frames[kept[i]], frames[k]) && Before(frames, kept[i], k)
  }

  lemma {:induction false} DedupePlaces(frames: seq<Frame>, places: seq<nat>, sorted: seq<Frame>, seen: set<Key>)
    returns (kept: seq<nat>)
    requires Ordered(frames, places) && Shows(frames, places, sorted)
    ensures Ordered(frames, kept) && Shows(frames, kept, Dedupe(sorted, seen))
    ensures forall k :: k in kept ==> k in places
    ensures forall k :: k in places ==> Accounted(frames, kept, seen, k)
  {
    if places == [] {
      kept := [];
    } else {
      var first, key := places[0], DedupeKey(sorted[0]);
      assert forall i, j :: 1 <= i < j < |places| ==> Before(frames, places[i], places[j]);
      assert Ordered(frames, places[1..]);
      if key in seen {
        kept := DedupePlaces(frames, places[1..], sorted[1..], seen);
      } else {
        var rest := DedupePlaces(frames, places[1..], sorted[1..], seen + {key});
        kept := [first] + rest;
        ConsOrdered(frames, places, rest);
        forall k | k in places ensures Accounted(frames, kept, seen, k) {
          AccountedCons(frames, places, rest, seen, k);
        }
      }
    }
  }

  lemma ConsOrdered(frames: seq<Frame>, places: seq<nat>, rest: seq<nat>)
    requires Ordered(frames, places) && places != [] && Ordered(frames, rest)
    requires forall k :: k in rest ==> k in places[1..]
    ensures Ordered(frames, [places[0]] + rest)
  {
    forall j | 0 <= j < |rest| ensures Before(frames, places[0], rest[j]) {
      assert rest[j] in places[1..];
      var i :| 1 <= i < |places| && places[i] == rest[j];
      assert Before(frames, places[0], places[i]);
    }
  }

  lemma AccountedCons(frames: seq<Frame>, places: seq<nat>, rest: seq<nat>, seen: set<Key>, k: nat)
    requires Ordered(frames, places) && places != [] && Ordered(frames, rest) && k in places
    requires k in places[1..] ==> Accounted(frames, rest, seen + {DedupeKey(frames[places[0]])}, k)
    ensures Ordered(frames, [places[0]] + rest) ==> Accounted(frames, [places[0]] + rest, seen, k)
  {
    var kept := [places[0]] + rest;
    if Ordered(frames, kept) && k != places[0] && k !in rest {
      var i :| 0 <= i < |places| && places[i] == k;
      assert places[1..][i - 1] == k;
      assert Before(frames, places[0], places[i]);
      SameKey(frames[places[0]], frames[k]);
      if DedupeKey(frames[k]) == DedupeKey(frames[places[0]]) {
        assert SameEvent(frames[kept[0]], frames[k]);
      } else if DedupeKey(frames[k]) !in seen {
        var j :| 0 <= j < |rest| && SameEvent(frames[rest[j]], frames[k]) && Before(frames, rest[j], k);
        assert kept[j + 1] == rest[j];
      }
    }
  }

  // ----- The normal form -----------------------------------------------------------

  /** kept are arrivals ordered by number and arrival, no two of one event, and every
      other arrival is another delivery of an event kept at an earlier place. */
  ghost predicate FirstDeliveries(frames: seq<Frame>, kept: seq<nat>) {
    && Ordered(frames, kept)
    && (forall i, j :: 0 <= i < j < |kept| ==> !SameEvent(frames[kept[i]], frames[kept[j]]))
    && (forall k :: 0 <= k < |frames| && k !in kept ==>
          exists i :: 0 <= i < |kept| && SameEvent(frames[kept[i]], frames[k]) && Before(frames, kept[i], k))
  }

  /** The normal form consists of exactly the first deliveries. */
  lemma NormalizeKeepsFirst(frames: seq<Frame>) returns (kept: seq<nat>)
    ensures FirstDeliveries(frames, kept) && Shows(frames, kept, Normalize(frames))
  {
    SortOrders(frames);
    kept := DedupePlaces(frames, Places(frames), StableSort(frames), {});
    NormalizeRepresents(frames);
    forall i, j | 0 <= i < j < |kept| ensures !SameEvent(frames[kept[i]], frames[kept[j]]) {
      SameKey(frames[kept[i]], frames[kept[j]]);
    }
    forall k | 0 <= k < |frames| && k !in kept
      ensures exists i :: 0 <= i < |kept| && SameEvent(frames[kept[i]], frames[k]) && Before(frames, kept[i], k)
    {
      AllPlaced(frames, k);
      assert Accounted(frames, kept, {}, k);
    }
  }

  /** An arrival with an earlier delivery of its event is not kept. */
  lemma Overtaken(frames: seq<Frame>, kept: seq<nat>, k: nat, x: nat)
    requires FirstDeliveries(frames, kept) && x < |frames| && k < |frames|
    requires SameEvent(frames[x], frames[k]) && Before(frames, x, k)
    ensures k !in kept
  {
    var m := KeptFor(frames, kept, x);
    forall i | 0 <= i < |kept| ensures kept[i] != k {
      if i < m { assert !SameEvent(frames[kept[i]], frames[kept[m]]); }
      if m < i { assert !SameEvent(frames[kept[m]], frames[kept[i]]); }
    }
  }

  lemma KeptFor(frames: seq<Frame>, kept: seq<nat>, x: nat) returns (m: nat)
    requires FirstDeliveries(frames, kept) && x < |frames|
    ensures m < |kept| && SameEvent(frames[kept[m]], frames[x])
    ensures kept[m] == x || Before(frames, kept[m], x)
  {
    if x in kept {
      m :| 0 <= m < |kept| && kept[m] == x;
    } else {
      m :| 0 <= m < |kept| && SameEvent(frames[kept[m]], frames[x]) && Before(frames, kept[m], x);
    }
  }

  lemma KeptHere(frames: seq<Frame>, a: seq<nat>, b: seq<nat>, k: nat)
    requires FirstDeliveries(frames, a) && FirstDeliveries(frames, b) && k in a
    ensures k in b
  {
    var m := KeptFor(frames, b, k);
    if b[m] != k { Overtaken(frames, a, k, b[m]); }
  }

  lemma FirstIsLeast(frames: seq<Frame>, a: seq<nat>, k: nat)
    requires Ordered(frames, a) && k in a
    ensures k < |frames| && (k == a[0] || Before(frames, a[0], k))
  {
    var i :| 0 <= i < |a| && a[i] == k;
    if i > 0 { assert Before(frames, a[0], a[i]); }
  }

  lemma TailOrdered(frames: seq<Frame>, a: seq<nat>)
    requires Ordered(frames, a) && a != []
    ensures Ordered(frames, a[1..]) && forall k :: k in a[1..] <==> k in a && k != a[0]
  {
    var rest := a[1..];
    assert a == [a[0]] + rest;
    forall i, j | 0 <= i < j < |rest| ensures Before(frames, rest[i], rest[j]) { assert Before(frames, a[i + 1], a[j + 1]); }
    forall i | 0 <= i < |rest| ensures rest[i] != a[0] { assert Before(frames, a[0], a[i + 1]); }
  }

  lemma BothEmpty(a: seq<nat>, b: seq<nat>)
    requires forall k :: k in a <==> k in b
    ensures a == [] <==> b == []
  {
    if a != [] { assert a[0] in a; }
    if b != [] { assert b[0] in b; }
  }

  lemma {:induction false} OrderedUnique(frames: seq<Frame>, a: seq<nat>, b: seq<nat>)
    requires Ordered(frames, a) && Ordered(frames, b) && forall k :: k in a <==> k in b
    ensures a == b
  {
    BothEmpty(a, b);
    if a != [] {
      assert a[0] in a;
      FirstIsLeast(frames, b, a[0]);
      assert b[0] in b;
      FirstIsLeast(frames, a, b[0]);
      TailOrdered(frames, a);
      TailOrdered(frames, b);
      OrderedUnique(frames, a[1..], b[1..]);
      assert a == [a[0]] + a[1..] && b == [b[0]] + b[1..];
    }
  }

  /** Nothing else has that form: a sequence of frames is the normal form if and only if
      it consists of the first deliveries. */
  lemma NormalFormIff(frames: seq<Frame>, out: seq<Frame>)
    ensures out == Normalize(frames) <==> exists kept: seq<nat> :: FirstDeliveries(frames, kept) && Shows(frames, kept, out)
  {
    var mine := NormalizeKeepsFirst(frames);
    if kept: seq<nat> :| FirstDeliveries(frames, kept) && Shows(frames, kept, out) {
      forall k ensures k in kept <==> k in mine {
        if k in kept { KeptHere(frames, kept, mine, k); }
        if k in mine { KeptHere(frames, mine, kept, k); }
      }
      OrderedUnique(frames, kept, mine);
    }
  }

  // ----- One frame for each event -------------------------------------------------------

  ghost function Deliveries(out: seq<Frame>, f: Frame): nat {
    if out == [] then 0 else Deliveries(out[..|out| - 1], f) + if SameEvent(out[|out| - 1], f) then 1 else 0
  }

  lemma {:induction false} DeliveredNot(out: seq<Frame>, f: Frame)
    requires forall i :: 0 <= i < |out| ==> !SameEvent(out[i], f)
    ensures Deliveries(out, f) == 0
  {
    if out != [] { DeliveredNot(out[..|out| - 1], f); }
  }

  lemma {:induction false} DeliveredOnce(out: seq<Frame>, f: Frame, i: nat)
    requires forall i, j :: 0 <= i < j < |out| ==> !SameEvent(out[i], out[j])
    requires i < |out| && SameEvent(out[i], f)
    ensures Deliveries(out, f) == 1
  {
    var k := |out| - 1;
    if i == k {
      forall j | 0 <= j < k ensures !SameEvent(out[..k][j], f) { assert !SameEvent(out[j], out[k]); }
      DeliveredNot(out[..k], f);
    } else {
      assert !SameEvent(out[i], out[k]);
      DeliveredOnce(out[..k], f, i);
    }
  }

  /** A client renders every delivered event from exactly one frame, however often and
      under whatever numbers it was delivered, and nothing that was not delivered. */
  lemma EveryEventOnce(frames: seq<Frame>, f: Frame)
    ensures Deliveries(Normalize(frames), f) == if exists g :: g in frames && SameEvent(g, f) then 1 else 0
  {
    var kept := NormalizeKeepsFirst(frames);
    var out := Normalize(frames);
    if g :| g in frames && SameEvent(g, f) {
      var k :| 0 <= k < |frames| && frames[k] == g;
      var m := KeptFor(frames, kept, k);
      DeliveredOnce(out, f, m);
    } else {
      forall i | 0 <= i < |out| ensures !SameEvent(out[i], f) { assert frames[kept[i]] in frames; }
      DeliveredNot(out, f);
    }
  }

  /** The snapshot accounts for the first deliveries one by one: each is rendered, in
      order, or lacks a type, or is counted as dropped. */
  lemma SnapshotOfEvents<C>(rules: Rules<C>, empty: C, frames: seq<Frame>, out: seq<Frame>, kept: seq<nat>)
    requires FirstDeliveries(frames, kept) && Shows(frames, kept, out)
    ensures Accounts(rules, empty, Snapshot(rules, empty, frames), Passing(rules, out, |out|), Untyped(out), |out|)
  {
    NormalFormIff(frames, out);
    assert out[..|out|] == out;
    EveryFrameAccounted(rules, empty, out, |out|);
  }
}
