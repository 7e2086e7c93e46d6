/** Replays never matter, resuming never matters, and exactly when the order in which
    frames arrive does not matter. */
module StreamLaws {
  import opened StreamModel

  ghost predicate Sorted(frames: seq<Frame>) {
    forall i, j :: 0 <= i < j < |frames| ==> frames[i].number <= frames[j].number
  }

  ghost predicate DistinctKeys(frames: seq<Frame>) {
    forall i, j :: 0 <= i < j < |frames| ==> DedupeKey(frames[i]) != DedupeKey(frames[j])
  }

  // ----- Taking in one frame is enough -------------------------------------------

  lemma {:induction false} PositionIs(sorted: seq<Frame>, s: int)
    requires Sorted(sorted)
    ensures forall i :: 0 <= i < |sorted| ==> (i < Position(sorted, s) <==> sorted[i].number <= s)
  {
    if sorted != [] && sorted[0].number <= s {
      PositionIs(sorted[1..], s);
      forall i | 0 <= i < |sorted| ensures i < Position(sorted, s) <==> sorted[i].number <= s {
        if i > 0 { assert sorted[i] == sorted[1..][i - 1]; }
      }
    }
  }

  lemma InsertSorted(sorted: seq<Frame>, f: Frame)
    requires Sorted(sorted)
    ensures Sorted(Insert(sorted, f))
  {
    PositionIs(sorted, f.number);
  }

  lemma {:induction false} StableSortSorted(frames: seq<Frame>)
    ensures Sorted(StableSort(frames))
  {
    if frames != [] {
      StableSortSorted(frames[..|frames| - 1]);
      InsertSorted(StableSort(frames[..|frames| - 1]), frames[|frames| - 1]);
    }
  }

  lemma {:induction false} DedupeConcat(a: seq<Frame>, b: seq<Frame>, seen: set<Key>)
    ensures Dedupe(a + b, seen) == Dedupe(a, seen) + Dedupe(b, seen + Keys(a))
  {
    if a == [] {
      assert a + b == b && seen + Keys(a) == seen;
    } else {
      var k := DedupeKey(a[0]);
      assert (a + b)[1..] == a[1..] + b;
      KeysCons(a);
      if k in seen {
        DedupeConcat(a[1..], b, seen);
        assert seen + Keys(a) == seen + Keys(a[1..]);
      } else {
        DedupeConcat(a[1..], b, seen + {k});
        assert seen + Keys(a) == seen + {k} + Keys(a[1..]);
      }
    }
  }

  lemma KeysCons(a: seq<Frame>)
    requires a != []
    ensures Keys(a) == {DedupeKey(a[0])} + Keys(a[1..])
  {
    assert a == [a[0]] + a[1..];
  }

  lemma {:induction false} DedupeDrops(b: seq<Frame>, seen: set<Key>, k: Key)
    ensures Dedupe(b, seen + {k}) == Drop(Dedupe(b, seen), k)
  {
    if b != [] {
      var key := DedupeKey(b[0]);
      if key in seen {
        DedupeDrops(b[1..], seen, k);
      } else {
        var rest := Dedupe(b[1..], seen + {key});
        assert ([b[0]] + rest)[1..] == rest;
        if key == k {
          assert seen + {k} == seen + {key};
          DropNothing(b[1..], seen + {key}, k);
        } else {
          DedupeDrops(b[1..], seen + {key}, k);
          assert seen + {key} + {k} == seen + {k} + {key};
        }
      }
    }
  }

  lemma {:induction false} DropNothing(b: seq<Frame>, seen: set<Key>, k: Key)
    requires k in seen
    ensures Drop(Dedupe(b, seen), k) == Dedupe(b, seen)
  {
    if b != [] {
      var key := DedupeKey(b[0]);
      if key in seen {
        DropNothing(b[1..], seen, k);
      } else {
        var rest := Dedupe(b[1..], seen + {key});
        DropNothing(b[1..], seen + {key}, k);
        assert ([b[0]] + rest)[1..] == rest;
      }
    }
  }

  lemma {:induction false} DedupeKeys(a: seq<Frame>, seen: set<Key>)
    ensures Keys(Dedupe(a, seen)) == Keys(a) - seen
  {
    if a != [] {
      var k := DedupeKey(a[0]);
      KeysCons(a);
      if k in seen {
        DedupeKeys(a[1..], seen);
      } else {
        DedupeKeys(a[1..], seen + {k});
        var out := Dedupe(a, seen);
        KeysCons(out);
        assert out[1..] == Dedupe(a[1..], seen + {k});
      }
    }
  }

  lemma {:induction false} DedupeWithin(a: seq<Frame>, seen: set<Key>)
    ensures forall f :: f in Dedupe(a, seen) ==> f in a && DedupeKey(f) !in seen
  {
    if a != [] {
      var k := DedupeKey(a[0]);
      assert a == [a[0]] + a[1..];
      DedupeWithin(a[1..], if k in seen then seen else seen + {k});
    }
  }

  /** Where a sequence splits into early and late frames. */
  lemma PositionSplit(a: seq<Frame>, b: seq<Frame>, s: int)
    requires forall f :: f in a ==> f.number <= s
    requires forall f :: f in b ==> f.number > s
    ensures Position(a + b, s) == |a|
  {
    if a == [] {
      assert a + b == b;
      assert b == [] || b[0] in b;
    } else {
      assert a[0] in a;
      assert (a + b)[1..] == a[1..] + b;
      PositionSplit(a[1..], b, s);
    }
  }

  /** Deduplicating with f between a and b. */
  lemma DedupeBetween(a: seq<Frame>, f: Frame, b: seq<Frame>)
    ensures var k := DedupeKey(f);
            var (da, db) := (Dedupe(a, {}), Dedupe(b, Keys(a)));
            && Dedupe(a + b, {}) == da + db
            && Dedupe(a + ([f] + b), {}) == da + (if k in Keys(a) then db else [f] + Drop(db, k))
  {
    DedupeConcat(a, b, {});
    DedupeConcat(a, [f] + b, {});
    assert {} + Keys(a) == Keys(a);
    assert ([f] + b)[1..] == b;
    DedupeDrops(b, Keys(a), DedupeKey(f));
  }

  /** Absorbing f where a is no later and b is later. */
  lemma AbsorbBetween(a: seq<Frame>, f: Frame, b: seq<Frame>)
    requires forall g :: g in a ==> g.number <= f.number
    requires forall g :: g in b ==> g.number > f.number
    ensures Absorb(a + b, f) == a + (if DedupeKey(f) in Keys(a) then b else [f] + Drop(b, DedupeKey(f)))
  {
    PositionSplit(a, b, f.number);
    assert (a + b)[..|a|] == a && (a + b)[|a|..] == b;
    assert a + [f] + Drop(b, DedupeKey(f)) == a + ([f] + Drop(b, DedupeKey(f)));
  }

  lemma SplitAround(sorted: seq<Frame>, f: Frame) returns (a: seq<Frame>, b: seq<Frame>)
    requires Sorted(sorted)
    ensures sorted == a + b && Insert(sorted, f) == a + ([f] + b)
    ensures forall g :: g in a ==> g.number <= f.number
    ensures forall g :: g in b ==> g.number > f.number
  {
    var p := Position(sorted, f.number);
    PositionIs(sorted, f.number);
    a, b := sorted[..p], sorted[p..];
    assert a + [f] + b == a + ([f] + b);
  }

  /** Deduplicating after an insertion is absorbing after deduplication. */
  lemma DedupeInsert(sorted: seq<Frame>, f: Frame)
    requires Sorted(sorted)
    ensures Dedupe(Insert(sorted, f), {}) == Absorb(Dedupe(sorted, {}), f)
  {
    var a, b := SplitAround(sorted, f);
    DedupeBetween(a, f, b);
    DedupeWithin(a, {});
    DedupeWithin(b, Keys(a));
    DedupeKeys(a, {});
    assert Keys(Dedupe(a, {})) == Keys(a);
    AbsorbBetween(Dedupe(a, {}), f, Dedupe(b, Keys(a)));
  }

  /** Sorting and deduplicating everything again is the same as absorbing the new frame
      into what is there. */
  lemma NormalizeSnoc(frames: seq<Frame>, f: Frame)
    ensures Normalize(frames + [f]) == Absorb(Normalize(frames), f)
  {
    assert (frames + [f])[..|frames|] == frames;
    StableSortSorted(frames);
    DedupeInsert(StableSort(frames), f);
  }

  /** Frames absorbed one by one. */
  function AbsorbAll(out: seq<Frame>, frames: seq<Frame>): seq<Frame> {
    if frames == [] then out
    else Absorb(AbsorbAll(out, frames[..|frames| - 1]), frames[|frames| - 1])
  }

  lemma {:induction false} NormalizeConcat(a: seq<Frame>, b: seq<Frame>)
    ensures Normalize(a + b) == AbsorbAll(Normalize(a), b)
  {
    if b == [] {
      assert a + b == a;
    } else {
      NormalizeConcat(a, b[..|b| - 1]);
      assert a + b == a + b[..|b| - 1] + [b[|b| - 1]];
      NormalizeSnoc(a + b[..|b| - 1], b[|b| - 1]);
    }
  }

  // ----- Normal forms --------------------------------------------------------------

  /** out is sorted, has every key of the frames once, and with its least number. */
  ghost predicate Represents(out: seq<Frame>, frames: seq<Frame>) {
    && Sorted(out)
    && DistinctKeys(out)
    && (forall f :: f in out ==> f in frames)
    && (forall g :: g in frames ==> HasKey(out, g))
  }

  /** g's key is in out, with a number that is no higher. */
  ghost predicate HasKey(out: seq<Frame>, g: Frame) {
    exists f :: f in out && DedupeKey(f) == DedupeKey(g) && f.number <= g.number
  }

  lemma ConsNormal(f: Frame, rest: seq<Frame>)
    requires Sorted(rest) && DistinctKeys(rest)
    requires forall g :: g in rest ==> f.number <= g.number && DedupeKey(g) != DedupeKey(f)
    ensures Sorted([f] + rest) && DistinctKeys([f] + rest)
  {}

  lemma HasKeyCons(f: Frame, rest: seq<Frame>, g: Frame)
    ensures HasKey(rest, g) ==> HasKey([f] + rest, g)
    ensures DedupeKey(f) == DedupeKey(g) && f.number <= g.number ==> HasKey([f] + rest, g)
  {
    assert ([f] + rest)[0] == f;
    if HasKey(rest, g) {
      var h :| h in rest && DedupeKey(h) == DedupeKey(g) && h.number <= g.number;
      assert h in [f] + rest;
    }
  }

  lemma SortedTail(s: seq<Frame>)
    requires Sorted(s) && s != []
    ensures Sorted(s[1..]) && forall g :: g in s[1..] ==> s[0].number <= g.number
    ensures forall g :: g in s ==> g == s[0] || g in s[1..]
  {
    assert s == [s[0]] + s[1..];
  }

  lemma {:induction false} DedupeRepresents(s: seq<Frame>, seen: set<Key>)
    requires Sorted(s)
    ensures Sorted(Dedupe(s, seen)) && DistinctKeys(Dedupe(s, seen))
    ensures forall g :: g in s && DedupeKey(g) !in seen ==> HasKey(Dedupe(s, seen), g)
  {
    if s != [] {
      SortedTail(s);
      var k := DedupeKey(s[0]);
      if k in seen {
        DedupeRepresents(s[1..], seen);
      } else {
        var rest := Dedupe(s[1..], seen + {k});
        DedupeRepresents(s[1..], seen + {k});
        DedupeWithin(s[1..], seen + {k});
        ConsNormal(s[0], rest);
        forall g | g in s && DedupeKey(g) !in seen ensures HasKey([s[0]] + rest, g) {
          HasKeyCons(s[0], rest, g);
        }
      }
    }
  }

  lemma {:induction false} StableSortMembers(frames: seq<Frame>)
    ensures forall f :: f in StableSort(frames) <==> f in frames
  {
    if frames != [] {
      var front, last := frames[..|frames| - 1], frames[|frames| - 1];
      StableSortMembers(front);
      assert frames == front + [last];
      InsertMembers(StableSort(front), last);
    }
  }

  lemma InsertMembers(sorted: seq<Frame>, f: Frame)
    ensures forall g :: g in Insert(sorted, f) <==> g in sorted || g == f
  {
    var p := Position(sorted, f.number);
    assert sorted == sorted[..p] + sorted[p..];
  }

  lemma NormalizeRepresents(frames: seq<Frame>)
    ensures Represents(Normalize(frames), frames)
  {
    StableSortSorted(frames);
    StableSortMembers(frames);
    DedupeWithin(StableSort(frames), {});
    DedupeRepresents(StableSort(frames), {});
    forall g | g in frames ensures HasKey(Normalize(frames), g) { assert g in StableSort(frames); }
  }

  lemma {:induction false} SortedIsStable(sorted: seq<Frame>)
    requires Sorted(sorted)
    ensures StableSort(sorted) == sorted
  {
    if sorted != [] {
      var front, last := sorted[..|sorted| - 1], sorted[|sorted| - 1];
      SortedIsStable(front);
      InsertLast(front, last);
      assert front + [last] == sorted;
    }
  }

  lemma InsertLast(front: seq<Frame>, last: Frame)
    requires forall g :: g in front ==> g.number <= last.number
    ensures Insert(front, last) == front + [last]
  {
    assert front + [] == front;
    PositionSplit(front, [], last.number);
  }

  lemma {:induction false} DistinctIsDeduped(frames: seq<Frame>, seen: set<Key>)
    requires DistinctKeys(frames) && forall f :: f in frames ==> DedupeKey(f) !in seen
    ensures Dedupe(frames, seen) == frames
  {
    if frames != [] {
      assert frames == [frames[0]] + frames[1..];
      DistinctIsDeduped(frames[1..], seen + {DedupeKey(frames[0])});
    }
  }

  /** A normal form is its own normal form. */
  lemma NormalizeIdempotent(frames: seq<Frame>)
    ensures Normalize(Normalize(frames)) == Normalize(frames)
  {
    NormalizeRepresents(frames);
    SortedIsStable(Normalize(frames));
    DistinctIsDeduped(Normalize(frames), {});
  }

  /** A client that resumes from its normal form ends where one that kept every frame
      does. */
  lemma ResumeIsExact(a: seq<Frame>, b: seq<Frame>)
    ensures Normalize(Normalize(a) + b) == Normalize(a + b)
  {
    NormalizeIdempotent(a);
    NormalizeConcat(Normalize(a), b);
    NormalizeConcat(a, b);
  }

  // ----- Replays ---------------------------------------------------------------------

  lemma KnownFrame(out: seq<Frame>, frames: seq<Frame>, f: Frame)
    requires Represents(out, frames) && f in frames
    ensures Absorb(out, f) == out
  {
    assert HasKey(out, f);
    var h :| h in out && DedupeKey(h) == DedupeKey(f) && h.number <= f.number;
    var i :| 0 <= i < |out| && out[i] == h;
    PositionIs(out, f.number);
    assert out[..Position(out, f.number)][i] == h;
  }

  /** Whatever order frames came in, sending some of them again changes nothing. */
  lemma {:induction false} ReplayHarmless(frames: seq<Frame>, again: seq<Frame>)
    requires forall f :: f in again ==> f in frames
    ensures Normalize(frames + again) == Normalize(frames)
  {
    NormalizeConcat(frames, again);
    if again == [] {
      assert frames + again == frames;
    } else {
      var front := again[..|again| - 1];
      ReplayHarmless(frames, front);
      NormalizeConcat(frames, front);
      NormalizeRepresents(frames);
      KnownFrame(Normalize(frames), frames, again[|again| - 1]);
    }
  }

  // ----- Reordering --------------------------------------------------------------------

  /** No frame of the same key has a lower number. */
  ghost predicate Unshadowed(f: Frame, frames: seq<Frame>) {
    f in frames && forall g :: g in frames && DedupeKey(g) == DedupeKey(f) ==> f.number <= g.number
  }

  /** Unshadowed frames with the same number are the same frame. */
  ghost predicate Clear(frames: seq<Frame>) {
    forall f, g :: Unshadowed(f, frames) && Unshadowed(g, frames) && f.number == g.number ==> f == g
  }

  ghost predicate SameFrames(a: seq<Frame>, b: seq<Frame>) {
    forall f :: f in a <==> f in b
  }

  lemma KeptIsUnshadowed(out: seq<Frame>, frames: seq<Frame>, f: Frame)
    requires Represents(out, frames) && f in out
    ensures Unshadowed(f, frames)
  {
    forall g | g in frames && DedupeKey(g) == DedupeKey(f) ensures f.number <= g.number {
      assert HasKey(out, g);
      var h :| h in out && DedupeKey(h) == DedupeKey(g) && h.number <= g.number;
      SameKey(out, f, h);
    }
  }

  lemma SameKey(out: seq<Frame>, f: Frame, h: Frame)
    requires DistinctKeys(out) && f in out && h in out && DedupeKey(f) == DedupeKey(h)
    ensures f == h
  {
    var i :| 0 <= i < |out| && out[i] == f;
    var j :| 0 <= j < |out| && out[j] == h;
  }

  lemma ClearKeepsUnshadowed(out: seq<Frame>, frames: seq<Frame>, f: Frame)
    requires Represents(out, frames) && Clear(frames) && Unshadowed(f, frames)
    ensures f in out
  {
    assert HasKey(out, f);
    var h :| h in out && DedupeKey(h) == DedupeKey(f) && h.number <= f.number;
    KeptIsUnshadowed(out, frames, h);
  }

  ghost predicate StrictlySorted(frames: seq<Frame>) {
    forall i, j :: 0 <= i < j < |frames| ==> frames[i].number < frames[j].number
  }

  lemma ClearIsStrict(out: seq<Frame>, frames: seq<Frame>)
    requires Represents(out, frames) && Clear(frames)
    ensures StrictlySorted(out)
  {
    forall i, j | 0 <= i < j < |out| ensures out[i].number < out[j].number {
      KeptIsUnshadowed(out, frames, out[i]);
      KeptIsUnshadowed(out, frames, out[j]);
    }
  }

  lemma {:induction false} StrictUnique(a: seq<Frame>, b: seq<Frame>)
    requires StrictlySorted(a) && StrictlySorted(b) && SameFrames(a, b)
    ensures a == b
  {
    assert a != [] ==> a[0] in a;
    assert b != [] ==> b[0] in b;
    if a != [] {
      assert a[0] in b && b[0] in a;
      assert a[0] == b[0];
      assert a == [a[0]] + a[1..] && b == [b[0]] + b[1..];
      forall f ensures f in a[1..] <==> f in b[1..] {
        if f in a[1..] { assert f in b && f != a[0]; }
        if f in b[1..] { assert f in a && f != b[0]; }
      }
      StrictUnique(a[1..], b[1..]);
    }
  }

  lemma SameClear(a: seq<Frame>, b: seq<Frame>)
    requires SameFrames(a, b)
    ensures forall f :: Unshadowed(f, a) <==> Unshadowed(f, b)
    ensures Clear(a) ==> Clear(b)
  {
    forall f ensures Unshadowed(f, a) <==> Unshadowed(f, b) {}
  }

  lemma KeptInBoth(a: seq<Frame>, b: seq<Frame>, f: Frame)
    requires Clear(b) && SameFrames(a, b) && f in Normalize(a)
    ensures f in Normalize(b)
  {
    NormalizeRepresents(a);
    NormalizeRepresents(b);
    SameClear(a, b);
    KeptIsUnshadowed(Normalize(a), a, f);
    ClearKeepsUnshadowed(Normalize(b), b, f);
  }

  lemma NormalizeStrict(frames: seq<Frame>)
    requires Clear(frames)
    ensures StrictlySorted(Normalize(frames))
  {
    NormalizeRepresents(frames);
    ClearIsStrict(Normalize(frames), frames);
  }

  lemma ClearInsensitive(a: seq<Frame>, b: seq<Frame>)
    requires Clear(a) && SameFrames(a, b)
    ensures Normalize(a) == Normalize(b)
  {
    SameClear(a, b);
    NormalizeStrict(a);
    NormalizeStrict(b);
    forall f ensures f in Normalize(a) <==> f in Normalize(b) {
      if f in Normalize(a) { KeptInBoth(a, b, f); }
      if f in Normalize(b) { KeptInBoth(b, a, f); }
    }
    StrictUnique(Normalize(a), Normalize(b));
  }

  /** f is in the output and everything before it has a lower number. */
  ghost predicate LeadsAt(out: seq<Frame>, f: Frame, i: int) {
    0 <= i < |out| && out[i] == f && forall j :: 0 <= j < i ==> out[j].number < f.number
  }

  /** An unshadowed frame that arrives first leads the frames of its number. */
  lemma {:induction false} FirstLeads(f: Frame, frames: seq<Frame>)
    requires Unshadowed(f, [f] + frames)
    ensures exists i :: LeadsAt(Normalize([f] + frames), f, i)
  {
    if frames == [] {
      assert [f] + frames == [] + [f];
      NormalizeSnoc([], f);
      assert LeadsAt(Normalize([f] + frames), f, 0);
    } else {
      var front, last := frames[..|frames| - 1], frames[|frames| - 1];
      assert [f] + frames == [f] + front + [last];
      NormalizeSnoc([f] + front, last);
      assert Unshadowed(f, [f] + front);
      FirstLeads(f, front);
      NormalizeRepresents([f] + front);
      assert last in [f] + frames;
      LeaderStays(Normalize([f] + front), f, last);
    }
  }

  lemma LeaderStays(out: seq<Frame>, f: Frame, x: Frame)
    requires Sorted(out) && exists i :: LeadsAt(out, f, i)
    requires DedupeKey(x) == DedupeKey(f) ==> f.number <= x.number
    ensures exists i :: LeadsAt(Absorb(out, x), f, i)
  {
    var i: nat :| LeadsAt(out, f, i);
    var p, k := Position(out, x.number), DedupeKey(x);
    PositionIs(out, x.number);
    if k in Keys(out[..p]) {
      assert LeadsAt(Absorb(out, x), f, i);
    } else if i < p {
      assert LeadsAt(Absorb(out, x), f, i);
    } else {
      assert LeadsAt(out[p..], f, i - p);
      var j := DropKeeps(out[p..], k, f, i - p);
      assert LeadsAt(Absorb(out, x), f, p + 1 + j);
    }
  }

  lemma {:induction false} DropKeeps(b: seq<Frame>, k: Key, f: Frame, i: nat) returns (j: nat)
    requires LeadsAt(b, f, i) && DedupeKey(f) != k
    ensures LeadsAt(Drop(b, k), f, j)
  {
    if i == 0 {
      j := 0;
    } else {
      j := DropKeeps(b[1..], k, f, i - 1);
      if DedupeKey(b[0]) != k { j := j + 1; }
    }
  }

  ghost predicate OrderInsensitive(frames: seq<Frame>) {
    forall other :: SameFrames(frames, other) ==> Normalize(other) == Normalize(frames)
  }

  lemma LeadersAgree(frames: seq<Frame>, f: Frame, g: Frame)
    requires OrderInsensitive(frames)
    requires Unshadowed(f, frames) && Unshadowed(g, frames) && f.number == g.number
    ensures f == g
  {
    ComesFirst(frames, f);
    ComesFirst(frames, g);
    var i :| LeadsAt(Normalize(frames), f, i);
    var j :| LeadsAt(Normalize(frames), g, j);
  }

  lemma ComesFirst(frames: seq<Frame>, f: Frame)
    requires OrderInsensitive(frames) && Unshadowed(f, frames)
    ensures exists i :: LeadsAt(Normalize(frames), f, i)
  {
    assert SameFrames(frames, [f] + frames);
    SameClear(frames, [f] + frames);
    FirstLeads(f, frames);
  }

  /** The normal form is the same for every arrival order, and every repetition, of the
      same frames if and only if unshadowed frames of equal number are equal. */
  lemma OrderInsensitiveIff(frames: seq<Frame>)
    ensures Clear(frames) <==> OrderInsensitive(frames)
  {
    if Clear(frames) {
      forall other | SameFrames(frames, other) ensures Normalize(other) == Normalize(frames) {
        ClearInsensitive(frames, other);
      }
    }
    if OrderInsensitive(frames) {
      forall f, g | Unshadowed(f, frames) && Unshadowed(g, frames) && f.number == g.number ensures f == g {
        LeadersAgree(frames, f, g);
      }
    }
  }
}
