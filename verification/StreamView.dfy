/** The client's loops over the frames, and what may still change after the end. */
module StreamView {
  import opened StreamModel
  import opened StreamLaws

  /** Sort, then keep the first frame of every key. */
  method NormalizeFrames(frames: seq<Frame>) returns (out: seq<Frame>)
    ensures out == Normalize(frames)
  {
    var indexed := StableSort(frames);
    var seen: set<Key> := {};
    out := [];
    assert indexed[0..] == indexed;
    for i := 0 to |indexed|
      invariant out + Dedupe(indexed[i..], seen) == Normalize(frames)
    {
      assert indexed[i..][1..] == indexed[i + 1..];
      var key := DedupeKey(indexed[i]);
      if key in seen {
        continue;
      }
      seen := seen + {key};
      out := out + [indexed[i]];
    }
  }

  /** Consume the normalized frames one by one. */
  method ConsumeFrames<C>(rules: Rules<C>, empty: C, frames: seq<Frame>) returns (vm: View<C>)
    ensures vm == Snapshot(rules, empty, frames)
  {
    vm := View(empty, 0, 0, false);
    var out := NormalizeFrames(frames);
    for i := 0 to |out|
      invariant vm == ConsumeAll(rules, View(empty, 0, 0, false), out[..i])
    {
      assert out[..i + 1][..i] == out[..i];
      var f := out[i];
      if f.kind == "" {
        vm := vm.(untyped := vm.untyped + 1);
        continue;
      }
      if vm.isFinal && !rules.terminal(f) && rules.blocked(f) {
        vm := vm.(droppedAfterTerminal := vm.droppedAfterTerminal + 1);
        continue;
      }
      vm := vm.(content := rules.render(vm.content, f));
      if rules.terminal(f) {
        vm := vm.(isFinal := true);
      }
    }
    assert out[..|out|] == out;
  }

  lemma {:induction false} ConsumeConcat<C>(rules: Rules<C>, v: View<C>, a: seq<Frame>, b: seq<Frame>)
    ensures ConsumeAll(rules, v, a + b) == ConsumeAll(rules, ConsumeAll(rules, v, a), b)
  {
    if b == [] {
      assert a + b == a;
    } else {
      var front := b[..|b| - 1];
      ConsumeConcat(rules, v, a, front);
      assert (a + b)[..|a + b| - 1] == a + front;
    }
  }

  /** The stream has ended exactly when a typed terminal frame is in the normal form. */
  lemma {:induction false} FinalIff<C>(rules: Rules<C>, v: View<C>, frames: seq<Frame>)
    ensures ConsumeAll(rules, v, frames).isFinal <==>
              v.isFinal || exists i :: 0 <= i < |frames| && frames[i].kind != "" && rules.terminal(frames[i])
  {
    if frames != [] {
      FinalIff(rules, v, frames[..|frames| - 1]);
    }
  }

  /** Frame i gets through: it has a type, and is not sealed behind a terminal frame. */
  ghost predicate Passes<C>(rules: Rules<C>, frames: seq<Frame>, i: nat)
    requires i < |frames|
  {
    && frames[i].kind != ""
    && !(Sealed(rules, frames[i]) &&
         exists j :: 0 <= j < i && frames[j].kind != "" && rules.terminal(frames[j]))
  }

  ghost function Passing<C>(rules: Rules<C>, frames: seq<Frame>, n: nat): (r: seq<Frame>)
    requires n <= |frames|
  {
    if n == 0 then []
    else Passing(rules, frames, n - 1) + if Passes(rules, frames, n - 1) then [frames[n - 1]] else []
  }

  ghost function Untyped(frames: seq<Frame>): nat {
    if frames == [] then 0
    else Untyped(frames[..|frames| - 1]) + if frames[|frames| - 1].kind == "" then 1 else 0
  }

  ghost function RenderAll<C>(rules: Rules<C>, content: C, frames: seq<Frame>): C {
    if frames == [] then content
    else rules.render(RenderAll(rules, content, frames[..|frames| - 1]), frames[|frames| - 1])
  }

  lemma RenderSnoc<C>(rules: Rules<C>, content: C, frames: seq<Frame>, f: Frame)
    ensures RenderAll(rules, content, frames + [f]) == rules.render(RenderAll(rules, content, frames), f)
  {
    assert (frames + [f])[..|frames|] == frames;
  }

  /** The view after n frames, through of which were rendered. */
  ghost predicate Accounts<C>(rules: Rules<C>, empty: C, v: View<C>, through: seq<Frame>, untyped: nat, n: nat) {
    && v.content == RenderAll(rules, empty, through)
    && v.untyped == untyped
    && n == |through| + untyped + v.droppedAfterTerminal
  }

  lemma OneMore<C>(rules: Rules<C>, empty: C, v: View<C>, through: seq<Frame>, untyped: nat, n: nat, f: Frame)
    requires Accounts(rules, empty, v, through, untyped, n)
    ensures var passes := f.kind != "" && !(Sealed(rules, f) && v.isFinal);
            Accounts(rules, empty, Consume(rules, v, f), through + (if passes then [f] else []),
                     untyped + (if f.kind == "" then 1 else 0), n + 1)
  {
    RenderSnoc(rules, empty, through, f);
    assert through + [] == through;
  }

  /** A view that started empty: its content is the rendering of exactly the frames that
      get through, and every frame gets through, lacks a type, or is counted as dropped. */
  lemma {:induction false} EveryFrameAccounted<C>(rules: Rules<C>, empty: C, frames: seq<Frame>, n: nat)
    requires n <= |frames|
    ensures Accounts(rules, empty, ConsumeAll(rules, View(empty, 0, 0, false), frames[..n]),
                     Passing(rules, frames, n), Untyped(frames[..n]), n)
  {
    if n > 0 {
      EveryFrameAccounted(rules, empty, frames, n - 1);
      assert frames[..n][..n - 1] == frames[..n - 1];
      var v := ConsumeAll(rules, View(empty, 0, 0, false), frames[..n - 1]);
      OneMore(rules, empty, v, Passing(rules, frames, n - 1), Untyped(frames[..n - 1]), n - 1, frames[n - 1]);
      FinalIff(rules, View(empty, 0, 0, false), frames[..n - 1]);
      SealedBehind(rules, frames, n - 1, v.isFinal);
    }
  }

  lemma SealedBehind<C>(rules: Rules<C>, frames: seq<Frame>, i: nat, final: bool)
    requires i < |frames|
    requires final <==> exists j :: 0 <= j < i && frames[..i][j].kind != "" && rules.terminal(frames[..i][j])
    ensures Passes(rules, frames, i) <==> frames[i].kind != "" && !(Sealed(rules, frames[i]) && final)
  {
    assert forall j :: 0 <= j < i ==> frames[..i][j] == frames[j];
  }

  // ----- After the end ----------------------------------------------------------------

  ghost predicate Sealed<C>(rules: Rules<C>, f: Frame) {
    f.kind != "" && !rules.terminal(f) && rules.blocked(f)
  }

  lemma {:induction false} SealedTail<C>(rules: Rules<C>, v: View<C>, tail: seq<Frame>)
    requires v.isFinal && forall f :: f in tail ==> Sealed(rules, f)
    ensures ConsumeAll(rules, v, tail) == v.(droppedAfterTerminal := v.droppedAfterTerminal + |tail|)
  {
    if tail != [] {
      SealedTail(rules, v, tail[..|tail| - 1]);
      assert tail[|tail| - 1] in tail;
    }
  }

  /** A frame no earlier than any of out changes at most what follows out. */
  lemma AbsorbLate(out: seq<Frame>, tail: seq<Frame>, f: Frame) returns (more: seq<Frame>)
    requires forall g :: g in out ==> g.number <= f.number
    ensures Absorb(out + tail, f) == out + more
    ensures forall g :: g in more ==> g in tail || g == f
  {
    PositionAfter(out, tail, f.number);
    var all := out + tail;
    var p := Position(all, f.number);
    if DedupeKey(f) in Keys(all[..p]) {
      more := tail;
    } else {
      var q := p - |out|;
      DropIs(all[p..], DedupeKey(f));
      assert all[..p] == out + tail[..q] && all[p..] == tail[q..];
      more := tail[..q] + [f] + Drop(all[p..], DedupeKey(f));
    }
  }

  lemma {:induction false} PositionAfter(out: seq<Frame>, tail: seq<Frame>, s: int)
    requires forall g :: g in out ==> g.number <= s
    ensures Position(out + tail, s) >= |out|
  {
    if out != [] {
      assert out[0] in out;
      assert (out + tail)[1..] == out[1..] + tail;
      PositionAfter(out[1..], tail, s);
    }
  }

  lemma {:induction false} DropIs(frames: seq<Frame>, key: Key)
    ensures forall f :: f in Drop(frames, key) ==> f in frames
  {
    if frames != [] {
      DropIs(frames[1..], key);
      assert frames == [frames[0]] + frames[1..];
    }
  }

  lemma {:induction false} LateOnlyAppends(frames: seq<Frame>, late: seq<Frame>) returns (tail: seq<Frame>)
    requires forall f, g :: f in frames && g in late ==> f.number <= g.number
    ensures Normalize(frames + late) == Normalize(frames) + tail
    ensures forall f :: f in tail ==> f in late
  {
    if late == [] {
      tail := [];
      assert frames + late == frames;
    } else {
      var front, last := late[..|late| - 1], late[|late| - 1];
      assert late == front + [last];
      var before := LateOnlyAppends(frames, front);
      assert frames + late == frames + front + [last];
      NormalizeSnoc(frames + front, last);
      NormalizeRepresents(frames);
      tail := AbsorbLate(Normalize(frames), before, last);
    }
  }

  /** Once the stream has ended, later frames that the seal blocks change the drop
      counter alone, and raise it by the number of keys they bring. */
  lemma LateFramesOnlyCount<C>(rules: Rules<C>, empty: C, frames: seq<Frame>, late: seq<Frame>)
    requires Snapshot(rules, empty, frames).isFinal
    requires forall f, g :: f in frames && g in late ==> f.number <= g.number
    requires forall f :: f in late ==> Sealed(rules, f)
    ensures |Normalize(frames)| <= |Normalize(frames + late)|
    ensures var before := Snapshot(rules, empty, frames);
            Snapshot(rules, empty, frames + late) ==
              before.(droppedAfterTerminal :=
                before.droppedAfterTerminal + |Normalize(frames + late)| - |Normalize(frames)|)
  {
    var tail := LateOnlyAppends(frames, late);
    ConsumeConcat(rules, View(empty, 0, 0, false), Normalize(frames), tail);
    SealedTail(rules, Snapshot(rules, empty, frames), tail);
  }
}
