/** When a trim removes anything, and what: told by the tokens, the cursor and the size of
    a segment. */
module ConversationTrim {
  import opened Prelude
  import opened ConversationModel
  import opened ConversationLaws
  import opened ConversationWindow

  // ----- Measures ------------------------------------------------------------------

  /** The tokens of a conversation are those of its parts; one message counts its own. */
  lemma {:induction false} TokensAdd(a: seq<Message>, b: seq<Message>)
    ensures Tokens(a + b) == Tokens(a) + Tokens(b)
    ensures |a| == 1 ==> Tokens(a) == a[0].tokens
  {
    if a == [] {
      assert a + b == b;
    } else {
      assert (a + b)[1..] == a[1..] + b;
      TokensAdd(a[1..], b);
    }
  }

  /** A segment holds the two messages of each round it spans, and at least one round. */
  lemma SegmentsOfRounds(cfg: Settings, events: seq<Event>, k: nat)
    requires k < |Run(cfg, events).segments|
    ensures |Run(cfg, events).segments[k].messageIds| == 2 * Max(1, cfg.rounds)
  {
    RunSound(cfg, events);
  }

  // ----- Eviction from the store ------------------------------------------------------

  /** Below the trigger nothing goes. */
  lemma BelowTriggerStays(s: Memory, cfg: Settings)
    requires Tokens(s.live) < cfg.trigger
    ensures Trimmed(s, cfg) == s
  {}

  /** n is a number of whole segments, within the w messages before the window and the
      processed ones, and one segment more would not fit. */
  ghost predicate MostOf(w: nat, processed: int, size: nat, n: nat) {
    n <= w && n <= processed && Whole(n, size) && Min(w, processed) - n < size
  }

  lemma {:induction false} WholeUnique(a: nat, b: nat, bound: nat, size: nat)
    requires size > 0 && Whole(a, size) && Whole(b, size)
    requires a <= bound < a + size && b <= bound < b + size
    ensures a == b
  {
    var i: nat :| a == Times(i, size);
    var j: nat :| b == Times(j, size);
    assert (i - j) * size == a - b;
    if i > j { NoMultiple(i - j, size); }
    if j > i {
      assert (j - i) * size == b - a;
      NoMultiple(j - i, size);
    }
  }

  lemma NoMultiple(k: nat, size: nat)
    requires k >= 1
    ensures k * size >= size
  {}

  lemma CountIsMost(s: Memory, cfg: Settings, w: nat)
    requires s.processed >= 0 && Tokens(s.live) >= cfg.trigger && IsWindow(s.live, cfg.keep, w)
    ensures MostOf(w, s.processed, cfg.SegmentSize(), TrimCount(s, cfg)) && w <= |s.live|
  {
    WindowUnique(s.live, cfg.keep, w);
    SafeCountWhole(w, s.processed, cfg.SegmentSize());
  }

  lemma MostUnique(w: nat, processed: nat, size: nat, a: nat, b: nat)
    requires size > 0 && MostOf(w, processed, size, a) && MostOf(w, processed, size, b)
    ensures a == b
  {
    WholeUnique(a, b, Min(w, processed), size);
  }

  lemma TrimmedIs(s: Memory, cfg: Settings)
    requires s.processed >= 0
    ensures var n := TrimCount(s, cfg);
            Trimmed(s, cfg) == Memory(s.live[n..], s.segments, s.processed - n, s.evicted + s.live[..n])
  {
    if TrimCount(s, cfg) == 0 { assert s.live[0..] == s.live && s.evicted + s.live[..0] == s.evicted; }
  }

  /** At or above it exactly the whole segments before the kept window and behind the
      cursor go, from the old end, and the cursor moves with them. */
  lemma AboveTriggerGoes(s: Memory, cfg: Settings, w: nat, n: nat)
    requires s.processed >= 0 && Tokens(s.live) >= cfg.trigger && IsWindow(s.live, cfg.keep, w)
    requires MostOf(w, s.processed, 2 * Max(1, cfg.rounds), n)
    ensures n <= |s.live| && Trimmed(s, cfg) == Memory(s.live[n..], s.segments, s.processed - n, s.evicted + s.live[..n])
  {
    CountIsMost(s, cfg, w);
    MostUnique(w, s.processed, cfg.SegmentSize(), n, TrimCount(s, cfg));
    TrimmedIs(s, cfg);
  }

  lemma MostOfNone(w: nat, processed: nat, size: nat, n: nat)
    requires size > 0 && MostOf(w, processed, size, n)
    ensures n == 0 <==> w < size || processed < size
  {
    if n > 0 { WholeIsBig(n, size); }
  }

  /** A trim changes the store if and only if the trigger is reached and a whole segment is
      both summarised and before the kept window. */
  lemma TrimsIff(s: Memory, cfg: Settings, w: nat)
    requires s.processed >= 0 && IsWindow(s.live, cfg.keep, w)
    ensures Trimmed(s, cfg) != s <==>
              && Tokens(s.live) >= cfg.trigger
              && w >= 2 * Max(1, cfg.rounds)
              && s.processed >= 2 * Max(1, cfg.rounds)
  {
    if Tokens(s.live) < cfg.trigger {
      BelowTriggerStays(s, cfg);
    } else {
      CountIsMost(s, cfg, w);
      MostOfNone(w, s.processed, cfg.SegmentSize(), TrimCount(s, cfg));
      TrimmedIs(s, cfg);
    }
  }

  lemma WholeIsBig(n: nat, size: nat)
    requires Whole(n, size) && n > 0
    ensures n >= size
  {
    var k: nat :| n == Times(k, size);
    NoMultiple(k, size);
  }

  // ----- The cached context -------------------------------------------------------------

  /** The cached window stays below the trigger, together with the extraction offset. */
  lemma CacheBelowTriggerStays(messages: seq<Message>, offset: Option<int>, cfg: Settings)
    requires Tokens(messages) < cfg.trigger
    ensures RedisTrimmed(messages, offset, cfg) == (messages, offset)
  {
    assert messages[0..] == messages;
  }

  /** At or above it, what is left is the kept window, whatever was summarised, and the
      offset moves by what went. */
  lemma CacheAboveTriggerGoes(messages: seq<Message>, offset: Option<int>, cfg: Settings, w: nat)
    requires Tokens(messages) >= cfg.trigger && IsWindow(messages, cfg.keep, w)
    ensures RedisTrimmed(messages, offset, cfg) ==
              (messages[w..],
               if w == 0 || offset.None? then offset else Some(Max(0, offset.value - w)))
  {
    WindowUnique(messages, cfg.keep, w);
  }

  // ----- The summarising job --------------------------------------------------------------

  /** The job makes as many segments as summaries succeed, unless the dialog behind the
      cursor runs out first, and moves nothing but the cursor. */
  lemma {:induction false} MaintainMakes(s: Memory, size: nat, good: nat)
    requires size > 0 && 0 <= s.processed <= |Dialog(s.live)|
    ensures var r := Maintained(s, size, good);
            && r.live == s.live && r.evicted == s.evicted
            && |s.segments| <= |r.segments| <= |s.segments| + good
            && r.segments[..|s.segments|] == s.segments
            && r.processed == s.processed + Times(|r.segments| - |s.segments|, size)
            && (|r.segments| == |s.segments| + good || |Dialog(s.live)| - r.processed < size)
    decreases good
  {
    if good > 0 {
      var t := Summarise(s, size);
      MaintainMakes(t, size, good - 1);
      var r := Maintained(s, size, good);
      if t != s {
        TimesNext(|r.segments| - |t.segments|, size);
        assert t.segments[..|s.segments|] == s.segments;
      } else {
        StaysDone(s, size, good - 1);
      }
    }
  }

  lemma TimesNext(k: int, size: nat)
    ensures Times(k + 1, size) == Times(k, size) + size
  {}

  /** Once no whole batch is waiting, further good summaries change nothing. */
  lemma {:induction false} StaysDone(s: Memory, size: nat, good: nat)
    requires Summarise(s, size) == s
    ensures Maintained(s, size, good) == s
  {
    if good > 0 { StaysDone(s, size, good - 1); }
  }
}
