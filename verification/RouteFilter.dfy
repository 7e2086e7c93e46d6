/** The streaming filter that keeps internal route markers out of the answer: text
    arrives in arbitrary deltas, and a tail that could still become a marker is held. */
module RouteFilter {
  import opened Prelude

  const SENTINEL: string := "ROUTE_UPGRADE_"
  const MARKER: string := "[[ROUTE_UPGRADE_"

  // ----- Occurrences and possible beginnings -------------------------------

  ghost predicate Contains(word: string, text: string) {
    exists i :: OccursAt(word, text, i)
  }

  /** The last k characters of text could be the beginning of a marker. */
  ghost predicate HeldTail(text: string, marker: string, k: int) {
    1 <= k <= |text| && k < |marker| && forall i {:trigger marker[i]} :: 0 <= i < k ==> text[|text| - k + i] == marker[i]
  }

  lemma HeldTailSlice(text: string, marker: string, k: int)
    ensures HeldTail(text, marker, k) <==> 1 <= k <= |text| && k < |marker| && text[|text| - k..] <= marker
  {
    if 1 <= k <= |text| && k < |marker| {
      var tail := text[|text| - k..];
      assert forall i {:trigger tail[i]} :: 0 <= i < k ==> tail[i] == text[|text| - k + i];
    }
  }

  ghost predicate LongestTail(text: string, marker: string, k: nat) {
    HeldTail(text, marker, k) && forall j :: HeldTail(text, marker, j) ==> j <= k
  }

  lemma LongestTailExists(text: string, marker: string, k: nat, bound: nat)
    requires HeldTail(text, marker, k) && forall j :: HeldTail(text, marker, j) ==> j <= bound
    ensures exists n: nat :: LongestTail(text, marker, n)
    decreases bound
  {
    if HeldTail(text, marker, bound) {
      assert LongestTail(text, marker, bound);
    } else {
      LongestTailExists(text, marker, k, bound - 1);
    }
  }

  /** The longest such tail, or 0. */
  ghost function Held(text: string, marker: string): (k: nat)
    ensures k == 0 || HeldTail(text, marker, k)
    ensures forall j :: HeldTail(text, marker, j) ==> j <= k
  {
    if exists k: nat :: HeldTail(text, marker, k) then
      var k: nat :| HeldTail(text, marker, k);
      LongestTailExists(text, marker, k, |text|);
      var n: nat :| LongestTail(text, marker, n);
      n
    else 0
  }

  /** Earliest position where a marker may be starting, scanning forwards. */
  method PossibleRouteSentinelStart(text: string, marker: string) returns (start: int)
    ensures start == if Held(text, marker) == 0 then -1 else |text| - Held(text, marker)
  {
    if text == "" || marker == "" {
      return -1;
    }
    var first := Max(0, |text| - |marker| + 1);
    for i := first to |text|
      invariant forall k :: HeldTail(text, marker, k) ==> k <= |text| - i
    {
      HeldTailSlice(text, marker, |text| - i);
      if |text| - i < |marker| && text[i..] <= marker {
        assert HeldTail(text, marker, |text| - i);
        return i;
      }
      assert !HeldTail(text, marker, |text| - i);
    }
    return -1;
  }

  /** Length of the longest tail that looks like the start of a marker, scanning
      from the longest candidate down. */
  method SentinelPrefixTailLen(text: string, marker: string) returns (length: nat)
    ensures length == Held(text, marker)
  {
    if text == "" || marker == "" {
      return 0;
    }
    length := Min(|text|, |marker| - 1);
    while length > 0
      invariant 0 <= length <= |text| && length < |marker|
      invariant forall k :: HeldTail(text, marker, k) ==> k <= length
    {
      HeldTailSlice(text, marker, length);
      if text[|text| - length..] <= marker {
        assert HeldTail(text, marker, length);
        return;
      }
      assert !HeldTail(text, marker, length);
      length := length - 1;
    }
  }

  /** Python's "word in text". */
  method FindWord(word: string, text: string) returns (found: bool)
    ensures found <==> Contains(word, text)
  {
    found := false;
    for i := 0 to |text| + 1
      invariant !found
      invariant forall j :: 0 <= j < i ==> !OccursAt(word, text, j)
    {
      OccursAtSlice(word, text, i);
      if i <= |text| - |word| && text[i..i + |word|] == word {
        assert OccursAt(word, text, i);
        return true;
      }
    }
  }

  // ----- The buffering loop as a fold --------------------------------------

  /** received is the clean text so far, of which the first sent characters went out. */
  datatype Buffer = Buffer(received: string, sent: nat, stopped: bool)

  /** The text of the first n deltas. */
  function Joined(deltas: seq<string>, n: nat): string
    requires n <= |deltas|
  {
    if n == 0 then "" else Joined(deltas, n - 1) + deltas[n - 1]
  }

  function FullText(deltas: seq<string>, last: string): string { Joined(deltas, |deltas|) + last }

  ghost predicate Sane(b: Buffer) { b.sent <= |b.received| }

  /** What one delta does to the buffer. */
  ghost function Feed(b: Buffer, delta: string): (r: Buffer)
    requires Sane(b)
    ensures Sane(r) && b.sent <= r.sent
  {
    if b.stopped then b
    else
      var text := b.received + delta;
      var pending := text[b.sent..];
      if Contains(SENTINEL, pending) then Buffer(text, b.sent, true)
      else
        var safe := |pending| - Held(pending, MARKER);
        Buffer(text, b.sent + safe - Held(pending[..safe], MARKER), false)
  }

  /** The buffer after the first n deltas. */
  ghost function After(deltas: seq<string>, n: nat): (r: Buffer)
    requires n <= |deltas|
    ensures Sane(r)
  {
    if n == 0 then Buffer("", 0, false) else Feed(After(deltas, n - 1), deltas[n - 1])
  }

  /** Everything the user has seen at the end of the stream, whose protocol layers
      still flush some last text. */
  ghost function Shown(deltas: seq<string>, last: string): string {
    var b := After(deltas, |deltas|);
    if !b.stopped && !Contains(SENTINEL, b.received + last) then b.received + last else b.received[..b.sent]
  }

  /** How much of the buffer may go out now; None when the sentinel is in it. */
  method SafeLength(pending: string) returns (safe: Option<nat>)
    ensures safe.None? <==> Contains(SENTINEL, pending)
    ensures safe.Some? ==>
              var first := |pending| - Held(pending, MARKER);
              safe.value == first - Held(pending[..first], MARKER)
  {
    var found := FindWord(SENTINEL, pending);
    if found {
      return None;
    }
    var markerStart := PossibleRouteSentinelStart(pending, MARKER);
    var first := if markerStart < 0 then |pending| else markerStart;
    var tail := SentinelPrefixTailLen(pending[..first], MARKER);
    return Some(Max(0, first - tail));
  }

  function Released(safe: Option<nat>): nat { if safe.Some? then safe.value else 0 }

  lemma FeedBySafe(b: Buffer, pending: string, delta: string, safe: Option<nat>)
    requires Sane(b) && !b.stopped && pending == b.received[b.sent..]
    requires safe.None? <==> Contains(SENTINEL, pending + delta)
    requires safe.Some? ==>
               var first := |pending + delta| - Held(pending + delta, MARKER);
               safe.value == first - Held((pending + delta)[..first], MARKER)
    ensures Feed(b, delta) == Buffer(b.received + delta, b.sent + Released(safe), safe.None?)
    ensures Released(safe) <= |pending + delta|
  {
    assert (b.received + delta)[b.sent..] == pending + delta;
  }

  lemma MovedOver(emitted: string, pending: string, k: nat)
    requires k <= |pending|
    ensures emitted + pending[..k] + pending[k..] == emitted + pending
    ensures emitted + pending[..k] <= emitted + pending
  {
    assert pending == pending[..k] + pending[k..];
  }

  /** One pass of the loop: delta arrives behind what is emitted and pending. */
  method Relay(emitted: string, pending: string, delta: string) returns (nowEmitted: string, nowPending: string, seen: bool)
    ensures Feed(Buffer(emitted + pending, |emitted|, false), delta)
         == Buffer(emitted + pending + delta, |nowEmitted|, seen)
    ensures nowEmitted <= emitted + pending + delta
    ensures !seen ==> nowEmitted + nowPending == emitted + pending + delta
  {
    var safe := SafeLength(pending + delta);
    FeedBySafe(Buffer(emitted + pending, |emitted|, false), pending, delta, safe);
    if safe.None? {
      return emitted, "", true;
    }
    nowPending := pending + delta;
    MovedOver(emitted, nowPending, safe.value);
    nowEmitted, nowPending, seen := emitted + nowPending[..safe.value], nowPending[safe.value..], false;
    assert emitted + (pending + delta) == emitted + pending + delta;
  }

  lemma AfterStep(deltas: seq<string>, i: nat)
    requires i < |deltas|
    ensures After(deltas, i + 1) == Feed(After(deltas, i), deltas[i])
  {}

  /** The loop over the deltas: what was received, what went out, what is buffered. */
  method StreamDeltas(deltas: seq<string>) returns (parts: string, emitted: string, pending: string, sentinelSeen: bool)
    ensures After(deltas, |deltas|) == Buffer(parts, |emitted|, sentinelSeen)
    ensures emitted <= parts && (!sentinelSeen ==> emitted + pending == parts)
  {
    parts, emitted, pending, sentinelSeen := "", "", "", false;
    var i := 0;
    while i < |deltas| && !sentinelSeen
      invariant 0 <= i <= |deltas|
      invariant emitted <= parts && (!sentinelSeen ==> emitted + pending == parts)
      invariant After(deltas, i) == Buffer(parts, |emitted|, sentinelSeen)
      decreases |deltas| - i, !sentinelSeen
    {
      AfterStep(deltas, i);
      emitted, pending, sentinelSeen := Relay(emitted, pending, deltas[i]);
      parts := parts + deltas[i];
      i := i + 1;
    }
    StoppedStays(deltas, i, |deltas|);
  }

  /** The streaming branch of office_llm, over the clean text of each delta. */
  method OfficeLlm(deltas: seq<string>, last: string) returns (emitted: string, output: string)
    ensures emitted == Shown(deltas, last)
    ensures output == After(deltas, |deltas|).received + last
  {
    var parts, pending, sentinelSeen;
    parts, emitted, pending, sentinelSeen := StreamDeltas(deltas);
    pending := pending + last;
    output := parts + last;
    var hidden := FindWord(SENTINEL, output);
    if !sentinelSeen && !hidden {
      emitted := emitted + pending;
    }
  }

  lemma {:induction false} StoppedStays(deltas: seq<string>, i: nat, j: nat)
    requires i <= j <= |deltas|
    ensures After(deltas, i).stopped ==> After(deltas, j) == After(deltas, i)
    ensures After(deltas, i).sent <= After(deltas, j).sent
  {
    if i < j {
      StoppedStays(deltas, i, j - 1);
    }
  }

  // ----- Nothing sent can still turn out to be a marker ---------------------

  /** A marker starts at p, or could once more text arrives. */
  ghost predicate MayStart(text: string, p: nat)
    requires p <= |text|
  {
    text[p..] <= MARKER || MARKER <= text[p..]
  }

  ghost predicate Clean(b: Buffer) {
    && Sane(b)
    && (forall p :: 0 <= p < b.sent ==> !MayStart(b.received, p))
    && (!b.stopped ==> !Contains(SENTINEL, b.received[b.sent..]))
  }

  lemma MayStartShrinks(text: string, more: string, p: nat)
    requires p <= |text| && MayStart(text + more, p)
    ensures MayStart(text, p)
  {
    var whole := (text + more)[p..];
    assert whole == text[p..] + more;
    if MARKER <= whole && |text[p..]| < |MARKER| {
      assert text[p..] == MARKER[..|text[p..]|];
    }
  }

  lemma MarkerHoldsSentinel(text: string, p: nat)
    requires p <= |text| && MARKER <= text[p..]
    ensures OccursAt(SENTINEL, text, p + 2)
  {
    assert MARKER[2..] == SENTINEL;
    assert text[p..][..|MARKER|] == MARKER;
    assert text[p + 2..p + 2 + |SENTINEL|] == text[p..][..|MARKER|][2..];
  }

  lemma OccursShift(word: string, text: string, from: nat, i: int)
    requires from <= |text|
    ensures OccursAt(word, text[from..], i) ==> OccursAt(word, text, from + i)
    ensures from <= i && OccursAt(word, text, i) ==> OccursAt(word, text[from..], i - from)
  {
    if 0 <= i <= |text| - from - |word| {
      assert text[from..][i..i + |word|] == text[from + i..from + i + |word|];
    }
    if from <= i <= |text| - |word| {
      assert text[from..][i - from..i - from + |word|] == text[i..i + |word|];
    }
  }

  lemma FeedClean(b: Buffer, delta: string)
    requires Clean(b)
    ensures Clean(Feed(b, delta))
  {
    var r := Feed(b, delta);
    if !b.stopped {
      var text := b.received + delta;
      var pending := text[b.sent..];
      forall p | 0 <= p < r.sent ensures !MayStart(text, p) {
        if p < b.sent {
          if MayStart(text, p) { MayStartShrinks(b.received, delta, p); }
        } else if MayStart(text, p) {
          NothingHeldIsSent(text, b.sent, p);
        }
      }
      if !r.stopped {
        forall i ensures !OccursAt(SENTINEL, text[r.sent..], i) {
          OccursShift(SENTINEL, text, r.sent, i);
          OccursShift(SENTINEL, text, b.sent, r.sent + i);
        }
      }
    }
  }

  /** Inside the buffered text, a possible beginning is a whole marker or a held tail. */
  lemma NothingHeldIsSent(text: string, sent: nat, p: nat)
    requires sent <= p < |text| && MayStart(text, p)
    ensures Contains(SENTINEL, text[sent..]) || |text| - p <= Held(text[sent..], MARKER)
  {
    if MARKER <= text[p..] {
      MarkerHoldsSentinel(text, p);
      OccursShift(SENTINEL, text, sent, p + 2);
    } else {
      assert text[sent..][|text[sent..]| - (|text| - p)..] == text[p..];
      assert HeldTail(text[sent..], MARKER, |text| - p);
    }
  }

  lemma {:induction false} AfterClean(deltas: seq<string>, n: nat)
    requires n <= |deltas|
    ensures Clean(After(deltas, n))
    ensures After(deltas, n).received <= Joined(deltas, n)
    ensures !After(deltas, n).stopped ==> After(deltas, n).received == Joined(deltas, n)
  {
    if n > 0 {
      AfterClean(deltas, n - 1);
      FeedClean(After(deltas, n - 1), deltas[n - 1]);
    }
  }

  /** However the text is split into deltas: if it contains the bracketed marker,
      everything shown, the final flush included, precedes its first occurrence. */
  lemma MarkerNeverLeaks(deltas: seq<string>, last: string, i: int)
    requires OccursAt(MARKER, FullText(deltas, last), i)
    ensures Shown(deltas, last) <= FullText(deltas, last)[..i]
  {
    var full := FullText(deltas, last);
    var b := After(deltas, |deltas|);
    AfterClean(deltas, |deltas|);
    assert MARKER <= full[i..] by { assert full[i..][..|MARKER|] == full[i..i + |MARKER|]; }
    MarkerHoldsSentinel(full, i);
    var more := full[|b.received|..];
    assert full == b.received + more;
    if i <= |b.received| {
      MayStartShrinks(b.received, more, i);
    }
  }

  /** Whatever is shown is the beginning of the text, in order and unchanged. */
  lemma ShownIsPrefix(deltas: seq<string>, last: string)
    ensures Shown(deltas, last) <= FullText(deltas, last)
  {
    AfterClean(deltas, |deltas|);
  }

  /** Text without the sentinel is shown in full, however it is split. */
  lemma NothingIsLost(deltas: seq<string>, last: string)
    requires !Contains(SENTINEL, FullText(deltas, last))
    ensures Shown(deltas, last) == FullText(deltas, last)
  {
    AfterClean(deltas, |deltas|);
    NeverStops(deltas, |deltas|, last);
  }

  lemma {:induction false} NeverStops(deltas: seq<string>, n: nat, rest: string)
    requires n <= |deltas| && !Contains(SENTINEL, Joined(deltas, n) + rest)
    ensures !After(deltas, n).stopped
  {
    if n > 0 {
      var delta := deltas[n - 1];
      assert Joined(deltas, n) + rest == Joined(deltas, n - 1) + (delta + rest);
      NeverStops(deltas, n - 1, delta + rest);
      AfterClean(deltas, n - 1);
      StepGoesOn(After(deltas, n - 1), delta, rest);
    }
  }

  lemma StepGoesOn(b: Buffer, delta: string, rest: string)
    requires Sane(b) && !b.stopped && !Contains(SENTINEL, b.received + delta + rest)
    ensures !Feed(b, delta).stopped
  {
    var text := b.received + delta;
    forall i ensures !OccursAt(SENTINEL, text[b.sent..], i) {
      OccursShift(SENTINEL, text, b.sent, i);
      OccursInLonger(SENTINEL, text, rest, b.sent + i);
    }
  }

  lemma OccursInLonger(word: string, text: string, rest: string, i: int)
    ensures OccursAt(word, text, i) ==> OccursAt(word, text + rest, i)
  {
    if 0 <= i <= |text| - |word| {
      assert (text + rest)[i..i + |word|] == text[i..i + |word|];
    }
  }

  lemma {:induction false} StoppedHoldsSentinel(deltas: seq<string>, n: nat)
    requires n <= |deltas| && After(deltas, n).stopped
    ensures Contains(SENTINEL, After(deltas, n).received)
  {
    if !After(deltas, n - 1).stopped {
      AfterClean(deltas, n - 1);
      var b := After(deltas, n - 1);
      var text := b.received + deltas[n - 1];
      var i :| OccursAt(SENTINEL, text[b.sent..], i);
      OccursShift(SENTINEL, text, b.sent, i);
    } else {
      StoppedHoldsSentinel(deltas, n - 1);
    }
  }

  /** What the caller decides the route by: the output contains the sentinel whenever the
      text does, and is the whole text unless the stream stopped at one. */
  lemma OutputTells(deltas: seq<string>, last: string)
    ensures var b := After(deltas, |deltas|);
            && (Contains(SENTINEL, FullText(deltas, last)) ==> Contains(SENTINEL, b.received + last))
            && (!b.stopped ==> b.received + last == FullText(deltas, last))
            && (b.stopped ==> Contains(SENTINEL, b.received) && b.received <= Joined(deltas, |deltas|))
  {
    var b := After(deltas, |deltas|);
    AfterClean(deltas, |deltas|);
    if b.stopped {
      StoppedHoldsSentinel(deltas, |deltas|);
      var i :| OccursAt(SENTINEL, b.received, i);
      OccursInLonger(SENTINEL, b.received, last, i);
    }
  }

  /** k is the length of the longest tail that could begin a marker, or 0. */
  ghost predicate IsHeld(text: string, k: nat) {
    (k == 0 || HeldTail(text, MARKER, k)) && forall j :: HeldTail(text, MARKER, j) ==> j <= k
  }

  lemma FeedHolds(b: Buffer, delta: string, k: nat, j: nat)
    requires Sane(b) && !b.stopped && !Feed(b, delta).stopped
    requires var pending := (b.received + delta)[b.sent..];
             IsHeld(pending, k) && k <= |pending| && IsHeld(pending[..|pending| - k], j)
    ensures Feed(b, delta).sent == |b.received + delta| - k - j
  {
    var pending := (b.received + delta)[b.sent..];
    OneHeld(pending, k, Held(pending, MARKER));
    OneHeld(pending[..|pending| - k], j, Held(pending[..|pending| - k], MARKER));
  }

  /** After any delta that does not stop the stream, exactly two such tails of what had not
      gone out are held, one before the other, and all the rest has gone out. */
  lemma TwoTailsHeld(deltas: seq<string>, n: nat, k: nat, j: nat)
    requires n < |deltas| && !After(deltas, n + 1).stopped
    requires var b := After(deltas, n);
             var pending := (b.received + deltas[n])[b.sent..];
             IsHeld(pending, k) && k <= |pending| && IsHeld(pending[..|pending| - k], j)
    ensures After(deltas, n + 1).sent == |After(deltas, n + 1).received| - k - j
  {
    AfterStep(deltas, n);
    FeedHolds(After(deltas, n), deltas[n], k, j);
  }

  lemma OneHeld(text: string, k: nat, j: nat)
    requires IsHeld(text, k) && IsHeld(text, j)
    ensures k == j
  {}

  /** After any delta that does not stop the stream, at most two almost-complete
      markers are held back. */
  lemma LittleIsHeld(deltas: seq<string>, n: nat)
    requires n <= |deltas| && !After(deltas, n).stopped
    ensures |Joined(deltas, n)| - After(deltas, n).sent <= 2 * (|MARKER| - 1)
  {
    AfterClean(deltas, n);
  }

  // ----- The bare sentinel: exactly when it leaks ----------------------------

  ghost predicate FirstAt(word: string, text: string, i: int) {
    OccursAt(word, text, i) && forall j :: 0 <= j < i ==> !OccursAt(word, text, j)
  }

  /** Delta number n ends inside the sentinel that starts at i, and the text up to
      there does not look like the beginning of a bracketed marker. */
  ghost predicate SplitAt(deltas: seq<string>, i: int, n: int) {
    && 0 <= n <= |deltas|
    && i < |Joined(deltas, n)| < i + |SENTINEL|
    && Held(Joined(deltas, n), MARKER) == 0
  }

  lemma {:induction false} JoinedPrefix(deltas: seq<string>, i: nat, j: nat)
    requires i <= j <= |deltas|
    ensures Joined(deltas, i) <= Joined(deltas, j)
  {
    if i < j {
      JoinedPrefix(deltas, i, j - 1);
    }
  }

  /** Before the first sentinel is complete the stream has not stopped. */
  lemma NotStoppedYet(deltas: seq<string>, n: nat, full: string, i: int)
    requires n <= |deltas| && Joined(deltas, n) <= full && FirstAt(SENTINEL, full, i)
    requires |Joined(deltas, n)| < i + |SENTINEL|
    ensures !After(deltas, n).stopped
  {
    var text := Joined(deltas, n);
    assert text + "" == text;
    assert full == text + full[|text|..];
    forall j ensures !OccursAt(SENTINEL, text, j) {
      OccursInLonger(SENTINEL, text, full[|text|..], j);
    }
    NeverStops(deltas, n, "");
  }

  lemma TailOfRest(text: string, sent: nat, k: int)
    requires sent <= |text|
    ensures HeldTail(text[sent..], MARKER, k) ==> HeldTail(text, MARKER, k)
  {
    if 1 <= k <= |text| - sent {
      assert text[|text| - k..] == text[sent..][|text[sent..]| - k..];
    }
  }

  /** At such a split everything received goes out, the broken sentinel included. */
  lemma SplitLeaks(deltas: seq<string>, n: nat, full: string, i: int)
    requires n <= |deltas| && Joined(deltas, n) <= full && FirstAt(SENTINEL, full, i) && SplitAt(deltas, i, n)
    ensures After(deltas, n).sent > i
  {
    NotStoppedYet(deltas, n, full, i);
    AfterClean(deltas, n);
    AfterClean(deltas, n - 1);
    var b := After(deltas, n - 1);
    var text := b.received + deltas[n - 1];
    assert text == Joined(deltas, n);
    TailOfRest(text, b.sent, Held(text[b.sent..], MARKER));
    var pending := text[b.sent..];
    assert pending[..|pending|] == pending;
  }

  /** Otherwise the sentinel's first character stays in the buffer. */
  lemma {:induction false} HeldBack(deltas: seq<string>, n: nat, full: string, i: int)
    requires n <= |deltas| && Joined(deltas, n) <= full && FirstAt(SENTINEL, full, i)
    requires forall j :: !SplitAt(deltas, i, j)
    ensures After(deltas, n).sent <= i
    ensures !After(deltas, n).stopped ==> |Joined(deltas, n)| < i + |SENTINEL|
  {
    if n > 0 {
      HeldBack(deltas, n - 1, full, i);
      AfterClean(deltas, n - 1);
      if !After(deltas, n - 1).stopped {
        assert !SplitAt(deltas, i, n);
        HeldBackStep(After(deltas, n - 1), deltas[n - 1], full, i);
      }
    }
  }

  lemma HeldBackStep(b: Buffer, delta: string, full: string, i: int)
    requires Clean(b) && !b.stopped && b.sent <= i
    requires b.received + delta <= full && FirstAt(SENTINEL, full, i)
    requires i < |b.received + delta| < i + |SENTINEL| ==> Held(b.received + delta, MARKER) > 0
    ensures Feed(b, delta).sent <= i
    ensures !Feed(b, delta).stopped ==> |b.received + delta| < i + |SENTINEL|
  {
    var text := b.received + delta;
    if |text| >= i + |SENTINEL| {
      assert text[i..i + |SENTINEL|] == full[i..i + |SENTINEL|];
      OccursShift(SENTINEL, text, b.sent, i);
    } else if |text| > i {
      var k := Held(text, MARKER);
      var p := |text| - k;
      assert MayStart(text, p);
      if p < b.sent { MayStartShrinks(b.received, delta, p); }
      assert text[b.sent..][|text[b.sent..]| - k..] == text[p..];
      assert HeldTail(text[b.sent..], MARKER, k);
      TailReachesBack(text, full, i, Held(text[b.sent..], MARKER));
    }
  }

  /** A held tail cannot begin inside the sentinel: it begins with a bracket. */
  lemma TailReachesBack(text: string, full: string, i: int, h: nat)
    requires text <= full && OccursAt(SENTINEL, full, i) && i < |text| < i + |SENTINEL|
    requires 1 <= h <= |text| && h < |MARKER| && text[|text| - h..] <= MARKER
    ensures |text| - h <= i
  {
    var q := |text| - h;
    assert text[q] == text[q..][0] == MARKER[0] == '[';
    assert forall c :: c in SENTINEL ==> c != '[';
    forall r | i < r < |text| ensures text[r] != '[' {
      assert full[i..i + |SENTINEL|][r - i] == full[r] == text[r];
      assert SENTINEL[r - i] in SENTINEL;
    }
  }

  /** A bare sentinel is not always caught. Part of the first one is shown if and
      only if some delta ends inside it at a point where nothing is held back. */
  lemma BareSentinelLeaksIff(deltas: seq<string>, last: string, i: int)
    requires FirstAt(SENTINEL, FullText(deltas, last), i)
    ensures |Shown(deltas, last)| > i <==> exists n :: SplitAt(deltas, i, n)
  {
    var full := FullText(deltas, last);
    AfterClean(deltas, |deltas|);
    if n :| SplitAt(deltas, i, n) {
      JoinedPrefix(deltas, n, |deltas|);
      SplitLeaks(deltas, n, full, i);
      StoppedStays(deltas, n, |deltas|);
    } else {
      HeldBack(deltas, |deltas|, full, i);
    }
  }

  lemma NothingHeldWithoutBracket(text: string)
    requires '[' !in text
    ensures Held(text, MARKER) == 0
  {
    assert MARKER[0] == '[';
    forall k ensures !HeldTail(text, MARKER, k) {
      if 1 <= k <= |text| { assert text[|text| - k + 0] in text; }
    }
  }

  lemma {:induction false} BracketlessAfter(deltas: seq<string>, n: nat)
    requires n <= |deltas|
    requires forall j :: 0 <= j < |deltas| ==> '[' !in deltas[j] && !Contains(SENTINEL, deltas[j])
    ensures After(deltas, n) == Buffer(Joined(deltas, n), |Joined(deltas, n)|, false)
  {
    if n > 0 {
      BracketlessAfter(deltas, n - 1);
      var b := After(deltas, n - 1);
      var delta := deltas[n - 1];
      assert (b.received + delta)[b.sent..] == delta;
      NothingHeldWithoutBracket(delta);
      assert delta[..|delta|] == delta;
    }
  }

  /** The failing family: in text without brackets nothing is ever held, so a
      sentinel that no single delta contains is shown whole. */
  lemma SplitBareSentinelIsShown(deltas: seq<string>)
    requires forall j :: 0 <= j < |deltas| ==> '[' !in deltas[j] && !Contains(SENTINEL, deltas[j])
    ensures Shown(deltas, "") == FullText(deltas, "")
  {
    BracketlessAfter(deltas, |deltas|);
    assert Joined(deltas, |deltas|) + "" == Joined(deltas, |deltas|);
  }
}
