/** What every interleaving of appending, summarising and evicting keeps. */
module ConversationLaws {
  import opened Prelude
  import opened ConversationModel

  // ----- Sequences ----------------------------------------------------------

  lemma DialogSnoc(messages: seq<Message>, m: Message)
    ensures Dialog(messages + [m]) == Dialog(messages) + (if m.dialog then [m] else [])
  {
    assert (messages + [m])[..|messages|] == messages;
  }

  lemma Associative<T>(a: seq<T>, b: seq<T>, c: seq<T>)
    ensures a + b + c == a + (b + c)
  {}

  lemma ConcatFront<T>(a: seq<T>, b: seq<T>)
    requires b != []
    ensures (a + b)[..|a + b| - 1] == a + b[..|b| - 1] && (a + b)[|a + b| - 1] == b[|b| - 1]
  {}

  lemma {:induction false} DialogConcat(a: seq<Message>, b: seq<Message>)
    ensures Dialog(a + b) == Dialog(a) + Dialog(b)
  {
    if b == [] {
      assert a + b == a;
    } else {
      var front, m := b[..|b| - 1], b[|b| - 1];
      DialogConcat(a, front);
      ConcatFront(a, b);
      Associative(Dialog(a), Dialog(front), [m]);
    }
  }

  lemma {:induction false} DialogMembers(messages: seq<Message>)
    ensures forall m :: m in Dialog(messages) <==> m in messages && m.dialog
  {
    if messages != [] {
      var front, last := messages[..|messages| - 1], messages[|messages| - 1];
      DialogMembers(front);
      assert messages == front + [last];
    }
  }

  ghost predicate AllDialog(messages: seq<Message>) { forall m :: m in messages ==> m.dialog }

  lemma {:induction false} AllDialogStays(messages: seq<Message>)
    requires AllDialog(messages)
    ensures Dialog(messages) == messages
  {
    if messages != [] {
      AllDialogStays(messages[..|messages| - 1]);
      assert messages == messages[..|messages| - 1] + [messages[|messages| - 1]];
    }
  }

  lemma IdsConcat(a: seq<Message>, b: seq<Message>)
    ensures Ids(a + b) == Ids(a) + Ids(b)
  {}

  lemma IdOf(messages: seq<Message>, m: Message)
    ensures m in messages ==> m.id in Ids(messages)
  {
    if i :| 0 <= i < |messages| && messages[i] == m { assert Ids(messages)[i] == m.id; }
  }

  /** Distinct ids name messages. */
  lemma SameId(messages: seq<Message>, a: Message, b: Message)
    requires NoDup(Ids(messages)) && a in messages && b in messages && a.id == b.id
    ensures a == b
  {
    var i :| 0 <= i < |messages| && messages[i] == a;
    var j :| 0 <= j < |messages| && messages[j] == b;
    assert Ids(messages)[i] == Ids(messages)[j];
  }

  /** Every dialog message of the sequence is in some segment. */
  ghost predicate Covered(messages: seq<Message>, ids: seq<string>) {
    forall m :: m in messages && m.dialog ==> m.id in ids
  }

  /** Every id names a dialog message of the sequence. */
  ghost predicate Named(ids: seq<string>, messages: seq<Message>) {
    forall id :: id in ids ==> exists m :: m in messages && m.dialog && m.id == id
  }

  lemma CoveredGrows(messages: seq<Message>, ids: seq<string>, more: seq<string>)
    requires Covered(messages, ids)
    ensures Covered(messages, ids + more)
  {}

  lemma CoveredJoin(a: seq<Message>, b: seq<Message>, ids: seq<string>, more: seq<string>)
    requires Covered(a, ids) && Covered(b, more)
    ensures Covered(a + b, ids + more)
  {}

  lemma NamedJoin(a: seq<string>, b: seq<string>, messages: seq<Message>)
    requires Named(a, messages) && Named(b, messages)
    ensures Named(a + b, messages)
  {}

  lemma CoveredByOwn(messages: seq<Message>)
    ensures Covered(messages, Ids(messages))
  {
    forall m | m in messages ensures m.id in Ids(messages) { IdOf(messages, m); }
  }

  lemma NamedByOwn(part: seq<Message>, messages: seq<Message>)
    requires forall m :: m in part ==> m in messages && m.dialog
    ensures Named(Ids(part), messages)
  {
    forall id | id in Ids(part) ensures exists m :: m in messages && m.dialog && m.id == id {
      var k :| 0 <= k < |part| && Ids(part)[k] == id;
      assert part[k] in messages;
    }
  }

  // ----- Whole segments -----------------------------------------------------

  function Times(k: int, size: nat): int { k * size }

  ghost predicate Whole(n: int, size: nat) { exists k: nat :: n == Times(k, size) }

  lemma WholeStep(n: int, size: nat)
    requires Whole(n, size)
    ensures Whole(n + size, size)
  {
    var k: nat :| n == Times(k, size);
    assert n + size == Times(k + 1, size);
  }

  lemma WholeDifference(a: int, b: int, size: nat)
    requires size > 0 && Whole(a, size) && Whole(b, size) && b <= a
    ensures Whole(a - b, size)
  {
    var j: nat :| a == Times(j, size);
    var k: nat :| b == Times(k, size);
    NonNegative(j - k, size);
    assert a - b == Times(j - k, size);
  }

  lemma NonNegative(k: int, size: nat)
    requires size > 0 && k * size >= 0
    ensures k >= 0
  {}

  lemma SafeCountWhole(candidates: nat, processed: int, size: nat)
    requires size > 0
    ensures Whole(SafeCount(candidates, processed, size), size)
    ensures Min(candidates, Max(0, processed)) - SafeCount(candidates, processed, size) < size
  {
    var n := Min(candidates, Max(0, processed));
    assert n - n % size == Times(n / size, size);
  }

  // ----- The conservation law -----------------------------------------------

  /** The segments hold exactly the evicted messages followed by the processed
      beginning of the live dialog, in order. */
  ghost predicate Conserved(s: Memory) {
    && 0 <= s.processed <= |Dialog(s.live)|
    && Contents(s.segments) == Ids(s.evicted) + Ids(Dialog(s.live)[..s.processed])
  }

  ghost predicate Numbered(segments: seq<Segment>, size: nat) {
    forall i :: 0 <= i < |segments| ==> segments[i].sequence == i + 1 && |segments[i].messageIds| == size
  }

  /** The bookkeeping no message role can disturb. */
  ghost predicate Sound(s: Memory, size: nat) {
    && 0 <= s.processed <= |Dialog(s.live)|
    && Whole(s.processed, size)
    && Numbered(s.segments, size)
    && NoDup(Ids(s.History()))
    && Covered(s.evicted, Contents(s.segments))
    && Covered(Dialog(s.live)[..s.processed], Contents(s.segments))
    && Named(Contents(s.segments), s.History())
  }

  lemma {:induction false} LastIsCount(segments: seq<Segment>, size: nat)
    requires Numbered(segments, size)
    ensures LastSequence(segments) == |segments|
  {
    if segments != [] { LastIsCount(segments[..|segments| - 1], size); }
  }

  lemma SummariseContents(s: Memory, size: nat)
    requires 0 <= s.processed <= |Dialog(s.live)| - size
    ensures Contents(Summarise(s, size).segments)
         == Contents(s.segments) + Ids(Dialog(s.live)[s.processed..s.processed + size])
    ensures Dialog(s.live)[..s.processed + size]
         == Dialog(s.live)[..s.processed] + Dialog(s.live)[s.processed..s.processed + size]
  {
    var r := Summarise(s, size);
    assert r.segments[..|r.segments| - 1] == s.segments;
  }

  lemma SummariseConserves(s: Memory, size: nat)
    requires Conserved(s)
    ensures Conserved(Summarise(s, size))
  {
    if |Dialog(s.live)| - s.processed >= size {
      SummariseContents(s, size);
      IdsConcat(Dialog(s.live)[..s.processed], Dialog(s.live)[s.processed..s.processed + size]);
    }
  }

  lemma BatchNamed(s: Memory, batch: seq<Message>)
    requires forall m :: m in batch ==> m in Dialog(s.live)
    ensures Named(Ids(batch), s.History())
  {
    DialogMembers(s.live);
    NamedByOwn(batch, s.live);
  }

  lemma SummariseCovers(s: Memory, size: nat)
    requires Sound(s, size) && s.processed + size <= |Dialog(s.live)|
    ensures var r := Summarise(s, size);
            && Covered(r.evicted, Contents(r.segments))
            && Covered(Dialog(r.live)[..r.processed], Contents(r.segments))
            && Named(Contents(r.segments), r.History())
  {
    SummariseContents(s, size);
    var ids, batch := Contents(s.segments), Dialog(s.live)[s.processed..s.processed + size];
    CoveredByOwn(batch);
    CoveredGrows(s.evicted, ids, Ids(batch));
    CoveredJoin(Dialog(s.live)[..s.processed], batch, ids, Ids(batch));
    BatchNamed(s, batch);
    NamedJoin(ids, Ids(batch), s.History());
  }

  lemma SummariseSound(s: Memory, size: nat)
    requires Sound(s, size)
    ensures Sound(Summarise(s, size), size)
  {
    if |Dialog(s.live)| - s.processed >= size {
      LastIsCount(s.segments, size);
      WholeStep(s.processed, size);
      SummariseCovers(s, size);
    }
  }

  lemma {:induction false} MaintainedSound(s: Memory, size: nat, good: nat)
    requires Sound(s, size)
    ensures Sound(Maintained(s, size, good), size)
    decreases good
  {
    if good > 0 {
      SummariseSound(s, size);
      MaintainedSound(Summarise(s, size), size, good - 1);
    }
  }

  lemma {:induction false} MaintainedConserves(s: Memory, size: nat, good: nat)
    requires Conserved(s)
    ensures Conserved(Maintained(s, size, good))
    decreases good
  {
    if good > 0 {
      SummariseConserves(s, size);
      MaintainedConserves(Summarise(s, size), size, good - 1);
    }
  }

  lemma {:induction false} MaintainedKeeps(s: Memory, size: nat, good: nat)
    ensures Maintained(s, size, good).live == s.live && Maintained(s, size, good).evicted == s.evicted
    decreases good
  {
    if good > 0 { MaintainedKeeps(Summarise(s, size), size, good - 1); }
  }

  lemma AppendKeepsCursor(s: Memory, m: Message)
    requires 0 <= s.processed <= |Dialog(s.live)|
    ensures s.processed <= |Dialog(s.live + [m])|
    ensures Dialog(s.live + [m])[..s.processed] == Dialog(s.live)[..s.processed]
  {
    DialogConcat(s.live, [m]);
  }

  lemma AppendConserves(s: Memory, m: Message)
    requires Conserved(s)
    ensures Conserved(s.(live := s.live + [m]))
  {
    AppendKeepsCursor(s, m);
  }

  lemma AppendSound(s: Memory, size: nat, m: Message)
    requires Sound(s, size) && m.id !in Ids(s.History())
    ensures Sound(s.(live := s.live + [m]), size)
  {
    var r := s.(live := s.live + [m]);
    AppendKeepsCursor(s, m);
    assert r.History() == s.History() + [m];
    IdsConcat(s.History(), [m]);
  }

  /** How a cut of n messages divides the live dialog. */
  lemma CutDialog(live: seq<Message>, n: nat, p: nat)
    requires n <= |live| && n <= p <= |Dialog(live)|
    ensures |Dialog(live)| == |Dialog(live[..n])| + |Dialog(live[n..])|
    ensures |Dialog(live[..n])| <= n
    ensures Dialog(live)[..p] == Dialog(live[..n]) + Dialog(live[n..])[..p - |Dialog(live[..n])|]
  {
    DialogConcat(live[..n], live[n..]);
    assert live[..n] + live[n..] == live;
  }

  lemma TrimSound(s: Memory, cfg: Settings)
    requires Sound(s, cfg.SegmentSize())
    ensures Sound(Trimmed(s, cfg), cfg.SegmentSize())
    ensures Trimmed(s, cfg).History() == s.History()
  {
    var n := TrimCount(s, cfg);
    var r := Trimmed(s, cfg);
    if n > 0 {
      assert r.History() == s.History();
      SafeCountWhole(Evictable(s.live, cfg), s.processed, cfg.SegmentSize());
      WholeDifference(s.processed, n, cfg.SegmentSize());
      TrimCovers(s.live, n, s.processed, Contents(s.segments));
    }
  }

  lemma TrimCovers(live: seq<Message>, n: nat, p: nat, ids: seq<string>)
    requires n <= |live| && n <= p <= |Dialog(live)| && Covered(Dialog(live)[..p], ids)
    ensures Covered(live[..n], ids)
    ensures p - n <= |Dialog(live[n..])| && Covered(Dialog(live[n..])[..p - n], ids)
  {
    CutDialog(live, n, p);
    var gone, left := Dialog(live[..n]), Dialog(live[n..]);
    DialogMembers(live[..n]);
    forall m | m in live[..n] && m.dialog ensures m.id in ids {
      assert m in gone;
    }
    forall m | m in left[..p - n] && m.dialog ensures m.id in ids {
      assert m in left[..p - |gone|];
    }
  }

  lemma StepSound(s: Memory, cfg: Settings, e: Event)
    requires Sound(s, cfg.SegmentSize())
    ensures Sound(Step(s, cfg, e), cfg.SegmentSize())
  {
    match e
    case Append(m) => if m.id !in Ids(s.History()) { AppendSound(s, cfg.SegmentSize(), m); }
    case Maintain(good) => MaintainedSound(s, cfg.SegmentSize(), good);
    case Trim => TrimSound(s, cfg);
  }

  /** In every run whatever the roles: no dialog message is deleted before a segment
      holds it, segments are numbered 1, 2, ... and all have the full size. */
  lemma {:induction false} RunSound(cfg: Settings, events: seq<Event>)
    ensures Sound(Run(cfg, events), cfg.SegmentSize())
  {
    if events == [] {
      assert Times(0, cfg.SegmentSize()) == 0;
    } else {
      RunSound(cfg, events[..|events| - 1]);
      StepSound(Run(cfg, events[..|events| - 1]), cfg, events[|events| - 1]);
    }
  }

  lemma TrimIds(evicted: seq<Message>, live: seq<Message>, n: nat, p: nat)
    requires n <= |live| && n <= p <= |Dialog(live)| && AllDialog(live[..n])
    ensures p - n <= |Dialog(live[n..])|
    ensures Ids(evicted) + Ids(Dialog(live)[..p]) == Ids(evicted + live[..n]) + Ids(Dialog(live[n..])[..p - n])
  {
    CutDialog(live, n, p);
    AllDialogStays(live[..n]);
    var gone, left := live[..n], Dialog(live[n..])[..p - n];
    IdsConcat(gone, left);
    IdsConcat(evicted, gone);
    Associative(Ids(evicted), Ids(gone), Ids(left));
  }

  lemma TrimConserves(s: Memory, n: nat)
    requires Conserved(s) && n <= |s.live| && n <= s.processed && AllDialog(s.live[..n])
    ensures Conserved(s.(live := s.live[n..], evicted := s.evicted + s.live[..n], processed := s.processed - n))
  {
    TrimIds(s.evicted, s.live, n, s.processed);
  }

  lemma EvictedPart(a: seq<Message>, b: seq<Message>)
    requires AllDialog(a + b)
    ensures AllDialog(b)
  {
    forall m | m in b ensures m.dialog { assert m in a + b; }
  }

  lemma StepConserves(s: Memory, cfg: Settings, e: Event)
    requires Sound(s, cfg.SegmentSize()) && Conserved(s) && AllDialog(Step(s, cfg, e).evicted)
    ensures Conserved(Step(s, cfg, e))
  {
    match e
    case Append(m) => if m.id !in Ids(s.History()) { AppendConserves(s, m); }
    case Maintain(good) => MaintainedConserves(s, cfg.SegmentSize(), good);
    case Trim =>
      var n := TrimCount(s, cfg);
      if n > 0 {
        EvictedPart(s.evicted, s.live[..n]);
        TrimConserves(s, n);
      }
  }

  lemma StepEvicts(s: Memory, cfg: Settings, e: Event)
    requires Sound(s, cfg.SegmentSize())
    ensures s.evicted <= Step(s, cfg, e).evicted
  {
    if e.Maintain? { MaintainedKeeps(s, cfg.SegmentSize(), e.good); }
  }

  /** The conservation law holds after a run if and only if no message outside the
      dialog was evicted: the eviction counts every message, the summaries only the
      dialog, and a cursor rewound too far is never repaired. */
  lemma {:induction false} ConservedIff(cfg: Settings, events: seq<Event>)
    ensures Conserved(Run(cfg, events)) <==> AllDialog(Run(cfg, events).evicted)
  {
    var r := Run(cfg, events);
    RunSound(cfg, events);
    if Conserved(r) {
      OnlyDialogEvicted(r, cfg.SegmentSize());
    } else if AllDialog(r.evicted) && events != [] {
      var s := Run(cfg, events[..|events| - 1]);
      RunSound(cfg, events[..|events| - 1]);
      StepEvicts(s, cfg, events[|events| - 1]);
      ConservedIff(cfg, events[..|events| - 1]);
      StepConserves(s, cfg, events[|events| - 1]);
    }
  }

  lemma OnlyDialogEvicted(s: Memory, size: nat)
    requires Sound(s, size) && Conserved(s)
    ensures AllDialog(s.evicted)
  {
    forall m | m in s.evicted ensures m.dialog {
      IdOf(s.evicted, m);
      assert m.id in Contents(s.segments);
      var d :| d in s.History() && d.dialog && d.id == m.id;
      SameId(s.History(), m, d);
    }
  }

  /** With the dialog roles alone the law needs no condition. */
  lemma {:induction false} DialogRunConserved(cfg: Settings, events: seq<Event>)
    requires forall e :: e in events && e.Append? ==> e.message.dialog
    ensures Conserved(Run(cfg, events)) && AllDialog(Run(cfg, events).History())
  {
    if events != [] {
      var before := events[..|events| - 1];
      DialogRunConserved(cfg, before);
      RunSound(cfg, before);
      var s, e := Run(cfg, before), events[|events| - 1];
      if e.Maintain? { MaintainedKeeps(s, cfg.SegmentSize(), e.good); }
      if e.Trim? { TrimSound(s, cfg); }
      assert e in events;
      ConservedIff(cfg, events);
    }
  }
}
