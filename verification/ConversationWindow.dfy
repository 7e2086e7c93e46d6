/** What the token window keeps, how far one trim goes, and why the order in which the
    two jobs run leaves no trace in the segments. */
module ConversationWindow {
  import opened Prelude
  import opened ConversationModel
  import opened ConversationLaws

  // ----- The kept window ----------------------------------------------------

  lemma {:induction false} SuffixLighter(messages: seq<Message>, i: nat, j: nat)
    requires i <= j <= |messages|
    ensures Tokens(messages[j..]) <= Tokens(messages[i..])
    decreases j - i
  {
    if i < j {
      SuffixLighter(messages, i + 1, j);
      assert messages[i..][1..] == messages[i + 1..];
    }
  }

  /** The longest suffix within the budget, or the last message alone. */
  ghost predicate IsWindow(messages: seq<Message>, keep: int, i: nat) {
    && i < |messages|
    && (Tokens(messages[i..]) <= keep || i == |messages| - 1)
    && (forall j :: 0 <= j < i ==> Tokens(messages[j..]) > keep)
  }

  lemma {:induction false} WindowIsLongest(messages: seq<Message>, keep: int)
    requires messages != []
    ensures IsWindow(messages, keep, WindowStart(messages, keep))
  {
    var w := WindowStart(messages, keep);
    assert messages[0..] == messages;
    if |messages| > 1 && Tokens(messages) > keep {
      var rest := messages[1..];
      WindowIsLongest(rest, keep);
      assert messages[w..] == rest[w - 1..];
      forall j | 0 <= j < w ensures Tokens(messages[j..]) > keep {
        if j > 0 { assert messages[j..] == rest[j - 1..]; }
      }
    }
  }

  lemma WindowUnique(messages: seq<Message>, keep: int, i: nat)
    requires IsWindow(messages, keep, i)
    ensures i == WindowStart(messages, keep)
  {
    WindowIsLongest(messages, keep);
  }

  lemma {:induction false} WindowAfterCut(messages: seq<Message>, keep: int, n: nat)
    requires n <= WindowStart(messages, keep)
    ensures WindowStart(messages[n..], keep) == WindowStart(messages, keep) - n
  {
    if n == 0 {
      assert messages[0..] == messages;
    } else {
      WindowAfterCut(messages[1..], keep, n - 1);
      assert messages[1..][n - 1..] == messages[n..];
    }
  }

  // ----- How far one trim goes -----------------------------------------------

  /** A trim takes whole segments, stays outside the window and behind the cursor, and
      leaves less than one segment outside the window exactly when the cursor is less
      than one segment short of it. */
  lemma SurvivorsIff(s: Memory, cfg: Settings)
    requires Sound(s, cfg.SegmentSize())
    ensures var n, size := TrimCount(s, cfg), cfg.SegmentSize();
            && Whole(n, size) && n <= Evictable(s.live, cfg) && n <= s.processed
            && (Evictable(s.live, cfg) - n < size <==> s.processed + size > Evictable(s.live, cfg))
  {
    var size, w := cfg.SegmentSize(), Evictable(s.live, cfg);
    SafeCountWhole(w, s.processed, size);
    if s.processed <= w { WholeRoundsToItself(s.processed, size); }
  }

  lemma WholeRoundsToItself(n: nat, size: nat)
    requires size > 0 && Whole(n, size)
    ensures n - n % size == n
  {
    var k: nat :| n == Times(k, size);
    RemainderOfProduct(k, n / size, n % size, size);
  }

  lemma RemainderOfProduct(k: int, q: int, r: int, size: nat)
    requires 0 <= r < size && k * size == q * size + r
    ensures r == 0
  {
    assert (k - q) * size == r;
    if k > q { NonNegative(k - q - 1, size) by { assert (k - q - 1) * size == r - size; } }
  }

  /** A second trim finds nothing to do. */
  lemma TrimIdempotent(s: Memory, cfg: Settings)
    ensures Trimmed(Trimmed(s, cfg), cfg) == Trimmed(s, cfg)
  {
    var size, n := cfg.SegmentSize(), TrimCount(s, cfg);
    if n > 0 {
      WindowAfterCut(s.live, cfg.keep, n);
      SafeCountWhole(Evictable(s.live, cfg), s.processed, size);
      LessThanASegment(Evictable(s.live[n..], cfg), s.processed - n, size);
    }
  }

  lemma LessThanASegment(candidates: nat, processed: nat, size: nat)
    requires size > 0 && Min(candidates, processed) < size
    ensures SafeCount(candidates, processed, size) == 0
  {
    Small(Min(candidates, processed), size);
  }

  lemma Small(n: nat, size: nat)
    requires n < size
    ensures n % size == n
  {}

  // ----- The summarising job -------------------------------------------------

  /** A job that stopped at a failed summary and one that continues later create what
      one uninterrupted job would have. */
  lemma {:induction false} MaintainResumes(s: Memory, size: nat, first: nat, second: nat)
    ensures Maintained(Maintained(s, size, first), size, second) == Maintained(s, size, first + second)
    decreases first
  {
    if first > 0 {
      MaintainResumes(Summarise(s, size), size, first - 1, second);
    }
  }

  lemma {:induction false} MaintainProgress(s: Memory, size: nat, n: nat)
    requires size > 0 && 0 <= s.processed <= |Dialog(s.live)|
    ensures var r := Maintained(s, size, n);
            && r.live == s.live && s.processed <= r.processed <= |Dialog(s.live)|
            && (|Dialog(s.live)| - r.processed < size || r.processed >= s.processed + n)
    decreases n
  {
    if n > 0 { MaintainProgress(Summarise(s, size), size, n - 1); }
  }

  /** When no summary fails, the trim after it leaves the window and less than one
      segment before it. */
  lemma MaintainThenTrim(s: Memory, cfg: Settings, good: nat)
    requires Sound(s, cfg.SegmentSize()) && AllDialog(s.live) && good >= |s.live|
    ensures var size := cfg.SegmentSize();
            var t := Trimmed(Maintained(s, size, good), cfg);
            && |t.live| <= |s.live|
            && |t.live| < |s.live| - Evictable(s.live, cfg) + size
            && t.live == s.live[|s.live| - |t.live|..]
  {
    var size := cfg.SegmentSize();
    var m := Maintained(s, size, good);
    AllDialogStays(s.live);
    MaintainProgress(s, size, good);
    MaintainedSound(s, size, good);
    TrimLeaves(m, cfg);
  }

  /** A trim behind a cursor with less than a segment after it. */
  lemma TrimLeaves(s: Memory, cfg: Settings)
    requires Sound(s, cfg.SegmentSize()) && s.processed > |s.live| - cfg.SegmentSize()
    ensures var t := Trimmed(s, cfg);
            && |t.live| <= |s.live|
            && |t.live| < |s.live| - Evictable(s.live, cfg) + cfg.SegmentSize()
            && t.live == s.live[|s.live| - |t.live|..]
  {
    SurvivorsIff(s, cfg);
    assert s.live[0..] == s.live;
  }

  // ----- The segments are the chunks of the history ---------------------------

  lemma {:induction false} ContentsAt(segments: seq<Segment>, size: nat, k: nat)
    requires Numbered(segments, size) && k < |segments|
    ensures |Contents(segments)| == Times(|segments|, size)
    ensures 0 <= Times(k, size) <= Times(k + 1, size) <= |Contents(segments)|
    ensures Contents(segments)[Times(k, size)..Times(k + 1, size)] == segments[k].messageIds
  {
    var before := segments[..|segments| - 1];
    Product(|before|, size);
    Product(k, size);
    if before == [] {
      assert Contents(segments) == segments[0].messageIds;
    } else {
      ContentsAt(before, size, if k < |before| then k else 0);
    }
  }

  lemma Product(k: nat, size: nat)
    ensures 0 <= Times(k, size) && Times(k + 1, size) == Times(k, size) + size && Times(0, size) == 0
  {}

  /** Segment k holds exactly the k-th block of the whole dialog history, whenever the
      jobs ran and whatever has been deleted since. */
  lemma SegmentsAreChunks(cfg: Settings, events: seq<Event>, k: nat)
    requires AllDialog(Run(cfg, events).evicted) && k < |Run(cfg, events).segments|
    ensures var s, size := Run(cfg, events), cfg.SegmentSize();
            var history := Ids(Dialog(s.History()));
            && 0 <= Times(k, size) <= Times(k + 1, size) <= |history|
            && s.segments[k] == Segment(k + 1, history[Times(k, size)..Times(k + 1, size)])
  {
    var s, size := Run(cfg, events), cfg.SegmentSize();
    RunSound(cfg, events);
    ConservedIff(cfg, events);
    ContentsAt(s.segments, size, k);
    ContentsArePrefix(s);
    PrefixSlice(Contents(s.segments), Ids(Dialog(s.History())), Times(k, size), Times(k + 1, size));
  }

  lemma PrefixSlice(short: seq<string>, long: seq<string>, i: nat, j: nat)
    requires short <= long && i <= j <= |short|
    ensures short[i..j] == long[i..j]
  {}

  lemma ContentsArePrefix(s: Memory)
    requires Conserved(s) && AllDialog(s.evicted)
    ensures Contents(s.segments) <= Ids(Dialog(s.History()))
  {
    DialogConcat(s.evicted, s.live);
    AllDialogStays(s.evicted);
    var done := Dialog(s.live)[..s.processed];
    var rest := Dialog(s.live)[s.processed..];
    assert Dialog(s.live) == done + rest;
    IdsConcat(done, rest);
    IdsConcat(s.evicted, Dialog(s.live));
    Associative(Ids(s.evicted), Ids(done), Ids(rest));
  }

  /** Two runs over the same history agree on every segment both have made. */
  lemma SegmentsAgree(cfg: Settings, a: seq<Event>, b: seq<Event>, k: nat)
    requires Dialog(Run(cfg, a).History()) == Dialog(Run(cfg, b).History())
    requires AllDialog(Run(cfg, a).evicted) && AllDialog(Run(cfg, b).evicted)
    requires k < |Run(cfg, a).segments| && k < |Run(cfg, b).segments|
    ensures Run(cfg, a).segments[k] == Run(cfg, b).segments[k]
  {
    SegmentsAreChunks(cfg, a, k);
    SegmentsAreChunks(cfg, b, k);
  }

  // ----- Late arrivals --------------------------------------------------------

  /** A dialog message that sorts into the history at a later moment keeps the law if
      and only if it lands behind the cursor's prefix. */
  lemma LateInsertIff(s: Memory, size: nat, a: seq<Message>, b: seq<Message>, m: Message)
    requires Sound(s, size) && Conserved(s) && s.live == a + b
    requires m.dialog && m.id !in Ids(s.History())
    ensures Conserved(s.(live := a + [m] + b)) <==> s.processed <= |Dialog(a)|
  {
    InsertBetween(a, b, m);
    NotSummarised(s, size, m);
    InsertInPrefix(Dialog(a), Dialog(b), m, s.processed);
  }

  lemma InsertBetween(a: seq<Message>, b: seq<Message>, m: Message)
    requires m.dialog
    ensures Dialog(a + b) == Dialog(a) + Dialog(b)
    ensures Dialog(a + [m] + b) == Dialog(a) + [m] + Dialog(b)
  {
    DialogConcat(a, b);
    DialogSnoc(a, m);
    DialogConcat(a + [m], b);
  }

  lemma InsertInPrefix(front: seq<Message>, back: seq<Message>, m: Message, p: nat)
    requires p <= |front| + |back|
    ensures p <= |front| ==> (front + [m] + back)[..p] == (front + back)[..p]
    ensures p > |front| ==> m.id in Ids((front + [m] + back)[..p])
  {
    var late := (front + [m] + back)[..p];
    if p > |front| {
      assert late[|front|] == m;
      IdOf(late, m);
    }
  }

  lemma NotSummarised(s: Memory, size: nat, m: Message)
    requires Sound(s, size) && m.id !in Ids(s.History())
    ensures m.id !in Contents(s.segments)
  {
    if m.id in Contents(s.segments) {
      var d :| d in s.History() && d.id == m.id;
      IdOf(s.History(), d);
    }
  }

  // ----- The cached context ----------------------------------------------------

  /** The cached window is trimmed by its own contents, and the extraction offset is
      moved by as much. */
  function RedisTrimmed(messages: seq<Message>, offset: Option<int>, cfg: Settings): (seq<Message>, Option<int>) {
    var removed := Evictable(messages, cfg);
    if removed == 0 || offset.None? then (messages[removed..], offset)
    else (messages[removed..], Some(Max(0, offset.value - removed)))
  }

  /** What memory extraction has not read yet survives if and only if all that is
      removed lies before the offset. */
  lemma UnreadKeptIff(messages: seq<Message>, offset: nat, cfg: Settings)
    requires offset <= |messages|
    ensures var (kept, moved) := RedisTrimmed(messages, Some(offset), cfg);
            && moved.Some? && 0 <= moved.value <= |kept|
            && (kept[moved.value..] == messages[offset..] <==> Evictable(messages, cfg) <= offset)
  {
    var removed := Evictable(messages, cfg);
    if removed > offset {
      assert |messages[removed..]| < |messages[offset..]|;
    }
  }
}
