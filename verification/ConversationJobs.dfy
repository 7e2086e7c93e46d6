/** The two background jobs over the stored conversation, proved against the model. */
module ConversationJobs {
  import opened Prelude
  import opened ConversationModel
  import opened ConversationWindow
  import opened ConversationTrim

  method SumTokens(messages: seq<Message>) returns (total: nat)
    ensures total == Tokens(messages)
  {
    total := 0;
    assert messages[0..] == messages;
    for i := 0 to |messages|
      invariant total + Tokens(messages[i..]) == Tokens(messages)
    {
      assert messages[i..][1..] == messages[i + 1..];
      total := total + messages[i].tokens;
    }
  }

  method SelectMessagesToEvict(messages: seq<Message>, cfg: Settings) returns (evict: seq<Message>)
    ensures evict == messages[..Evictable(messages, cfg)]
  {
    var total := SumTokens(messages);
    if total < cfg.trigger {
      return [];
    }
    var first := KeptFrom(messages, cfg.keep);
    return messages[..first];
  }

  /** The backward loop over the messages. */
  method KeptFrom(messages: seq<Message>, keep: int) returns (first: nat)
    ensures first == WindowStart(messages, keep)
  {
    var kept := 0;
    first := |messages|;
    var index := |messages| - 1;
    while index >= 0
      invariant -1 <= index && first == index + 1 <= |messages|
      invariant kept == Tokens(messages[first..])
      invariant first < |messages| ==> kept <= keep || first == |messages| - 1
    {
      var cost := messages[index].tokens;
      assert messages[index..][1..] == messages[first..];
      if first < |messages| && kept + cost > keep {
        break;
      }
      kept := kept + cost;
      first := index;
      index := index - 1;
    }
    if messages != [] {
      forall j | 0 <= j < first ensures Tokens(messages[j..]) > keep { SuffixLighter(messages, j, index); }
      WindowUnique(messages, keep, first);
    }
  }

  method SelectSafeEvictableMessages(candidates: seq<Message>, processed: int, cfg: Settings)
    returns (evict: seq<Message>)
    ensures evict == candidates[..SafeCount(|candidates|, processed, cfg.SegmentSize())]
  {
    var complete := Min(|candidates|, Max(0, processed));
    complete := complete - Remainder(complete, cfg.SegmentSize());
    return candidates[..complete];
  }

  /** The highest sequence number in the table, or 0. */
  method HighestSequence(segments: seq<Segment>) returns (last: int)
    ensures last == LastSequence(segments)
  {
    last := 0;
    for i := 0 to |segments|
      invariant last == LastSequence(segments[..i])
    {
      assert segments[..i + 1][..i] == segments[..i];
      last := Max(last, segments[i].sequence);
    }
    assert segments[..|segments|] == segments;
  }

  method DialogMessages(messages: seq<Message>) returns (dialog: seq<Message>)
    ensures dialog == Dialog(messages)
  {
    dialog := [];
    for i := 0 to |messages|
      invariant dialog == Dialog(messages[..i])
    {
      assert messages[..i + 1][..i] == messages[..i];
      if messages[i].dialog {
        dialog := dialog + [messages[i]];
      }
    }
    assert messages[..|messages|] == messages;
  }

  /** The batching loop. The ghost start is the state of the store before it. */
  method SummariseBatches(dialog: seq<Message>, segments: seq<Segment>, processed: int, size: nat, good: nat,
                          ghost start: Memory)
    returns (table: seq<Segment>, count: int, created: nat)
    requires size > 0 && dialog == Dialog(start.live)
    requires start.segments == segments && start.processed == processed
    ensures start.(segments := table, processed := count) == Maintained(start, size, good)
    ensures |table| == |segments| + created && created <= good
  {
    table, count, created := segments, processed, 0;
    var cursor := Min(Max(processed, 0), |dialog|);
    var last := HighestSequence(segments);
    var nextSequence := last + 1;
    ghost var s := start;
    while |dialog| - cursor >= size
      invariant created <= good && |table| == |segments| + created
      invariant s == start.(segments := table, processed := count)
      invariant Maintained(s, size, good - created) == Maintained(start, size, good)
      invariant cursor == Cursor(s) && nextSequence == LastSequence(table) + 1
      decreases |dialog| - cursor
    {
      if created == good {
        break;
      }
      var batch := dialog[cursor..cursor + size];
      NextBatch(s, size, batch, cursor);
      s := Summarise(s, size);
      table := table + [Segment(nextSequence, Ids(batch))];
      count := cursor + |batch|;
      cursor := cursor + |batch|;
      nextSequence := nextSequence + 1;
      created := created + 1;
    }
    if |dialog| - cursor < size {
      StaysDone(s, size, good - created);
    }
  }

  /** One conversation's rows: its messages, its segments and the cursor. */
  class ConversationStore {
    const cfg: Settings
    var messages: seq<Message>
    var segments: seq<Segment>
    var processedMessageCount: int
    ghost var evicted: seq<Message>

    ghost function View(): Memory
      reads this
    {
      Memory(messages, segments, processedMessageCount, evicted)
    }

    constructor (cfg: Settings)
      ensures this.cfg == cfg && View() == EMPTY
    {
      this.cfg := cfg;
      messages, segments, processedMessageCount, evicted := [], [], 0, [];
    }

    /** Summarise whole batches behind the cursor until one summary fails: the first
        good ones succeed. */
    method MaintainConversationMemory(good: nat) returns (created: nat)
      modifies this`segments, this`processedMessageCount
      ensures View() == Maintained(old(View()), cfg.SegmentSize(), good)
      ensures |segments| == |old(segments)| + created && created <= good
    {
      var dialog := DialogMessages(messages);
      segments, processedMessageCount, created :=
        SummariseBatches(dialog, segments, processedMessageCount, cfg.SegmentSize(), good, View());
    }

    /** Delete the oldest summarised segments that are outside the token window. */
    method TrimConversationMessages() returns (removed: nat)
      modifies this`messages, this`processedMessageCount, this`evicted
      ensures View() == Trimmed(old(View()), cfg)
      ensures removed == TrimCount(old(View()), cfg)
    {
      var candidates := SelectMessagesToEvict(messages, cfg);
      if |candidates| == 0 {
        return 0;
      }
      var processed := Max(0, processedMessageCount);
      candidates := SelectSafeEvictableMessages(candidates, processed, cfg);
      if |candidates| == 0 {
        return 0;
      }
      removed := |candidates|;
      evicted := evicted + messages[..removed];
      messages := messages[removed..];
      processedMessageCount := Max(0, processed - removed);
    }
  }

  lemma NextBatch(s: Memory, size: nat, batch: seq<Message>, cursor: nat)
    requires cursor == Cursor(s) && cursor + size <= |Dialog(s.live)|
    requires batch == Dialog(s.live)[cursor..cursor + size]
    ensures var next := Segment(LastSequence(s.segments) + 1, Ids(batch));
            var r := s.(segments := s.segments + [next], processed := cursor + size);
            && Summarise(s, size) == r
            && Cursor(r) == cursor + size
            && LastSequence(r.segments) == next.sequence
  {
    var next := Segment(LastSequence(s.segments) + 1, Ids(batch));
    NextLast(s.segments, next);
    CursorAt(s.(segments := s.segments + [next]), cursor + size);
  }

  lemma CursorAt(s: Memory, n: nat)
    requires n <= |Dialog(s.live)|
    ensures Cursor(s.(processed := n)) == n
  {}

  lemma NextLast(segments: seq<Segment>, next: Segment)
    requires next.sequence == LastSequence(segments) + 1
    ensures LastSequence(segments + [next]) == next.sequence
  {
    assert (segments + [next])[..|segments|] == segments;
  }

  /** The cached window, trimmed by its own tokens. */
  method TrimRedisContext(messages: seq<Message>, offset: Option<int>, removed: int, cfg: Settings)
    returns (kept: seq<Message>, moved: Option<int>)
    ensures (kept, moved) == if removed <= 0 then (messages, offset) else RedisTrimmed(messages, offset, cfg)
  {
    kept, moved := messages, offset;
    if removed <= 0 {
      return;
    }
    var total := SumTokens(messages);
    var redisRemoved := 0;
    if total >= cfg.trigger {
      redisRemoved := KeptFrom(messages, cfg.keep);
      kept := messages[redisRemoved..];
    }
    if offset.Some? && redisRemoved > 0 {
      moved := Some(Max(0, offset.value - redisRemoved));
    }
  }
}
