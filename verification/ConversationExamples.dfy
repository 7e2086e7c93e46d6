/** A family of conversations in which the two jobs disagree. */
module ConversationExamples {
  import opened ConversationModel
  import opened ConversationLaws

  /** Segments of one round; three tokens pull the trigger, one stays. */
  ghost predicate Tight(cfg: Settings) { cfg.SegmentSize() == 2 && cfg.trigger <= 3 && 0 <= cfg.keep <= 1 }

  lemma RunSnoc(cfg: Settings, events: seq<Event>, e: Event)
    ensures Run(cfg, events + [e]) == Step(Run(cfg, events), cfg, e)
  {
    assert (events + [e])[..|events|] == events;
  }

  lemma Triple(a: Message, b: Message, c: Message)
    ensures var all := [a, b, c];
            && all[2..] == [c] && all[..2] == [a, b] && all[1..] == [b, c] && [b, c][1..] == [c]
            && [a, b] + [c] == all && [a] + [b] == [a, b] && [] + [a] == [a]
            && all[..1] == [a] && [c][1..] == []
  {}

  lemma DialogOfExample(a: Message, n: Message, r: Message)
    requires a.dialog && !n.dialog && r.dialog
    ensures Dialog([a, n, r]) == [a, r]
  {
    Triple(a, n, r);
    DialogSnoc([], a);
    DialogSnoc([a], n);
    DialogSnoc([a, n], r);
  }

  lemma IdsOfPair(a: Message, b: Message)
    ensures Ids([a, b]) == [a.id, b.id]
  {}

  lemma WindowOfExample(cfg: Settings, a: Message, n: Message, r: Message)
    requires Tight(cfg) && a.tokens == n.tokens == r.tokens == 1
    ensures Evictable([a, n, r], cfg) == 2
  {
    Triple(a, n, r);
    assert Tokens([r]) == 1;
    assert Tokens([n, r]) == 2;
    assert Tokens([a, n, r]) == 3;
    assert WindowStart([n, r], cfg.keep) == 1;
  }

  lemma AfterMaintain(a: Message, n: Message, r: Message)
    requires a.dialog && !n.dialog && r.dialog
    ensures Maintained(Memory([a, n, r], [], 0, []), 2, 1)
         == Memory([a, n, r], [Segment(1, [a.id, r.id])], 2, [])
  {
    var s := Memory([a, n, r], [], 0, []);
    DialogOfExample(a, n, r);
    assert [a, r][0..2] == [a, r];
    IdsOfPair(a, r);
    assert Maintained(s, 2, 1) == Maintained(Summarise(s, 2), 2, 0);
  }

  lemma CountOfExample(s: Memory, cfg: Settings, a: Message, n: Message, r: Message)
    requires Tight(cfg) && s.live == [a, n, r] && s.processed == 2
    requires a.tokens == n.tokens == r.tokens == 1
    ensures TrimCount(s, cfg) == 2
  {
    WindowOfExample(cfg, a, n, r);
    assert Remainder(2, 2) == 0;
  }

  lemma AfterTrim(s: Memory, cfg: Settings)
    requires TrimCount(s, cfg) == 2 && |s.live| == 3 && s.processed == 2 && s.evicted == []
    ensures Trimmed(s, cfg) == Memory([s.live[2]], s.segments, 0, [s.live[0], s.live[1]])
  {
    assert s.live[2..] == [s.live[2]];
    assert s.evicted + s.live[..2] == [s.live[0], s.live[1]];
  }

  /** A note outside the dialog is evicted, the cursor falls back by one message too
      many, and the reply, already in a segment, is waiting to be summarised again. */
  lemma NoteBreaksConservation(cfg: Settings, events: seq<Event>, a: Message, n: Message, r: Message)
    requires Tight(cfg) && Run(cfg, events) == Memory([a, n, r], [], 0, [])
    requires a.dialog && !n.dialog && r.dialog && a.tokens == n.tokens == r.tokens == 1
    ensures var after := Run(cfg, events + [Maintain(1)] + [Trim]);
            && after == Memory([r], [Segment(1, [a.id, r.id])], 0, [a, n])
            && !Conserved(after)
  {
    RunSnoc(cfg, events, Maintain(1));
    RunSnoc(cfg, events + [Maintain(1)], Trim);
    AfterMaintain(a, n, r);
    var s := Memory([a, n, r], [Segment(1, [a.id, r.id])], 2, []);
    CountOfExample(s, cfg, a, n, r);
    AfterTrim(s, cfg);
    ConservedIff(cfg, events + [Maintain(1)] + [Trim]);
    assert [a, n][1] == n;
  }

  /** Three appends reach the state above. */
  lemma AppendsReach(cfg: Settings, a: Message, n: Message, r: Message)
    requires a.id != n.id && a.id != r.id && n.id != r.id
    ensures Run(cfg, [Append(a), Append(n), Append(r)]) == Memory([a, n, r], [], 0, [])
  {
    Triple(a, n, r);
    RunSnoc(cfg, [], Append(a));
    assert [] + [Append(a)] == [Append(a)];
    assert EMPTY.History() == [];
    assert Run(cfg, [Append(a)]) == EMPTY.(live := [a]);
    RunSnoc(cfg, [Append(a)], Append(n));
    assert [Append(a)] + [Append(n)] == [Append(a), Append(n)];
    assert EMPTY.(live := [a]).History() == [a];
    assert Run(cfg, [Append(a), Append(n)]) == EMPTY.(live := [a, n]);
    RunSnoc(cfg, [Append(a), Append(n)], Append(r));
    assert [Append(a), Append(n)] + [Append(r)] == [Append(a), Append(n), Append(r)];
    assert EMPTY.(live := [a, n]).History() == [a, n];
    IdsOfPair(a, n);
  }

  lemma DialogOfTwo(r: Message, q: Message)
    requires r.dialog && q.dialog
    ensures Dialog([r, q]) == [r, q]
  {
    DialogSnoc([], r);
    DialogSnoc([r], q);
    assert [] + [r] == [r] && [r] + [q] == [r, q];
  }

  lemma SummarisesAgain(s: Memory, first: Segment, r: Message, q: Message)
    requires r.dialog && q.dialog && s.live == [r, q] && s.segments == [first] && first.sequence == 1 && s.processed == 0
    ensures Maintained(s, 2, 1) == Memory([r, q], [first, Segment(2, [r.id, q.id])], 2, s.evicted)
  {
    DialogOfTwo(r, q);
    assert [r, q][0..2] == [r, q];
    IdsOfPair(r, q);
    assert [first][..0] == [];
    assert LastSequence([first]) == 1;
    assert Maintained(s, 2, 1) == Maintained(Summarise(s, 2), 2, 0);
  }

  /** The next message and the next job: the reply is summarised a second time, in a
      second segment. */
  lemma ReplySummarisedTwice(cfg: Settings, events: seq<Event>, a: Message, n: Message, r: Message, q: Message)
    requires Tight(cfg) && Run(cfg, events) == Memory([a, n, r], [], 0, [])
    requires a.dialog && !n.dialog && r.dialog && q.dialog && a.tokens == n.tokens == r.tokens == 1
    requires q.id !in [a.id, n.id, r.id]
    ensures var after := Run(cfg, events + [Maintain(1)] + [Trim] + [Append(q)] + [Maintain(1)]);
            && after.segments == [Segment(1, [a.id, r.id]), Segment(2, [r.id, q.id])]
            && after.evicted == [a, n] && after.live == [r, q]
  {
    var trimmed := events + [Maintain(1)] + [Trim];
    NoteBreaksConservation(cfg, events, a, n, r);
    RunSnoc(cfg, trimmed, Append(q));
    RunSnoc(cfg, trimmed + [Append(q)], Maintain(1));
    var s := Run(cfg, trimmed);
    NewId(s, a, n, r, q);
    var t := Run(cfg, trimmed + [Append(q)]);
    assert [r] + [q] == [r, q];
    assert t.live == [r, q];
    SummarisesAgain(t, Segment(1, [a.id, r.id]), r, q);
  }

  lemma NewId(s: Memory, a: Message, n: Message, r: Message, q: Message)
    requires s.evicted == [a, n] && s.live == [r] && q.id !in [a.id, n.id, r.id]
    ensures q.id !in Ids(s.History())
  {
    var all := s.History();
    assert all[0] == a && all[1] == n && all[2] == r;
    assert Ids(all)[0] == a.id && Ids(all)[1] == n.id && Ids(all)[2] == r.id;
    assert [a.id, n.id, r.id][0] == a.id && [a.id, n.id, r.id][1] == n.id && [a.id, n.id, r.id][2] == r.id;
  }
}
