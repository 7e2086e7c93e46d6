/** Layered conversation memory. One job summarises fixed-size batches of the dialog
    behind a cursor; another deletes an old prefix of the messages and rewinds the
    cursor. Both hold the same lock, so each is one step of the model. */
module ConversationModel {
  import opened Prelude

  /** dialog: the role is user or assistant. */
  datatype Message = Message(id: string, dialog: bool, tokens: nat)

  datatype Segment = Segment(sequence: int, messageIds: seq<string>)

  datatype Settings = Settings(rounds: int, trigger: int, keep: int) {
    function SegmentSize(): nat { Max(2, rounds * 2) }
  }

  /** evicted is the history the database no longer holds. */
  datatype Memory = Memory(live: seq<Message>, segments: seq<Segment>, processed: int, evicted: seq<Message>) {
    function History(): seq<Message> { evicted + live }
  }

  const EMPTY := Memory([], [], 0, [])

  function IdAt(messages: seq<Message>, i: int): string {
    if 0 <= i < |messages| then messages[i].id else ""
  }

  function Ids(messages: seq<Message>): (r: seq<string>)
    ensures |r| == |messages|
  {
    seq(|messages|, i => IdAt(messages, i))
  }

  function Dialog(messages: seq<Message>): (r: seq<Message>)
    ensures |r| <= |messages|
  {
    if messages == [] then []
    else
      var rest := Dialog(messages[..|messages| - 1]);
      if messages[|messages| - 1].dialog then rest + [messages[|messages| - 1]] else rest
  }

  function Tokens(messages: seq<Message>): nat {
    if messages == [] then 0 else messages[0].tokens + Tokens(messages[1..])
  }

  /** The message ids of all segments, in the order of the segments. */
  function Contents(segments: seq<Segment>): seq<string> {
    if segments == [] then []
    else Contents(segments[..|segments| - 1]) + segments[|segments| - 1].messageIds
  }

  function LastSequence(segments: seq<Segment>): int {
    if segments == [] then 0
    else Max(LastSequence(segments[..|segments| - 1]), segments[|segments| - 1].sequence)
  }

  // ----- Summarising --------------------------------------------------------

  function Cursor(s: Memory): nat { Min(Max(s.processed, 0), |Dialog(s.live)|) }

  /** One more batch, if a whole one is waiting. */
  function Summarise(s: Memory, size: nat): Memory {
    var dialog := Dialog(s.live);
    var cursor := Cursor(s);
    if |dialog| - cursor < size then s
    else
      s.(segments := s.segments + [Segment(LastSequence(s.segments) + 1, Ids(dialog[cursor..cursor + size]))],
         processed := cursor + size)
  }

  /** The job when its first good summaries succeed and the next one fails. */
  function Maintained(s: Memory, size: nat, good: nat): Memory
    decreases good
  {
    if good == 0 then s else Maintained(Summarise(s, size), size, good - 1)
  }

  // ----- Evicting -----------------------------------------------------------

  /** Where the kept window starts: messages go from the old end while the rest is
      over the budget, and the last message always stays. */
  function WindowStart(messages: seq<Message>, keep: int): (r: nat)
    ensures r <= |messages| && (messages != [] ==> r < |messages|)
  {
    if |messages| <= 1 || Tokens(messages) <= keep then 0
    else 1 + WindowStart(messages[1..], keep)
  }

  function Evictable(messages: seq<Message>, cfg: Settings): (r: nat)
    ensures r <= |messages|
  {
    if Tokens(messages) < cfg.trigger then 0 else WindowStart(messages, cfg.keep)
  }

  /** Whole summarised segments only. */
  function SafeCount(candidates: nat, processed: int, size: nat): (r: nat)
    requires size > 0
    ensures r <= candidates && r <= Max(processed, 0)
  {
    var complete := Min(candidates, Max(0, processed));
    complete - Remainder(complete, size)
  }

  function Remainder(n: nat, size: nat): (r: nat)
    requires size > 0
    ensures r <= n && r < size
  {
    n % size
  }

  function TrimCount(s: Memory, cfg: Settings): (r: nat)
    ensures r <= |s.live| && r <= Max(s.processed, 0)
  {
    SafeCount(Evictable(s.live, cfg), s.processed, cfg.SegmentSize())
  }

  function Trimmed(s: Memory, cfg: Settings): Memory {
    var n := TrimCount(s, cfg);
    if n == 0 then s
    else s.(live := s.live[n..], evicted := s.evicted + s.live[..n], processed := Max(s.processed, 0) - n)
  }

  // ----- Runs ---------------------------------------------------------------

  datatype Event = Append(message: Message) | Maintain(good: nat) | Trim

  function Step(s: Memory, cfg: Settings, e: Event): Memory {
    match e
    case Append(m) => if m.id in Ids(s.History()) then s else s.(live := s.live + [m])
    case Maintain(good) => Maintained(s, cfg.SegmentSize(), good)
    case Trim => Trimmed(s, cfg)
  }

  function Run(cfg: Settings, events: seq<Event>): Memory {
    if events == [] then EMPTY
    else Step(Run(cfg, events[..|events| - 1]), cfg, events[|events| - 1])
  }
}
