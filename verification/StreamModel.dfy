/** Frames of a job's event stream and how a client brings them into order: sort by
    sequence number, keep the first frame of every key. */
module StreamModel {

  /** number (the seq) and kind (the type) are the values after coercion; body is the rest of the frame. */
  datatype Frame = Frame(eventId: string, jobId: string, number: int, kind: string, body: string)

  /** "event:..." and "seq:...:..." never meet, and the number behind the last colon is
      unambiguous, so the key is a tagged pair. */
  datatype Key = ByEvent(eventId: string) | BySeq(jobId: string, number: int)

  function DedupeKey(f: Frame): Key {
    if f.eventId != "" then ByEvent(f.eventId) else BySeq(f.jobId, f.number)
  }

  /** How many frames of a sorted sequence come no later than number. */
  function Position(sorted: seq<Frame>, number: int): (p: nat)
    ensures p <= |sorted|
  {
    if sorted == [] || sorted[0].number > number then 0 else 1 + Position(sorted[1..], number)
  }

  function Insert(sorted: seq<Frame>, f: Frame): seq<Frame> {
    var p := Position(sorted, f.number);
    sorted[..p] + [f] + sorted[p..]
  }

  /** Sorting by sequence number; frames with the same number stay in order. */
  function StableSort(frames: seq<Frame>): seq<Frame> {
    if frames == [] then []
    else Insert(StableSort(frames[..|frames| - 1]), frames[|frames| - 1])
  }

  function Keys(frames: seq<Frame>): set<Key> { set f | f in frames :: DedupeKey(f) }

  /** The frames whose key has not been seen before. */
  function Dedupe(frames: seq<Frame>, seen: set<Key>): seq<Frame> {
    if frames == [] then []
    else if DedupeKey(frames[0]) in seen then Dedupe(frames[1..], seen)
    else [frames[0]] + Dedupe(frames[1..], seen + {DedupeKey(frames[0])})
  }

  function Normalize(frames: seq<Frame>): seq<Frame> { Dedupe(StableSort(frames), {}) }

  /** The normal form taking in one more frame. */
  function Absorb(out: seq<Frame>, f: Frame): seq<Frame> {
    var p := Position(out, f.number);
    if DedupeKey(f) in Keys(out[..p]) then out
    else out[..p] + [f] + Drop(out[p..], DedupeKey(f))
  }

  /** Without the frame of that key. */
  function Drop(frames: seq<Frame>, key: Key): seq<Frame> {
    if frames == [] then []
    else if DedupeKey(frames[0]) == key then Drop(frames[1..], key)
    else [frames[0]] + Drop(frames[1..], key)
  }

  // ----- Consuming --------------------------------------------------------------

  /** terminal and blocked are the seal's predicates; render is what a frame that gets
      through does to the visible content. */
  datatype Rules<!C> = Rules(terminal: Frame -> bool, blocked: Frame -> bool, render: (C, Frame) -> C)

  datatype View<C> = View(content: C, untyped: nat, droppedAfterTerminal: nat, isFinal: bool)

  function Consume<C>(rules: Rules<C>, v: View<C>, f: Frame): View<C> {
    if f.kind == "" then v.(untyped := v.untyped + 1)
    else if v.isFinal && !rules.terminal(f) && rules.blocked(f) then
      v.(droppedAfterTerminal := v.droppedAfterTerminal + 1)
    else
      v.(content := rules.render(v.content, f), isFinal := v.isFinal || rules.terminal(f))
  }

  function ConsumeAll<C>(rules: Rules<C>, v: View<C>, frames: seq<Frame>): View<C> {
    if frames == [] then v
    else Consume(rules, ConsumeAll(rules, v, frames[..|frames| - 1]), frames[|frames| - 1])
  }

  function Snapshot<C>(rules: Rules<C>, empty: C, frames: seq<Frame>): View<C> {
    ConsumeAll(rules, View(empty, 0, 0, false), Normalize(frames))
  }
}
