/** The concurrency gate of one plugin: a semaphore whose holders keep the one they
    acquired, even after a changed limit has replaced it. */
module PluginGate {
  import opened Prelude

  /** size permits, of which value are free; waiting tasks are queued, granted ones have
      a permit but have not run yet, holding ones are inside. */
  datatype Semaphore = Semaphore(size: nat, value: nat, waiting: nat, granted: nat, holding: nat) {
    /** Hand up to k free permits to queued tasks. */
    function WokenUpTo(k: nat): Semaphore {
      var n := Min(k, Min(value, waiting));
      this.(value := value - n, waiting := waiting - n, granted := granted + n)
    }

    /** A task that comes out of the queue, granted or cancelled, wakes all that fit. */
    function Woken(): Semaphore { WokenUpTo(value) }

    /** A release wakes one. */
    function WokenOne(): Semaphore { WokenUpTo(1) }

    /** A newcomer goes straight in only if nobody is queued. */
    predicate Open() { value > 0 && waiting == 0 && granted == 0 }

    predicate Idle() { waiting == 0 && granted == 0 && holding == 0 }

    /** Every permit is free, handed over or held, and none is free while tasks only wait. */
    ghost predicate Valid() {
      value + granted + holding == size && (value > 0 && waiting > 0 ==> granted > 0)
    }
  }

  /** current is the semaphore newcomers use (size 0: none yet), retired the replaced
      ones, most recent last. */
  datatype Gate = Gate(current: Semaphore, retired: seq<Semaphore>, active: nat, peak: nat) {
    function Limit(): nat { current.size }
  }

  const NONE := Semaphore(0, 0, 0, 0, 0)
  const EMPTY := Gate(NONE, [], 0, 0)

  /** at numbers the semaphores: the retired ones, then the current one. */
  datatype Event = Enter(limit: int) | Leave(at: nat) | Resume(at: nat) | GiveUp(at: nat) | Abandon(at: nat)

  function At(g: Gate, at: nat): Semaphore
    requires at <= |g.retired|
  {
    if at < |g.retired| then g.retired[at] else g.current
  }

  function Put(g: Gate, at: nat, s: Semaphore): Gate
    requires at <= |g.retired|
  {
    if at < |g.retired| then g.(retired := g.retired[at := s]) else g.(current := s)
  }

  function Full(limit: int): Semaphore { var n := Max(1, limit); Semaphore(n, n, 0, 0, 0) }

  /** A changed limit replaces the semaphore when nobody is inside. */
  predicate Replaces(g: Gate, limit: int) {
    g.current.size != 0 && g.current.size != Max(1, limit) && g.active == 0
  }

  function Chosen(g: Gate, limit: int): Gate {
    if g.current.size == 0 then g.(current := Full(limit))
    else if Replaces(g, limit) then g.(current := Full(limit), retired := g.retired + [g.current])
    else g
  }

  function Inside(g: Gate): Gate { g.(active := g.active + 1, peak := Max(g.peak, g.active + 1)) }

  function Entered(g: Gate, limit: int): Gate {
    var h := Chosen(g, limit);
    var s := h.current;
    if s.Open() then Inside(h.(current := s.(value := s.value - 1, holding := s.holding + 1)))
    else h.(current := s.(waiting := s.waiting + 1))
  }

  /** An event no task can cause at the moment changes nothing. */
  function Step(g: Gate, e: Event): Gate {
    if e.Enter? then Entered(g, e.limit)
    else if e.at > |g.retired| then g
    else
      var s := At(g, e.at);
      match e
      case Leave(at) =>
        if s.holding == 0 then g
        else Put(g.(active := Max(0, g.active - 1)), at, s.(holding := s.holding - 1, value := s.value + 1).WokenOne())
      case Resume(at) =>
        if s.granted == 0 then g
        else Put(Inside(g), at, s.(granted := s.granted - 1, holding := s.holding + 1).Woken())
      case GiveUp(at) => if s.waiting == 0 then g else Put(g, at, s.(waiting := s.waiting - 1).Woken())
      case Abandon(at) =>
        if s.granted == 0 then g
        else Put(g, at, s.(granted := s.granted - 1, value := s.value + 1).Woken())
  }

  function Run(events: seq<Event>): Gate {
    if events == [] then EMPTY else Step(Run(events[..|events| - 1]), events[|events| - 1])
  }

  // ----- Counting ------------------------------------------------------------------

  function Holding(sems: seq<Semaphore>): nat {
    if sems == [] then 0 else Holding(sems[..|sems| - 1]) + sems[|sems| - 1].holding
  }

  ghost predicate AllValid(sems: seq<Semaphore>) { forall i :: 0 <= i < |sems| ==> sems[i].Valid() }

  /** active counts the holders inside, whichever semaphore they hold. */
  ghost predicate Sound(g: Gate) {
    && g.current.Valid()
    && AllValid(g.retired)
    && g.active == Holding(g.retired) + g.current.holding
    && g.active <= g.peak
  }

  lemma {:induction false} HoldingUpdate(sems: seq<Semaphore>, i: nat, s: Semaphore)
    requires i < |sems|
    ensures Holding(sems[i := s]) == Holding(sems) - sems[i].holding + s.holding
    ensures Holding(sems) >= sems[i].holding
  {
    var front := sems[..|sems| - 1];
    if i < |front| {
      HoldingUpdate(front, i, s);
      assert sems[i := s][..|sems| - 1] == front[i := s];
    } else {
      assert sems[i := s][..|sems| - 1] == front;
    }
  }

  lemma PutSound(g: Gate, at: nat, s: Semaphore, active: nat)
    requires Sound(g) && at <= |g.retired| && s.Valid()
    requires active == g.active - At(g, at).holding + s.holding
    ensures var h := Put(g, at, s);
            && h.current.Valid() && AllValid(h.retired)
            && active == Holding(h.retired) + h.current.holding
  {
    if at < |g.retired| { HoldingUpdate(g.retired, at, s); }
  }

  lemma HoldingAt(g: Gate, at: nat)
    requires Sound(g) && at <= |g.retired|
    ensures At(g, at).Valid() && At(g, at).holding <= g.active
  {
    if at < |g.retired| { HoldingUpdate(g.retired, at, g.retired[at]); }
  }

  lemma EnterSound(g: Gate, limit: int)
    requires Sound(g)
    ensures Sound(Entered(g, limit))
  {
    assert (g.retired + [g.current])[..|g.retired|] == g.retired;
  }

  lemma LeaveSound(g: Gate, at: nat)
    requires Sound(g) && at <= |g.retired|
    ensures Sound(Step(g, Leave(at)))
  {
    HoldingAt(g, at);
    var s := At(g, at);
    if s.holding > 0 {
      PutSound(g, at, s.(holding := s.holding - 1, value := s.value + 1).WokenOne(), g.active - 1);
    }
  }

  lemma ResumeSound(g: Gate, at: nat)
    requires Sound(g) && at <= |g.retired|
    ensures Sound(Step(g, Resume(at)))
  {
    HoldingAt(g, at);
    var s := At(g, at);
    if s.granted > 0 {
      PutSound(g, at, s.(granted := s.granted - 1, holding := s.holding + 1).Woken(), g.active + 1);
    }
  }

  lemma GiveUpSound(g: Gate, at: nat)
    requires Sound(g) && at <= |g.retired|
    ensures Sound(Step(g, GiveUp(at)))
  {
    HoldingAt(g, at);
    var s := At(g, at);
    if s.waiting > 0 { PutSound(g, at, s.(waiting := s.waiting - 1).Woken(), g.active); }
  }

  lemma AbandonSound(g: Gate, at: nat)
    requires Sound(g) && at <= |g.retired|
    ensures Sound(Step(g, Abandon(at)))
  {
    HoldingAt(g, at);
    var s := At(g, at);
    if s.granted > 0 { PutSound(g, at, s.(granted := s.granted - 1, value := s.value + 1).Woken(), g.active); }
  }

  lemma StepSound(g: Gate, e: Event)
    requires Sound(g)
    ensures Sound(Step(g, e))
  {
    match e
    case Enter(limit) => EnterSound(g, limit);
    case Leave(at) => if at <= |g.retired| { LeaveSound(g, at); }
    case Resume(at) => if at <= |g.retired| { ResumeSound(g, at); }
    case GiveUp(at) => if at <= |g.retired| { GiveUpSound(g, at); }
    case Abandon(at) => if at <= |g.retired| { AbandonSound(g, at); }
  }

  lemma {:induction false} RunSound(events: seq<Event>)
    ensures Sound(Run(events))
  {
    if events != [] {
      RunSound(events[..|events| - 1]);
      StepSound(Run(events[..|events| - 1]), events[|events| - 1]);
    }
  }

  function Busiest(events: seq<Event>): nat {
    if events == [] then 0 else Max(Busiest(events[..|events| - 1]), Run(events).active)
  }

  /** peak is the highest number of tasks that were inside at any point of the run. */
  lemma {:induction false} PeakIsBusiest(events: seq<Event>)
    ensures Run(events).peak == Busiest(events)
  {
    if events != [] {
      PeakIsBusiest(events[..|events| - 1]);
      RunSound(events[..|events| - 1]);
      PeakStep(Run(events[..|events| - 1]), events[|events| - 1]);
    }
  }

  lemma PeakStep(g: Gate, e: Event)
    requires Sound(g)
    ensures Step(g, e).peak == Max(g.peak, Step(g, e).active)
  {
    if !e.Enter? && e.at <= |g.retired| { HoldingAt(g, e.at); }
  }

  // ----- The limit -------------------------------------------------------------------

  /** Nobody waits for, or holds, a permit of a replaced semaphore. */
  ghost predicate Quiet(g: Gate) { forall i :: 0 <= i < |g.retired| ==> g.retired[i].Idle() }

  lemma {:induction false} IdleHoldsNothing(sems: seq<Semaphore>)
    requires forall i :: 0 <= i < |sems| ==> sems[i].Idle()
    ensures Holding(sems) == 0
  {
    if sems != [] { IdleHoldsNothing(sems[..|sems| - 1]); }
  }

  /** At most the limit many tasks are inside, and free, handed-over and held permits add
      up to the limit. */
  ghost predicate WithinLimit(g: Gate) {
    g.active <= g.Limit() && g.current.value + g.current.granted + g.active == g.Limit()
  }

  lemma QuietWithinLimit(g: Gate)
    requires Sound(g) && Quiet(g)
    ensures WithinLimit(g)
  {
    IdleHoldsNothing(g.retired);
  }

  /** The gate stays quiet exactly until a changed limit replaces a semaphore whose
      permit has just been handed to a waiting task. */
  lemma StepQuietIff(g: Gate, e: Event)
    requires Sound(g) && Quiet(g)
    ensures Quiet(Step(g, e)) <==> !(e.Enter? && Replaces(g, e.limit) && g.current.granted > 0)
  {
    IdleHoldsNothing(g.retired);
    if e.Enter? && Replaces(g, e.limit) {
      assert Step(g, e).retired == g.retired + [g.current];
      assert Step(g, e).retired[|g.retired|] == g.current;
    }
  }

  ghost predicate AlwaysQuiet(events: seq<Event>) {
    events == [] ||
    var (front, e) := (events[..|events| - 1], events[|events| - 1]);
    AlwaysQuiet(front) && !(e.Enter? && Replaces(Run(front), e.limit) && Run(front).current.granted > 0)
  }

  lemma {:induction false} RunQuiet(events: seq<Event>)
    requires AlwaysQuiet(events)
    ensures Quiet(Run(events))
  {
    if events != [] {
      var front := events[..|events| - 1];
      RunQuiet(front);
      RunSound(front);
      StepQuietIff(Run(front), events[|events| - 1]);
    }
  }

  /** Over every interleaving in which no limit change falls into that moment, the gate
      is within its limit. */
  lemma RunWithinLimit(events: seq<Event>)
    requires AlwaysQuiet(events)
    ensures WithinLimit(Run(events))
  {
    RunSound(events);
    RunQuiet(events);
    QuietWithinLimit(Run(events));
  }

  /** With one limit the moment never comes. */
  lemma {:induction false} FixedLimitQuiet(events: seq<Event>, limit: int)
    requires forall e :: e in events && e.Enter? ==> e.limit == limit
    ensures AlwaysQuiet(events) && Run(events).Limit() in {0, Max(1, limit)} && Run(events).retired == []
  {
    if events != [] {
      var front, e := events[..|events| - 1], events[|events| - 1];
      assert e in events && forall x :: x in front ==> x in events;
      FixedLimitQuiet(front, limit);
      RunSound(front);
      SameLimit(Run(front), e, limit);
    }
  }

  lemma SameLimit(g: Gate, e: Event, limit: int)
    requires g.Limit() in {0, Max(1, limit)} && g.retired == [] && (e.Enter? ==> e.limit == limit)
    ensures Step(g, e).Limit() in {0, Max(1, limit)} && Step(g, e).retired == []
  {}

  lemma EnteredIs(g: Gate, limit: int)
    requires g.current.size == Max(1, limit)
    ensures var s := g.current;
            Entered(g, limit) ==
              if s.Open() then Inside(g.(current := s.(value := s.value - 1, holding := s.holding + 1)))
              else g.(current := s.(waiting := s.waiting + 1))
  {
    assert Chosen(g, limit) == g;
  }

  ghost predicate GetsIn(g: Gate) { g.current.waiting == 0 && g.current.granted == 0 && g.active < g.Limit() }

  lemma OpenIff(g: Gate)
    requires WithinLimit(g)
    ensures g.current.Open() <==> GetsIn(g)
  {}

  /** Within its limit the gate lets a newcomer in at once exactly when nobody waits or has
      been handed a permit and fewer tasks are inside than the limit; otherwise it queues,
      and nobody else's place changes. */
  lemma EntersIff(g: Gate, limit: int)
    requires WithinLimit(g) && g.Limit() == Max(1, limit)
    ensures var h := Step(g, Enter(limit));
            && h.active == g.active + (if GetsIn(g) then 1 else 0)
            && h.current.waiting == g.current.waiting + (if GetsIn(g) then 0 else 1)
            && h.current.granted == g.current.granted && h.retired == g.retired && h.Limit() == g.Limit()
  {
    OpenIff(g);
    EnteredIs(g, limit);
  }

  /** A task that leaves lets exactly one waiting task have its permit. */
  lemma LeavesTo(g: Gate)
    requires Sound(g) && Quiet(g) && g.active > 0
    ensures var h := Step(g, Leave(|g.retired|));
            && h.active == g.active - 1 && h.retired == g.retired
            && h.current.waiting == g.current.waiting - (if g.current.waiting > 0 then 1 else 0)
            && h.current.granted == g.current.granted + (if g.current.waiting > 0 then 1 else 0)
  {
    IdleHoldsNothing(g.retired);
  }

  // ----- Overrunning -------------------------------------------------------------------

  function RunFrom(g: Gate, events: seq<Event>): Gate {
    if events == [] then g else Step(RunFrom(g, events[..|events| - 1]), events[|events| - 1])
  }

  /** n newcomers, all with the current limit. */
  function Newcomers(limit: nat, n: nat): seq<Event> {
    if n == 0 then [] else Newcomers(limit, n - 1) + [Enter(limit)]
  }

  /** When the replaced semaphore has handed out a permit, its task and as many newcomers
      as the new limit admits get inside together: one too many. */
  lemma OverrunsLimit(g: Gate, limit: int)
    requires Sound(g) && Quiet(g) && Replaces(g, limit) && g.current.granted > 0
    ensures var n := Max(1, limit);
            var h := RunFrom(g, Newcomers(n, n) + [Resume(|g.retired|)]);
            h.Limit() == n && h.active == n + 1
  {
    var n := Max(1, limit);
    var events := Newcomers(n, n);
    NewcomersReplace(g, limit, n);
    var h := RunFrom(g, events);
    assert (events + [Resume(|g.retired|)])[..|events|] == events;
    assert At(h, |g.retired|) == g.current;
  }

  /** The first newcomer installs the new semaphore, the others find it. */
  lemma {:induction false} NewcomersReplace(g: Gate, limit: int, n: nat)
    requires Sound(g) && Quiet(g) && Replaces(g, limit) && 1 <= n <= Max(1, limit)
    ensures var m := Max(1, limit);
            RunFrom(g, Newcomers(m, n)) ==
              Gate(Semaphore(m, m - n, 0, 0, n), g.retired + [g.current], n, Max(g.peak, n))
  {
    var m := Max(1, limit);
    var events := Newcomers(m, n);
    assert events[..|events| - 1] == Newcomers(m, n - 1);
    if n > 1 { NewcomersReplace(g, limit, n - 1); }
  }

  lemma RunSnoc(events: seq<Event>, e: Event)
    ensures Run(events + [e]) == Step(Run(events), e)
  {
    assert (events + [e])[..|events|] == events;
  }

  lemma {:induction false} RunConcat(a: seq<Event>, b: seq<Event>)
    ensures Run(a + b) == RunFrom(Run(a), b)
  {
    if b == [] {
      assert a + b == a;
    } else {
      var k := |b| - 1;
      RunConcat(a, b[..k]);
      assert (a + b)[..|a + b| - 1] == a + b[..k] && (a + b)[|a + b| - 1] == b[k];
    }
  }

  /** A holder, a task queued behind it, and the holder leaves: the permit has been
      handed over and nobody is inside. */
  lemma HandedOver()
    ensures var g := Run([Enter(1)] + [Enter(1)] + [Leave(0)]);
            g == Gate(Semaphore(1, 0, 0, 1, 0), [], 0, 1) && Sound(g) && Quiet(g)
  {
    FirstEnters();
    RunSnoc([Enter(1)], Enter(1));
    SecondQueues();
    RunSnoc([Enter(1)] + [Enter(1)], Leave(0));
    FirstLeaves();
    RunSound([Enter(1)] + [Enter(1)] + [Leave(0)]);
  }

  lemma FirstEnters()
    ensures Run([Enter(1)]) == Gate(Semaphore(1, 0, 0, 0, 1), [], 1, 1)
  {
    assert [] + [Enter(1)] == [Enter(1)];
    RunSnoc([], Enter(1));
  }

  lemma SecondQueues()
    ensures Step(Gate(Semaphore(1, 0, 0, 0, 1), [], 1, 1), Enter(1)) == Gate(Semaphore(1, 0, 1, 0, 1), [], 1, 1)
  {}

  lemma FirstLeaves()
    ensures Step(Gate(Semaphore(1, 0, 1, 0, 1), [], 1, 1), Leave(0)) == Gate(Semaphore(1, 0, 0, 1, 0), [], 0, 1)
  {
    HandsOver(Gate(Semaphore(1, 0, 1, 0, 1), [], 1, 1), 0, 1);
  }

  /** The only holder leaves and the only waiting task is handed its permit. */
  lemma HandsOver(g: Gate, none: nat, one: nat)
    requires g.retired == [] && none == 0 && one == 1
    requires g.current == Semaphore(g.current.size, none, one, none, one) && g.active == one
    ensures Step(g, Leave(none)) == g.(active := none, current := Semaphore(g.current.size, none, none, one, none))
  {
    var s := g.current.(holding := none, value := one);
    assert s.WokenOne() == Semaphore(g.current.size, none, none, one, none);
  }

  /** From an empty gate, for every new limit other than 1: the newcomers it admits and
      the holder that was handed the old permit are inside together, one more than the limit. */
  lemma OverrunFromStart(limit: int)
    requires Max(1, limit) != 1
    ensures var n := Max(1, limit);
            var g := Run([Enter(1)] + [Enter(1)] + [Leave(0)] + (Newcomers(n, n) + [Resume(0)]));
            g.Limit() == n && g.active == n + 1
  {
    var events := [Enter(1)] + [Enter(1)] + [Leave(0)];
    HandedOver();
    RunConcat(events, Newcomers(Max(1, limit), Max(1, limit)) + [Resume(0)]);
    OverrunsLimit(Run(events), limit);
  }

  // ----- The gate object ---------------------------------------------------------------

  class PluginConcurrencyGate {
    var semaphores: map<string, Semaphore>
    var limits: map<string, nat>
    var active: map<string, nat>
    var peak: map<string, nat>
    /** Replaced semaphores that tasks may still refer to. */
    var retired: map<string, seq<Semaphore>>

    ghost predicate Valid()
      reads this
    {
      && limits.Keys == semaphores.Keys == retired.Keys
      && forall k :: k in semaphores ==> limits[k] == semaphores[k].size > 0
    }

    /** What the gate is for one plugin. */
    ghost function Of(key: string): Gate
      reads this
      requires Valid()
    {
      if key in semaphores
      then Gate(semaphores[key], retired[key], ValueOf(active, key), ValueOf(peak, key))
      else Gate(NONE, [], ValueOf(active, key), ValueOf(peak, key))
    }

    constructor ()
      ensures Valid() && forall k :: Of(k) == EMPTY
    {
      semaphores, limits, active, peak, retired := map[], map[], map[], map[], map[];
    }

    method SemaphoreFor(key: string, limit: int)
      requires Valid()
      modifies this`semaphores, this`limits, this`retired
      ensures Valid() && key in semaphores
      ensures Of(key) == Chosen(old(Of(key)), limit)
      ensures forall k :: k != key ==> Of(k) == old(Of(k))
    {
      var n := Max(1, limit);
      if key !in semaphores {
        semaphores := semaphores[key := Full(n)];
        limits := limits[key := n];
        retired := retired[key := []];
      } else if limits[key] != n && ValueOf(active, key) == 0 {
        retired := retired[key := retired[key] + [semaphores[key]]];
        semaphores := semaphores[key := Full(n)];
        limits := limits[key := n];
      }
    }

    /** Take a free permit and go in. */
    method StepInside(key: string)
      requires Valid() && key in semaphores && semaphores[key].Open()
      modifies this`semaphores, this`active, this`peak
      ensures Valid()
      ensures var s := old(semaphores[key]);
              Of(key) == Inside(old(Of(key)).(current := s.(value := s.value - 1, holding := s.holding + 1)))
      ensures forall k :: k != key ==> Of(k) == old(Of(k))
    {
      var s := semaphores[key];
      semaphores := semaphores[key := s.(value := s.value - 1, holding := s.holding + 1)];
      active := active[key := ValueOf(active, key) + 1];
      peak := peak[key := Max(ValueOf(peak, key), active[key])];
    }

    method Enqueue(key: string)
      requires Valid() && key in semaphores
      modifies this`semaphores
      ensures Valid()
      ensures var s := old(semaphores[key]);
              Of(key) == old(Of(key)).(current := s.(waiting := s.waiting + 1))
      ensures forall k :: k != key ==> Of(k) == old(Of(k))
    {
      semaphores := semaphores[key := semaphores[key].(waiting := semaphores[key].waiting + 1)];
    }

    /** Begin to hold: either inside at once, or queued. */
    method Hold(key: string, limit: int) returns (inside: bool)
      requires Valid()
      modifies this
      ensures Valid() && Of(key) == Step(old(Of(key)), Enter(limit))
      ensures inside <==> Of(key).active > old(Of(key)).active
      ensures forall k :: k != key ==> Of(k) == old(Of(k))
    {
      SemaphoreFor(key, limit);
      inside := semaphores[key].Open();
      if inside {
        StepInside(key);
      } else {
        Enqueue(key);
      }
    }

    /** The end of a hold, on the semaphore it acquired. */
    method Release(key: string, at: nat)
      requires Valid() && key in semaphores && at <= |retired[key]| && At(Of(key), at).holding > 0
      modifies this`semaphores, this`active, this`retired
      ensures Valid() && Of(key) == Step(old(Of(key)), Leave(at))
      ensures forall k :: k != key ==> Of(k) == old(Of(k))
    {
      active := active[key := Max(0, ValueOf(active, key) - 1)];
      if at < |retired[key]| {
        retired := retired[key := retired[key][at := Freed(retired[key][at])]];
      } else {
        semaphores := semaphores[key := Freed(semaphores[key])];
      }
    }
  }

  /** One permit comes back and goes to a queued task, if there is one. */
  function Freed(s: Semaphore): Semaphore
    requires s.holding > 0
  {
    s.(holding := s.holding - 1, value := s.value + 1).WokenOne()
  }

  function ValueOf(counts: map<string, nat>, key: string): nat { if key in counts then counts[key] else 0 }
}
