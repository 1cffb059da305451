/**
 `FrameMailbox`: the single-slot hand-over from the DTLS thread to the event loop. The class has the sections
 that run under its lock; the state machine interleaves them for any number of producer threads with the
 event loop, which may be closed at any moment.
 */
module Mailbox {
  import opened Prelude
  import HueStream

  type Bytes = seq<HueStream.byte>

  // ---- the locked sections ----

  /** What the lock protects. */
  datatype Slot = Slot(latest: Option<Bytes>, scheduled: bool, coalesced: nat)

  function Stored(s: Slot, frame: Bytes): Slot {
    Slot(Some(frame), true, if s.latest.Some? then s.coalesced + 1 else s.coalesced)
  }

  function Emptied(s: Slot): Slot { Slot(None, false, s.coalesced) }

  class FrameMailbox {
    var latest: Option<Bytes>
    var scheduled: bool
    var coalesced: nat

    constructor ()
      ensures View() == Slot(None, false, 0)
    {
      latest, scheduled, coalesced := None, false, 0;
    }

    function View(): Slot
      reads this
    {
      Slot(latest, scheduled, coalesced)
    }

    /** `put` under the lock; the caller goes on to schedule `_deliver` if it is told to. */
    method PutLocked(frame: Bytes) returns (schedule: bool)
      modifies this
      ensures View() == Stored(old(View()), frame)
      ensures schedule == !old(scheduled)
    {
      if latest.Some? {
        coalesced := coalesced + 1;
      }
      latest := Some(frame);
      if scheduled {
        return false;
      }
      scheduled := true;
      schedule := true;
    }

    /** `put` after the event loop refused the callback. */
    method PutRefused()
      modifies this
      ensures View() == old(View()).(scheduled := false)
    {
      scheduled := false;
    }

    /** `_deliver` under the lock; the frame, if any, is handed to the engine after it. */
    method DeliverLocked() returns (frame: Option<Bytes>)
      modifies this
      ensures View() == Emptied(old(View()))
      ensures frame == old(latest)
    {
      frame := latest;
      latest := None;
      scheduled := false;
    }
  }

  // ---- every interleaving ----

  /** A producer between its locked section and what follows it. */
  datatype Producer = Scheduling | Refused

  /**
   `callbacks` deliveries are queued in the event loop; `hand` is the frame one of them has taken and not yet
   given to the engine. `puts` and `taken` record all frames put, and which of them deliveries took.
   */
  datatype System = System(slot: Slot, producers: map<nat, Producer>, callbacks: nat, closed: bool,
                              hand: Option<Bytes>, delivered: seq<Bytes>, puts: seq<Bytes>, taken: seq<int>)

  datatype Step =
    | Put(producer: nat, frame: Bytes)     // a thread runs the locked section of put
    | Schedule(producer: nat)          // and asks the loop for a callback
    | Unschedule(producer: nat)        // or takes the request back after a refusal
    | Deliver                          // the loop runs the locked section of a callback
    | Handle                           // and hands the frame over
    | Close                            // Home Assistant shuts the loop down

  function Start(): System { System(Slot(None, false, 0), map[], 0, false, None, [], [], []) }

  predicate Possible(m: System, step: Step) {
    match step
    case Put(p, _) => p !in m.producers
    case Schedule(p) => p in m.producers && m.producers[p].Scheduling?
    case Unschedule(p) => p in m.producers && m.producers[p].Refused?
    case Deliver => m.callbacks > 0 && m.hand.None? && !m.closed
    case Handle => m.hand.Some?
    case Close => true
  }

  function Next(m: System, step: Step): System
    requires Possible(m, step)
  {
    match step
    case Put(p, frame) =>
      m.(slot := Stored(m.slot, frame), puts := m.puts + [frame],
         producers := if m.slot.scheduled then m.producers else m.producers[p := Scheduling])
    case Schedule(p) =>
      if m.closed then m.(producers := m.producers[p := Refused])
      else m.(callbacks := m.callbacks + 1, producers := m.producers - {p})
    case Unschedule(p) => m.(slot := m.slot.(scheduled := false), producers := m.producers - {p})
    case Deliver =>
      m.(callbacks := m.callbacks - 1, slot := Emptied(m.slot), hand := m.slot.latest,
         taken := if m.slot.latest.Some? then m.taken + [|m.puts| - 1] else m.taken)
    case Handle => m.(hand := None, delivered := m.delivered + [m.hand.value])
    case Close => m.(closed := true)
  }

  predicate Trace(m: System, steps: seq<Step>)
    decreases |steps|
  {
    steps != [] ==> Possible(m, steps[0]) && Trace(Next(m, steps[0]), steps[1..])
  }

  function After(m: System, steps: seq<Step>): System
    requires Trace(m, steps)
    decreases |steps|
  {
    if steps == [] then m else After(Next(m, steps[0]), steps[1..])
  }

  // ---- what holds of all of them ----

  function InHand(hand: Option<Bytes>): seq<Bytes> { if hand.Some? then [hand.value] else [] }

  /** All that has come out of the mailbox, in order. */
  function Out(m: System): seq<Bytes> { m.delivered + InHand(m.hand) }

  /** Producers that have been told to schedule a callback and have not done so. */
  function Pending(m: System): set<nat> { set p <- m.producers | m.producers[p].Scheduling? }

  /** Each frame that came out is the put it was taken at, in the order of the puts, and none is taken twice. */
  predicate Picks(out: seq<Bytes>, puts: seq<Bytes>, taken: seq<int>) {
    && |out| == |taken|
    && (forall i | 0 <= i < |taken| :: 0 <= taken[i] < |puts| && out[i] == puts[taken[i]])
    && (forall i, j | 0 <= i < j < |taken| :: taken[i] < taken[j])
  }

  predicate InOrder(m: System) { Picks(Out(m), m.puts, m.taken) }

  /** The slot holds the freshest put, unless a delivery took it. */
  predicate Freshest(m: System) {
    && (m.slot.latest.Some? ==> m.puts != [] && m.slot.latest.value == m.puts[|m.puts| - 1])
    && (m.slot.latest.Some? && m.taken != [] ==> m.taken[|m.taken| - 1] < |m.puts| - 1)
    && (m.slot.latest.None? && m.puts != [] ==> m.taken != [] && m.taken[|m.taken| - 1] == |m.puts| - 1)
  }

  /** Every put has been delivered, is in hand, was superseded in the slot, or is in it. */
  predicate Accounted(m: System) {
    |m.puts| == |m.delivered| + |InHand(m.hand)| + m.slot.coalesced + (if m.slot.latest.Some? then 1 else 0)
  }

  /** While the loop is open a stored frame has exactly one callback, queued or about to be. */
  predicate OneCallback(m: System) {
    !m.closed ==>
      && (m.slot.latest.Some? <==> m.slot.scheduled)
      && Pending(m) == m.producers.Keys
      && |m.producers| + m.callbacks == (if m.slot.scheduled then 1 else 0)
  }

  /** Open or closed, the scheduled mark stands for a callback or for a producer: no put is kept from asking for one. */
  predicate MarkHeld(m: System) { m.slot.scheduled ==> m.callbacks > 0 || m.producers != map[] }

  predicate MailboxInv(m: System) { InOrder(m) && Freshest(m) && Accounted(m) && OneCallback(m) && MarkHeld(m) }

  lemma PutKeepsPicks(out: seq<Bytes>, puts: seq<Bytes>, taken: seq<int>, frame: Bytes)
    requires Picks(out, puts, taken)
    ensures Picks(out, puts + [frame], taken)
  {
  }

  lemma TakeKeepsPicks(out: seq<Bytes>, puts: seq<Bytes>, taken: seq<int>)
    requires Picks(out, puts, taken) && puts != [] && (taken != [] ==> taken[|taken| - 1] < |puts| - 1)
    ensures Picks(out + [puts[|puts| - 1]], puts, taken + [|puts| - 1])
  {
  }

  lemma OrderKept(m: System, step: Step)
    requires InOrder(m) && Freshest(m) && Possible(m, step)
    ensures InOrder(Next(m, step))
  {
    var n := Next(m, step);
    match step
    case Put(_, frame) => PutKeepsPicks(Out(m), m.puts, m.taken, frame);
    case Deliver =>
      if m.slot.latest.Some? {
        TakeKeepsPicks(Out(m), m.puts, m.taken);
        assert Out(n) == Out(m) + [m.puts[|m.puts| - 1]];
      } else {
        assert Out(n) == Out(m);
      }
    case _ => assert Out(n) == Out(m);
  }

  lemma FreshestKept(m: System, step: Step)
    requires m.taken != [] ==> m.taken[|m.taken| - 1] < |m.puts|
    requires Freshest(m) && Possible(m, step)
    ensures Freshest(Next(m, step))
  {
  }

  lemma AccountKept(m: System, step: Step)
    requires Accounted(m) && Possible(m, step)
    ensures Accounted(Next(m, step))
  {
  }

  lemma CallbackKept(m: System, step: Step)
    requires OneCallback(m) && Possible(m, step)
    ensures OneCallback(Next(m, step))
  {
    var n := Next(m, step);
    if !n.closed {
      match step
      case Put(p, _) =>
        assert n.producers.Keys == m.producers.Keys + (if m.slot.scheduled then {} else {p});
      case Schedule(p) =>
        assert n.producers.Keys == m.producers.Keys - {p};
      case Unschedule(p) =>
        assert false;
      case _ =>
    }
  }

  lemma MarkKept(m: System, step: Step)
    requires MarkHeld(m) && Possible(m, step)
    ensures MarkHeld(Next(m, step))
  {
    var n := Next(m, step);
    match step
    case Put(p, _) => assert !m.slot.scheduled ==> p in n.producers;
    case Schedule(p) => assert m.closed ==> p in n.producers;
    case _ =>
  }

  lemma StepKeeps(m: System, step: Step)
    requires MailboxInv(m) && Possible(m, step)
    ensures MailboxInv(Next(m, step))
  {
    OrderKept(m, step);
    FreshestKept(m, step);
    AccountKept(m, step);
    CallbackKept(m, step);
    MarkKept(m, step);
  }

  lemma {:induction false} TraceKeeps(m: System, steps: seq<Step>)
    requires MailboxInv(m) && Trace(m, steps)
    ensures MailboxInv(After(m, steps))
    decreases |steps|
  {
    if steps != [] {
      StepKeeps(m, steps[0]);
      TraceKeeps(Next(m, steps[0]), steps[1..]);
    }
  }

  /**
   Under every interleaving: what the engine gets is an in-order subsequence of what was put, every put is
   delivered, in hand, coalesced or stored, and while the loop is open a stored frame has exactly one callback
   on its way and no callback finds the slot empty. Once it is closed, a refused producer takes its mark back.
   */
  lemma EveryInterleaving(steps: seq<Step>)
    requires Trace(Start(), steps)
    ensures var m := After(Start(), steps);
      && MailboxInv(m)
      && (!m.closed && m.callbacks > 0 ==> m.slot.latest.Some?)
  {
    TraceKeeps(Start(), steps);
  }

  /** Each delivery takes the freshest frame put so far. */
  lemma DeliversTheFreshest(steps: seq<Step>)
    requires Trace(Start(), steps) && Possible(After(Start(), steps), Step.Deliver)
    ensures var m := After(Start(), steps);
      m.puts != [] && Next(m, Step.Deliver).hand == Some(m.puts[|m.puts| - 1])
  {
    EveryInterleaving(steps);
  }

  /** Once everyone is at rest and the loop is open, the last frame put has been handed over. */
  lemma NothingIsLeftBehind(steps: seq<Step>)
    requires Trace(Start(), steps)
    requires var m := After(Start(), steps);
      !m.closed && m.producers == map[] && m.callbacks == 0 && m.hand.None? && m.puts != []
    ensures var m := After(Start(), steps);
      m.delivered != [] && m.delivered[|m.delivered| - 1] == m.puts[|m.puts| - 1]
  {
    EveryInterleaving(steps);
  }
}
