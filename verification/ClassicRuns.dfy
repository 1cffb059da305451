/**
 Classic mode over whole runs: every call made for a light carries the meaning of the PUTs that were queued for
 it since it was last drained or flushed, and no PUT is lost.
 */
module ClassicRuns {
  import opened Prelude
  import opened Commands
  import opened EngineModel
  import opened BridgeModel
  import opened Invariants
  import opened Draining
  import Classic = ClassicMode
  import HueStream

  // ---- the ledger of one light ----

  /** PUTs that met their fate together. */
  datatype Batch = Batch(puts: seq<Body>, fate: Fate)

  datatype Ledger = Ledger(batches: seq<Batch>, queued: seq<Body>)

  function Close(l: Ledger, fate: Fate): Ledger { Ledger(l.batches + [Batch(l.queued, fate)], []) }

  /** What an observer of light `i` writes down at one event. */
  function Observe(b: Bridge, e: Event, lag: nat, i: nat, l: Ledger): Ledger
    requires Enabled(b, e, lag) && i < |b.engine.slots|
  {
    SameSlots(b, e, lag);
    var s, r := b.engine, Apply(b, e, lag).engine;
    if e.Put? && Find(s.slots, e.lightId) == Some(i) && !Held(s) then l.(queued := l.queued + [e.body])
    else if e.DrainResumes? && (Served(s, r, i) || (s.slots[i].dirty && !r.slots[i].dirty)) then
      Close(l, FateOf(s, r, e.states, i))
    else if Flushes(b, e) then Close(l, Flushed)
    else l
  }

  /** All PUTs in the ledger. */
  function AllOf(batches: seq<Batch>): seq<Body> {
    if batches == [] then [] else AllOf(batches[..|batches| - 1]) + batches[|batches| - 1].puts
  }

  /** The PUTs for light `i` that are not suppressed, whatever becomes of them. */
  function Received(b: Bridge, events: seq<Event>, lag: nat, i: nat, before: seq<Body>): seq<Body>
    requires Run(b, events, lag) && i < |b.engine.slots|
    decreases |events|
  {
    if events == [] then before
    else
      SameSlots(b, events[0], lag);
      var s, e := b.engine, events[0];
      var now := if e.Put? && Find(s.slots, e.lightId) == Some(i) && !Held(s) then [e.body] else [];
      Received(Apply(b, e, lag), events[1..], lag, i, before + now)
  }

  /** An event of a run without streaming. */
  predicate Plain(e: Event) { e.Frame? ==> HueStream.Parse(e.data).None? }

  predicate PlainRun(events: seq<Event>) { forall e <- events :: Plain(e) }

  // ---- what is to be sent for a batch ----

  /** The call that PUTs come to: off or on, with all the keys of their meaning. */
  function CallFor(light: Light, i: nat, puts: seq<Body>): Sent {
    var m := Classic.Meaning(Classic.Effective(puts));
    Sent(i, if IsOff(m) then TurnOff else TurnOn, (m - {Service})[EntityId := Name(light.entityId)])
  }

  function CallsFor(light: Light, i: nat, batches: seq<Batch>): seq<Sent> {
    if batches == [] then []
    else
      var last := |batches| - 1;
      CallsFor(light, i, batches[..last])
      + (if batches[last].fate == WasSent then [CallFor(light, i, batches[last].puts)] else [])
  }

  // ---- the invariant ----

  /** The slot holds the meaning of the PUTs queued, if they come to anything, and nothing else. */
  predicate SlotInv(slot: Slot, l: Ledger) {
    var puts := Classic.Effective(l.queued);
    && (forall k | 0 <= k < |l.batches| :: l.batches[k].fate != Lost)
    && if puts == [] then Clean(slot)
       else
         && slot.dirty && slot.explicit
         && slot.pending == Some(Classic.Meaning(puts)[EntityId := Name(slot.light.entityId)])
  }

  /** The calls made for the light are those for the batches that were sent. */
  predicate CallsInv(s: Engine, i: nat, l: Ledger)
    requires i < |s.slots|
  {
    ToLight(s.host.sent, i) == CallsFor(s.slots[i].light, i, l.batches)
  }

  // ---- every event keeps it ----

  lemma CloseKeepsPuts(l: Ledger, fate: Fate)
    ensures AllOf(Close(l, fate).batches) + Close(l, fate).queued == AllOf(l.batches) + l.queued
  {
    assert Close(l, fate).batches[..|l.batches|] == l.batches;
  }

  lemma {:induction false} NoPutIsMissed(b: Bridge, events: seq<Event>, lag: nat, i: nat, l: Ledger)
    requires Run(b, events, lag) && i < |b.engine.slots|
    ensures var r := ObserveAll(b, events, lag, i, l);
      AllOf(r.batches) + r.queued == Received(b, events, lag, i, AllOf(l.batches) + l.queued)
    decreases |events|
  {
    if events != [] {
      var e := events[0];
      var s, m, all := b.engine, Observe(b, e, lag, i, l), AllOf(l.batches) + l.queued;
      SameSlots(b, e, lag);
      if e.Put? && Find(s.slots, e.lightId) == Some(i) && !Held(s) {
        assert AllOf(m.batches) + m.queued == all + [e.body];
      } else {
        if e.DrainResumes? {
          CloseKeepsPuts(l, FateOf(s, Apply(b, e, lag).engine, e.states, i));
        }
        CloseKeepsPuts(l, Flushed);
        assert all + [] == all;
      }
      NoPutIsMissed(Apply(b, e, lag), events[1..], lag, i, m);
    }
  }

  lemma CloseKeepsCalls(light: Light, i: nat, l: Ledger, fate: Fate)
    ensures CallsFor(light, i, Close(l, fate).batches)
         == CallsFor(light, i, l.batches) + (if fate == WasSent then [CallFor(light, i, l.queued)] else [])
  {
    assert Close(l, fate).batches[..|l.batches|] == l.batches;
  }

  predicate NamesService(c: Command) { Service in c && c[Service] in {TurnOn, TurnOff} }

  lemma TranslationNamesService(body: Body)
    ensures Translate(body).Some? && Translate(body).value != map[] ==> NamesService(Translate(body).value)
  {
  }

  lemma {:induction false} EffectiveNameService(arrivals: seq<Classic.Arrival>)
    requires forall a <- arrivals :: a.data.Some? && a.data.value != map[] ==> NamesService(a.data.value)
    ensures forall p <- Classic.Carrying(arrivals) :: NamesService(p.data)
  {
    if arrivals != [] {
      EffectiveNameService(arrivals[..|arrivals| - 1]);
    }
  }

  lemma {:induction false} MergedNamesService(puts: seq<Classic.Put>)
    requires puts != [] && forall p <- puts :: NamesService(p.data)
    ensures NamesService(Classic.Merged(puts))
  {
    if |puts| > 1 {
      MergedNamesService(puts[..|puts| - 1]);
    }
  }

  lemma MeaningNamesService(bodies: seq<Body>)
    requires Classic.Effective(bodies) != []
    ensures NamesService(Classic.Meaning(Classic.Effective(bodies)))
  {
    var arrivals, puts := Classic.Arrivals(bodies), Classic.Effective(bodies);
    forall k | 0 <= k < |bodies|
      ensures arrivals[k].data.Some? && arrivals[k].data.value != map[] ==> NamesService(arrivals[k].data.value)
    {
      TranslationNamesService(bodies[k]);
    }
    EffectiveNameService(arrivals);
    var off := Classic.LastOff(puts);
    var on := Classic.FirstOn(puts, off + 1);
    if off < 0 {
      MergedNamesService(puts);
    } else if on < |puts| {
      MergedNamesService(puts[on..]);
    }
  }

  /** A call that carries what the slot holds is the one for the PUTs queued. */
  lemma CarriedMeaning(slot: Slot, l: Ledger, i: nat, call: Sent, now: nat)
    requires SlotInv(slot, l) && slot.dirty && Carries(call, i, slot, now)
    ensures call == CallFor(slot.light, i, l.queued)
  {
    var m := Classic.Meaning(Classic.Effective(l.queued));
    MeaningNamesService(l.queued);
    assert call.data == (m - {Service})[EntityId := Name(slot.light.entityId)];
  }

  lemma DrainStep(s: Engine, r: Engine, states: States, i: nat, l: Ledger)
    requires i < |s.slots| == |r.slots| && SlotInv(s.slots[i], l) && CallsInv(s, i, l) && Drained(s, r, states, i)
    ensures var m := if Served(s, r, i) || (s.slots[i].dirty && !r.slots[i].dirty)
                     then Close(l, FateOf(s, r, states, i)) else l;
      SlotInv(r.slots[i], m) && CallsInv(r, i, m)
  {
    DrainedCalls(s, r, states, i);
    CloseKeepsCalls(s.slots[i].light, i, l, FateOf(s, r, states, i));
    if Served(s, r, i) {
      CarriedMeaning(s.slots[i], l, i, r.host.sent[|s.host.sent|], s.host.now);
    }
  }

  lemma EffectiveSnoc(bodies: seq<Body>, body: Body)
    ensures var a := Classic.Arrival(body.on, Translate(body));
      Classic.Effective(bodies + [body]) == Classic.Effective(bodies) + Classic.Carrying([a])
  {
    var a := Classic.Arrival(body.on, Translate(body));
    assert Classic.Arrivals(bodies + [body])[..|bodies|] == Classic.Arrivals(bodies);
    assert [a][..0] == [];
  }

  lemma MergeStep(slot: Slot, l: Ledger, body: Body)
    requires SlotInv(slot, l)
    ensures var merge := MergeBody(slot, body);
      SlotInv(if merge.Queued? then merge.slot else slot, l.(queued := l.queued + [body]))
  {
    var puts := Classic.Effective(l.queued);
    assert Classic.HoldingAll(slot, puts) == slot;
    Classic.ArrivalStep(slot, puts, Classic.Arrival(body.on, Translate(body)));
    EffectiveSnoc(l.queued, body);
  }

  lemma PutStep(s: Engine, lightId: nat, body: Body, i: nat, l: Ledger)
    requires i < |s.slots| && SlotInv(s.slots[i], l) && CallsInv(s, i, l)
    ensures var r := HandleCommand(s, lightId, body);
      var m := if Find(s.slots, lightId) == Some(i) && !Held(s) then l.(queued := l.queued + [body]) else l;
      |r.slots| == |s.slots| && SlotInv(r.slots[i], m) && CallsInv(r, i, m)
  {
    if Find(s.slots, lightId) == Some(i) && !Held(s) {
      MergeStep(s.slots[i], l, body);
    }
  }

  lemma OtherStep(b: Bridge, e: Event, lag: nat, i: nat, l: Ledger)
    requires Enabled(b, e, lag) && !e.Frame? && !e.Put? && !e.DrainResumes?
    requires i < |b.engine.slots| && SlotInv(b.engine.slots[i], l) && CallsInv(b.engine, i, l)
    ensures var r, m := Apply(b, e, lag).engine, if Flushes(b, e) then Close(l, Flushed) else l;
      |r.slots| == |b.engine.slots| && SlotInv(r.slots[i], m) && CallsInv(r, i, m)
  {
    OthersOnSlots(b, e, lag);
    OthersSendNothing(b, e, lag);
    CloseKeepsCalls(b.engine.slots[i].light, i, l, Flushed);
  }

  lemma LedgerStep(b: Bridge, e: Event, lag: nat, i: nat, l: Ledger)
    requires FreeInv(b.engine) && Enabled(b, e, lag) && Plain(e)
    requires i < |b.engine.slots| && SlotInv(b.engine.slots[i], l) && CallsInv(b.engine, i, l)
    ensures var r, m := Apply(b, e, lag).engine, Observe(b, e, lag, i, l);
      |r.slots| == |b.engine.slots| && SlotInv(r.slots[i], m) && CallsInv(r, i, m)
  {
    if e.DrainResumes? {
      SegmentDrains(b.engine, e.task, e.states, i);
      DrainStep(b.engine, Apply(b, e, lag).engine, e.states, i, l);
    } else if e.Put? {
      PutStep(b.engine, e.lightId, e.body, i, l);
    } else if !e.Frame? {
      OtherStep(b, e, lag, i, l);
    }
  }

  // ---- whole runs ----

  function ObserveAll(b: Bridge, events: seq<Event>, lag: nat, i: nat, l: Ledger): Ledger
    requires Run(b, events, lag) && i < |b.engine.slots|
    decreases |events|
  {
    if events == [] then l
    else
      SameSlots(b, events[0], lag);
      ObserveAll(Apply(b, events[0], lag), events[1..], lag, i, Observe(b, events[0], lag, i, l))
  }

  lemma {:induction false} LedgerRun(b: Bridge, events: seq<Event>, lag: nat, i: nat, l: Ledger)
    requires FreeInv(b.engine) && Run(b, events, lag) && PlainRun(events)
    requires i < |b.engine.slots| && SlotInv(b.engine.slots[i], l) && CallsInv(b.engine, i, l)
    ensures var r, m := Exec(b, events, lag).engine, ObserveAll(b, events, lag, i, l);
      |r.slots| == |b.engine.slots| && SlotInv(r.slots[i], m) && CallsInv(r, i, m)
    decreases |events|
  {
    if events != [] {
      var e := events[0];
      assert e in events;
      EngineInvPreserved(b, e, lag);
      LedgerStep(b, e, lag, i, l);
      LedgerRun(Apply(b, e, lag), events[1..], lag, i, Observe(b, e, lag, i, l));
    }
  }

  /**
   Over any run without streaming, for any light: the PUTs that were not suppressed fall into batches, each sent,
   flushed or discarded because the light was unavailable, and the ones still queued, whose meaning the slot
   holds. The calls made for the light are those for the batches that were sent, in order and once each: off or
   on, with exactly the keys of the batch's meaning.
   */
  lemma PutsAreConserved(lights: seq<Light>, now: nat, events: seq<Event>, lag: nat, i: nat)
    requires PlainRun(events) && Run(Initial(lights, now), events, lag)
    requires i < |Initial(lights, now).engine.slots|
    ensures var b := Initial(lights, now);
      var r, l := Exec(b, events, lag).engine, ObserveAll(b, events, lag, i, Ledger([], []));
      && |r.slots| == |b.engine.slots| && SlotInv(r.slots[i], l) && CallsInv(r, i, l)
      && AllOf(l.batches) + l.queued == Received(b, events, lag, i, [])
  {
    var b, start := Initial(lights, now), Ledger([], []);
    InitialInv(lights, now, lag);
    SlotsAreFresh(lights, i);
    var slot := ById(lights)[i];
    assert slot == Fresh(slot.light);
    LedgerRun(b, events, lag, i, start);
    assert AllOf(start.batches) + start.queued == [];
    NoPutIsMissed(b, events, lag, i, start);
  }

  // ---- a PUT that meets a stream update ----

  /** The one light there is has this in its slot, and nothing suppresses it. */
  predicate OneSlot(b: Bridge, slot: Slot) {
    b.engine.slots == [slot] && !b.engine.releasing && b.engine.pausedUntil.None?
  }

  lemma PutAndPause(b: Bridge, slot: Slot, body: Body, lag: nat)
    requires OneSlot(b, slot) && MergeBody(slot, body).Queued?
    ensures var events := [Put(slot.light.channelId, body), PauseCall(0)];
      && Run(b, events, lag)
      && var r := Exec(b, events, lag).engine;
         r.slots == [Flush(MergeBody(slot, body).slot)] && !r.releasing && r.pausedUntil.Some?
  {
    assert Find(b.engine.slots, slot.light.channelId) == Some(0);
    Two(b, Put(slot.light.channelId, body), PauseCall(0), lag);
  }

  lemma OneChannel(slot: Slot, c: HueStream.Channel)
    requires c.id == slot.light.channelId && !WithinTolerance(slot, c, 0)
    ensures ScheduleAll([slot], [c], 0) == [Accept(slot, c, 0)]
  {
    assert Find([slot], c.id) == Some(0);
    assert [c][..0] == [];
  }

  lemma ResumeAndFrame(b: Bridge, slot: Slot, data: seq<HueStream.byte>, c: HueStream.Channel, lag: nat)
    requires b.engine.slots == [slot] && !b.engine.releasing && b.engine.pausedUntil.Some?
    requires HueStream.Parse(data) == Some(HueStream.Frame(2, 0, [c]))
    requires c.id == slot.light.channelId && !WithinTolerance(slot, c, 0)
    ensures var events := [ResumeCall, Frame(data)];
      Run(b, events, lag) && OneSlot(Exec(b, events, lag), Accept(slot, c, 0))
  {
    OneChannel(slot, c);
    Two(b, ResumeCall, Frame(data), lag);
  }

  lemma PutMerges(b: Bridge, slot: Slot, body: Body, lag: nat)
    requires OneSlot(b, slot) && MergeBody(slot, body).Queued?
    ensures var events := [Put(slot.light.channelId, body)];
      Run(b, events, lag) && Exec(b, events, lag).engine.slots == [MergeBody(slot, body).slot]
  {
    assert Find(b.engine.slots, slot.light.channelId) == Some(0);
    var put := Put(slot.light.channelId, body);
    Prepend(b, put, [], lag);
    assert [put] + [] == [put];
  }

  /** A PUT, a pause, a resume, a frame with a colour and a PUT again: the last is merged with the frame's colour. */
  lemma ColourMergedInRun(light: Light, now: nat, header: seq<HueStream.byte>, c: HueStream.Channel, lag: nat)
    requires HueStream.IsHeader(HueStream.V2, header) && header[14] == 0
    requires HueStream.InRange(HueStream.V2, c) && c.id == light.channelId && c.r > 14
    ensures var on := Body(None, Some(true), None, None, None, None, None);
      var put, frame := Put(light.channelId, on), Frame(header + HueStream.Print(HueStream.V2, [0], [c]));
      var b, events := Initial([light], now), [put, PauseCall(0)] + ([ResumeCall, frame] + [put]);
      && Run(b, events, lag)
      && var slots := Exec(b, events, lag).engine.slots;
         |slots| == 1 && slots[0].dirty && slots[0].pending.Some? && RgbColor in slots[0].pending.value
  {
    var on := Body(None, Some(true), None, None, None, None, None);
    var put, data := Put(light.channelId, on), header + HueStream.Print(HueStream.V2, [0], [c]);
    var b := Initial([light], now);
    LightsInOrder([light], 0);
    assert b.engine.slots == [Fresh(light)];
    HueStream.RoundTrip(HueStream.V2, header, [0], [c], []);
    assert data + [] == data;
    Classic.ColourMergedWithPut(light, c);
    var slot := Flush(MergeBody(Fresh(light), on).slot);
    PutAndPause(b, Fresh(light), on, lag);
    var b1 := Exec(b, [put, PauseCall(0)], lag);
    ResumeAndFrame(b1, slot, data, c, lag);
    var b2 := Exec(b1, [ResumeCall, Frame(data)], lag);
    PutMerges(b2, Accept(slot, c, 0), on, lag);
    Join(b1, [ResumeCall, Frame(data)], [put], lag);
    Join(b, [put, PauseCall(0)], [ResumeCall, Frame(data)] + [put], lag);
  }
}
