/**
 What becomes of the colour updates of one light over a run of streaming: each accepted update meets exactly
 one fate, what is sent is the colour of the newest, and it never strays from the newest frame.
 */
module Conservation {
  import opened Prelude
  import opened Constants
  import opened Commands
  import opened EngineModel
  import opened BridgeModel
  import opened Invariants
  import opened Draining
  import HueStream

  // ---- the ledger of one light ----

  /** A call made for an update, and the fade due to it by the time since the light's last one. */
  datatype Delivery = Delivery(update: int, call: Sent, fade: Value)

  /**
   The accepted updates, each the channel it came in, with their fates; the calls made for them; the newest frame's
   channel and the newest accepted one since the last flush; and when the last call since then was made.
   */
  datatype Ledger = Ledger(accepted: seq<HueStream.Channel>, fates: seq<Fate>, delivered: seq<Delivery>,
                           newest: Option<HueStream.Channel>, reference: Option<HueStream.Channel>, sentAt: nat)

  const EMPTY := Ledger([], [], [], None, None, 0)

  predicate Within(m: int, n: int, bound: int) { -bound <= m - n <= bound }

  /** What is too close to the newest accepted update to be one; after a flush, almost black in RGB. */
  predicate TooClose(reference: Option<HueStream.Channel>, c: HueStream.Channel, colorSpace: int) {
    if colorSpace == COLOR_SPACE_XY then
      && reference.Some?
      && Within(c.r, reference.value.r, 1966) && Within(c.g, reference.value.g, 1966)
      && Within(c.b, reference.value.b, 15)
    else if reference.Some? then
      Within(c.r, reference.value.r, 15) && Within(c.g, reference.value.g, 15) && Within(c.b, reference.value.b, 15)
    else c.r <= 14 && c.g <= 14 && c.b <= 14
  }

  /** The update waiting, if there is one, meets its fate. */
  function Meet(l: Ledger, fate: Fate): Ledger {
    if l.fates != [] && l.fates[|l.fates| - 1] == Waiting then l.(fates := l.fates[|l.fates| - 1 := fate]) else l
  }

  function Offer(l: Ledger, c: HueStream.Channel, colorSpace: int): Ledger {
    if TooClose(l.reference, c, colorSpace) then l.(newest := Some(c))
    else
      var m := Meet(l, Superseded);
      m.(accepted := m.accepted + [c], fates := m.fates + [Waiting], newest := Some(c), reference := Some(c))
  }

  /** The channels of a frame that are for the light, in order. */
  function OfferAll(l: Ledger, channels: seq<HueStream.Channel>, id: nat, colorSpace: int): Ledger {
    if channels == [] then l
    else
      var last := |channels| - 1;
      var m := OfferAll(l, channels[..last], id, colorSpace);
      if channels[last].id == id then Offer(m, channels[last], colorSpace) else m
  }

  /** Whatever the call carries is written down as made for the newest update. */
  function Deliver(l: Ledger, call: Sent, now: nat): Ledger {
    var delivery := Delivery(|l.accepted| - 1, call, Fade(l.sentAt, now));
    Meet(l, WasSent).(delivered := l.delivered + [delivery], sentAt := now)
  }

  function ObserveDrain(s: Engine, r: Engine, states: States, i: nat, l: Ledger): Ledger
    requires i < |s.slots| == |r.slots|
  {
    if Served(s, r, i) then Deliver(l, r.host.sent[|s.host.sent|], s.host.now)
    else if s.slots[i].dirty && !r.slots[i].dirty then Meet(l, FateOf(s, r, states, i))
    else l
  }

  function Flushing(l: Ledger): Ledger { Meet(l, Flushed).(newest := None, reference := None, sentAt := 0) }

  /** What an observer of light `i` writes down at one event. */
  function Observe(b: Bridge, e: Event, lag: nat, i: nat, l: Ledger): Ledger
    requires Enabled(b, e, lag) && i < |b.engine.slots|
  {
    SameSlots(b, e, lag);
    var s, r := b.engine, Apply(b, e, lag).engine;
    if e.Frame? && HueStream.Parse(e.data).Some? && !Held(s) then
      var f := HueStream.Parse(e.data).value;
      OfferAll(l, f.channels, s.slots[i].light.channelId, f.colorSpace)
    else if e.DrainResumes? then ObserveDrain(s, r, e.states, i, l)
    else if Flushes(b, e) then Flushing(l)
    else l
  }

  /** A run of streaming in one colour space: no classic commands. */
  predicate Streams(e: Event, colorSpace: int) {
    !e.Put? && (e.Frame? && HueStream.Parse(e.data).Some? ==> HueStream.Parse(e.data).value.colorSpace == colorSpace)
  }

  // ---- the invariant ----

  /**
   Only the newest update can be waiting; it is if and only if the slot is dirty, and its colour is what the slot
   holds. No update is lost.
   */
  predicate FatesInv(slot: Slot, l: Ledger, colorSpace: int) {
    var n := |l.accepted|;
    && |l.fates| == n
    && (forall u | 0 <= u < n :: l.fates[u] == Waiting <==> u == n - 1 && slot.dirty)
    && (forall u | 0 <= u < n :: l.fates[u] != Lost)
    && (slot.dirty ==> n > 0 && slot.pending.Some?
                       && Asks(slot.pending.value, slot.light, l.accepted[n - 1], colorSpace))
    && (!slot.dirty ==> slot.pending.None?)
    && !slot.explicit && slot.lastSent == l.sentAt
  }

  /** The call turns light `i` on with the colour of the channel and nothing else but the fade. */
  predicate CallFor(d: Delivery, i: nat, light: Light, c: HueStream.Channel, colorSpace: int) {
    && d.call.light == i && d.call.service == TurnOn
    && Transition in d.call.data && d.call.data[Transition] == d.fade
    && Asks(d.call.data - {Transition}, light, c, colorSpace)
  }

  /** The calls are those of the updates with that fate, in order, each once, with its colour and the fade due. */
  predicate DeliveriesInv(l: Ledger, i: nat, light: Light, colorSpace: int) {
    && |l.fates| == |l.accepted|
    && (forall d | 0 <= d < |l.delivered| :: 0 <= l.delivered[d].update < |l.accepted|)
    && (forall d | 0 <= d < |l.delivered| ::
          CallFor(l.delivered[d], i, light, l.accepted[l.delivered[d].update], colorSpace))
    && (forall c, d | 0 <= c < d < |l.delivered| :: l.delivered[c].update < l.delivered[d].update)
    && (forall u | 0 <= u < |l.fates| ::
          l.fates[u] == WasSent <==> exists d | 0 <= d < |l.delivered| :: l.delivered[d].update == u)
  }

  /** The slot refers to the newest accepted update since the last flush, and the newest frame is close to it. */
  predicate ReferenceInv(slot: Slot, l: Ledger, colorSpace: int) {
    && (l.reference.Some? ==>
          && l.accepted != [] && l.accepted[|l.accepted| - 1] == l.reference.value
          && slot.lastR == l.reference.value.r && slot.lastG == l.reference.value.g
          && slot.lastB == l.reference.value.b)
    && (l.reference.None? ==> slot.lastR == slot.lastG == slot.lastB == -1)
    && (l.newest.Some? ==> TooClose(l.reference, l.newest.value, colorSpace))
  }

  predicate LedgerInv(slot: Slot, l: Ledger, i: nat, colorSpace: int) {
    FatesInv(slot, l, colorSpace) && DeliveriesInv(l, i, slot.light, colorSpace) && ReferenceInv(slot, l, colorSpace)
  }

  /** The ledger has all the calls that were made for the light, and no others. */
  predicate CallsInv(s: Engine, i: nat, l: Ledger) {
    && |ToLight(s.host.sent, i)| == |l.delivered|
    && forall d | 0 <= d < |l.delivered| :: ToLight(s.host.sent, i)[d] == l.delivered[d].call
  }

  // ---- every event keeps it ----

  /** The filter skips exactly what is too close. */
  lemma FilterMeans(slot: Slot, l: Ledger, c: HueStream.Channel, colorSpace: int)
    requires ReferenceInv(slot, l, colorSpace)
    ensures WithinTolerance(slot, c, colorSpace) <==> TooClose(l.reference, c, colorSpace)
  {
    ToleranceMeans(slot, c, colorSpace);
  }

  lemma AppendKeepsDeliveries(l: Ledger, i: nat, light: Light, c: HueStream.Channel, colorSpace: int)
    requires DeliveriesInv(l, i, light, colorSpace)
    ensures DeliveriesInv(l.(accepted := l.accepted + [c], fates := l.fates + [Waiting],
                             newest := Some(c), reference := Some(c)), i, light, colorSpace)
  {
    var o := l.(accepted := l.accepted + [c], fates := l.fates + [Waiting], newest := Some(c), reference := Some(c));
    assert forall u | 0 <= u < |l.accepted| :: o.accepted[u] == l.accepted[u] && o.fates[u] == l.fates[u];
  }

  lemma AcceptKeeps(slot: Slot, l: Ledger, i: nat, c: HueStream.Channel, colorSpace: int)
    requires LedgerInv(slot, l, i, colorSpace) && !TooClose(l.reference, c, colorSpace)
    ensures LedgerInv(Accept(slot, c, colorSpace), Offer(l, c, colorSpace), i, colorSpace)
  {
    MeetKeepsDeliveries(slot, l, i, colorSpace, Superseded);
    AppendKeepsDeliveries(Meet(l, Superseded), i, slot.light, c, colorSpace);
    StreamCommandAsks(slot.light, c, colorSpace);
    SameIsTooClose(c, colorSpace);
  }

  lemma SameIsTooClose(c: HueStream.Channel, colorSpace: int)
    ensures TooClose(Some(c), c, colorSpace)
  {
  }

  lemma OfferKeeps(slot: Slot, l: Ledger, i: nat, c: HueStream.Channel, colorSpace: int)
    requires LedgerInv(slot, l, i, colorSpace)
    ensures LedgerInv(Filter(slot, c, colorSpace), Offer(l, c, colorSpace), i, colorSpace)
  {
    FilterMeans(slot, l, c, colorSpace);
    if !TooClose(l.reference, c, colorSpace) {
      AcceptKeeps(slot, l, i, c, colorSpace);
    }
  }

  lemma MeetKeepsDeliveries(slot: Slot, l: Ledger, i: nat, colorSpace: int, fate: Fate)
    requires FatesInv(slot, l, colorSpace) && DeliveriesInv(l, i, slot.light, colorSpace) && fate != WasSent
    ensures DeliveriesInv(Meet(l, fate), i, slot.light, colorSpace)
  {
  }

  lemma TakenKeeps(slot: Slot, after: Slot, l: Ledger, i: nat, colorSpace: int, fate: Fate)
    requires LedgerInv(slot, l, i, colorSpace) && fate !in {Waiting, WasSent, Lost} && Taken(slot, after)
    ensures LedgerInv(after, Meet(l, fate), i, colorSpace)
  {
    MeetKeepsDeliveries(slot, l, i, colorSpace, fate);
  }

  lemma FlushedKeeps(slot: Slot, l: Ledger, i: nat, colorSpace: int)
    requires LedgerInv(slot, l, i, colorSpace)
    ensures LedgerInv(Flush(slot), Flushing(l), i, colorSpace)
  {
    MeetKeepsDeliveries(slot, l, i, colorSpace, Flushed);
  }

  /** A call that carries what the slot holds is the newest update's. */
  lemma CarriedUpdate(slot: Slot, l: Ledger, i: nat, colorSpace: int, call: Sent, now: nat)
    requires FatesInv(slot, l, colorSpace) && slot.dirty && Carries(call, i, slot, now)
    ensures CallFor(Delivery(|l.accepted| - 1, call, Fade(l.sentAt, now)), i, slot.light,
                    l.accepted[|l.accepted| - 1], colorSpace)
  {
    assert call.data - {Transition} == slot.pending.value;
  }

  lemma SentKeepsDeliveries(slot: Slot, l: Ledger, i: nat, colorSpace: int, call: Sent, now: nat)
    requires FatesInv(slot, l, colorSpace) && DeliveriesInv(l, i, slot.light, colorSpace) && slot.dirty
    requires CallFor(Delivery(|l.accepted| - 1, call, Fade(l.sentAt, now)), i, slot.light,
                     l.accepted[|l.accepted| - 1], colorSpace)
    ensures DeliveriesInv(Deliver(l, call, now), i, slot.light, colorSpace)
  {
    var n, r := |l.accepted| - 1, Deliver(l, call, now);
    assert forall d | 0 <= d < |l.delivered| :: l.delivered[d].update != n && r.delivered[d] == l.delivered[d];
    forall u | 0 <= u < |r.fates|
      ensures r.fates[u] == WasSent <==> exists d | 0 <= d < |r.delivered| :: r.delivered[d].update == u
    {
      if u == n {
        assert r.delivered[|l.delivered|].update == u;
      } else if l.fates[u] == WasSent {
        var d :| 0 <= d < |l.delivered| && l.delivered[d].update == u;
        assert r.delivered[d].update == u;
      }
    }
  }

  lemma SentKeeps(slot: Slot, after: Slot, l: Ledger, i: nat, colorSpace: int, call: Sent, now: nat)
    requires LedgerInv(slot, l, i, colorSpace) && slot.dirty && Carries(call, i, slot, now)
    requires after.lastSent == now && Taken(slot, after.(lastSent := slot.lastSent))
    ensures LedgerInv(after, Deliver(l, call, now), i, colorSpace)
  {
    CarriedUpdate(slot, l, i, colorSpace, call, now);
    SentKeepsDeliveries(slot, l, i, colorSpace, call, now);
  }

  lemma {:induction false} OfferAllKeeps(l: Ledger, slots: seq<Slot>, channels: seq<HueStream.Channel>,
                                         colorSpace: int, i: nat)
    requires i < |slots| && DistinctIds(slots) && LedgerInv(slots[i], l, i, colorSpace)
    ensures LedgerInv(ScheduleAll(slots, channels, colorSpace)[i],
                      OfferAll(l, channels, slots[i].light.channelId, colorSpace), i, colorSpace)
    ensures OfferAll(l, channels, slots[i].light.channelId, colorSpace).delivered == l.delivered
    decreases |channels|
  {
    if channels != [] {
      var last := |channels| - 1;
      OfferAllKeeps(l, slots, channels[..last], colorSpace, i);
      ScheduleKeepsLights(slots, channels[..last], colorSpace);
      var before := ScheduleAll(slots, channels[..last], colorSpace);
      var m := OfferAll(l, channels[..last], slots[i].light.channelId, colorSpace);
      FindIsUnique(before, i, channels[last].id);
      OfferKeeps(before[i], m, i, channels[last], colorSpace);
    }
  }

  lemma DrainStep(s: Engine, r: Engine, states: States, i: nat, l: Ledger, colorSpace: int)
    requires i < |s.slots| == |r.slots| && LedgerInv(s.slots[i], l, i, colorSpace) && Drained(s, r, states, i)
    ensures LedgerInv(r.slots[i], ObserveDrain(s, r, states, i, l), i, colorSpace)
  {
    if Served(s, r, i) {
      SentKeeps(s.slots[i], r.slots[i], l, i, colorSpace, r.host.sent[|s.host.sent|], s.host.now);
    } else if s.slots[i].dirty && !r.slots[i].dirty {
      TakenKeeps(s.slots[i], r.slots[i], l, i, colorSpace, Discarded);
    }
  }

  lemma DrainKeepsCalls(s: Engine, r: Engine, states: States, i: nat, l: Ledger)
    requires i < |s.slots| == |r.slots| && CallsInv(s, i, l) && Drained(s, r, states, i)
    ensures CallsInv(r, i, ObserveDrain(s, r, states, i, l))
  {
    DrainedCalls(s, r, states, i);
  }

  lemma FrameStep(s: Engine, data: seq<HueStream.byte>, i: nat, l: Ledger, colorSpace: int)
    requires HueStream.Parse(data).Some? ==> HueStream.Parse(data).value.colorSpace == colorSpace
    requires i < |s.slots| && DistinctIds(s.slots) && LedgerInv(s.slots[i], l, i, colorSpace)
    ensures |HandleFrame(s, data).slots| == |s.slots|
    ensures var id := s.slots[i].light.channelId;
      var m := if HueStream.Parse(data).Some? && !Held(s)
               then OfferAll(l, HueStream.Parse(data).value.channels, id, colorSpace) else l;
      LedgerInv(HandleFrame(s, data).slots[i], m, i, colorSpace) && m.delivered == l.delivered
  {
    if HueStream.Parse(data).Some? {
      OfferAllKeeps(l, s.slots, HueStream.Parse(data).value.channels, colorSpace, i);
    }
  }

  lemma OtherStep(b: Bridge, e: Event, lag: nat, i: nat, l: Ledger, colorSpace: int)
    requires Enabled(b, e, lag) && !e.Frame? && !e.Put? && !e.DrainResumes?
    requires i < |b.engine.slots| && LedgerInv(b.engine.slots[i], l, i, colorSpace)
    ensures |Apply(b, e, lag).engine.slots| == |b.engine.slots|
    ensures LedgerInv(Apply(b, e, lag).engine.slots[i], if Flushes(b, e) then Flushing(l) else l, i, colorSpace)
  {
    OthersOnSlots(b, e, lag);
    FlushedKeeps(b.engine.slots[i], l, i, colorSpace);
  }

  lemma LedgerStep(b: Bridge, e: Event, lag: nat, i: nat, l: Ledger, colorSpace: int)
    requires FreeInv(b.engine) && DistinctIds(b.engine.slots) && Enabled(b, e, lag) && Streams(e, colorSpace)
    requires i < |b.engine.slots| && LedgerInv(b.engine.slots[i], l, i, colorSpace) && CallsInv(b.engine, i, l)
    ensures |Apply(b, e, lag).engine.slots| == |b.engine.slots|
    ensures LedgerInv(Apply(b, e, lag).engine.slots[i], Observe(b, e, lag, i, l), i, colorSpace)
    ensures CallsInv(Apply(b, e, lag).engine, i, Observe(b, e, lag, i, l))
  {
    var s, r := b.engine, Apply(b, e, lag).engine;
    if e.DrainResumes? {
      SegmentDrains(s, e.task, e.states, i);
      DrainStep(s, r, e.states, i, l, colorSpace);
      DrainKeepsCalls(s, r, e.states, i, l);
    } else {
      OthersSendNothing(b, e, lag);
      if e.Frame? {
        FrameStep(s, e.data, i, l, colorSpace);
      } else {
        OtherStep(b, e, lag, i, l, colorSpace);
      }
    }
  }

  // ---- the fade ----

  /**
   The first command since a flush is not faded; any other is, by the time since the one before, to the nearest
   tenth of a second from a tenth to two seconds.
   */
  lemma FadeFollowsInterval(lastSent: nat, now: nat)
    requires lastSent <= now
    ensures Fade(lastSent, now).Num?
    ensures lastSent == 0 ==> Fade(lastSent, now) == Num(0)
    ensures lastSent > 0 ==> 1 <= Fade(lastSent, now).n <= 20
    ensures lastSent > 0 && 100 <= now - lastSent <= 2000 ==> Abs(Fade(lastSent, now).n * 100 - (now - lastSent)) <= 50
    ensures lastSent > 0 && now - lastSent < 100 ==> Fade(lastSent, now) == Num(1)
    ensures lastSent > 0 && now - lastSent > 2000 ==> Fade(lastSent, now) == Num(20)
  {
    RoundRatioIsNearest(now - lastSent, 100);
  }

  // ---- what tolerance means for the lights ----

  /** No 8-bit component is off by more than one step, and no chromaticity by the tolerance. */
  predicate OneStep(p: Command, q: Command, colorSpace: int)
    requires Brightness in p && Brightness in q && p[Brightness].Num? && q[Brightness].Num?
    requires colorSpace == COLOR_SPACE_XY ==> XyColor in p && XyColor in q && p[XyColor].Pair? && q[XyColor].Pair?
    requires colorSpace != COLOR_SPACE_XY ==> RgbColor in p && RgbColor in q && p[RgbColor].Rgb? && q[RgbColor].Rgb?
  {
    && Within(p[Brightness].n, q[Brightness].n, 1)
    && if colorSpace == COLOR_SPACE_XY then
         && AbsR(p[XyColor].x - q[XyColor].x) < CIE_TOLERANCE && AbsR(p[XyColor].y - q[XyColor].y) < CIE_TOLERANCE
       else
         && Within(p[RgbColor].r, q[RgbColor].r, 1)
         && Within(p[RgbColor].g, q[RgbColor].g, 1) && Within(p[RgbColor].b, q[RgbColor].b, 1)
  }

  /** A frame that is skipped asks for a command at most one step away from that of the accepted update. */
  lemma ToleranceInSteps(light: Light, p: Command, c: HueStream.Channel, q: Command, d: HueStream.Channel,
                         colorSpace: int)
    requires Asks(p, light, c, colorSpace) && Asks(q, light, d, colorSpace) && TooClose(Some(c), d, colorSpace)
    ensures OneStep(p, q, colorSpace)
  {
    if colorSpace == COLOR_SPACE_XY {
      ChromaticityInSteps(p[XyColor].x, c.r, q[XyColor].x, d.r);
      ChromaticityInSteps(p[XyColor].y, c.g, q[XyColor].y, d.g);
    }
  }

  lemma ChromaticityInSteps(x: real, m: nat, y: real, n: nat)
    requires x * 65535.0 == m as real && y * 65535.0 == n as real && Within(n, m, 1966)
    ensures AbsR(x - y) < CIE_TOLERANCE
  {
    assert (x - y) * 65535.0 == m as real - n as real;
  }

  /** Since the last flush, what was last accepted for the light is near what the newest frame asks for. */
  predicate NearNewestFrame(light: Light, l: Ledger, colorSpace: int) {
    l.reference.Some? && l.newest.Some? ==>
      OneStep(StreamCommand(light, l.reference.value, colorSpace), StreamCommand(light, l.newest.value, colorSpace),
              colorSpace)
  }

  lemma ReferenceIsNear(slot: Slot, l: Ledger, colorSpace: int)
    requires ReferenceInv(slot, l, colorSpace)
    ensures NearNewestFrame(slot.light, l, colorSpace)
  {
    if l.reference.Some? && l.newest.Some? {
      var c, d := l.reference.value, l.newest.value;
      var p, q := StreamCommand(slot.light, c, colorSpace), StreamCommand(slot.light, d, colorSpace);
      StreamCommandAsks(slot.light, c, colorSpace);
      StreamCommandAsks(slot.light, d, colorSpace);
      ToleranceInSteps(slot.light, p, c, q, d, colorSpace);
    }
  }

  /** After a flush the first frame is skipped if and only if it is RGB and almost black; XY never is. */
  lemma FirstFrame(slot: Slot, c: HueStream.Channel, colorSpace: int)
    ensures WithinTolerance(Flush(slot), c, colorSpace)
       <==> colorSpace != COLOR_SPACE_XY && c.r <= 14 && c.g <= 14 && c.b <= 14
  {
    if colorSpace == COLOR_SPACE_XY {
      assert Scaled(c.r) >= 0.0;
    }
  }

  // ---- whole runs ----

  predicate StreamRun(events: seq<Event>, colorSpace: int) { forall e <- events :: Streams(e, colorSpace) }

  function ObserveAll(b: Bridge, events: seq<Event>, lag: nat, i: nat, l: Ledger): Ledger
    requires Run(b, events, lag) && i < |b.engine.slots|
    decreases |events|
  {
    if events == [] then l
    else
      SameSlots(b, events[0], lag);
      ObserveAll(Apply(b, events[0], lag), events[1..], lag, i, Observe(b, events[0], lag, i, l))
  }

  lemma {:induction false} LedgerRun(b: Bridge, events: seq<Event>, lag: nat, i: nat, l: Ledger, colorSpace: int)
    requires FreeInv(b.engine) && DistinctIds(b.engine.slots) && Run(b, events, lag) && StreamRun(events, colorSpace)
    requires i < |b.engine.slots| && LedgerInv(b.engine.slots[i], l, i, colorSpace) && CallsInv(b.engine, i, l)
    ensures var r, m := Exec(b, events, lag).engine, ObserveAll(b, events, lag, i, l);
      && |r.slots| == |b.engine.slots|
      && LedgerInv(r.slots[i], m, i, colorSpace) && CallsInv(r, i, m)
    decreases |events|
  {
    if events != [] {
      var e := events[0];
      assert e in events;
      EngineInvPreserved(b, e, lag);
      LightsKept(b, e, lag);
      LedgerStep(b, e, lag, i, l, colorSpace);
      LedgerRun(Apply(b, e, lag), events[1..], lag, i, Observe(b, e, lag, i, l), colorSpace);
    }
  }

  /**
   Over any run of streaming in one colour space, for any light: what its channel asks for is accepted unless it is
   too close to what was accepted last; every accepted update has exactly one fate, and none is lost; only the
   newest can still be waiting, and then the slot holds its colour; the calls made for the light are those of the
   updates that were sent, in order and once each, with the colour of the channel and the fade due; and however many
   frames were skipped, what was accepted last is at most one step per component away from what the newest asks for.
   */
  lemma UpdatesAreConserved(lights: seq<Light>, now: nat, events: seq<Event>, lag: nat, i: nat, colorSpace: int)
    requires StreamRun(events, colorSpace) && Run(Initial(lights, now), events, lag)
    requires i < |Initial(lights, now).engine.slots|
    ensures var b := Initial(lights, now);
      var r, l := Exec(b, events, lag).engine, ObserveAll(b, events, lag, i, EMPTY);
      && |r.slots| == |b.engine.slots|
      && LedgerInv(r.slots[i], l, i, colorSpace) && CallsInv(r, i, l)
      && NearNewestFrame(r.slots[i].light, l, colorSpace)
  {
    var b, l := Initial(lights, now), EMPTY;
    InitialInv(lights, now, lag);
    SlotsAreFresh(lights, i);
    var slot := ById(lights)[i];
    assert slot == Fresh(slot.light);
    assert DistinctIds(b.engine.slots);
    LedgerRun(b, events, lag, i, l, colorSpace);
    ReferenceIsNear(Exec(b, events, lag).engine.slots[i], ObserveAll(b, events, lag, i, l), colorSpace);
  }
}
