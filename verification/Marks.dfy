/**
 The mark of a classic command over runs that mix streaming and PUTs: a light's slot bears it if and only if a PUT
 was queued since the drain loop last took the slot. So a frame's command is sent with its fade.
 */
module Marks {
  import opened Prelude
  import opened Commands
  import opened EngineModel
  import opened BridgeModel
  import opened Invariants
  import opened Draining
  import HueStream

  /** The drain loop takes what is in the slot of light `i`. */
  predicate TakesSlot(b: Bridge, e: Event, lag: nat, i: nat)
    requires Enabled(b, e, lag) && i < |b.engine.slots|
  {
    SameSlots(b, e, lag);
    var s, r := b.engine, Apply(b, e, lag).engine;
    e.DrainResumes? && (Served(s, r, i) || (s.slots[i].dirty && !r.slots[i].dirty))
  }

  predicate QueuesPut(b: Bridge, e: Event, i: nat) {
    e.Put? && Find(b.engine.slots, e.lightId) == Some(i) && MergeInto(b.engine, e.lightId, e.body).Queued?
  }

  /** Whether a PUT was queued for the light since its slot was last taken. */
  predicate PutSince(b: Bridge, events: seq<Event>, lag: nat, i: nat, before: bool)
    requires Run(b, events, lag) && i < |b.engine.slots|
    decreases |events|
  {
    if events == [] then before
    else
      SameSlots(b, events[0], lag);
      var e := events[0];
      PutSince(Apply(b, e, lag), events[1..], lag, i,
               if QueuesPut(b, e, i) then true else if TakesSlot(b, e, lag, i) then false else before)
  }

  lemma MarkStep(b: Bridge, e: Event, lag: nat, i: nat)
    requires FreeInv(b.engine) && Enabled(b, e, lag) && i < |b.engine.slots|
    ensures |Apply(b, e, lag).engine.slots| == |b.engine.slots|
    ensures Apply(b, e, lag).engine.slots[i].explicit
         == if QueuesPut(b, e, i) then true
            else if TakesSlot(b, e, lag, i) then false
            else b.engine.slots[i].explicit
  {
    SameSlots(b, e, lag);
    match e
    case DrainResumes(id, states) => SegmentDrains(b.engine, id, states, i);
    case Frame(data) => FrameKeepsMarks(b.engine, data, i);
    case Put(lightId, body) => PutMarks(b.engine, lightId, body, i);
    case _ => OthersOnSlots(b, e, lag);
  }

  lemma {:induction false} ScheduleKeepsMarks(slots: seq<Slot>, channels: seq<HueStream.Channel>,
                                              colorSpace: int, i: nat)
    requires i < |slots|
    ensures ScheduleAll(slots, channels, colorSpace)[i].explicit == slots[i].explicit
    decreases |channels|
  {
    if channels != [] {
      ScheduleKeepsMarks(slots, channels[..|channels| - 1], colorSpace, i);
    }
  }

  lemma FrameKeepsMarks(s: Engine, data: seq<HueStream.byte>, i: nat)
    requires i < |s.slots|
    ensures |HandleFrame(s, data).slots| == |s.slots|
    ensures HandleFrame(s, data).slots[i].explicit == s.slots[i].explicit
  {
    if HueStream.Parse(data).Some? {
      ScheduleKeepsMarks(s.slots, HueStream.Parse(data).value.channels, HueStream.Parse(data).value.colorSpace, i);
    }
  }

  lemma PutMarks(s: Engine, lightId: nat, body: Body, i: nat)
    requires i < |s.slots|
    ensures |HandleCommand(s, lightId, body).slots| == |s.slots|
    ensures HandleCommand(s, lightId, body).slots[i].explicit
         == (s.slots[i].explicit || (Find(s.slots, lightId) == Some(i) && MergeInto(s, lightId, body).Queued?))
  {
  }

  lemma {:induction false} MarkRun(b: Bridge, events: seq<Event>, lag: nat, i: nat)
    requires FreeInv(b.engine) && Run(b, events, lag) && i < |b.engine.slots|
    ensures |Exec(b, events, lag).engine.slots| == |b.engine.slots|
    ensures Exec(b, events, lag).engine.slots[i].explicit <==> PutSince(b, events, lag, i, b.engine.slots[i].explicit)
    decreases |events|
  {
    if events != [] {
      EngineInvPreserved(b, events[0], lag);
      MarkStep(b, events[0], lag, i);
      MarkRun(Apply(b, events[0], lag), events[1..], lag, i);
    }
  }

  /**
   Over any run, of frames and PUTs in any mixture: a light's slot is marked if and only if a PUT was queued for it
   since the drain loop last took the slot; and a call made for an unmarked slot carries the fade due.
   */
  lemma MarkFollowsPuts(lights: seq<Light>, now: nat, events: seq<Event>, lag: nat, i: nat)
    requires Run(Initial(lights, now), events, lag)
    requires i < |Initial(lights, now).engine.slots|
    ensures var b := Initial(lights, now);
      var r := Exec(b, events, lag).engine;
      && |r.slots| == |b.engine.slots|
      && (r.slots[i].explicit <==> PutSince(b, events, lag, i, false))
  {
    InitialInv(lights, now, lag);
    SlotsAreFresh(lights, i);
    var slot := ById(lights)[i];
    assert slot == Fresh(slot.light);
    MarkRun(Initial(lights, now), events, lag, i);
  }

  /** The call that begins after such a run. */
  lemma FrameCallsFade(lights: seq<Light>, now: nat, events: seq<Event>, lag: nat, id: nat, states: States, i: nat)
    requires Run(Initial(lights, now), events, lag)
    requires var s := Exec(Initial(lights, now), events, lag).engine;
      DrainReady(s, id) && Served(s, ResumeDrain(s, id, states), i)
    requires i < |Initial(lights, now).engine.slots| && !PutSince(Initial(lights, now), events, lag, i, false)
    ensures var s := Exec(Initial(lights, now), events, lag).engine;
      var call := ResumeDrain(s, id, states).host.sent[|s.host.sent|];
      && i < |s.slots|
      && Transition in call.data && call.data[Transition] == Fade(s.slots[i].lastSent, s.host.now)
  {
    var s := Exec(Initial(lights, now), events, lag).engine;
    MarkFollowsPuts(lights, now, events, lag, i);
    InitialInv(lights, now, lag);
    RunInv(Initial(lights, now), events, lag);
    SegmentDrains(s, id, states, i);
  }
}
