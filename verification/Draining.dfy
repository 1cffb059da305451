/**
 What the drain loop and the calls around it do to one light: its slot, and the calls made for it. The ledgers of
 streaming and of classic mode both rest on this.
 */
module Draining {
  import opened Prelude
  import opened Commands
  import opened EngineModel
  import opened BridgeModel
  import opened Invariants
  import HueStream

  /** What becomes of something queued for a light; nothing is ever lost. */
  datatype Fate = Waiting | WasSent | Superseded | Flushed | Discarded | Lost

  /** All calls for a light. */
  function ToLight(sent: seq<Sent>, i: nat): seq<Sent> {
    if sent == [] then []
    else
      var last := |sent| - 1;
      ToLight(sent[..last], i) + (if sent[last].light == i then [sent[last]] else [])
  }

  // ---- a drain segment ----

  /** The segment from `s` to `r` starts a call for light `i`. */
  predicate Served(s: Engine, r: Engine, i: nat) {
    |r.host.sent| > |s.host.sent| && r.host.sent[|s.host.sent|].light == i
  }

  /** The fate of what was queued: it is discarded only if the light is unavailable. */
  function FateOf(s: Engine, r: Engine, states: States, i: nat): Fate
    requires i < |s.slots|
  {
    if Served(s, r, i) then WasSent else if Gone(s.slots[i], states) then Discarded else Lost
  }

  /**
   A drain segment starts one call at most. It takes the command of a light's slot to make a call that carries
   it, or because the light is unavailable; otherwise it leaves the slot alone.
   */
  predicate Drained(s: Engine, r: Engine, states: States, i: nat)
    requires i < |s.slots| == |r.slots|
  {
    var before, after := s.slots[i], r.slots[i];
    && s.host.sent <= r.host.sent && |r.host.sent| <= |s.host.sent| + 1
    && if Served(s, r, i) then
         && before.dirty && !Gone(before, states)
         && after.lastSent == s.host.now && Taken(before, after.(lastSent := before.lastSent))
         && Carries(r.host.sent[|s.host.sent|], i, before, s.host.now)
       else if before.dirty && !after.dirty then Taken(before, after) && Gone(before, states)
       else after == before
  }

  /** What a pass may leave of a slot it does not stop at. */
  predicate Passed(before: Slot, after: Slot, states: States) {
    after == before || (before.dirty && Taken(before, after) && Gone(before, states))
  }

  lemma SendDrains(s: Engine, id: nat, states: States, slots: seq<Slot>, k: nat, i: nat)
    requires k < |slots| == |s.slots| && i < |slots| && s.slots[k].dirty && s.slots[k].pending.Some?
    requires Taken(s.slots[k], slots[k]) && !Gone(s.slots[k], states)
    requires i != k ==> Passed(s.slots[i], slots[i], states)
    ensures Drained(s, Send(s, id, slots, k, s.slots[k]), states, i)
  {
    SendCarries(s, id, slots, k, s.slots[k]);
  }

  lemma SettleDrains(s: Engine, id: nat, states: States, slots: seq<Slot>, idleSince: Option<int>, i: nat)
    requires i < |slots| == |s.slots| && Passed(s.slots[i], slots[i], states)
    ensures Drained(s, Settle(s.(slots := slots), id, idleSince), states, i)
  {
  }

  /** What a pass from position `start` leaves of a slot it does not stop at. */
  lemma ScanPasses(slots: seq<Slot>, states: States, start: nat, i: nat)
    requires Consistent(slots) && start <= |slots| && i < |slots|
    ensures var p := Scan(slots, states, start);
      && (p.hit != Some(i) ==> Passed(slots[i], p.slots[i], states))
      && (p.hit.Some? ==> slots[p.hit.value].dirty && !Gone(slots[p.hit.value], states)
                          && Taken(slots[p.hit.value], p.slots[p.hit.value]))
  {
    ScanMeaning(slots, states, start);
  }

  lemma TurnDrains(s: Engine, id: nat, states: States, idleSince: Option<int>, i: nat)
    requires Consistent(s.slots) && i < |s.slots|
    ensures Drained(s, FullPass(s, id, states, idleSince), states, i)
  {
    var r := s.(wake := false);
    var p := Scan(r.slots, states, 0);
    ScanPasses(r.slots, states, 0, i);
    if p.hit.Some? {
      SendDrains(r, id, states, p.slots, p.hit.value, i);
    } else {
      SettleDrains(r, id, states, p.slots, idleSince, i);
    }
  }

  /** The rest of a pass that sends nothing, and the full turn after it. */
  lemma RestAndTurnDrain(s: Engine, id: nat, states: States, start: nat, i: nat)
    requires Consistent(s.slots) && start <= |s.slots| && i < |s.slots|
    requires Scan(s.slots, states, start).hit.None?
    ensures Drained(s, FullPass(s.(slots := Scan(s.slots, states, start).slots), id, states, None), states, i)
  {
    var p := Scan(s.slots, states, start);
    ScanMeaning(s.slots, states, start);
    assert Consistent(p.slots);
    assert Passed(s.slots[i], p.slots[i], states);
    TurnDrains(s.(slots := p.slots), id, states, None, i);
  }

  lemma SegmentDrains(s: Engine, id: nat, states: States, i: nat)
    requires Consistent(s.slots) && DrainReady(s, id) && i < |s.slots|
    ensures Drained(s, ResumeDrain(s, id, states), states, i)
  {
    var task := s.host.tasks[id];
    if task.position.InFlight? {
      var start := task.position.light + 1;
      var p := Scan(s.slots, states, start);
      if p.hit.Some? {
        ScanPasses(s.slots, states, start, i);
        SendDrains(s, id, states, p.slots, p.hit.value, i);
      } else {
        RestAndTurnDrain(s, id, states, start, i);
      }
    } else {
      TurnDrains(s, id, states, task.idleSince, i);
    }
  }

  lemma DrainedCalls(s: Engine, r: Engine, states: States, i: nat)
    requires i < |s.slots| == |r.slots| && Drained(s, r, states, i)
    ensures ToLight(r.host.sent, i)
         == ToLight(s.host.sent, i) + (if Served(s, r, i) then [r.host.sent[|s.host.sent|]] else [])
  {
    if |r.host.sent| > |s.host.sent| {
      assert r.host.sent[..|s.host.sent|] == s.host.sent;
    } else {
      assert r.host.sent == s.host.sent;
    }
  }

  // ---- everything else ----

  /** The event flushes the slots: pause, release, the start of a session, or its end. */
  predicate Flushes(b: Bridge, e: Event) {
    var s := b.engine;
    match e
    case PauseCall(_) => !s.releasing
    case ReleaseCall(_) => true
    case Start(_, _) => !s.active || s.releasing
    case Stop => s.active && (s.drainTask.None? || s.drainTask.value !in s.host.tasks)
    case WatchdogPolls => s.active && TimedOut(s) && (s.drainTask.None? || s.drainTask.value !in s.host.tasks)
    case RestoreResumes(_) => true
    case _ => false
  }

  lemma StartOnSlots(s: Engine, states: States)
    ensures SnapshotLights(s, states).slots == if s.active && !s.releasing then s.slots else FlushAll(s.slots)
  {
  }

  lemma EndOnSlots(s: Engine)
    ensures RestoreLights(s).slots ==
      if s.active && (s.drainTask.None? || s.drainTask.value !in s.host.tasks) then FlushAll(s.slots) else s.slots
  {
  }

  /** Events other than frames, PUTs and drain segments flush all slots or leave them alone. */
  lemma OthersOnSlots(b: Bridge, e: Event, lag: nat)
    requires Enabled(b, e, lag) && !e.Frame? && !e.Put? && !e.DrainResumes?
    ensures Apply(b, e, lag).engine.slots == if Flushes(b, e) then FlushAll(b.engine.slots) else b.engine.slots
  {
    match e
    case Start(_, states) => StartOnSlots(b.engine, states);
    case Stop => EndOnSlots(b.engine);
    case WatchdogPolls => EndOnSlots(b.engine);
    case _ =>
  }

  /** Only drain segments start calls. */
  lemma OthersSendNothing(b: Bridge, e: Event, lag: nat)
    requires Enabled(b, e, lag) && !e.DrainResumes?
    ensures var s, r := b.engine, Apply(b, e, lag).engine; r.host.sent == s.host.sent && |r.slots| == |s.slots|
  {
    if IsCall(e) {
      CallsFrame(b, e, lag);
    }
  }

  lemma SameSlots(b: Bridge, e: Event, lag: nat)
    requires Enabled(b, e, lag)
    ensures |Apply(b, e, lag).engine.slots| == |b.engine.slots|
  {
    if !e.DrainResumes? {
      OthersSendNothing(b, e, lag);
    }
  }

  // ---- the lights stay what they are ----

  predicate SameLights(slots: seq<Slot>, after: seq<Slot>) {
    |after| == |slots| && forall i | 0 <= i < |slots| :: after[i].light == slots[i].light
  }

  lemma {:induction false} ScheduleKeepsLights(slots: seq<Slot>, channels: seq<HueStream.Channel>, colorSpace: int)
    ensures SameLights(slots, ScheduleAll(slots, channels, colorSpace))
    decreases |channels|
  {
    if channels != [] {
      ScheduleKeepsLights(slots, channels[..|channels| - 1], colorSpace);
    }
  }

  lemma PutKeepsLights(s: Engine, lightId: nat, body: Body)
    ensures SameLights(s.slots, HandleCommand(s, lightId, body).slots)
  {
  }

  lemma DrainKeepsLights(s: Engine, id: nat, states: States)
    requires Consistent(s.slots) && DrainReady(s, id)
    ensures SameLights(s.slots, ResumeDrain(s, id, states).slots)
  {
    forall i | 0 <= i < |s.slots|
      ensures ResumeDrain(s, id, states).slots[i].light == s.slots[i].light
    {
      SegmentDrains(s, id, states, i);
    }
  }

  lemma LightsKept(b: Bridge, e: Event, lag: nat)
    requires Consistent(b.engine.slots) && Enabled(b, e, lag)
    ensures SameLights(b.engine.slots, Apply(b, e, lag).engine.slots)
  {
    var s := b.engine;
    match e
    case Frame(data) =>
      if HueStream.Parse(data).Some? {
        ScheduleKeepsLights(s.slots, HueStream.Parse(data).value.channels, HueStream.Parse(data).value.colorSpace);
      }
    case Put(lightId, body) => PutKeepsLights(s, lightId, body);
    case DrainResumes(id, states) => DrainKeepsLights(s, id, states);
    case _ => OthersOnSlots(b, e, lag);
  }

  /** In a dictionary by channel id there is one place for an id. */
  lemma FindIsUnique(slots: seq<Slot>, i: nat, id: nat)
    requires DistinctIds(slots) && i < |slots|
    ensures Find(slots, id) == Some(i) <==> slots[i].light.channelId == id
  {
  }
}
