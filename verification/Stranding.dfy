/**
 Frames outside a session: they fill slots without starting a drain loop, unlike classic commands. When that leaves
 something queued with nobody to send it, and that nothing else ever does.
 */
module Stranding {
  import opened Prelude
  import opened Commands
  import opened EngineModel
  import opened BridgeModel
  import opened Invariants
  import HueStream

  /** Whatever is queued has a loop to send it, or is about to be flushed by a session end. */
  predicate NothingStranded(s: Engine) { AnyDirty(s.slots) ==> s.drainRunning || s.host.awaiting != [] }

  /** The frame changes some light while no drain loop is alive; unlike a classic command it does not start one. */
  predicate StrandsFrame(s: Engine, e: Event) {
    && e.Frame? && HueStream.Parse(e.data).Some? && !Held(s) && !s.drainRunning && s.host.awaiting == []
    && AnyAccepted(s.slots, HueStream.Parse(e.data).value.channels, HueStream.Parse(e.data).value.colorSpace)
  }

  lemma {:induction false} AcceptedIsDirty(slots: seq<Slot>, channels: seq<HueStream.Channel>, colorSpace: int)
    requires AnyAccepted(slots, channels, colorSpace)
    ensures AnyDirty(ScheduleAll(slots, channels, colorSpace))
    decreases |channels|
  {
    var before, c := ScheduleAll(slots, channels[..|channels| - 1], colorSpace), channels[|channels| - 1];
    var k := Find(before, c.id);
    var after := ScheduleUpdate(before, c, colorSpace);
    if k.Some? && !WithinTolerance(before[k.value], c, colorSpace) {
      assert after[k.value].dirty;
    } else {
      AcceptedIsDirty(slots, channels[..|channels| - 1], colorSpace);
      assert after == before;
    }
  }

  lemma FrameStrands(s: Engine, e: Event)
    requires Consistent(s.slots) && NothingStranded(s) && e.Frame?
    ensures NothingStranded(HandleFrame(s, e.data)) <==> !StrandsFrame(s, e)
  {
    if HueStream.Parse(e.data).Some? {
      var f := HueStream.Parse(e.data).value;
      ScheduleKeepsSlots(s.slots, f.channels, f.colorSpace);
      if AnyAccepted(s.slots, f.channels, f.colorSpace) {
        AcceptedIsDirty(s.slots, f.channels, f.colorSpace);
      }
    }
  }

  lemma SendStrandsNothing(s: Engine, id: nat, slots: seq<Slot>, k: nat, slot: Slot)
    requires NothingStranded(s) && k < |slots| == |s.slots| && slot.pending.Some?
    requires forall i | 0 <= i < |slots| :: slots[i].dirty ==> s.slots[i].dirty
    ensures NothingStranded(Send(s, id, slots, k, slot))
  {
  }

  lemma ScanStrandsNothing(s: Engine, states: States, start: nat)
    requires Consistent(s.slots) && NothingStranded(s) && start <= |s.slots|
    ensures var r := s.(slots := Scan(s.slots, states, start).slots); Consistent(r.slots) && NothingStranded(r)
  {
    ScanMeaning(s.slots, states, start);
  }

  lemma TurnStrandsNothing(s: Engine, r: Engine, id: nat, states: States, idleSince: Option<int>)
    requires Consistent(s.slots) && NothingStranded(s) && r == FullPass(s, id, states, idleSince)
    ensures NothingStranded(r)
  {
    var w := s.(wake := false);
    var p := Scan(w.slots, states, 0);
    ScanMeaning(w.slots, states, 0);
    if p.hit.Some? {
      SendStrandsNothing(w, id, p.slots, p.hit.value, s.slots[p.hit.value]);
    }
  }

  lemma RestStrandsNothing(s: Engine, r: Engine, id: nat, states: States, start: nat)
    requires Consistent(s.slots) && NothingStranded(s)
    requires start <= |s.slots| && r == Continued(s, id, states, start)
    ensures NothingStranded(r)
  {
    var p := Scan(s.slots, states, start);
    if p.hit.Some? {
      ScanMeaning(s.slots, states, start);
      SendStrandsNothing(s, id, p.slots, p.hit.value, s.slots[p.hit.value]);
    } else {
      ScanStrandsNothing(s, states, start);
      TurnStrandsNothing(s.(slots := p.slots), r, id, states, None);
    }
  }

  lemma DrainStrandsNothing(s: Engine, id: nat, states: States)
    requires Consistent(s.slots) && DrainReady(s, id) && NothingStranded(s)
    ensures NothingStranded(ResumeDrain(s, id, states))
  {
    var r := ResumeDrain(s, id, states);
    var task := s.host.tasks[id];
    if task.position.InFlight? {
      assert r == Continued(s, id, states, task.position.light + 1) by {
        ResumedIsContinued(s, id, states);
      }
      RestStrandsNothing(s, r, id, states, task.position.light + 1);
    } else {
      assert r == FullPass(s, id, states, task.idleSince) by {
        ResumedIsTurn(s, id, states);
      }
      TurnStrandsNothing(s, r, id, states, task.idleSince);
    }
  }

  lemma StartStrandsNothing(s: Engine, states: States)
    requires NothingStranded(s)
    ensures NothingStranded(SnapshotLights(s, states))
  {
  }

  lemma EndStrandsNothing(s: Engine)
    requires NothingStranded(s)
    ensures NothingStranded(RestoreLights(s))
  {
  }

  lemma CallStrandsNothing(b: Bridge, e: Event, lag: nat)
    requires Enabled(b, e, lag) && IsCall(e) && NothingStranded(b.engine)
    ensures NothingStranded(Apply(b, e, lag).engine)
  {
    match e
    case Start(_, states) => StartStrandsNothing(b.engine, states);
    case Stop => EndStrandsNothing(b.engine);
    case WatchdogPolls => EndStrandsNothing(b.engine);
    case _ =>
  }

  /** A queued update is left without a loop to send it if and only if a frame changes a light outside a session. */
  lemma StrandedStep(b: Bridge, e: Event, lag: nat)
    requires FreeInv(b.engine) && Enabled(b, e, lag) && NothingStranded(b.engine)
    ensures NothingStranded(Apply(b, e, lag).engine) <==> !StrandsFrame(b.engine, e)
  {
    if e.Frame? {
      FrameStrands(b.engine, e);
    } else if e.DrainResumes? {
      DrainStrandsNothing(b.engine, e.task, e.states);
    } else if IsCall(e) {
      CallStrandsNothing(b, e, lag);
    }
  }

  /** No frame changes a light while no session and no loop is alive. */
  predicate NoFrameStrands(b: Bridge, events: seq<Event>, lag: nat)
    requires Run(b, events, lag)
    decreases |events|
  {
    events != [] ==>
      !StrandsFrame(b.engine, events[0]) && NoFrameStrands(Apply(b, events[0], lag), events[1..], lag)
  }

  /** In every state of the run, whatever is queued has a loop to send it. */
  predicate NeverStranded(b: Bridge, events: seq<Event>, lag: nat)
    requires Run(b, events, lag)
    decreases |events|
  {
    NothingStranded(b.engine) && (events != [] ==> NeverStranded(Apply(b, events[0], lag), events[1..], lag))
  }

  lemma {:induction false} StrandedRun(b: Bridge, events: seq<Event>, lag: nat)
    requires FreeInv(b.engine) && NothingStranded(b.engine) && Run(b, events, lag)
    ensures NeverStranded(b, events, lag) <==> NoFrameStrands(b, events, lag)
    decreases |events|
  {
    if events != [] {
      var e := events[0];
      StrandedStep(b, e, lag);
      if !StrandsFrame(b.engine, e) {
        EngineInvPreserved(b, e, lag);
        StrandedRun(Apply(b, e, lag), events[1..], lag);
      } else {
        assert !NothingStranded(Apply(b, e, lag).engine);
      }
    }
  }

  /**
   Over every run: whatever is queued always has a loop to send it, or a session end to flush it, if and only if no
   frame ever changes a light while no session and no loop is alive.
   */
  lemma NothingIsStranded(lights: seq<Light>, now: nat, events: seq<Event>, lag: nat)
    requires Run(Initial(lights, now), events, lag)
    ensures NeverStranded(Initial(lights, now), events, lag) <==> NoFrameStrands(Initial(lights, now), events, lag)
  {
    InitialInv(lights, now, lag);
    StrandedRun(Initial(lights, now), events, lag);
  }
}
