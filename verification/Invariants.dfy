/**
 What every reachable state of the bridge satisfies: the timers belong to the pause and the release in
 progress, a release can always end, one drain loop at most is alive, nothing is queued while effects
 are suppressed, the sensors are up to date, and the API server and the watchdog agree with the engine.
 */
module Invariants {
  import opened Prelude
  import opened Constants
  import opened Commands
  import opened EngineModel
  import opened BridgeModel
  import HueStream

  // ---- timers, pause and release ----

  /** The live timers are exactly the one of the pause in progress and the one of the grace period. */
  predicate TimersInv(s: Engine) {
    && (forall id <- s.host.timers :: id < s.host.nextId)
    && (forall id <- s.host.timers ::
          if s.host.timers[id].PauseTimer?
          then s.pauseCancel == Some(id) && s.pausedUntil == Some(s.host.timers[id].due)
          else s.releaseCancel == Some(id))
    && (s.pauseCancel.Some? ==> s.pauseCancel.value in s.host.timers && s.host.timers[s.pauseCancel.value].PauseTimer?)
    && (s.releaseCancel.Some? ==>
          s.releaseCancel.value in s.host.timers && s.host.timers[s.releaseCancel.value].GraceTimer?)
    && (s.pausedUntil.Some? <==> s.pauseCancel.Some?)
  }

  /** A pending release has its grace timer, or else forces an active session to end. */
  predicate ReleaseInv(s: Engine) {
    && (s.releasing ==> s.pausedUntil.None?)
    && (s.releasing ==> (s.releaseCancel.Some? <==> !s.forcing))
    && (s.forcing ==> s.releasing && s.active)
    && (!s.releasing ==> s.releaseCancel.None?)
  }

  // ---- sessions ----

  /** What a session end would restore: the states captured at its start, unless a release dropped them. */
  predicate SavedInv(s: Engine) {
    && (s.active ==> (s.saved.Some? <==> !s.releasing))
    && (!s.active && s.host.awaiting == [] ==> s.saved.None?)
  }

  /** The drain task is alive. */
  predicate Alive(s: Engine) { s.drainTask.Some? && s.drainTask.value in s.host.tasks }

  /** What the snapshot rests on: a session has a drain task, so that its end waits, and one end waits at a time. */
  predicate SessionInv(s: Engine) {
    && SavedInv(s)
    && (s.active ==> s.host.awaiting == [] && Alive(s))
    && (s.drainRunning && s.host.awaiting == [] ==> Alive(s))
    && |s.host.awaiting| <= 1
  }

  // ---- the drain loop ----

  predicate AllClean(slots: seq<Slot>) { forall i | 0 <= i < |slots| :: Clean(slots[i]) }

  predicate AnyDirty(slots: seq<Slot>) { exists i | 0 <= i < |slots| :: slots[i].dirty }

  /** The status says that nothing is being driven. */
  predicate Held(s: Engine) { Current(s).status in {Paused, Releasing} }

  /** Nothing is queued while effects are suppressed. */
  predicate QuietInv(s: Engine) { Held(s) ==> AllClean(s.slots) }

  /** One loop at most; `drainRunning` says whether there is one; a session always has one. */
  predicate LoopInv(s: Engine) {
    if s.host.awaiting == [] then
      && (s.active ==> s.drainRunning)
      && (s.drainRunning ==> s.drainTask.Some? && s.host.tasks.Keys == {s.drainTask.value}
                             && !s.host.tasks[s.drainTask.value].cancelled)
      && (!s.drainRunning ==> s.host.tasks == map[])
    else
      && s.drainTask.Some? && s.host.awaiting == [s.drainTask.value]
      && !s.active
      && (s.host.tasks != map[] ==>
            s.drainRunning && s.host.tasks.Keys == {s.drainTask.value} && s.host.tasks[s.drainTask.value].cancelled)
  }

  predicate TaskInv(s: Engine) {
    && (forall id <- s.host.tasks :: id < s.host.nextId)
    && (s.drainTask.Some? ==> s.drainTask.value < s.host.nextId)
    && (forall id <- s.host.tasks :: s.host.tasks[id].cancelled ==> id in s.host.awaiting)
    && (forall id <- s.host.tasks ::
          s.host.tasks[id].position.Parked? ==> s.host.tasks[id].position.due <= s.host.now + CLASSIC_DRAIN_IDLE)
    && (forall id <- s.host.tasks ::
          s.host.tasks[id].idleSince.Some? ==> s.host.tasks[id].idleSince.value <= s.host.now)
    && (forall id <- s.host.tasks ::
          s.host.tasks[id].position.InFlight? ==> s.host.tasks[id].position.light < |s.slots|)
  }

  /** A parked loop with something to send has been woken. */
  predicate WakeInv(s: Engine) {
    forall id <- s.host.tasks :: s.host.tasks[id].position.Parked? && AnyDirty(s.slots) ==> s.wake
  }

  /** In a slot, `dirty` says whether a command is pending. */
  predicate Consistent(slots: seq<Slot>) {
    forall i | 0 <= i < |slots| :: (slots[i].dirty <==> slots[i].pending.Some?) && Addressed(slots[i])
  }

  // ---- the sensors ----

  /** The pause has run out and its timer is about to say so. */
  predicate PauseOverdue(s: Engine) { s.pausedUntil.Some? && s.pausedUntil.value <= s.host.now }

  /** Outside the unwinding of a drain task, listeners know all that was so when they were last told. */
  predicate SensorInv(s: Engine) {
    s.host.awaiting == [] ==>
      var told := s.host.published;
      && told.at <= s.host.now
      && told.shown == Show(s.releasing, s.pausedUntil.Some? && told.at < s.pausedUntil.value, s.active, s.drainRunning)
  }

  // ---- the wiring ----

  /** What the API server reports, against the session there is. */
  predicate ApiInv(b: Bridge) {
    && (b.apiActive ==> b.engine.active)
    && (b.engine.active && !b.apiActive ==> b.engine.releasing)
    && (b.owner.Some? <==> b.apiActive)
  }

  /** A session is watched. */
  predicate WatchInv(b: Bridge) { b.engine.active <==> Watched(b) }

  /** What holds of every run, however its events interleave. */
  predicate FreeInv(s: Engine) {
    TimersInv(s) && ReleaseInv(s) && QuietInv(s) && Consistent(s.slots) && TaskInv(s)
  }

  /** What holds as well of runs with quiet teardowns; a running drain segment suspends the wake-up. */
  predicate CoreInv(s: Engine) { FreeInv(s) && SavedInv(s) && LoopInv(s) }

  predicate EngineInv(s: Engine) { CoreInv(s) && WakeInv(s) }

  /** No callback is kept waiting for longer than `lag`. */
  predicate Punctual(s: Engine, lag: nat) { forall id <- s.host.timers :: s.host.now <= s.host.timers[id].due + lag }

  // ---- facts about slots ----

  lemma {:induction false} ScheduleKeepsSlots(slots: seq<Slot>, channels: seq<HueStream.Channel>, colorSpace: int)
    requires Consistent(slots)
    ensures Consistent(ScheduleAll(slots, channels, colorSpace))
    ensures !AnyAccepted(slots, channels, colorSpace) ==> ScheduleAll(slots, channels, colorSpace) == slots
    decreases |channels|
  {
    if channels != [] {
      ScheduleKeepsSlots(slots, channels[..|channels| - 1], colorSpace);
    }
  }

  /** Home Assistant has the light as unavailable. */
  predicate Gone(slot: Slot, states: States) {
    slot.light.entityId in states && states[slot.light.entityId] == "unavailable"
  }

  /** The loop has taken the slot's content, and with it the mark of a classic command; the rest stays. */
  predicate Taken(before: Slot, after: Slot) {
    && !after.dirty && after.pending.None? && !after.explicit
    && after.light == before.light && after.lastSent == before.lastSent
    && after.lastR == before.lastR && after.lastG == before.lastG && after.lastB == before.lastB
  }

  lemma {:induction false} ScanMeaning(slots: seq<Slot>, states: States, i: nat)
    requires i <= |slots|
    requires Consistent(slots)
    ensures var p := Scan(slots, states, i);
      var end := if p.hit.Some? then p.hit.value else |slots|;
      && (p.hit.Some? ==> slots[end].dirty && !Gone(slots[end], states) && Taken(slots[end], p.slots[end]))
      && (forall j | i <= j < end :: slots[j].dirty ==> Gone(slots[j], states) && Taken(slots[j], p.slots[j]))
      && (forall j | i <= j < end :: !slots[j].dirty ==> p.slots[j] == slots[j])
      && (forall j | 0 <= j < |slots| && (j < i || end < j) :: p.slots[j] == slots[j])
    decreases |slots| - i
  {
    if i < |slots| {
      if !slots[i].dirty {
        ScanMeaning(slots, states, i + 1);
      } else if !Available(slots[i], states) {
        var taken := slots[i := Grab(slots[i])];
        ScanMeaning(taken, states, i + 1);
        assert forall j | i < j < |slots| :: taken[j] == slots[j];
      } else {
        assert slots[i].pending.Some?;
        assert Scan(slots, states, i) == Pass(slots[i := Grab(slots[i])], Some(i));
      }
    }
  }

  // ---- what a call carries ----

  /** The call is the slot's command: its service, and its data as queued, with a fade unless it brings its own. */
  predicate Carries(call: Sent, k: nat, slot: Slot, now: nat) {
    && slot.pending.Some? && call.light == k
    && var c := slot.pending.value;
       && call.service == (if Service in c then c[Service] else TurnOn)
       && call.data.Keys == c.Keys - {Service} + (if slot.explicit then {} else {Transition})
       && forall key <- call.data.Keys ::
            call.data[key] == if key == Transition && !slot.explicit then Fade(slot.lastSent, now) else c[key]
  }

  lemma SendCarries(s: Engine, id: nat, slots: seq<Slot>, k: nat, slot: Slot)
    requires k < |slots| && slot.pending.Some?
    ensures var r := Send(s, id, slots, k, slot);
      && |r.host.sent| == |s.host.sent| + 1 && r.host.sent[..|s.host.sent|] == s.host.sent
      && Carries(r.host.sent[|s.host.sent|], k, slot, s.host.now)
  {
    var r := Send(s, id, slots, k, slot);
    assert r.host.sent[..|s.host.sent|] == s.host.sent;
  }

  // ---- what the calls leave alone ----

  predicate IsCall(e: Event) {
    e.PauseCall? || e.ResumeCall? || e.ReleaseCall? || e.Start? || e.Stop? || e.TimerFires? || e.WatchdogPolls?
  }

  /**
   No command is sent, no new timer is overdue, the slots are kept or flushed, no drain task moves, and no restore
   begins without a session.
   */
  predicate CallFrame(s: Engine, r: Engine) {
    && r.host.sent == s.host.sent && r.host.now == s.host.now
    && (r.lastFrame == s.lastFrame || r.lastFrame == s.host.now)
    && (!s.active ==> r.host.awaiting == s.host.awaiting)
    && (forall id <- r.host.timers ::
          r.host.timers[id].due >= r.host.now || (id in s.host.timers && s.host.timers[id] == r.host.timers[id]))
    && (r.slots == s.slots || r.slots == FlushAll(s.slots))
    && (forall id <- r.host.tasks ::
          || r.host.tasks[id].position == Created
          || (id in s.host.tasks && r.host.tasks[id].position == s.host.tasks[id].position))
    && (forall id <- r.host.tasks ::
          id in s.host.tasks && id < s.host.nextId ==> r.host.tasks[id].position == s.host.tasks[id].position)
  }

  lemma StartFrame(s: Engine, states: States)
    ensures CallFrame(s, SnapshotLights(s, states))
  {
  }

  lemma EndFrame(s: Engine)
    ensures CallFrame(s, RestoreLights(s))
  {
  }

  lemma TimerFrame(s: Engine, id: nat)
    requires id in s.host.timers
    ensures CallFrame(s, FireTimer(s, id))
  {
  }

  lemma PauseFrame(s: Engine, ms: int)
    ensures CallFrame(s, Pause(s, ms))
  {
  }

  lemma ReleaseFrame(s: Engine, ms: int)
    ensures CallFrame(s, Release(s, ms))
  {
  }

  lemma CallsFrame(b: Bridge, e: Event, lag: nat)
    requires Enabled(b, e, lag) && IsCall(e)
    ensures CallFrame(b.engine, Apply(b, e, lag).engine)
  {
    match e
    case Start(_, states) => StartFrame(b.engine, states);
    case Stop => EndFrame(b.engine);
    case WatchdogPolls => EndFrame(b.engine);
    case TimerFires(id) => TimerFrame(b.engine, id);
    case PauseCall(ms) => PauseFrame(b.engine, ms);
    case ReleaseCall(ms) => ReleaseFrame(b.engine, ms);
    case ResumeCall =>
  }

  // ---- every event keeps the invariant ----

  lemma UpdateKeeps(s: Engine, slots: seq<Slot>, wake: bool, lastFrame: int)
    requires FreeInv(s) && |slots| == |s.slots| && Consistent(slots)
    requires slots == s.slots || (!Held(s) && wake)
    requires s.wake ==> wake
    ensures FreeInv(s.(slots := slots, wake := wake, lastFrame := lastFrame))
    ensures EngineInv(s) ==> EngineInv(s.(slots := slots, wake := wake, lastFrame := lastFrame))
  {
  }

  lemma FrameKeeps(s: Engine, data: seq<HueStream.byte>)
    requires FreeInv(s)
    ensures FreeInv(HandleFrame(s, data))
    ensures EngineInv(s) ==> EngineInv(HandleFrame(s, data))
  {
    if HueStream.Parse(data).Some? {
      var f, r := HueStream.Parse(data).value, HandleFrame(s, data);
      ScheduleKeepsSlots(s.slots, f.channels, f.colorSpace);
      UpdateKeeps(s, r.slots, r.wake, r.lastFrame);
    }
  }

  lemma EnsureDrainKeeps(s: Engine)
    requires FreeInv(s)
    ensures FreeInv(EnsureDrain(s))
    ensures EngineInv(s) && (s.host.awaiting != [] ==> s.drainRunning) ==> EngineInv(EnsureDrain(s))
  {
  }

  lemma MergeIsConsistent(s: Engine, lightId: nat, body: Body)
    requires Consistent(s.slots) && MergeInto(s, lightId, body).Queued?
    ensures !Held(s)
    ensures Consistent(s.slots[Find(s.slots, lightId).value := MergeInto(s, lightId, body).slot])
  {
  }

  lemma CommandKeeps(s: Engine, lightId: nat, body: Body)
    requires FreeInv(s)
    ensures FreeInv(HandleCommand(s, lightId, body))
    ensures EngineInv(s) && (s.host.awaiting != [] && MergeInto(s, lightId, body).Queued? ==> s.drainRunning)
            ==> EngineInv(HandleCommand(s, lightId, body))
  {
    var merge := MergeInto(s, lightId, body);
    if merge.Queued? {
      var slots := s.slots[Find(s.slots, lightId).value := merge.slot];
      MergeIsConsistent(s, lightId, body);
      UpdateKeeps(s, slots, true, s.lastFrame);
      EnsureDrainKeeps(s.(slots := slots, wake := true));
    }
  }

  lemma OpenKeeps(s: Engine, captured: Snapshot)
    requires FreeInv(s) && !s.releasing
    ensures FreeInv(OpenSession(s, captured))
    ensures EngineInv(s) && s.host.awaiting == [] ==> EngineInv(OpenSession(s, captured))
  {
  }

  lemma SnapshotKeeps(s: Engine, states: States)
    requires FreeInv(s)
    ensures FreeInv(SnapshotLights(s, states))
    ensures EngineInv(s) && s.host.awaiting == [] ==> EngineInv(SnapshotLights(s, states))
  {
    if s.releasing {
      // The release is resolved first; only the target it dropped is still missing.
      OpenKeeps(CancelRelease(s).(saved := if s.active then Some([]) else None), Capture(s.slots, states));
    } else if !s.active {
      OpenKeeps(s, Capture(s.slots, states));
    }
  }

  lemma FinishKeeps(s: Engine)
    requires FreeInv(s) && !s.active && !s.releasing
    ensures FreeInv(FinishRestore(s))
    ensures s.host.awaiting == [] && s.host.tasks == map[] ==> EngineInv(FinishRestore(s))
  {
  }

  lemma EndingKeeps(s: Engine)
    requires FreeInv(s) && s.active
    ensures var r := CancelRelease(s.(active := false));
      && FreeInv(r) && !r.active && !r.releasing && r.drainTask == s.drainTask
      && r.host.awaiting == s.host.awaiting && r.host.tasks == s.host.tasks
  {
  }

  lemma RestoreWaits(s: Engine)
    requires FreeInv(s) && s.active && s.drainTask.Some? && s.drainTask.value in s.host.tasks
    ensures FreeInv(RestoreLights(s))
    ensures EngineInv(s) ==> EngineInv(RestoreLights(s))
  {
  }

  lemma RestoreKeeps(s: Engine)
    requires FreeInv(s)
    ensures FreeInv(RestoreLights(s))
    ensures EngineInv(s) ==> EngineInv(RestoreLights(s))
  {
    if s.active {
      if s.drainTask.Some? && s.drainTask.value in s.host.tasks {
        RestoreWaits(s);
      } else {
        EndingKeeps(s);
        FinishKeeps(CancelRelease(s.(active := false)));
      }
    }
  }

  lemma ResumeRestoreKeeps(s: Engine, k: nat)
    requires FreeInv(s) && k < |s.host.awaiting| && s.host.awaiting[k] !in s.host.tasks
    ensures FreeInv(ResumeRestore(s, k))
    ensures EngineInv(s) ==> EngineInv(ResumeRestore(s, k))
  {
  }

  lemma PauseKeeps(s: Engine, ms: int)
    requires FreeInv(s)
    ensures FreeInv(Pause(s, ms))
    ensures EngineInv(s) ==> EngineInv(Pause(s, ms))
  {
  }

  lemma ResumeKeeps(s: Engine)
    requires FreeInv(s)
    ensures FreeInv(Resume(s))
    ensures EngineInv(s) ==> EngineInv(Resume(s))
  {
  }

  lemma ReleaseKeeps(s: Engine, ms: int)
    requires FreeInv(s)
    ensures FreeInv(Release(s, ms))
    ensures EngineInv(s) ==> EngineInv(Release(s, ms))
  {
  }

  lemma TimerKeeps(s: Engine, id: nat)
    requires FreeInv(s) && id in s.host.timers && s.host.timers[id].due <= s.host.now
    ensures FreeInv(FireTimer(s, id))
    ensures EngineInv(s) ==> EngineInv(FireTimer(s, id))
  {
  }

  lemma WakeOffKeeps(s: Engine)
    requires FreeInv(s)
    ensures FreeInv(s.(wake := false))
    ensures CoreInv(s) ==> CoreInv(s.(wake := false))
  {
  }

  /** After a pass the slots it went over are clean or taken, and nothing was sent from clean ones. */
  lemma ScanKeeps(s: Engine, states: States, i: nat)
    requires i <= |s.slots| && FreeInv(s)
    ensures var p := Scan(s.slots, states, i);
      && FreeInv(s.(slots := p.slots)) && (CoreInv(s) ==> CoreInv(s.(slots := p.slots)))
      && (p.hit.Some? ==> !Held(s))
      && (p.hit.None? && i == 0 ==> !AnyDirty(p.slots))
  {
    ScanMeaning(s.slots, states, i);
  }

  lemma SendKeeps(s: Engine, id: nat, slots: seq<Slot>, k: nat, slot: Slot)
    requires FreeInv(s.(slots := slots)) && !Held(s) && id in s.host.tasks && !s.host.tasks[id].cancelled
    requires k < |slots| == |s.slots| && slot.pending.Some?
    ensures FreeInv(Send(s, id, slots, k, slot))
    ensures CoreInv(s.(slots := slots)) ==> EngineInv(Send(s, id, slots, k, slot))
  {
  }

  predicate IdleForLong(s: Engine, idleSince: Option<int>) {
    !s.active && idleSince.Some? && s.host.now - idleSince.value > CLASSIC_DRAIN_IDLE
  }

  lemma ExitKeeps(s: Engine, id: nat, idleSince: Option<int>)
    requires FreeInv(s) && id in s.host.tasks && !s.host.tasks[id].cancelled && IdleForLong(s, idleSince)
    ensures FreeInv(Settle(s, id, idleSince))
    ensures CoreInv(s) ==> EngineInv(Settle(s, id, idleSince))
  {
  }

  lemma ParkKeeps(s: Engine, id: nat, idleSince: Option<int>)
    requires FreeInv(s) && id in s.host.tasks && !s.host.tasks[id].cancelled && !AnyDirty(s.slots)
    requires !IdleForLong(s, idleSince)
    requires idleSince.Some? ==> idleSince.value <= s.host.now
    ensures FreeInv(Settle(s, id, idleSince))
    ensures CoreInv(s) ==> EngineInv(Settle(s, id, idleSince))
  {
  }

  lemma SettleKeeps(s: Engine, id: nat, idleSince: Option<int>)
    requires FreeInv(s) && id in s.host.tasks && !s.host.tasks[id].cancelled && !AnyDirty(s.slots)
    requires idleSince.Some? ==> idleSince.value <= s.host.now
    ensures FreeInv(Settle(s, id, idleSince))
    ensures CoreInv(s) ==> EngineInv(Settle(s, id, idleSince))
  {
    if IdleForLong(s, idleSince) {
      ExitKeeps(s, id, idleSince);
    } else {
      ParkKeeps(s, id, idleSince);
    }
  }

  lemma FullPassKeeps(s: Engine, id: nat, states: States, idleSince: Option<int>)
    requires FreeInv(s) && id in s.host.tasks && !s.host.tasks[id].cancelled
    requires idleSince.Some? ==> idleSince.value <= s.host.now
    ensures FreeInv(FullPass(s, id, states, idleSince))
    ensures CoreInv(s) ==> EngineInv(FullPass(s, id, states, idleSince))
  {
    var r := s.(wake := false);
    var p := Scan(r.slots, states, 0);
    WakeOffKeeps(s);
    ScanKeeps(r, states, 0);
    if p.hit.Some? {
      SendKeeps(r, id, p.slots, p.hit.value, s.slots[p.hit.value]);
    } else {
      SettleKeeps(r.(slots := p.slots), id, idleSince);
    }
  }

  lemma ScanThenSendKeeps(s: Engine, id: nat, states: States, start: nat)
    requires FreeInv(s) && DrainReady(s, id) && start <= |s.slots| && Scan(s.slots, states, start).hit.Some?
    ensures var p := Scan(s.slots, states, start);
      var r := Send(s, id, p.slots, p.hit.value, s.slots[p.hit.value]);
      FreeInv(r) && (CoreInv(s) ==> EngineInv(r))
  {
    var p := Scan(s.slots, states, start);
    ScanKeeps(s, states, start);
    SendKeeps(s, id, p.slots, p.hit.value, s.slots[p.hit.value]);
  }

  lemma ScanThenTurnKeeps(s: Engine, id: nat, states: States, start: nat)
    requires FreeInv(s) && DrainReady(s, id) && start <= |s.slots|
    ensures var r := FullPass(s.(slots := Scan(s.slots, states, start).slots), id, states, None);
      FreeInv(r) && (CoreInv(s) ==> EngineInv(r))
  {
    ScanKeeps(s, states, start);
    FullPassKeeps(s.(slots := Scan(s.slots, states, start).slots), id, states, None);
  }

  /** What the rest of a pass comes to. */
  function Continued(s: Engine, id: nat, states: States, start: nat): Engine
    requires start <= |s.slots|
  {
    var p := Scan(s.slots, states, start);
    if p.hit.Some? then Send(s, id, p.slots, p.hit.value, s.slots[p.hit.value])
    else FullPass(s.(slots := p.slots), id, states, None)
  }

  lemma ContinuedKeeps(s: Engine, id: nat, states: States, start: nat)
    requires FreeInv(s) && DrainReady(s, id) && start <= |s.slots|
    ensures FreeInv(Continued(s, id, states, start))
    ensures CoreInv(s) ==> EngineInv(Continued(s, id, states, start))
  {
    if Scan(s.slots, states, start).hit.Some? {
      ScanThenSendKeeps(s, id, states, start);
    } else {
      ScanThenTurnKeeps(s, id, states, start);
    }
  }

  lemma ResumedIsContinued(s: Engine, id: nat, states: States)
    requires DrainReady(s, id) && s.host.tasks[id].position.InFlight?
    ensures ResumeDrain(s, id, states) == Continued(s, id, states, s.host.tasks[id].position.light + 1)
  {
  }

  lemma ResumedIsTurn(s: Engine, id: nat, states: States)
    requires DrainReady(s, id) && !s.host.tasks[id].position.InFlight?
    ensures ResumeDrain(s, id, states) == FullPass(s, id, states, s.host.tasks[id].idleSince)
  {
  }

  lemma RestKeeps(s: Engine, r: Engine, id: nat, states: States, start: nat)
    requires FreeInv(s) && DrainReady(s, id) && start <= |s.slots| && r == Continued(s, id, states, start)
    ensures FreeInv(r)
    ensures CoreInv(s) ==> EngineInv(r)
  {
    ContinuedKeeps(s, id, states, start);
  }

  lemma TurnKeeps(s: Engine, r: Engine, id: nat, states: States, idleSince: Option<int>)
    requires FreeInv(s) && DrainReady(s, id) && (idleSince.Some? ==> idleSince.value <= s.host.now)
    requires r == FullPass(s, id, states, idleSince)
    ensures FreeInv(r)
    ensures CoreInv(s) ==> EngineInv(r)
  {
    FullPassKeeps(s, id, states, idleSince);
  }

  lemma DrainKeeps(s: Engine, id: nat, states: States)
    requires FreeInv(s) && DrainReady(s, id)
    ensures FreeInv(ResumeDrain(s, id, states))
    ensures EngineInv(s) ==> EngineInv(ResumeDrain(s, id, states))
  {
    var r := ResumeDrain(s, id, states);
    var task := s.host.tasks[id];
    if task.position.InFlight? {
      assert r == Continued(s, id, states, task.position.light + 1) by {
        ResumedIsContinued(s, id, states);
      }
      RestKeeps(s, r, id, states, task.position.light + 1);
    } else {
      assert r == FullPass(s, id, states, task.idleSince) by {
        ResumedIsTurn(s, id, states);
      }
      TurnKeeps(s, r, id, states, task.idleSince);
    }
  }

  lemma UnwindKeeps(s: Engine, id: nat)
    requires FreeInv(s) && id in s.host.tasks && s.host.tasks[id].cancelled
    ensures FreeInv(UnwindDrain(s, id))
    ensures EngineInv(s) ==> EngineInv(UnwindDrain(s, id))
  {
  }

  lemma TickKeeps(s: Engine, d: nat)
    requires FreeInv(s)
    ensures FreeInv(s.(host := s.host.(now := s.host.now + d)))
    ensures EngineInv(s) ==> EngineInv(s.(host := s.host.(now := s.host.now + d)))
  {
  }

  lemma CallPreserved(b: Bridge, e: Event, lag: nat)
    requires FreeInv(b.engine) && Enabled(b, e, lag) && IsCall(e)
    ensures FreeInv(Apply(b, e, lag).engine)
    ensures EngineInv(b.engine) && QuietTeardown(b, e) ==> EngineInv(Apply(b, e, lag).engine)
  {
    var s := b.engine;
    match e
    case PauseCall(ms) => PauseKeeps(s, ms);
    case ResumeCall => ResumeKeeps(s);
    case ReleaseCall(ms) => ReleaseKeeps(s, ms);
    case Start(_, states) => SnapshotKeeps(s, states);
    case TimerFires(id) => TimerKeeps(s, id);
    case _ => RestoreKeeps(s);
  }

  lemma InputPreserved(b: Bridge, e: Event, lag: nat)
    requires FreeInv(b.engine) && Enabled(b, e, lag) && (e.Frame? || e.Put?)
    ensures FreeInv(Apply(b, e, lag).engine)
    ensures EngineInv(b.engine) && QuietTeardown(b, e) ==> EngineInv(Apply(b, e, lag).engine)
  {
    match e
    case Frame(data) => FrameKeeps(b.engine, data);
    case Put(lightId, body) => CommandKeeps(b.engine, lightId, body);
  }

  lemma TaskPreserved(b: Bridge, e: Event, lag: nat)
    requires FreeInv(b.engine) && Enabled(b, e, lag) && !IsCall(e) && !e.Frame? && !e.Put?
    ensures FreeInv(Apply(b, e, lag).engine)
    ensures EngineInv(b.engine) && QuietTeardown(b, e) ==> EngineInv(Apply(b, e, lag).engine)
  {
    var s := b.engine;
    match e
    case DrainResumes(id, states) => DrainKeeps(s, id, states);
    case DrainUnwinds(id) => UnwindKeeps(s, id);
    case RestoreResumes(k) => ResumeRestoreKeeps(s, k);
    case Tick(d) => TickKeeps(s, d);
    case _ =>
  }

  /** Every event keeps the part that does not rest on quiet teardowns, and one with a quiet teardown keeps the rest. */
  lemma EngineInvPreserved(b: Bridge, e: Event, lag: nat)
    requires FreeInv(b.engine) && Enabled(b, e, lag)
    ensures FreeInv(Apply(b, e, lag).engine)
    ensures EngineInv(b.engine) && QuietTeardown(b, e) ==> EngineInv(Apply(b, e, lag).engine)
  {
    if IsCall(e) {
      CallPreserved(b, e, lag);
    } else if e.Frame? || e.Put? {
      InputPreserved(b, e, lag);
    } else {
      TaskPreserved(b, e, lag);
    }
  }

  // ---- the sensors, whatever happens ----

  lemma SnapshotTells(s: Engine, states: States)
    requires SensorInv(s)
    ensures SensorInv(SnapshotLights(s, states))
  {
  }

  lemma RestoreTells(s: Engine)
    requires SensorInv(s)
    ensures SensorInv(RestoreLights(s))
  {
  }

  lemma PauseExpiredTells(s: Engine)
    requires SensorInv(s)
    ensures SensorInv(PauseExpired(s))
  {
  }

  lemma GraceExpiredTells(s: Engine)
    requires SensorInv(s)
    ensures SensorInv(GraceExpired(s))
  {
  }

  lemma FiringTells(s: Engine, id: nat)
    requires SensorInv(s) && id in s.host.timers
    ensures SensorInv(FireTimer(s, id))
  {
    var r := s.(host := s.host.(timers := s.host.timers - {id}));
    if s.host.timers[id].PauseTimer? {
      PauseExpiredTells(r);
    } else {
      GraceExpiredTells(r);
    }
  }

  lemma PauseTells(s: Engine, ms: int)
    requires SensorInv(s)
    ensures SensorInv(Pause(s, ms)) && SensorInv(Resume(s)) && SensorInv(Release(s, ms))
  {
  }

  lemma SettleTells(s: Engine, id: nat, idleSince: Option<int>)
    requires SensorInv(s)
    ensures SensorInv(Settle(s, id, idleSince))
  {
  }

  lemma SendTells(s: Engine, id: nat, slots: seq<Slot>, k: nat, slot: Slot)
    requires SensorInv(s) && k < |slots| && slot.pending.Some?
    ensures SensorInv(Send(s, id, slots, k, slot))
  {
  }

  lemma TurnTells(s: Engine, r: Engine, id: nat, states: States, idleSince: Option<int>)
    requires SensorInv(s) && r == FullPass(s, id, states, idleSince)
    ensures SensorInv(r)
  {
    var w := s.(wake := false);
    var p := Scan(w.slots, states, 0);
    if p.hit.Some? {
      SendTells(w, id, p.slots, p.hit.value, s.slots[p.hit.value]);
    } else {
      SettleTells(w.(slots := p.slots), id, idleSince);
    }
  }

  lemma RestTells(s: Engine, r: Engine, id: nat, states: States, start: nat)
    requires SensorInv(s) && start <= |s.slots| && r == Continued(s, id, states, start)
    ensures SensorInv(r)
  {
    var p := Scan(s.slots, states, start);
    if p.hit.Some? {
      SendTells(s, id, p.slots, p.hit.value, s.slots[p.hit.value]);
    } else {
      TurnTells(s.(slots := p.slots), r, id, states, None);
    }
  }

  lemma DrainTells(s: Engine, id: nat, states: States)
    requires SensorInv(s) && DrainReady(s, id)
    ensures SensorInv(ResumeDrain(s, id, states))
  {
    var r := ResumeDrain(s, id, states);
    var task := s.host.tasks[id];
    if task.position.InFlight? {
      assert r == Continued(s, id, states, task.position.light + 1) by {
        ResumedIsContinued(s, id, states);
      }
      RestTells(s, r, id, states, task.position.light + 1);
    } else {
      assert r == FullPass(s, id, states, task.idleSince) by {
        ResumedIsTurn(s, id, states);
      }
      TurnTells(s, r, id, states, task.idleSince);
    }
  }

  lemma CallTells(b: Bridge, e: Event, lag: nat)
    requires SensorInv(b.engine) && Enabled(b, e, lag) && IsCall(e)
    ensures SensorInv(Apply(b, e, lag).engine)
  {
    match e
    case PauseCall(ms) => PauseTells(b.engine, ms);
    case ResumeCall => PauseTells(b.engine, 0);
    case ReleaseCall(ms) => PauseTells(b.engine, ms);
    case Start(_, states) => SnapshotTells(b.engine, states);
    case TimerFires(id) => FiringTells(b.engine, id);
    case _ => RestoreTells(b.engine);
  }

  /** Whatever changes the status is told, except to a session end that waits for its drain task. */
  lemma SensorPreserved(b: Bridge, e: Event, lag: nat)
    requires SensorInv(b.engine) && Enabled(b, e, lag)
    ensures SensorInv(Apply(b, e, lag).engine)
  {
    if IsCall(e) {
      CallTells(b, e, lag);
    } else if e.DrainResumes? {
      DrainTells(b.engine, e.task, e.states);
    }
  }

  // ---- the snapshot, as long as no session is started while one ends ----

  lemma StartSaves(s: Engine, states: States)
    requires SessionInv(s) && FreeInv(s) && s.host.awaiting == []
    ensures SessionInv(SnapshotLights(s, states))
  {
  }

  lemma RestoreSaves(s: Engine)
    requires SessionInv(s) && FreeInv(s)
    ensures SessionInv(RestoreLights(s))
  {
  }

  lemma ResumeRestoreSaves(s: Engine, k: nat)
    requires SessionInv(s) && k < |s.host.awaiting| && s.host.awaiting[k] !in s.host.tasks
    ensures SessionInv(ResumeRestore(s, k))
  {
  }

  lemma FiringSaves(s: Engine, id: nat)
    requires SessionInv(s) && FreeInv(s) && id in s.host.timers
    ensures SessionInv(FireTimer(s, id))
  {
  }

  lemma PauseSaves(s: Engine, ms: int)
    requires SessionInv(s) && FreeInv(s)
    ensures SessionInv(Pause(s, ms)) && SessionInv(Resume(s)) && SessionInv(Release(s, ms))
  {
  }

  lemma CallSaves(b: Bridge, e: Event, lag: nat)
    requires SessionInv(b.engine) && FreeInv(b.engine) && Enabled(b, e, lag) && QuietStart(b, e) && IsCall(e)
    ensures SessionInv(Apply(b, e, lag).engine)
  {
    match e
    case PauseCall(ms) => PauseSaves(b.engine, ms);
    case ResumeCall => PauseSaves(b.engine, 0);
    case ReleaseCall(ms) => PauseSaves(b.engine, ms);
    case Start(_, states) => StartSaves(b.engine, states);
    case TimerFires(id) => FiringSaves(b.engine, id);
    case _ => RestoreSaves(b.engine);
  }

  lemma SendSaves(s: Engine, id: nat, slots: seq<Slot>, k: nat, slot: Slot)
    requires SessionInv(s) && id in s.host.tasks && k < |slots| && slot.pending.Some?
    ensures SessionInv(Send(s, id, slots, k, slot))
  {
  }

  lemma SettleSaves(s: Engine, id: nat, idleSince: Option<int>)
    requires SessionInv(s) && id in s.host.tasks
    ensures SessionInv(Settle(s, id, idleSince))
  {
  }

  lemma TurnSaves(s: Engine, r: Engine, id: nat, states: States, idleSince: Option<int>)
    requires SessionInv(s) && id in s.host.tasks && r == FullPass(s, id, states, idleSince)
    ensures SessionInv(r)
  {
    var w := s.(wake := false);
    var p := Scan(w.slots, states, 0);
    if p.hit.Some? {
      SendSaves(w, id, p.slots, p.hit.value, s.slots[p.hit.value]);
    } else {
      SettleSaves(w.(slots := p.slots), id, idleSince);
    }
  }

  lemma RestSaves(s: Engine, r: Engine, id: nat, states: States, start: nat)
    requires SessionInv(s) && id in s.host.tasks && start <= |s.slots| && r == Continued(s, id, states, start)
    ensures SessionInv(r)
  {
    var p := Scan(s.slots, states, start);
    if p.hit.Some? {
      SendSaves(s, id, p.slots, p.hit.value, s.slots[p.hit.value]);
    } else {
      TurnSaves(s.(slots := p.slots), r, id, states, None);
    }
  }

  lemma DrainSaves(s: Engine, id: nat, states: States)
    requires SessionInv(s) && DrainReady(s, id)
    ensures SessionInv(ResumeDrain(s, id, states))
  {
    var r := ResumeDrain(s, id, states);
    var task := s.host.tasks[id];
    if task.position.InFlight? {
      assert r == Continued(s, id, states, task.position.light + 1) by {
        ResumedIsContinued(s, id, states);
      }
      RestSaves(s, r, id, states, task.position.light + 1);
    } else {
      assert r == FullPass(s, id, states, task.idleSince) by {
        ResumedIsTurn(s, id, states);
      }
      TurnSaves(s, r, id, states, task.idleSince);
    }
  }

  lemma PutSaves(s: Engine, lightId: nat, body: Body)
    requires SessionInv(s) && FreeInv(s)
    ensures SessionInv(HandleCommand(s, lightId, body))
  {
  }

  /** A snapshot is kept as long as no session is started while one ends; a drain loop may be. */
  lemma SessionPreserved(b: Bridge, e: Event, lag: nat)
    requires SessionInv(b.engine) && FreeInv(b.engine) && Enabled(b, e, lag) && QuietStart(b, e)
    ensures SessionInv(Apply(b, e, lag).engine)
  {
    match e
    case DrainResumes(id, states) => DrainSaves(b.engine, id, states);
    case Put(lightId, body) => PutSaves(b.engine, lightId, body);
    case RestoreResumes(k) => ResumeRestoreSaves(b.engine, k);
    case _ =>
      if IsCall(e) {
        CallSaves(b, e, lag);
      }
  }

  /** The API server agrees with the engine, whatever happens. */
  lemma ApiPreserved(b: Bridge, e: Event, lag: nat)
    requires ApiInv(b) && ReleaseInv(b.engine) && Enabled(b, e, lag)
    ensures ApiInv(Apply(b, e, lag))
  {
  }

  /** A session stays watched, unless it is started while the watchdog is giving the lights back. */
  lemma WatchPreserved(b: Bridge, e: Event, lag: nat)
    requires WatchInv(b) && Enabled(b, e, lag) && QuietWatchdog(b, e)
    ensures WatchInv(Apply(b, e, lag))
  {
  }

  lemma PunctualPreserved(b: Bridge, e: Event, lag: nat)
    requires Punctual(b.engine, lag) && Enabled(b, e, lag)
    ensures Punctual(Apply(b, e, lag).engine, lag)
  {
    if IsCall(e) {
      CallsFrame(b, e, lag);
    }
  }

  lemma InitialInv(lights: seq<Light>, now: nat, lag: nat)
    ensures var b := Initial(lights, now);
      && EngineInv(b.engine) && SessionInv(b.engine) && SensorInv(b.engine)
      && ApiInv(b) && WatchInv(b) && Punctual(b.engine, lag) && AllClean(b.engine.slots)
  {
    forall i | 0 <= i < |ById(lights)|
      ensures ById(lights)[i] == Fresh(ById(lights)[i].light)
    {
      SlotsAreFresh(lights, i);
    }
  }

  /** What holds at the end of every run, and what rests on quiet teardowns or quiet watchdogs. */
  lemma {:induction false} RunInv(b: Bridge, events: seq<Event>, lag: nat)
    requires FreeInv(b.engine) && Run(b, events, lag)
    ensures var r := Exec(b, events, lag);
      && FreeInv(r.engine)
      && (Punctual(b.engine, lag) ==> Punctual(r.engine, lag))
      && (SensorInv(b.engine) ==> SensorInv(r.engine))
      && (ApiInv(b) ==> ApiInv(r))
      && (WatchInv(b) && QuietWatchdogs(b, events, lag) ==> WatchInv(r))
      && (SessionInv(b.engine) && QuietStarts(b, events, lag) ==> SessionInv(r.engine))
      && (EngineInv(b.engine) && QuietTeardowns(b, events, lag) ==> EngineInv(r.engine))
    decreases |events|
  {
    if events != [] {
      var e := events[0];
      EngineInvPreserved(b, e, lag);
      if Punctual(b.engine, lag) {
        PunctualPreserved(b, e, lag);
      }
      if SensorInv(b.engine) {
        SensorPreserved(b, e, lag);
      }
      if SessionInv(b.engine) && QuietStart(b, e) {
        SessionPreserved(b, e, lag);
      }
      if ApiInv(b) {
        ApiPreserved(b, e, lag);
      }
      if WatchInv(b) && QuietWatchdog(b, e) {
        WatchPreserved(b, e, lag);
      }
      RunInv(Apply(b, e, lag), events[1..], lag);
    }
  }
}
