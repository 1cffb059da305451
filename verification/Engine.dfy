/**
 `EntertainmentEngine` as the imperative code it is. Every method is proved equal to its function in
 EngineModel, on the whole state.
 */
module EngineClass {
  import opened Prelude
  import opened Constants
  import opened Commands
  import opened EngineModel
  import HueStream

  /** The part of Home Assistant's event loop the engine talks to. */
  class EventLoop {
    var now: nat
    var timers: map<nat, Timer>
    var tasks: map<nat, Task>
    var nextId: nat
    var awaiting: seq<nat>
    var published: Notice
    var sent: seq<Sent>
    var reproduced: seq<Snapshot>

    constructor (now: nat)
      ensures View() == Host(now, map[], map[], 0, [], Notice(Published(Idle, false), 0), [], [])
    {
      this.now := now;
      timers, tasks, nextId, awaiting := map[], map[], 0, [];
      published, sent, reproduced := Notice(Published(Idle, false), 0), [], [];
    }

    function View(): Host
      reads this
    {
      Host(now, timers, tasks, nextId, awaiting, published, sent, reproduced)
    }

    method AsyncCallLater(timer: Timer) returns (cancel: nat)
      modifies this`timers, this`nextId
      ensures cancel == old(nextId) && nextId == old(nextId) + 1
      ensures timers == old(timers)[cancel := timer]
    {
      cancel := nextId;
      timers := timers[nextId := timer];
      nextId := nextId + 1;
    }

    method Cancel(cancel: Option<nat>)
      modifies this`timers
      ensures timers == Without(old(timers), cancel)
    {
      if cancel.Some? {
        timers := timers - {cancel.value};
      }
    }
  }

  /** What a pause and a release begin with. */
  function Dropped(s: Engine): Engine {
    s.(slots := FlushAll(s.slots), pausedUntil := None, pauseCancel := None,
       host := s.host.(timers := Without(s.host.timers, s.pauseCancel)))
  }

  /** What a pause comes to after that. */
  function Suspended(s: Engine, due: int): Engine {
    var id := s.host.nextId;
    s.(pausedUntil := Some(due), pauseCancel := Some(id),
       host := s.host.(timers := s.host.timers[id := PauseTimer(due)], nextId := id + 1,
                       published := Tell(s.host.now, false, true, s.active, s.drainRunning)))
  }

  class EntertainmentEngine {
    const loop: EventLoop
    /** A dictionary by channel id: `ById` leaves one record per id, and none is ever added or removed. */
    var mappings: array<Slot>
    var active: bool
    var savedStates: Option<Snapshot>
    var lastFrameTime: int
    var drainTask: Option<nat>
    var drainRunning: bool
    var wake: bool
    var pausedUntil: Option<int>
    var pauseCancel: Option<nat>
    var releasing: bool
    var releaseForcing: bool
    var releaseCancel: Option<nat>

    ghost function State(): Engine
      reads this, loop, mappings
    {
      Engine(mappings[..], active, savedStates, lastFrameTime, drainTask, drainRunning, wake,
             pausedUntil, pauseCancel, releasing, releaseForcing, releaseCancel, loop.View())
    }

    constructor (loop: EventLoop, lights: seq<Light>)
      ensures this.loop == loop
      ensures State() == Engine(ById(lights), false, None, 0, None, false, false, None, None,
                                false, false, None, loop.View())
    {
      this.loop := loop;
      var byId := ById(lights);
      mappings := new Slot[|byId|](i requires 0 <= i < |byId| => byId[i]);
      active, savedStates, lastFrameTime := false, None, 0;
      drainTask, drainRunning, wake := None, false, false;
      pausedUntil, pauseCancel := None, None;
      releasing, releaseForcing, releaseCancel := false, false, None;
      new;
      assert mappings[..] == byId;
    }

    /** Dictionary lookup. */
    method FindMapping(channelId: nat) returns (k: Option<nat>)
      ensures k == Find(mappings[..], channelId)
    {
      for n := 0 to mappings.Length
        invariant forall i | 0 <= i < n :: mappings[i].light.channelId != channelId
      {
        if mappings[n].light.channelId == channelId {
          return Some(n);
        }
      }
      k := None;
    }

    // ---- the status properties ----

    predicate PausedNow()
      reads this, loop, mappings
      ensures PausedNow() == IsPaused(State())
    {
      pausedUntil.Some? && loop.now < pausedUntil.value
    }

    predicate SuppressedNow()
      reads this, loop, mappings
      ensures SuppressedNow() == Suppressed(State())
    {
      PausedNow() || releasing
    }

    predicate IsDrivingLights()
      reads this, loop, mappings
      ensures IsDrivingLights() == Current(State()).driving
    {
      !SuppressedNow() && (active || drainRunning)
    }

    function CurrentStatus(): (r: Status)
      reads this, loop, mappings
      ensures r == Current(State()).status
    {
      if releasing then Releasing
      else if PausedNow() then Paused
      else if active then Streaming
      else if drainRunning then Classic
      else Idle
    }

    method NotifyListeners()
      modifies loop`published
      ensures State() == old(State()).(host := old(loop.View()).(
                published := Notice(Current(old(State())), loop.now)))
    {
      loop.published := Notice(Published(CurrentStatus(), IsDrivingLights()), loop.now);
    }

    method ResetMappings()
      modifies mappings
      ensures mappings[..] == FlushAll(old(mappings[..]))
    {
      for n := 0 to mappings.Length
        invariant forall i | 0 <= i < n :: mappings[i] == Flush(old(mappings[i]))
        invariant forall i | n <= i < mappings.Length :: mappings[i] == old(mappings[i])
      {
        mappings[n] := mappings[n].(dirty := false, pending := None,
                                    lastR := -1, lastG := -1, lastB := -1, lastSent := 0);
      }
    }

    method EnsureDrainTask()
      modifies this`drainTask, this`drainRunning, loop`tasks, loop`nextId, loop`published
      ensures State() == EnsureDrain(old(State()))
    {
      if !drainRunning {
        var id := loop.nextId;
        loop.tasks := loop.tasks[id := Task(Created, None, false)];
        loop.nextId := id + 1;
        drainTask := Some(id);
        drainRunning := true;
        NotifyListeners();
      }
    }

    method CancelPauseTimer()
      modifies this`pausedUntil, this`pauseCancel, loop`timers
      ensures pausedUntil == None && pauseCancel == None
      ensures loop.timers == Without(old(loop.timers), old(pauseCancel))
    {
      pausedUntil := None;
      loop.Cancel(pauseCancel);
      pauseCancel := None;
    }

    method CancelPendingRelease()
      modifies this`releasing, this`releaseForcing, this`releaseCancel, loop`timers, loop`published
      ensures State() == CancelRelease(old(State()))
    {
      var wasReleasing := releasing;
      releasing := false;
      releaseForcing := false;
      loop.Cancel(releaseCancel);
      releaseCancel := None;
      if wasReleasing {
        NotifyListeners();
      }
    }

    // ---- frames and classic commands ----

    method ScheduleChannel(channel: HueStream.Channel, colorSpace: int)
      modifies this`wake, mappings
      ensures mappings[..] == ScheduleUpdate(old(mappings[..]), channel, colorSpace)
      ensures wake && !old(wake) ==>
                exists i | 0 <= i < mappings.Length ::
                  && mappings[i].light.channelId == channel.id && mappings[i].dirty && mappings[i].pending.Some?
                  && Asks(mappings[i].pending.value, mappings[i].light, channel, colorSpace)
      ensures var k := Find(old(mappings[..]), channel.id);
        wake == (old(wake) || (k.Some? && !WithinTolerance(old(mappings[..])[k.value], channel, colorSpace)))
    {
      var k := FindMapping(channel.id);
      if k.None? {
        return;
      }
      var m := mappings[k.value];
      if WithinTolerance(m, channel, colorSpace) {
        return;
      }
      mappings[k.value] := m.(lastR := channel.r, lastG := channel.g, lastB := channel.b,
                              pending := Some(StreamCommand(m.light, channel, colorSpace)), dirty := true);
      StreamCommandAsks(m.light, channel, colorSpace);
      wake := true;
    }

    method OnFrame(data: seq<HueStream.byte>)
      modifies this, mappings
      ensures mappings == old(mappings)
      ensures State() == HandleFrame(old(State()), data)
      ensures old(releasing || (pausedUntil.Some? && loop.now < pausedUntil.value)) ==>
                mappings[..] == old(mappings[..]) && wake == old(wake)
    {
      var parsed := HueStream.ParseFrame(data);
      if parsed.None? {
        return;
      }
      if !releaseForcing {
        lastFrameTime := loop.now;
      }
      if SuppressedNow() {
        return;
      }
      ScheduleChannels(parsed.value.channels, parsed.value.colorSpace);
    }

    method ScheduleChannels(channels: seq<HueStream.Channel>, colorSpace: int)
      modifies this`wake, mappings
      ensures mappings[..] == ScheduleAll(old(mappings[..]), channels, colorSpace)
      ensures wake == (old(wake) || AnyAccepted(old(mappings[..]), channels, colorSpace))
    {
      for n := 0 to |channels|
        invariant mappings[..] == ScheduleAll(old(mappings[..]), channels[..n], colorSpace)
        invariant wake == (old(wake) || AnyAccepted(old(mappings[..]), channels[..n], colorSpace))
      {
        ScheduleChannel(channels[n], colorSpace);
        assert channels[..n + 1][..n] == channels[..n];
      }
      assert channels[..|channels|] == channels;
    }

    /** What merging a PUT body into a record comes to. */
    method MergePending(m: Slot, body: Body) returns (merge: Merge)
      ensures merge == MergeBody(m, body)
    {
      var data := Translate(body);
      if data.None? {
        return Raised;
      }
      if data.value == map[] {
        return Ignored;
      }
      var pending: Command := if m.dirty && m.pending.Some? && m.explicit then m.pending.value else map[];
      if IsOff(data.value) {
        pending := map[];
      } else if IsOff(pending) {
        if body.on != Some(true) {
          return Ignored;
        }
        pending := map[];
      }
      pending := pending + data.value;
      pending := pending[EntityId := Name(m.light.entityId)];
      merge := Queued(m.(pending := Some(pending), explicit := true, dirty := true));
    }

    method HandleLightCommand(lightId: nat, body: Body)
      modifies this, loop, mappings
      ensures mappings == old(mappings)
      ensures State() == HandleCommand(old(State()), lightId, body)
      ensures old(releasing || (pausedUntil.Some? && loop.now < pausedUntil.value)) ==> State() == old(State())
    {
      if SuppressedNow() {
        return;
      }
      var k := FindMapping(lightId);
      if k.None? {
        return;
      }
      var merge := MergePending(mappings[k.value], body);
      if !merge.Queued? {
        return;
      }
      mappings[k.value] := merge.slot;
      wake := true;
      EnsureDrainTask();
    }

    // ---- sessions ----

    method CaptureStates(states: States) returns (captured: Snapshot)
      ensures captured == Capture(mappings[..], states)
      ensures SnapshotOf(LightsOf(mappings[..]), states, captured)
    {
      captured := [];
      for n := 0 to mappings.Length
        invariant captured == Capture(mappings[..n], states)
      {
        assert mappings[..n + 1][..n] == mappings[..n];
        var name := mappings[n].light.entityId;
        if name in states {
          captured := captured + [states[name]];
        }
      }
      assert mappings[..mappings.Length] == mappings[..];
      CaptureIsSnapshot(mappings[..], states);
    }

    method AsyncSnapshotLights(states: States)
      modifies this, loop, mappings
      ensures mappings == old(mappings)
      ensures State() == SnapshotLights(old(State()), states)
    {
      if releasing {
        CancelPendingRelease();
      } else if active {
        return;
      }
      var captured := CaptureStates(states);
      BeginSession(captured);
    }

    method BeginSession(captured: Snapshot)
      modifies this, loop, mappings
      ensures mappings == old(mappings)
      ensures State() == OpenSession(old(State()), captured)
    {
      savedStates := Some(captured);
      ResetMappings();
      active := true;
      lastFrameTime := loop.now;
      NotifyListeners();
      EnsureDrainTask();
    }

    method FinishRestoring()
      modifies this, loop, mappings
      ensures mappings == old(mappings)
      ensures State() == FinishRestore(old(State()))
    {
      drainRunning := false;
      NotifyListeners();
      var saved := savedStates;
      savedStates := None;
      ResetMappings();
      if saved.Some? && saved.value != [] {
        loop.reproduced := loop.reproduced + [saved.value];
      }
    }

    method AsyncRestoreLights()
      modifies this, loop, mappings
      ensures mappings == old(mappings)
      ensures State() == RestoreLights(old(State()))
    {
      if !active {
        return;
      }
      active := false;
      CancelPendingRelease();
      if drainTask.Some? && drainTask.value in loop.tasks {
        var id := drainTask.value;
        loop.tasks := loop.tasks[id := loop.tasks[id].(cancelled := true)];
        loop.awaiting := loop.awaiting + [id];
      } else {
        FinishRestoring();
      }
    }

    method AsyncRestoreLightsResumed(k: nat)
      requires k < |loop.awaiting|
      modifies this, loop, mappings
      ensures mappings == old(mappings)
      ensures State() == ResumeRestore(old(State()), k)
    {
      loop.awaiting := loop.awaiting[..k] + loop.awaiting[k + 1..];
      drainTask := None;
      FinishRestoring();
    }

    // ---- pause, resume, release ----

    /** Both pause and release begin by ending the pause in progress and dropping what is queued. */
    method DropQueued()
      modifies this`pausedUntil, this`pauseCancel, loop`timers, mappings
      ensures State() == Dropped(old(State()))
    {
      CancelPauseTimer();
      ResetMappings();
    }

    method AsyncPause(ms: int)
      modifies this, loop, mappings
      ensures mappings == old(mappings)
      ensures State() == Pause(old(State()), ms)
    {
      if releasing {
        return;
      }
      DropQueued();
      var resolved := if ms > 0 then ms else DEFAULT_YIELD;
      BeginPause(resolved);
    }

    method BeginPause(resolved: int)
      requires resolved > 0 && !releasing
      modifies this`pausedUntil, this`pauseCancel, loop`timers, loop`nextId, loop`published
      ensures State() == Suspended(old(State()), loop.now + resolved)
    {
      pausedUntil := Some(loop.now + resolved);
      NotifyListeners();
      var cancel := loop.AsyncCallLater(PauseTimer(loop.now + resolved));
      pauseCancel := Some(cancel);
    }

    method AsyncResume()
      modifies this, loop
      ensures mappings == old(mappings)
      ensures State() == Resume(old(State()))
    {
      if releasing || pausedUntil.None? {
        return;
      }
      CancelPauseTimer();
      NotifyListeners();
    }

    method AsyncRelease(ms: int)
      modifies this, loop, mappings
      ensures mappings == old(mappings)
      ensures State() == Release(old(State()), ms)
    {
      DropQueued();
      var resolved := if ms > 0 then ms else DEFAULT_YIELD;
      BeginRelease(resolved);
    }

    method BeginRelease(resolved: int)
      modifies this`savedStates, this`releasing, this`releaseForcing, this`releaseCancel,
               loop`timers, loop`nextId, loop`published
      ensures savedStates == None && releasing && !releaseForcing && releaseCancel == Some(old(loop.nextId))
      ensures loop.View() == old(loop.View()).(
                timers := Without(old(loop.timers), old(releaseCancel))
                            [old(loop.nextId) := GraceTimer(loop.now + resolved)],
                nextId := old(loop.nextId) + 1, published := Tell(loop.now, true, false, active, drainRunning))
    {
      savedStates := None;
      releasing := true;
      releaseForcing := false;
      NotifyListeners();
      loop.Cancel(releaseCancel);
      var cancel := loop.AsyncCallLater(GraceTimer(loop.now + resolved));
      releaseCancel := Some(cancel);
    }

    method OnPauseExpired()
      modifies this, loop
      ensures mappings == old(mappings)
      ensures State() == PauseExpired(old(State()))
    {
      pausedUntil := None;
      pauseCancel := None;
      NotifyListeners();
    }

    method OnReleaseGraceExpired()
      modifies this, loop
      ensures mappings == old(mappings)
      ensures State() == GraceExpired(old(State()))
    {
      releaseCancel := None;
      if !releasing {
        return;
      }
      if !active {
        CancelPendingRelease();
        return;
      }
      releaseForcing := true;
      NotifyListeners();
    }

    /** The event loop runs a due timer: it is gone from the schedule before its callback runs. */
    method TimerFires(id: nat)
      requires id in loop.timers
      modifies this, loop
      ensures mappings == old(mappings)
      ensures State() == FireTimer(old(State()), id)
    {
      var timer := loop.timers[id];
      loop.timers := loop.timers - {id};
      if timer.PauseTimer? {
        OnPauseExpired();
      } else {
        OnReleaseGraceExpired();
      }
    }

    // ---- the drain loop ----

    /** The `for` loop from position `start` up to its first `await`, or to its end. */
    method DrainPass(start: nat, states: States) returns (hit: Option<nat>, data: Command, explicit: bool)
      requires start <= mappings.Length
      modifies mappings
      ensures Pass(mappings[..], hit) == Scan(old(mappings[..]), states, start)
      ensures hit.Some? ==> data == old(mappings[..])[hit.value].pending.value
      ensures hit.Some? ==> explicit == old(mappings[..])[hit.value].explicit
      ensures hit.Some? ==> Clean(mappings[hit.value]) && !mappings[hit.value].explicit
    {
      hit, data, explicit := None, map[], false;
      var n := start;
      while n < mappings.Length
        invariant start <= n <= mappings.Length
        invariant Scan(mappings[..], states, n) == Scan(old(mappings[..]), states, start)
        invariant forall i | n <= i < mappings.Length :: mappings[i] == old(mappings[i])
      {
        var m := mappings[n];
        ghost var slots := mappings[..];
        if m.dirty {
          mappings[n] := m.(dirty := false, pending := None, explicit := false);
          assert mappings[..] == slots[n := Grab(m)];
          if m.pending.Some? && Available(m, states) {
            return Some(n), m.pending.value, m.explicit;
          }
        }
        n := n + 1;
      }
    }

    /** Start the service call of a hit and suspend on it; `slot` is what the pass took it from. */
    method SendCommand(id: nat, k: nat, pending: Command, explicit: bool, ghost slot: Slot)
      requires k < mappings.Length && slot.lastSent == mappings[k].lastSent
      requires slot.pending == Some(pending) && slot.explicit == explicit
      modifies loop`sent, loop`tasks, mappings
      ensures State() == Send(old(State()), id, old(mappings[..]), k, slot)
    {
      var m := mappings[k];
      var now := loop.now;
      var service := if Service in pending then pending[Service] else TurnOn;
      var data := pending - {Service};
      if !explicit {
        var tenths := if m.lastSent > 0 then Clamp(1, 20, RoundRatio(now - m.lastSent, 100)) else 0;
        data := data[Transition := Num(tenths)];
      }
      mappings[k] := m.(lastSent := now);
      loop.sent := loop.sent + [Sent(k, service, data)];
      loop.tasks := loop.tasks[id := Task(InFlight(k), None, false)];
    }

    /** The end of a pass that sent nothing: leave when classic mode has been idle long enough, else park. */
    method ParkOrExit(id: nat, idleSince: Option<int>)
      modifies this`drainRunning, loop`tasks, loop`published
      ensures State() == Settle(old(State()), id, idleSince)
    {
      var idle := idleSince;
      if !active {
        if idle.None? {
          idle := Some(loop.now);
        } else if loop.now - idle.value > CLASSIC_DRAIN_IDLE {
          loop.tasks := loop.tasks - {id};
          drainRunning := false;
          NotifyListeners();
          return;
        }
      }
      loop.tasks := loop.tasks[id := Task(Parked(loop.now + CLASSIC_DRAIN_IDLE), idle, false)];
    }

    /** One turn of the `while` loop from its top. */
    method DrainTurn(id: nat, states: States, idleSince: Option<int>)
      modifies this, loop, mappings
      ensures mappings == old(mappings)
      ensures State() == FullPass(old(State()), id, states, idleSince)
    {
      wake := false;
      var hit, data, explicit := DrainPass(0, states);
      if hit.Some? {
        SendCommand(id, hit.value, data, explicit, old(mappings[..])[hit.value]);
      } else {
        ParkOrExit(id, idleSince);
      }
    }

    /**
     One segment of `_drain_loop`: resumed where it was suspended, run to its next suspension or its end.
     A turn that has sent something is followed by another; one that has not suspends or ends.
     */
    method DrainLoopSegment(id: nat, states: States)
      requires DrainReady(State(), id)
      modifies this, loop, mappings
      ensures mappings == old(mappings)
      ensures State() == ResumeDrain(old(State()), id, states)
    {
      var task := loop.tasks[id];
      if task.position.InFlight? {
        var hit, data, explicit := DrainPass(task.position.light + 1, states);
        if hit.Some? {
          SendCommand(id, hit.value, data, explicit, old(mappings[..])[hit.value]);
        } else {
          DrainTurn(id, states, None);
        }
      } else {
        DrainTurn(id, states, task.idleSince);
      }
    }

    /** A cancelled drain task unwinds. */
    method DrainLoopCancelled(id: nat)
      requires id in loop.tasks
      modifies this, loop
      ensures mappings == old(mappings)
      ensures State() == UnwindDrain(old(State()), id)
    {
      var started := !loop.tasks[id].position.Created?;
      loop.tasks := loop.tasks - {id};
      if started {
        drainRunning := false;
        NotifyListeners();
      }
    }
  }
}
