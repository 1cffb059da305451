/**
 The state of `EntertainmentEngine`, together with what it owns in the event loop, and what each of
 its callbacks and coroutine segments does to it. A segment runs from one suspension to the next, so
 nothing interleaves with it. `Engine.dfy` proves the imperative code equal to these functions; the
 other modules prove what holds of every run of them.
 */
module EngineModel {
  import opened Prelude
  import opened Constants
  import opened Commands
  import HueStream

  // ---- state ----

  /** A call scheduled with `async_call_later` that has neither fired nor been cancelled. */
  datatype Timer = PauseTimer(due: int) | GraceTimer(due: int)

  /** Where a drain task is suspended. */
  datatype Position = Created | InFlight(light: nat) | Parked(due: int)

  /** A drain task that has not finished. */
  datatype Task = Task(position: Position, idleSince: Option<int>, cancelled: bool)

  datatype Status = Idle | Streaming | Classic | Paused | Releasing

  datatype Published = Published(status: Status, driving: bool)

  /** What listeners were last told, and when. */
  datatype Notice = Notice(shown: Published, at: nat)

  /** A light service call that has been started. */
  datatype Sent = Sent(light: nat, service: Value, data: Command)

  type Snapshot = seq<string>

  /** The states Home Assistant holds, by entity id. */
  type States = map<string, string>

  /** The event loop as this engine uses it, and what the engine has done to the outside. */
  datatype Host = Host(now: nat, timers: map<nat, Timer>, tasks: map<nat, Task>, nextId: nat,
                       awaiting: seq<nat>,  // restores suspended until this drain task is done
                       published: Notice, sent: seq<Sent>, reproduced: seq<Snapshot>)

  datatype Engine = Engine(slots: seq<Slot>, active: bool, saved: Option<Snapshot>, lastFrame: int,
                           drainTask: Option<nat>, drainRunning: bool, wake: bool,
                           pausedUntil: Option<int>, pauseCancel: Option<nat>,
                           releasing: bool, forcing: bool, releaseCancel: Option<nat>,
                           host: Host)

  // ---- readers ----

  predicate IsPaused(s: Engine) { s.pausedUntil.Some? && s.host.now < s.pausedUntil.value }

  predicate Suppressed(s: Engine) { IsPaused(s) || s.releasing }

  /** What the status sensor and the binary sensor show. */
  function Show(releasing: bool, paused: bool, active: bool, draining: bool): Published {
    Published(if releasing then Releasing else if paused then Paused
              else if active then Streaming else if draining then Classic else Idle,
              !releasing && !paused && (active || draining))
  }

  /** The notice sent out now. */
  function Tell(now: nat, releasing: bool, paused: bool, active: bool, draining: bool): Notice {
    Notice(Show(releasing, paused, active, draining), now)
  }

  function Current(s: Engine): Published { Show(s.releasing, IsPaused(s), s.active, s.drainRunning) }

  // ---- timers ----

  function Without(timers: map<nat, Timer>, id: Option<nat>): map<nat, Timer> {
    if id.None? then timers else timers - {id.value}
  }

  // ---- helpers shared by the callbacks ----

  function FlushAll(slots: seq<Slot>): (r: seq<Slot>)
    ensures |r| == |slots|
    ensures forall i | 0 <= i < |r| :: r[i] == Flush(slots[i])
  {
    seq(|slots|, i requires 0 <= i < |slots| => Flush(slots[i]))
  }

  function Find(slots: seq<Slot>, channelId: nat): (r: Option<nat>)
    ensures r.Some? ==> r.value < |slots| && slots[r.value].light.channelId == channelId
    ensures r.Some? ==> forall i | 0 <= i < r.value :: slots[i].light.channelId != channelId
    ensures r.None? ==> forall i | 0 <= i < |slots| :: slots[i].light.channelId != channelId
  {
    if slots == [] then None
    else if slots[0].light.channelId == channelId then Some(0)
    else
      var r := Find(slots[1..], channelId);
      assert forall i | 1 <= i < |slots| :: slots[i] == slots[1..][i - 1];
      if r.None? then None else Some(r.value + 1)
  }

  predicate DistinctIds(slots: seq<Slot>) {
    forall i, j | 0 <= i < j < |slots| :: slots[i].light.channelId != slots[j].light.channelId
  }

  /** A dictionary entry is set: in the place of the one with that id, or at the end. */
  function Placed(slots: seq<Slot>, light: Light): (r: seq<Slot>)
    ensures DistinctIds(slots) ==> DistinctIds(r)
  {
    var k := Find(slots, light.channelId);
    if k.None? then slots + [Fresh(light)] else slots[k.value := Fresh(light)]
  }

  /** The mappings as a dictionary by channel id: a later light takes the place of an earlier one. */
  function ById(lights: seq<Light>): (r: seq<Slot>)
    ensures DistinctIds(r)
  {
    if lights == [] then [] else Placed(ById(lights[..|lights| - 1]), lights[|lights| - 1])
  }

  /** Every slot is a fresh one for a light that is configured. */
  lemma {:induction false} SlotsAreFresh(lights: seq<Light>, i: nat)
    requires i < |ById(lights)|
    ensures ById(lights)[i].light in lights && ById(lights)[i] == Fresh(ById(lights)[i].light)
  {
    var last := |lights| - 1;
    if ById(lights)[i] != Fresh(lights[last]) {
      SlotsAreFresh(lights[..last], i);
    }
  }

  /** Every light that is configured has a slot; for an id that is configured more than once it is the last one. */
  lemma {:induction false} LaterLightWins(lights: seq<Light>, k: nat) returns (i: nat)
    requires k < |lights| && forall j | k < j < |lights| :: lights[j].channelId != lights[k].channelId
    ensures i < |ById(lights)| && ById(lights)[i] == Fresh(lights[k])
  {
    var last := |lights| - 1;
    var at := Find(ById(lights[..last]), lights[last].channelId);
    if k == last {
      i := if at.None? then |ById(lights[..last])| else at.value;
    } else {
      i := LaterLightWins(lights[..last], k);
    }
  }

  /** Lights with different ids keep their order. */
  lemma {:induction false} LightsInOrder(lights: seq<Light>, k: nat)
    requires forall i, j | 0 <= i < j < |lights| :: lights[i].channelId != lights[j].channelId
    requires k < |lights|
    ensures |ById(lights)| == |lights| && ById(lights)[k] == Fresh(lights[k])
  {
    var last := |lights| - 1;
    var before := ById(lights[..last]);
    if last > 0 {
      LightsInOrder(lights[..last], if k < last then k else 0);
    }
    var at := Find(before, lights[last].channelId);
    if at.Some? {
      LightsInOrder(lights[..last], at.value);
      assert false;
    }
  }

  function EnsureDrain(s: Engine): Engine {
    if s.drainRunning then s
    else
      var id := s.host.nextId;
      s.(drainTask := Some(id), drainRunning := true,
         host := s.host.(tasks := s.host.tasks[id := Task(Created, None, false)], nextId := id + 1,
                         published := Tell(s.host.now, s.releasing, IsPaused(s), s.active, true)))
  }

  function CancelRelease(s: Engine): Engine {
    s.(releasing := false, forcing := false, releaseCancel := None,
       host := s.host.(timers := Without(s.host.timers, s.releaseCancel),
                       published := if s.releasing then Tell(s.host.now, false, IsPaused(s), s.active, s.drainRunning)
                                    else s.host.published))
  }

  function Resolved(ms: int): int { if ms > 0 then ms else DEFAULT_YIELD }

  // ---- frames and classic commands ----

  function ScheduleUpdate(slots: seq<Slot>, c: HueStream.Channel, colorSpace: int): (r: seq<Slot>)
    ensures |r| == |slots|
  {
    var k := Find(slots, c.id);
    if k.None? then slots else slots[k.value := Filter(slots[k.value], c, colorSpace)]
  }

  function ScheduleAll(slots: seq<Slot>, channels: seq<HueStream.Channel>, colorSpace: int): (r: seq<Slot>)
    ensures |r| == |slots|
  {
    if channels == [] then slots
    else
      var last := |channels| - 1;
      ScheduleUpdate(ScheduleAll(slots, channels[..last], colorSpace), channels[last], colorSpace)
  }

  /** Whether some channel of the list changes a light enough to be accepted. */
  predicate AnyAccepted(slots: seq<Slot>, channels: seq<HueStream.Channel>, colorSpace: int) {
    if channels == [] then false
    else
      var before, c := ScheduleAll(slots, channels[..|channels| - 1], colorSpace), channels[|channels| - 1];
      var k := Find(before, c.id);
      || AnyAccepted(slots, channels[..|channels| - 1], colorSpace)
      || (k.Some? && !WithinTolerance(before[k.value], c, colorSpace))
  }

  function HandleFrame(s: Engine, data: seq<HueStream.byte>): Engine {
    match HueStream.Parse(data)
    case None => s
    case Some(f) =>
      var counted := s.(lastFrame := if s.forcing then s.lastFrame else s.host.now);
      if Suppressed(s) then counted
      else counted.(slots := ScheduleAll(s.slots, f.channels, f.colorSpace),
                    wake := s.wake || AnyAccepted(s.slots, f.channels, f.colorSpace))
  }

  /** The merge a PUT comes to, or Ignored when it is dropped before reaching a slot. */
  function MergeInto(s: Engine, lightId: nat, body: Body): Merge {
    var k := Find(s.slots, lightId);
    if Suppressed(s) || k.None? then Ignored else MergeBody(s.slots[k.value], body)
  }

  function HandleCommand(s: Engine, lightId: nat, body: Body): Engine {
    match MergeInto(s, lightId, body)
    case Queued(slot) => EnsureDrain(s.(slots := s.slots[Find(s.slots, lightId).value := slot], wake := true))
    case _ => s
  }

  // ---- sessions ----

  function Capture(slots: seq<Slot>, states: States): Snapshot {
    if slots == [] then []
    else
      var last := |slots| - 1;
      var name := slots[last].light.entityId;
      Capture(slots[..last], states) + (if name in states then [states[name]] else [])
  }

  function LightsOf(slots: seq<Slot>): seq<Light> { seq(|slots|, i requires 0 <= i < |slots| => slots[i].light) }

  /** The entries of a snapshot are the states of the lights at these positions, which are all that are known. */
  predicate IsIndex(lights: seq<Light>, states: States, given: Snapshot, index: seq<nat>) {
    && |given| == |index|
    && (forall j | 0 <= j < |index| ::
          index[j] < |lights| && lights[index[j]].entityId in states && given[j] == states[lights[index[j]].entityId])
    && (forall j, k | 0 <= j < k < |index| :: index[j] < index[k])
    && (forall i | 0 <= i < |lights| :: lights[i].entityId in states ==> i in index)
  }

  /** One entry per light that Home Assistant knows, in order, each that light's state. */
  ghost predicate SnapshotOf(lights: seq<Light>, states: States, given: Snapshot) {
    exists index: seq<nat> :: IsIndex(lights, states, given, index)
  }

  lemma IndexGrows(lights: seq<Light>, light: Light, states: States, given: Snapshot, index: seq<nat>)
    requires IsIndex(lights, states, given, index)
    ensures light.entityId !in states ==> IsIndex(lights + [light], states, given, index)
    ensures light.entityId in states ==>
              IsIndex(lights + [light], states, given + [states[light.entityId]], index + [|lights|])
  {
    var all, more := lights + [light], index + [|lights|];
    assert more[|index|] == |lights|;
    forall i | 0 <= i < |all| && all[i].entityId in states
      ensures i in more && (light.entityId !in states ==> i in index)
    {
      if i < |lights| {
        assert lights[i].entityId in states;
        var j :| 0 <= j < |index| && index[j] == i;
        assert more[j] == i;
      }
    }
  }

  lemma {:induction false} CaptureIndex(slots: seq<Slot>, states: States) returns (index: seq<nat>)
    ensures IsIndex(LightsOf(slots), states, Capture(slots, states), index)
  {
    if slots == [] {
      return [];
    }
    var last := |slots| - 1;
    var before := CaptureIndex(slots[..last], states);
    IndexGrows(LightsOf(slots[..last]), slots[last].light, states, Capture(slots[..last], states), before);
    assert LightsOf(slots) == LightsOf(slots[..last]) + [slots[last].light];
    if slots[last].light.entityId in states {
      index := before + [last];
    } else {
      assert Capture(slots, states) == Capture(slots[..last], states);
      index := before;
    }
  }

  lemma CaptureIsSnapshot(slots: seq<Slot>, states: States)
    ensures SnapshotOf(LightsOf(slots), states, Capture(slots, states))
  {
    var index := CaptureIndex(slots, states);
  }

  /** A fresh session: no release is pending by now. */
  function OpenSession(s: Engine, captured: Snapshot): Engine {
    EnsureDrain(s.(saved := Some(captured), slots := FlushAll(s.slots), active := true, lastFrame := s.host.now,
                   host := s.host.(published := Tell(s.host.now, s.releasing, IsPaused(s), true, s.drainRunning))))
  }

  function SnapshotLights(s: Engine, states: States): Engine {
    if s.active && !s.releasing then s
    else OpenSession(if s.releasing then CancelRelease(s) else s, Capture(s.slots, states))
  }

  /** The last segment of a restore: no drain loop is left, and the saved states are given back. */
  function FinishRestore(s: Engine): Engine {
    var given := if s.saved.Some? && s.saved.value != [] then [s.saved.value] else [];
    s.(drainRunning := false, saved := None, slots := FlushAll(s.slots),
       host := s.host.(published := Tell(s.host.now, s.releasing, IsPaused(s), s.active, false),
                       reproduced := s.host.reproduced + given))
  }

  /** A restore up to its first suspension: cancel the drain task and wait for it, if there is one. */
  function RestoreLights(s: Engine): Engine {
    if !s.active then s
    else
      var r := CancelRelease(s.(active := false));
      if r.drainTask.Some? && r.drainTask.value in r.host.tasks then
        var id, h := r.drainTask.value, r.host;
        r.(host := h.(tasks := h.tasks[id := h.tasks[id].(cancelled := true)], awaiting := h.awaiting + [id]))
      else FinishRestore(r)
  }

  function ResumeRestore(s: Engine, k: nat): Engine
    requires k < |s.host.awaiting|
  {
    var h := s.host;
    FinishRestore(s.(drainTask := None, host := h.(awaiting := h.awaiting[..k] + h.awaiting[k + 1..])))
  }

  // ---- pause, resume, release and their timers ----

  function Pause(s: Engine, ms: int): Engine {
    if s.releasing then s
    else
      var due, id := s.host.now + Resolved(ms), s.host.nextId;
      s.(slots := FlushAll(s.slots), pausedUntil := Some(due), pauseCancel := Some(id),
         host := s.host.(timers := Without(s.host.timers, s.pauseCancel)[id := PauseTimer(due)], nextId := id + 1,
                         published := Tell(s.host.now, false, true, s.active, s.drainRunning)))
  }

  function Resume(s: Engine): Engine {
    if s.releasing || s.pausedUntil.None? then s
    else s.(pausedUntil := None, pauseCancel := None,
            host := s.host.(timers := Without(s.host.timers, s.pauseCancel),
                            published := Tell(s.host.now, false, false, s.active, s.drainRunning)))
  }

  function Release(s: Engine, ms: int): Engine {
    var due, id := s.host.now + Resolved(ms), s.host.nextId;
    s.(slots := FlushAll(s.slots), saved := None, pausedUntil := None, pauseCancel := None,
       releasing := true, forcing := false, releaseCancel := Some(id),
       host := s.host.(timers := Without(Without(s.host.timers, s.pauseCancel), s.releaseCancel)[id := GraceTimer(due)],
                       nextId := id + 1, published := Tell(s.host.now, true, false, s.active, s.drainRunning)))
  }

  function PauseExpired(s: Engine): Engine {
    s.(pausedUntil := None, pauseCancel := None,
       host := s.host.(published := Tell(s.host.now, s.releasing, false, s.active, s.drainRunning)))
  }

  /** With a session the release starts forcing its end; without one it is over. */
  function GraceExpired(s: Engine): Engine {
    if !s.releasing then s.(releaseCancel := None)
    else if s.active then
      s.(releaseCancel := None, forcing := true,
         host := s.host.(published := Tell(s.host.now, true, IsPaused(s), s.active, s.drainRunning)))
    else
      s.(releaseCancel := None, forcing := false, releasing := false,
         host := s.host.(published := Tell(s.host.now, false, IsPaused(s), s.active, s.drainRunning)))
  }

  function FireTimer(s: Engine, id: nat): Engine
    requires id in s.host.timers
  {
    var r := s.(host := s.host.(timers := s.host.timers - {id}));
    if s.host.timers[id].PauseTimer? then PauseExpired(r) else GraceExpired(r)
  }

  // ---- the drain loop ----

  predicate Available(slot: Slot, states: States) {
    slot.light.entityId in states ==> states[slot.light.entityId] != "unavailable"
  }

  /** What a pass over the slots from position `i` on comes to: the slots left, and the first to send. */
  datatype Pass = Pass(slots: seq<Slot>, hit: Option<nat>)

  function Scan(slots: seq<Slot>, states: States, i: nat): (p: Pass)
    requires i <= |slots|
    ensures |p.slots| == |slots|
    ensures p.hit.Some? ==> i <= p.hit.value < |slots|
    ensures p.hit.Some? ==> slots[p.hit.value].dirty && slots[p.hit.value].pending.Some?
    ensures p.hit.Some? ==> p.slots[p.hit.value] == Grab(slots[p.hit.value])
    decreases |slots| - i
  {
    if i == |slots| then Pass(slots, None)
    else if !slots[i].dirty then Scan(slots, states, i + 1)
    else
      var taken := slots[i := Grab(slots[i])];
      if slots[i].pending.Some? && Available(slots[i], states) then Pass(taken, Some(i))
      else Scan(taken, states, i + 1)
  }

  /** The fade of a stream command, in tenths of a second: the time since the light's last one, within bounds. */
  function Fade(lastSent: nat, now: nat): Value {
    Num(if lastSent == 0 then 0 else Clamp(1, 20, RoundRatio(now - lastSent, 100)))
  }

  /** The service data as sent; only a stream command gets its transition here. */
  function Outgoing(slot: Slot, now: nat): Command
    requires slot.pending.Some?
  {
    var data := slot.pending.value - {Service};
    if slot.explicit then data else data[Transition := Fade(slot.lastSent, now)]
  }

  /** A drain segment touches the slots, its own task, what is sent and shown, and nothing else. */
  predicate OnlyDrains(s: Engine, r: Engine) {
    && |r.slots| == |s.slots|
    && r == s.(slots := r.slots, wake := r.wake, drainRunning := r.drainRunning,
               host := s.host.(tasks := r.host.tasks, sent := r.host.sent, published := r.host.published))
  }

  /** The service a command asks for. */
  function ServiceOf(c: Command): Value { if Service in c then c[Service] else TurnOn }

  /** Start the call for the slot a pass ended at; `slot` is its content before the pass. */
  function Send(s: Engine, id: nat, slots: seq<Slot>, k: nat, slot: Slot): (r: Engine)
    requires k < |slots| && slot.pending.Some?
    ensures |slots| == |s.slots| ==> OnlyDrains(s, r)
    ensures id in r.host.tasks
  {
    var h := s.host;
    s.(slots := slots[k := slots[k].(lastSent := h.now)],
       host := h.(tasks := h.tasks[id := Task(InFlight(k), None, false)],
                  sent := h.sent + [Sent(k, ServiceOf(slot.pending.value), Outgoing(slot, h.now))]))
  }

  /** A pass found nothing to send: leave if classic mode has been idle for long enough, else park. */
  function Settle(s: Engine, id: nat, idleSince: Option<int>): (r: Engine)
    ensures OnlyDrains(s, r)
    ensures idleSince.None? ==> id in r.host.tasks
  {
    var h := s.host;
    if !s.active && idleSince.Some? && h.now - idleSince.value > CLASSIC_DRAIN_IDLE then
      s.(drainRunning := false,
         host := h.(tasks := h.tasks - {id}, published := Tell(h.now, s.releasing, IsPaused(s), s.active, false)))
    else
      var idle := if s.active || idleSince.Some? then idleSince else Some(h.now as int);
      s.(host := h.(tasks := h.tasks[id := Task(Parked(h.now + CLASSIC_DRAIN_IDLE), idle, false)]))
  }

  /** A full pass from the top of the loop. */
  function FullPass(s: Engine, id: nat, states: States, idleSince: Option<int>): (r: Engine)
    ensures OnlyDrains(s, r)
    ensures idleSince.None? ==> id in r.host.tasks
  {
    var p := Scan(s.slots, states, 0);
    var r := s.(wake := false);
    if p.hit.Some? then Send(r, id, p.slots, p.hit.value, s.slots[p.hit.value])
    else Settle(r.(slots := p.slots), id, idleSince)
  }

  predicate DrainReady(s: Engine, id: nat) {
    && id in s.host.tasks && !s.host.tasks[id].cancelled
    && match s.host.tasks[id].position
       case Created => true
       case InFlight(k) => k < |s.slots|
       case Parked(due) => s.wake || due <= s.host.now
  }

  /** One segment of a drain task: from the start, a finished call or a wake-up to the next suspension. */
  function ResumeDrain(s: Engine, id: nat, states: States): (r: Engine)
    requires DrainReady(s, id)
    ensures OnlyDrains(s, r)
    ensures s.host.tasks[id].position.InFlight? ==> id in r.host.tasks
  {
    var task := s.host.tasks[id];
    match task.position
    case InFlight(k) =>
      var p := Scan(s.slots, states, k + 1);
      if p.hit.Some? then Send(s, id, p.slots, p.hit.value, s.slots[p.hit.value])
      else FullPass(s.(slots := p.slots), id, states, None)
    case _ => FullPass(s, id, states, task.idleSince)
  }

  /** A cancelled drain task ends; its `finally` runs only if it had started. */
  function UnwindDrain(s: Engine, id: nat): Engine
    requires id in s.host.tasks
  {
    var started := !s.host.tasks[id].position.Created?;
    s.(drainRunning := s.drainRunning && !started,
       host := s.host.(tasks := s.host.tasks - {id},
                       published := if started then Tell(s.host.now, s.releasing, IsPaused(s), s.active, false)
                                    else s.host.published))
  }
}
