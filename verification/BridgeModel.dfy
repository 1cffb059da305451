/**
 The engine with the wiring that drives it: the API server's stream flag and owner, the frame watchdog,
 and time. An event is one callback or one coroutine segment; `Apply` is what it does.
 */
module BridgeModel {
  import opened Prelude
  import opened Constants
  import opened Commands
  import opened EngineModel
  import HueStream

  /**
   What `watchdog_task` holds; Off covers both None and a finished coroutine. A watchdog that ends a session waits
   for the drain task first, if there is one, and then for the lights.
   */
  datatype Watchdog = Off | Booting(since: int) | Sleeping(due: int) | Restoring(drain: Option<nat>)

  datatype Bridge = Bridge(engine: Engine, apiActive: bool, owner: Option<string>, watchdog: Watchdog)

  datatype Event =
    | Frame(data: seq<HueStream.byte>)
    | Put(lightId: nat, body: Body)
    | Start(user: string, states: States)
    | Stop
    | PauseCall(ms: int)
    | ResumeCall
    | ReleaseCall(ms: int)
    | TimerFires(timer: nat)
    | WatchdogBoots
    | WatchdogPolls
    | WatchdogRestored
    | DrainResumes(task: nat, states: States)
    | DrainUnwinds(task: nat)
    | RestoreResumes(k: nat)
    | Tick(d: nat)

  function Initial(lights: seq<Light>, now: nat): Bridge {
    Bridge(Engine(ById(lights), false, None, 0, None, false, false, None, None, false, false, None,
                  Host(now, map[], map[], 0, [], Notice(Published(Idle, false), 0), [], [])),
           false, None, Off)
  }

  /** The watchdog stops a session that has had no counted frame for longer than the timeout. */
  predicate TimedOut(s: Engine) { s.host.now - s.lastFrame > FRAME_TIMEOUT }

  /**
   When an event can happen. Time passes a due callback by at most `lag`, the longest the event loop
   keeps one waiting; no bound on `lag` is assumed.
   */
  predicate Enabled(b: Bridge, e: Event, lag: nat) {
    var s := b.engine;
    match e
    case PauseCall(ms) => 0 <= ms <= MAX_YIELD
    case ReleaseCall(ms) => 0 <= ms <= MAX_YIELD
    case TimerFires(id) => id in s.host.timers && s.host.timers[id].due <= s.host.now
    case WatchdogBoots => b.watchdog.Booting?
    case WatchdogPolls => b.watchdog.Sleeping? && b.watchdog.due <= s.host.now
    case WatchdogRestored => b.watchdog == Restoring(None)
    case DrainResumes(id, _) => DrainReady(s, id)
    case DrainUnwinds(id) => id in s.host.tasks && s.host.tasks[id].cancelled
    case RestoreResumes(k) => k < |s.host.awaiting| && s.host.awaiting[k] !in s.host.tasks
    case Tick(d) => CanPass(b, d, lag)
    case _ => true
  }

  predicate CanPass(b: Bridge, d: nat, lag: nat) {
    var now := b.engine.host.now + d;
    && (forall id <- b.engine.host.timers :: now <= b.engine.host.timers[id].due + lag)
    && (b.watchdog.Booting? ==> now <= b.watchdog.since + lag)
    && (b.watchdog.Sleeping? ==> now <= b.watchdog.due + lag)
  }

  function StartSession(b: Bridge, user: string, states: States): Bridge {
    Bridge(SnapshotLights(b.engine, states), true, Some(user),
           if b.watchdog.Off? then Booting(b.engine.host.now) else b.watchdog)
  }

  function StopSession(b: Bridge, watchdog: Watchdog): Bridge {
    Bridge(RestoreLights(b.engine), false, None, watchdog)
  }

  /** Where a restore leaves the watchdog that asked for it, by what it waits for, if anything. */
  function WaitsFor(before: Host, after: Host, drain: Option<nat>): Watchdog {
    if after.awaiting != before.awaiting then Restoring(drain)
    else if after.reproduced != before.reproduced then Restoring(None)
    else Off
  }

  function Poll(b: Bridge): Bridge {
    if !b.engine.active then b.(watchdog := Off)
    else if TimedOut(b.engine) then
      StopSession(b, WaitsFor(b.engine.host, RestoreLights(b.engine).host, b.engine.drainTask))
    else b.(watchdog := Sleeping(b.engine.host.now + FRAME_WATCHDOG_INTERVAL))
  }

  /** A restore goes on, and with it the watchdog if it is the one that asked for it. */
  function RestoreResumed(b: Bridge, k: nat): Bridge
    requires k < |b.engine.host.awaiting|
  {
    var h, r := b.engine.host, ResumeRestore(b.engine, k);
    b.(engine := r,
       watchdog := if b.watchdog != Restoring(Some(h.awaiting[k])) then b.watchdog
                   else if r.host.reproduced != h.reproduced then Restoring(None)
                   else Off)
  }

  function Apply(b: Bridge, e: Event, lag: nat): Bridge
    requires Enabled(b, e, lag)
  {
    var s := b.engine;
    match e
    case Frame(data) => b.(engine := HandleFrame(s, data))
    case Put(lightId, body) => b.(engine := HandleCommand(s, lightId, body))
    case Start(user, states) => StartSession(b, user, states)
    case Stop => StopSession(b, Off)
    case PauseCall(ms) => b.(engine := Pause(s, ms))
    case ResumeCall => b.(engine := Resume(s))
    case ReleaseCall(ms) => Bridge(Release(s, ms), false, None, b.watchdog)
    case TimerFires(id) => b.(engine := FireTimer(s, id))
    case WatchdogBoots =>
      b.(watchdog := if s.active then Sleeping(s.host.now + FRAME_WATCHDOG_INTERVAL) else Off)
    case WatchdogPolls => Poll(b)
    case WatchdogRestored => b.(watchdog := Off)
    case DrainResumes(id, states) => b.(engine := ResumeDrain(s, id, states))
    case DrainUnwinds(id) => b.(engine := UnwindDrain(s, id))
    case RestoreResumes(k) => RestoreResumed(b, k)
    case Tick(d) => b.(engine := s.(host := s.host.(now := s.host.now + d)))
  }

  /** A session that the watchdog would end if it went silent. */
  predicate Watched(b: Bridge) { b.watchdog.Booting? || b.watchdog.Sleeping? }

  // ---- runs ----

  /** The PUT would have the engine start a drain loop. */
  predicate StartsLoop(b: Bridge, e: Event) {
    e.Put? && MergeInto(b.engine, e.lightId, e.body).Queued? && !b.engine.drainRunning
  }

  /** No session is started while a restore waits for its drain task to unwind. */
  predicate QuietStart(b: Bridge, e: Event) { b.engine.host.awaiting != [] ==> !e.Start? }

  /** Neither a session nor a drain loop is started meanwhile. */
  predicate QuietTeardown(b: Bridge, e: Event) {
    b.engine.host.awaiting != [] ==> !e.Start? && !StartsLoop(b, e)
  }

  /** No session is started while the watchdog is still giving the lights back. */
  predicate QuietWatchdog(b: Bridge, e: Event) { e.Start? ==> !b.watchdog.Restoring? }

  /** A run: every event is possible where it happens. */
  predicate Run(b: Bridge, events: seq<Event>, lag: nat)
    decreases |events|
  {
    events != [] ==> Enabled(b, events[0], lag) && Run(Apply(b, events[0], lag), events[1..], lag)
  }

  /** A run in which no session is started while a restore waits for its drain task. */
  predicate QuietStarts(b: Bridge, events: seq<Event>, lag: nat)
    requires Run(b, events, lag)
    decreases |events|
  {
    events != [] ==> QuietStart(b, events[0]) && QuietStarts(Apply(b, events[0], lag), events[1..], lag)
  }

  /** A run in which nothing is started while a restore waits for its drain task. */
  predicate QuietTeardowns(b: Bridge, events: seq<Event>, lag: nat)
    requires Run(b, events, lag)
    decreases |events|
  {
    events != [] ==> QuietTeardown(b, events[0]) && QuietTeardowns(Apply(b, events[0], lag), events[1..], lag)
  }

  /** A run in which no session is started while the watchdog is giving the lights back. */
  predicate QuietWatchdogs(b: Bridge, events: seq<Event>, lag: nat)
    requires Run(b, events, lag)
    decreases |events|
  {
    events != [] ==> QuietWatchdog(b, events[0]) && QuietWatchdogs(Apply(b, events[0], lag), events[1..], lag)
  }

  function Exec(b: Bridge, events: seq<Event>, lag: nat): Bridge
    requires Run(b, events, lag)
    decreases |events|
  {
    if events == [] then b else Exec(Apply(b, events[0], lag), events[1..], lag)
  }

  /** An event and a run from where it leads make a run. */
  lemma {:induction false} Prepend(b: Bridge, e: Event, events: seq<Event>, lag: nat)
    requires Enabled(b, e, lag) && Run(Apply(b, e, lag), events, lag)
    ensures Run(b, [e] + events, lag)
    ensures Exec(b, [e] + events, lag) == Exec(Apply(b, e, lag), events, lag)
    ensures QuietTeardown(b, e) && QuietTeardowns(Apply(b, e, lag), events, lag)
        ==> QuietTeardowns(b, [e] + events, lag)
    ensures QuietWatchdog(b, e) && QuietWatchdogs(Apply(b, e, lag), events, lag)
        ==> QuietWatchdogs(b, [e] + events, lag)
  {
    assert ([e] + events)[1..] == events;
  }

  /** A run and one from where it leads make a run. */
  lemma {:induction false} Join(b: Bridge, first: seq<Event>, rest: seq<Event>, lag: nat)
    requires Run(b, first, lag) && Run(Exec(b, first, lag), rest, lag)
    ensures Run(b, first + rest, lag)
    ensures Exec(b, first + rest, lag) == Exec(Exec(b, first, lag), rest, lag)
    ensures QuietTeardowns(b, first, lag) && QuietTeardowns(Exec(b, first, lag), rest, lag)
        ==> QuietTeardowns(b, first + rest, lag)
    decreases |first|
  {
    if first == [] {
      assert first + rest == rest;
    } else {
      Join(Apply(b, first[0], lag), first[1..], rest, lag);
      assert (first + rest)[1..] == first[1..] + rest;
    }
  }

  lemma Two(b: Bridge, e: Event, f: Event, lag: nat)
    requires Enabled(b, e, lag) && Enabled(Apply(b, e, lag), f, lag)
    ensures Run(b, [e, f], lag) && Exec(b, [e, f], lag) == Apply(Apply(b, e, lag), f, lag)
    ensures QuietTeardown(b, e) && QuietTeardown(Apply(b, e, lag), f) ==> QuietTeardowns(b, [e, f], lag)
  {
    Prepend(Apply(b, e, lag), f, [], lag);
    Prepend(b, e, [f], lag);
    assert [e] + [f] == [e, f];
  }
}
