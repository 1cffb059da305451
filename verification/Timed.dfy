/**
 Bounds on time, for an event loop that keeps a due callback waiting for at most `lag`: how long a release
 and a silent session can last, that a steady session is left alone, and that time is never stuck.
 */
module Timed {
  import opened Prelude
  import opened Constants
  import opened Commands
  import opened EngineModel
  import opened BridgeModel
  import opened Invariants
  import HueStream

  // ---- what the history of a run says about time ----

  /** When the latest valid frame came. */
  function FrameAt(b: Bridge, e: Event, at: int): int {
    if e.Frame? && HueStream.Parse(e.data).Some? then b.engine.host.now else at
  }

  /** What counts as hearing of the TV: a session opened, or a valid frame unless the session's end is forced. */
  predicate Counts(s: Engine, e: Event) {
    || (e.Start? && (!s.active || s.releasing))
    || (e.Frame? && HueStream.Parse(e.data).Some? && !s.forcing)
  }

  /** The end of the latest release call's grace, when the TV was last heard of, and when it last asked to stream. */
  datatype Clock = Clock(graceEnd: int, heard: int, started: int)

  function Advance(b: Bridge, e: Event, c: Clock): Clock {
    var now := b.engine.host.now;
    Clock(if e.ReleaseCall? then now + (if e.ms == 0 then DEFAULT_YIELD else e.ms) else c.graceEnd,
          if Counts(b.engine, e) then now else c.heard,
          if e.Start? then now else c.started)
  }

  function ClockAfter(b: Bridge, events: seq<Event>, lag: nat, c: Clock): Clock
    requires Run(b, events, lag)
    decreases |events|
  {
    if events == [] then c else ClockAfter(Apply(b, events[0], lag), events[1..], lag, Advance(b, events[0], c))
  }

  // ---- the timed invariant ----

  predicate TimerTimes(s: Engine, lag: nat, c: Clock) {
    && Punctual(s, lag)
    && (s.releasing && !s.forcing ==> s.releaseCancel.Some? && s.releaseCancel.value in s.host.timers
                                      && s.host.timers[s.releaseCancel.value].due == c.graceEnd)
    && (s.forcing ==> s.lastFrame <= c.graceEnd + lag)
  }

  /** A watchdog looks again in time after the TV last asked to stream, or was last heard of. */
  predicate WatchTimes(b: Bridge, lag: nat, c: Clock) {
    var s := b.engine;
    && c.started <= s.host.now && (s.releasing ==> c.started <= c.graceEnd)
    && (b.watchdog.Booting? ==> b.watchdog.since <= c.started && s.host.now <= b.watchdog.since + lag)
    && (b.watchdog.Sleeping? ==>
          && s.host.now <= b.watchdog.due + lag
          && (|| b.watchdog.due <= c.started + FRAME_WATCHDOG_INTERVAL + lag
              || b.watchdog.due <= s.lastFrame + FRAME_TIMEOUT + FRAME_WATCHDOG_INTERVAL))
  }

  predicate TimedInv(b: Bridge, lag: nat, c: Clock) {
    var s := b.engine;
    && FreeInv(s) && ApiInv(b) && TimerTimes(s, lag, c) && WatchTimes(b, lag, c)
    && s.lastFrame == c.heard && c.heard <= s.host.now
  }

  /** A watchdog looks again in time after the TV was last heard of, if no session is started while it restores. */
  predicate PromptInv(b: Bridge, lag: nat) {
    && WatchInv(b)
    && (b.watchdog.Booting? ==> b.watchdog.since <= b.engine.lastFrame)
    && (b.watchdog.Sleeping? ==>
          b.watchdog.due <= b.engine.lastFrame + FRAME_TIMEOUT + FRAME_WATCHDOG_INTERVAL + lag)
  }

  lemma ReleaseTimes(s: Engine, ms: int, lag: nat, c: Clock)
    requires TimerTimes(s, lag, c) && FreeInv(s)
    ensures TimerTimes(Release(s, ms), lag, c.(graceEnd := s.host.now + Resolved(ms)))
  {
  }

  lemma PauseTimes(s: Engine, ms: int, lag: nat, c: Clock)
    requires TimerTimes(s, lag, c) && FreeInv(s)
    ensures TimerTimes(Pause(s, ms), lag, c) && TimerTimes(Resume(s), lag, c)
  {
  }

  lemma StartTimes(s: Engine, states: States, lag: nat, c: Clock)
    requires TimerTimes(s, lag, c) && FreeInv(s)
    ensures forall heard: int :: TimerTimes(SnapshotLights(s, states), lag, c.(heard := heard, started := s.host.now))
  {
  }

  lemma EndTimes(s: Engine, lag: nat, c: Clock)
    requires TimerTimes(s, lag, c) && FreeInv(s)
    ensures TimerTimes(RestoreLights(s), lag, c)
  {
  }

  lemma FiringTimes(s: Engine, id: nat, lag: nat, c: Clock)
    requires TimerTimes(s, lag, c) && FreeInv(s) && s.lastFrame <= s.host.now && id in s.host.timers
    ensures TimerTimes(FireTimer(s, id), lag, c)
  {
  }

  lemma CallTimesPreserved(b: Bridge, e: Event, lag: nat, c: Clock)
    requires TimerTimes(b.engine, lag, c) && FreeInv(b.engine) && b.engine.lastFrame <= b.engine.host.now
    requires Enabled(b, e, lag) && IsCall(e)
    ensures TimerTimes(Apply(b, e, lag).engine, lag, Advance(b, e, c))
  {
    match e
    case ReleaseCall(ms) => ReleaseTimes(b.engine, ms, lag, c);
    case PauseCall(ms) => PauseTimes(b.engine, ms, lag, c);
    case ResumeCall => PauseTimes(b.engine, 0, lag, c);
    case Start(_, states) => StartTimes(b.engine, states, lag, c);
    case TimerFires(id) => FiringTimes(b.engine, id, lag, c);
    case _ => EndTimes(b.engine, lag, c);
  }

  lemma TimerTimesPreserved(b: Bridge, e: Event, lag: nat, c: Clock)
    requires TimerTimes(b.engine, lag, c) && FreeInv(b.engine) && b.engine.lastFrame <= b.engine.host.now
    requires Enabled(b, e, lag)
    ensures TimerTimes(Apply(b, e, lag).engine, lag, Advance(b, e, c))
  {
    if IsCall(e) {
      CallTimesPreserved(b, e, lag, c);
    }
  }

  lemma StartResolves(s: Engine, states: States)
    ensures !SnapshotLights(s, states).releasing
  {
  }

  lemma CallsStillReleasing(b: Bridge, e: Event, lag: nat)
    requires Enabled(b, e, lag) && IsCall(e) && !e.ReleaseCall? && !e.Start?
    ensures Apply(b, e, lag).engine.releasing ==> b.engine.releasing
  {
  }

  /** A release pending after an event was called for by it, or was pending before and not resolved by a start. */
  lemma StillReleasing(b: Bridge, e: Event, lag: nat)
    requires Enabled(b, e, lag) && Apply(b, e, lag).engine.releasing && !e.ReleaseCall?
    ensures b.engine.releasing && !e.Start?
  {
    if e.Start? {
      StartResolves(b.engine, e.states);
    } else if IsCall(e) {
      CallsStillReleasing(b, e, lag);
    }
  }

  lemma HeardStart(s: Engine, states: States)
    ensures SnapshotLights(s, states).lastFrame == if !s.active || s.releasing then s.host.now else s.lastFrame
  {
  }

  lemma EndKeepsFrameTime(s: Engine)
    ensures RestoreLights(s).lastFrame == s.lastFrame
  {
  }

  lemma FiringKeepsFrameTime(s: Engine, id: nat)
    requires id in s.host.timers
    ensures FireTimer(s, id).lastFrame == s.lastFrame
  {
  }

  lemma CallsKeepFrameTime(b: Bridge, e: Event, lag: nat)
    requires Enabled(b, e, lag) && IsCall(e) && !e.Start?
    ensures Apply(b, e, lag).engine.lastFrame == b.engine.lastFrame
  {
    match e
    case TimerFires(id) => FiringKeepsFrameTime(b.engine, id);
    case Stop => EndKeepsFrameTime(b.engine);
    case WatchdogPolls => EndKeepsFrameTime(b.engine);
    case _ =>
  }

  lemma OthersKeepFrameTime(b: Bridge, e: Event, lag: nat)
    requires Enabled(b, e, lag) && !e.Start? && !e.Frame?
    ensures Apply(b, e, lag).engine.lastFrame == b.engine.lastFrame
  {
    if IsCall(e) {
      CallsKeepFrameTime(b, e, lag);
    }
  }

  /** The engine's frame time is when the TV was last heard of. */
  lemma HeardPreserved(b: Bridge, e: Event, lag: nat)
    requires Enabled(b, e, lag)
    ensures Apply(b, e, lag).engine.lastFrame == if Counts(b.engine, e) then b.engine.host.now else b.engine.lastFrame
  {
    if e.Start? {
      HeardStart(b.engine, e.states);
    } else if !e.Frame? {
      OthersKeepFrameTime(b, e, lag);
    }
  }

  predicate IsWatchdogEvent(e: Event) {
    e.Start? || e.Stop? || e.WatchdogBoots? || e.WatchdogPolls? || e.WatchdogRestored? || e.RestoreResumes?
  }

  lemma TimeIsKept(b: Bridge, e: Event, lag: nat)
    requires Enabled(b, e, lag) && !e.Tick?
    ensures Apply(b, e, lag).engine.host.now == b.engine.host.now
  {
    if IsCall(e) {
      CallsFrame(b, e, lag);
    }
  }

  /** What an event does to the watchdog. */
  lemma WatchdogMoves(b: Bridge, e: Event, lag: nat)
    requires Enabled(b, e, lag)
    ensures var r, now := Apply(b, e, lag).watchdog, b.engine.host.now;
      || r == b.watchdog || r.Off? || r.Restoring?
      || (e.Start? && b.watchdog.Off? && r == Booting(now))
      || (e.WatchdogBoots? && r == Sleeping(now + FRAME_WATCHDOG_INTERVAL))
      || (e.WatchdogPolls? && !TimedOut(b.engine) && r == Sleeping(now + FRAME_WATCHDOG_INTERVAL))
  {
  }

  lemma WatchTimesPreserved(b: Bridge, e: Event, lag: nat, c: Clock)
    requires TimedInv(b, lag, c) && Enabled(b, e, lag)
    ensures WatchTimes(Apply(b, e, lag), lag, Advance(b, e, c))
  {
    HeardPreserved(b, e, lag);
    WatchdogMoves(b, e, lag);
    if Apply(b, e, lag).engine.releasing && !e.ReleaseCall? {
      StillReleasing(b, e, lag);
    }
    if !e.Tick? {
      TimeIsKept(b, e, lag);
    }
  }

  lemma TimedPreserved(b: Bridge, e: Event, lag: nat, c: Clock)
    requires TimedInv(b, lag, c) && Enabled(b, e, lag)
    ensures TimedInv(Apply(b, e, lag), lag, Advance(b, e, c))
  {
    EngineInvPreserved(b, e, lag);
    ApiPreserved(b, e, lag);
    HeardPreserved(b, e, lag);
    TimerTimesPreserved(b, e, lag, c);
    WatchTimesPreserved(b, e, lag, c);
    if !e.Tick? {
      TimeIsKept(b, e, lag);
    }
  }

  lemma PromptPreserved(b: Bridge, e: Event, lag: nat, c: Clock)
    requires TimedInv(b, lag, c) && PromptInv(b, lag) && Enabled(b, e, lag) && QuietWatchdog(b, e)
    ensures PromptInv(Apply(b, e, lag), lag)
  {
    WatchPreserved(b, e, lag);
    HeardPreserved(b, e, lag);
    WatchdogMoves(b, e, lag);
  }

  lemma {:induction false} RunTimed(b: Bridge, events: seq<Event>, lag: nat, c: Clock)
    requires TimedInv(b, lag, c) && Run(b, events, lag)
    ensures TimedInv(Exec(b, events, lag), lag, ClockAfter(b, events, lag, c))
    ensures PromptInv(b, lag) && QuietWatchdogs(b, events, lag) ==> PromptInv(Exec(b, events, lag), lag)
    decreases |events|
  {
    if events != [] {
      var e := events[0];
      TimedPreserved(b, e, lag, c);
      if PromptInv(b, lag) && QuietWatchdog(b, e) {
        PromptPreserved(b, e, lag, c);
      }
      RunTimed(Apply(b, e, lag), events[1..], lag, Advance(b, e, c));
    }
  }

  const START := Clock(0, 0, 0)

  lemma InitialTimed(lights: seq<Light>, now: nat, lag: nat)
    ensures TimedInv(Initial(lights, now), lag, START) && PromptInv(Initial(lights, now), lag)
  {
    InitialInv(lights, now, lag);
  }

  // ---- the bounds ----

  /**
   Over every run: by the end of the grace period of the latest release call the release is over, or forces a
   session to end.
   */
  lemma GraceEndsInTime(lights: seq<Light>, now: nat, events: seq<Event>, lag: nat)
    requires Run(Initial(lights, now), events, lag)
    ensures var b := Initial(lights, now);
      var r, c := Exec(b, events, lag).engine, ClockAfter(b, events, lag, START);
      r.releasing && r.host.now > c.graceEnd + lag ==> r.forcing && r.active
  {
    InitialTimed(lights, now, lag);
    RunTimed(Initial(lights, now), events, lag, START);
  }

  /** When a release is over, by the grace period of its latest call. */
  function ReleaseBound(c: Clock, lag: nat): int {
    c.graceEnd + FRAME_TIMEOUT + FRAME_WATCHDOG_INTERVAL + 2 * lag
  }

  /**
   Over every run, whatever frames keep arriving: a release that is still pending after the grace period of the
   latest call, the frame timeout and one watchdog interval belongs to a session without a watchdog. Any other is
   over: its session has ended, or the TV has asked for a stream again. If no session is started while the watchdog
   restores the lights, there is no exception.
   */
  lemma ReleaseEndsInTime(lights: seq<Light>, now: nat, events: seq<Event>, lag: nat)
    requires Run(Initial(lights, now), events, lag)
    ensures var b := Initial(lights, now);
      var r, c := Exec(b, events, lag), ClockAfter(b, events, lag, START);
      r.engine.host.now > ReleaseBound(c, lag) ==>
        && (r.engine.releasing ==> r.engine.active && !Watched(r))
        && (!r.engine.releasing ==> !r.engine.active || r.apiActive)
        && (QuietWatchdogs(b, events, lag) ==> !r.engine.releasing)
  {
    InitialTimed(lights, now, lag);
    RunTimed(Initial(lights, now), events, lag, START);
  }

  /**
   Over every run: the watchdog ends a session that has gone silent within the frame timeout and one watchdog
   interval since the TV was last heard of, or one interval since it last asked for the stream, whichever is later.
   If no session is started while the watchdog restores the lights, a session never outlives the former.
   */
  lemma SilentSessionEndsInTime(lights: seq<Light>, now: nat, events: seq<Event>, lag: nat)
    requires Run(Initial(lights, now), events, lag)
    ensures var b := Initial(lights, now);
      var r, c := Exec(b, events, lag), ClockAfter(b, events, lag, START);
      && (Watched(r) ==>
            r.engine.host.now <= Max(c.heard + FRAME_TIMEOUT, c.started) + FRAME_WATCHDOG_INTERVAL + 2 * lag)
      && (r.engine.active && QuietWatchdogs(b, events, lag) ==>
            r.engine.host.now <= c.heard + FRAME_TIMEOUT + FRAME_WATCHDOG_INTERVAL + 2 * lag)
  {
    InitialTimed(lights, now, lag);
    RunTimed(Initial(lights, now), events, lag, START);
  }

  // ---- a steady session is left alone ----

  /** Valid frames keep coming, none later than the frame timeout after the one before, and nobody forces an end. */
  predicate Steady(b: Bridge, events: seq<Event>, lag: nat, latest: int)
    requires Run(b, events, lag)
    decreases |events|
  {
    && b.engine.host.now <= latest + FRAME_TIMEOUT && !b.engine.forcing
    && (events != [] ==>
          && !events[0].Stop?
          && Steady(Apply(b, events[0], lag), events[1..], lag, FrameAt(b, events[0], latest)))
  }

  lemma SteadyStart(s: Engine, states: States, latest: int)
    requires s.active && latest <= s.lastFrame && latest <= s.host.now
    ensures var r := SnapshotLights(s, states); r.active && latest <= r.lastFrame && r.host.now == s.host.now
  {
  }

  lemma SteadyTimer(s: Engine, id: nat)
    requires s.active && id in s.host.timers
    ensures var r := FireTimer(s, id); r.active && r.lastFrame == s.lastFrame && r.host.now == s.host.now
  {
  }

  lemma SteadyCall(b: Bridge, e: Event, lag: nat, latest: int)
    requires Enabled(b, e, lag) && IsCall(e) && !e.Stop?
    requires b.engine.active && latest <= b.engine.lastFrame
    requires latest <= b.engine.host.now <= latest + FRAME_TIMEOUT
    ensures var r := Apply(b, e, lag).engine; r.active && latest <= r.lastFrame && latest <= r.host.now
  {
    match e
    case Start(_, states) => SteadyStart(b.engine, states, latest);
    case TimerFires(id) => SteadyTimer(b.engine, id);
    case _ =>
  }

  lemma SteadyStep(b: Bridge, e: Event, lag: nat, latest: int)
    requires Enabled(b, e, lag) && !e.Stop?
    requires b.engine.active && !b.engine.forcing && latest <= b.engine.lastFrame
    requires latest <= b.engine.host.now <= latest + FRAME_TIMEOUT
    ensures var r := Apply(b, e, lag).engine;
      r.active && FrameAt(b, e, latest) <= r.lastFrame && FrameAt(b, e, latest) <= r.host.now
  {
    if IsCall(e) {
      SteadyCall(b, e, lag, latest);
    }
  }

  /** A session lives on as long as its frames do and no release forces its end, paused or not, released or not. */
  lemma {:induction false} SteadySessionSurvives(b: Bridge, events: seq<Event>, lag: nat, latest: int)
    requires Run(b, events, lag) && Steady(b, events, lag, latest)
    requires b.engine.active && latest <= b.engine.lastFrame && latest <= b.engine.host.now
    ensures Exec(b, events, lag).engine.active
    decreases |events|
  {
    if events != [] {
      var e := events[0];
      SteadyStep(b, e, lag, latest);
      SteadySessionSurvives(Apply(b, e, lag), events[1..], lag, FrameAt(b, e, latest));
    }
  }

  // ---- time is never stuck ----

  predicate Due(b: Bridge, id: nat) {
    id in b.engine.host.timers && b.engine.host.timers[id].due <= b.engine.host.now
  }

  /** How many steps of the watchdog are due at most. */
  function WatchdogSteps(b: Bridge): nat {
    if b.watchdog.Booting? then 2 else if b.watchdog.Sleeping? && b.watchdog.due <= b.engine.host.now then 1 else 0
  }

  /** Once no callback is due, a tick can pass. */
  lemma NothingDue(b: Bridge, lag: nat)
    requires forall id: nat :: !Due(b, id)
    requires !b.watchdog.Booting? && (b.watchdog.Sleeping? ==> b.engine.host.now < b.watchdog.due)
    ensures CanPass(b, 1, lag)
  {
    forall id <- b.engine.host.timers
      ensures b.engine.host.now + 1 <= b.engine.host.timers[id].due + lag
    {
      assert !Due(b, id);
    }
  }

  /**
   From any reachable state callbacks that are due lead, by running, to a state in which time can pass: the
   bounds above are not met by time standing still.
   */
  lemma TimeGoesOn(b: Bridge, lag: nat) returns (events: seq<Event>)
    requires FreeInv(b.engine)
    ensures Run(b, events, lag) && QuietTeardowns(b, events, lag) && QuietWatchdogs(b, events, lag)
    ensures CanPass(Exec(b, events, lag), 1, lag)
    ensures forall e <- events :: e.TimerFires? || e.WatchdogBoots? || e.WatchdogPolls?
    decreases |b.engine.host.timers|, WatchdogSteps(b)
  {
    var e: Event;
    if id: nat :| Due(b, id) {
      e := TimerFires(id);
      FiringRemoves(b.engine, id);
    } else if b.watchdog.Booting? {
      e := WatchdogBoots;
    } else if b.watchdog.Sleeping? && b.watchdog.due <= b.engine.host.now {
      e := WatchdogPolls;
      PollingRemoves(b.engine);
    } else {
      NothingDue(b, lag);
      return [];
    }
    EngineInvPreserved(b, e, lag);
    var rest := TimeGoesOn(Apply(b, e, lag), lag);
    Prepend(b, e, rest, lag);
    events := [e] + rest;
  }

  lemma FiringRemoves(s: Engine, id: nat)
    requires FreeInv(s) && id in s.host.timers
    ensures |FireTimer(s, id).host.timers| < |s.host.timers|
  {
    assert FireTimer(s, id).host.timers == s.host.timers - {id};
    Fewer(s.host.timers, id);
  }

  lemma PollingRemoves(s: Engine)
    ensures |RestoreLights(s).host.timers| <= |s.host.timers|
  {
    if s.releaseCancel.Some? && s.releaseCancel.value in s.host.timers {
      Fewer(s.host.timers, s.releaseCancel.value);
    } else if s.releaseCancel.Some? {
      assert s.host.timers - {s.releaseCancel.value} == s.host.timers;
    }
  }

  lemma Fewer(timers: map<nat, Timer>, id: nat)
    requires id in timers
    ensures |timers - {id}| == |timers| - 1
  {
    assert (timers - {id}).Keys == timers.Keys - {id};
    assert |timers| == |timers.Keys|;
  }
}
