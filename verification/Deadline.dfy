/**
 The deadline docs/pause-release.md gives for a release, its seconds and the frame timeout. The watchdog only
 looks every so often, so a release of a stream can miss it: exactly those without a session are sure to meet it.
 The second part is about when a forced session does end, for an event loop that is on time.
 */
module Deadline {
  import opened Prelude
  import opened Constants
  import opened Commands
  import opened EngineModel
  import opened BridgeModel
  import opened Invariants
  import opened Timed
  import HueStream

  /** The grace period is over, the session's end is being forced, and its watchdog is about to look again. */
  predicate Forced(b: Bridge) {
    && FreeInv(b.engine) && b.engine.forcing
    && match b.watchdog
       case Booting(since) => since == b.engine.host.now
       case Sleeping(due) => b.engine.host.now <= due
       case _ => false
  }

  function NextPoll(b: Bridge): int
    requires Forced(b)
  {
    if b.watchdog.Booting? then b.watchdog.since + FRAME_WATCHDOG_INTERVAL else b.watchdog.due
  }

  /** The first of the polls at `due` and every interval from then on that comes after time `t`. */
  function PollAfter(due: int, t: int): (r: int)
    ensures due <= r && t < r && (r - due) % FRAME_WATCHDOG_INTERVAL == 0
    ensures r == due || r - FRAME_WATCHDOG_INTERVAL <= t
  {
    if due > t then due else due + FRAME_WATCHDOG_INTERVAL * ((t - due) / FRAME_WATCHDOG_INTERVAL + 1)
  }

  /** The poll that ends the session. */
  function LastPoll(b: Bridge): int
    requires Forced(b)
  {
    PollAfter(NextPoll(b), b.engine.lastFrame + FRAME_TIMEOUT)
  }

  /** The TV neither ends nor restarts its stream, and the caller does not ask for another grace period. */
  predicate LeftAlone(e: Event) { !e.Start? && !e.Stop? && !e.ReleaseCall? }

  lemma ForcedStep(b: Bridge, e: Event)
    requires Forced(b) && Enabled(b, e, 0) && LeftAlone(e)
    ensures var r := Apply(b, e, 0);
      if e.WatchdogPolls? && b.engine.host.now == LastPoll(b) then !r.engine.releasing && !r.engine.active
      else Forced(r) && LastPoll(r) == LastPoll(b) && b.engine.host.now <= LastPoll(b)
  {
    EngineInvPreserved(b, e, 0);
  }

  lemma OverStep(b: Bridge, e: Event, lag: nat)
    requires !b.engine.releasing && Enabled(b, e, lag) && LeftAlone(e)
    ensures !Apply(b, e, lag).engine.releasing
  {
    if IsCall(e) {
      CallsStillReleasing(b, e, lag);
    }
  }

  /** Whatever happens, a forced session that is left alone is over by its last poll. */
  lemma {:induction false} OverByLastPoll(b: Bridge, events: seq<Event>)
    requires FreeInv(b.engine) && Run(b, events, 0) && forall e <- events :: LeftAlone(e)
    ensures !b.engine.releasing ==> !Exec(b, events, 0).engine.releasing
    ensures Forced(b) && Exec(b, events, 0).engine.releasing ==> Exec(b, events, 0).engine.host.now <= LastPoll(b)
    decreases |events|
  {
    if events != [] {
      var e := events[0];
      assert e in events;
      EngineInvPreserved(b, e, 0);
      if !b.engine.releasing {
        OverStep(b, e, 0);
      } else if Forced(b) {
        ForcedStep(b, e);
      }
      OverByLastPoll(Apply(b, e, 0), events[1..]);
    }
  }

  /** Nothing ends it earlier: the session can see the time of its last poll. */
  lemma LastsUntilLastPoll(b: Bridge) returns (events: seq<Event>)
    requires Forced(b)
    ensures Run(b, events, 0) && forall e <- events :: LeftAlone(e)
    ensures var r := Exec(b, events, 0).engine; r.releasing && r.active && r.host.now == LastPoll(b)
    decreases LastPoll(b) - b.engine.host.now, WatchdogSteps(b)
  {
    if b.engine.host.now == LastPoll(b) {
      return [];
    }
    var e := if b.watchdog.Booting? then WatchdogBoots
             else if b.engine.host.now < b.watchdog.due then Tick(b.watchdog.due - b.engine.host.now)
             else WatchdogPolls;
    ForcedStep(b, e);
    var rest := LastsUntilLastPoll(Apply(b, e, 0));
    Prepend(b, e, rest, 0);
    events := [e] + rest;
  }

  /** No run that leaves the session alone sees the release pending after `deadline`. */
  ghost predicate MeetsDeadline(b: Bridge, deadline: int, lag: nat) {
    forall events | Run(b, events, lag) && (forall e <- events :: LeftAlone(e)) ::
      Exec(b, events, lag).engine.releasing ==> Exec(b, events, lag).engine.host.now <= deadline
  }

  /** A forced session meets a deadline if and only if its last poll does. */
  lemma ForcedDeadline(b: Bridge, deadline: int)
    requires Forced(b)
    ensures MeetsDeadline(b, deadline, 0) <==> LastPoll(b) <= deadline
  {
    if LastPoll(b) <= deadline {
      forall events | Run(b, events, 0) && (forall e <- events :: LeftAlone(e))
        ensures Exec(b, events, 0).engine.releasing ==> Exec(b, events, 0).engine.host.now <= deadline
      {
        OverByLastPoll(b, events);
      }
    } else {
      var events := LastsUntilLastPoll(b);
      assert Exec(b, events, 0).engine.releasing && Exec(b, events, 0).engine.host.now > deadline;
    }
  }

  // ---- the deadline of a release call ----

  /** A release is in its grace period, which is over at `end`. */
  predicate InGrace(b: Bridge, end: int) {
    var s := b.engine;
    && FreeInv(s) && s.releasing && !s.forcing
    && s.releaseCancel.Some? && s.releaseCancel.value in s.host.timers
    && s.host.timers[s.releaseCancel.value].due == end
  }

  lemma ReleaseBegins(b: Bridge, ms: int, lag: nat)
    requires FreeInv(b.engine) && Enabled(b, ReleaseCall(ms), lag)
    ensures InGrace(Apply(b, ReleaseCall(ms), lag), b.engine.host.now + Resolved(ms))
    ensures Apply(b, ReleaseCall(ms), lag).engine.active == b.engine.active
    ensures Apply(b, ReleaseCall(ms), lag).engine.host.now == b.engine.host.now
  {
    EngineInvPreserved(b, ReleaseCall(ms), lag);
  }

  // ---- without a session ----

  lemma IdleStep(b: Bridge, e: Event, end: int, lag: nat)
    requires InGrace(b, end) && !b.engine.active && b.engine.host.now <= end + lag
    requires Enabled(b, e, lag) && LeftAlone(e)
    ensures var r := Apply(b, e, lag);
      !r.engine.releasing || (InGrace(r, end) && !r.engine.active && r.engine.host.now <= end + lag)
  {
    EngineInvPreserved(b, e, lag);
  }

  lemma {:induction false} StaysOver(b: Bridge, events: seq<Event>, lag: nat)
    requires !b.engine.releasing && Run(b, events, lag) && forall e <- events :: LeftAlone(e)
    ensures !Exec(b, events, lag).engine.releasing
    decreases |events|
  {
    if events != [] {
      assert events[0] in events;
      OverStep(b, events[0], lag);
      StaysOver(Apply(b, events[0], lag), events[1..], lag);
    }
  }

  /** Without a session the grace timer ends the release. */
  lemma {:induction false} IdleEndsInTime(b: Bridge, events: seq<Event>, end: int, lag: nat)
    requires InGrace(b, end) && !b.engine.active && b.engine.host.now <= end + lag
    requires Run(b, events, lag) && forall e <- events :: LeftAlone(e)
    ensures Exec(b, events, lag).engine.releasing ==> Exec(b, events, lag).engine.host.now <= end + lag
    decreases |events|
  {
    if events != [] {
      var e := events[0];
      assert e in events;
      IdleStep(b, e, end, lag);
      if Apply(b, e, lag).engine.releasing {
        IdleEndsInTime(Apply(b, e, lag), events[1..], end, lag);
      } else {
        StaysOver(Apply(b, e, lag), events[1..], lag);
      }
    }
  }

  lemma TickPastDeadline(b: Bridge, end: int, lag: nat) returns (events: seq<Event>)
    requires InGrace(b, end) && b.engine.host.now <= end && lag > FRAME_TIMEOUT
    requires !b.watchdog.Booting? && (b.watchdog.Sleeping? ==> end < b.watchdog.due)
    ensures Run(b, events, lag) && forall e <- events :: LeftAlone(e)
    ensures var r := Exec(b, events, lag).engine; r.releasing && r.host.now > end + FRAME_TIMEOUT
  {
    events := [Tick(end + FRAME_TIMEOUT + 1 - b.engine.host.now)];
    Prepend(b, events[0], [], lag);
    assert [events[0]] + [] == events;
  }

  /** An event loop that keeps the grace timer waiting for longer than the frame timeout misses the deadline. */
  lemma LateLoopMisses(b: Bridge, end: int, lag: nat) returns (events: seq<Event>)
    requires InGrace(b, end) && !b.engine.active && b.engine.host.now <= end && lag > FRAME_TIMEOUT
    ensures Run(b, events, lag) && forall e <- events :: LeftAlone(e)
    ensures var r := Exec(b, events, lag).engine; r.releasing && r.host.now > end + FRAME_TIMEOUT
    decreases end - b.engine.host.now, WatchdogSteps(b)
  {
    var now := b.engine.host.now;
    var e: Event;
    if b.watchdog.Booting? {
      e := WatchdogBoots;
    } else if b.watchdog.Sleeping? && b.watchdog.due <= now {
      e := WatchdogPolls;
    } else if b.watchdog.Sleeping? && b.watchdog.due <= end {
      e := Tick(b.watchdog.due - now);
    } else {
      events := TickPastDeadline(b, end, lag);
      return;
    }
    IdleStep(b, e, end, lag);
    var rest := LateLoopMisses(Apply(b, e, lag), end, lag);
    Prepend(b, e, rest, lag);
    events := [e] + rest;
  }

  // ---- with a session ----

  /** A frame without channels. */
  const FRAME: seq<HueStream.byte> := HueStream.MAGIC + [2] + seq(42, _ => 0)

  /** A run of an event loop that is on time is one of an event loop that need not be. */
  lemma {:induction false} OnTimeRun(b: Bridge, events: seq<Event>, lag: nat)
    requires Run(b, events, 0)
    ensures Run(b, events, lag) && Exec(b, events, lag) == Exec(b, events, 0)
    decreases |events|
  {
    if events != [] {
      OnTimeRun(Apply(b, events[0], 0), events[1..], lag);
    }
  }

  /** A frame just before the watchdog looks keeps the session alive. */
  lemma FrameThenPoll(b: Bridge, end: int, lag: nat)
    requires InGrace(b, end) && b.engine.active && b.watchdog.Sleeping? && b.watchdog.due <= b.engine.host.now
    ensures var b1 := Apply(b, Frame(FRAME), lag);
      && Enabled(b1, WatchdogPolls, lag)
      && var b2 := Apply(b1, WatchdogPolls, lag);
         && InGrace(b2, end) && b2.engine.active && b2.engine.host.now == b.engine.host.now
         && b2.watchdog == Sleeping(b.engine.host.now + FRAME_WATCHDOG_INTERVAL)
  {
    assert HueStream.Parse(FRAME).Some?;
    EngineInvPreserved(b, Frame(FRAME), lag);
  }

  /** A frame just before the grace timer fires is the last to count. */
  lemma FrameThenForced(b: Bridge, lag: nat)
    requires InGrace(b, b.engine.host.now) && b.engine.active
    ensures var b1, fires := Apply(b, Frame(FRAME), lag), TimerFires(b.engine.releaseCancel.value);
      && Enabled(b1, fires, lag)
      && var b2 := Apply(b1, fires, lag);
         && FreeInv(b2.engine) && b2.engine.forcing && b2.watchdog == b.watchdog
         && b2.engine.host.now == b2.engine.lastFrame == b.engine.host.now
  {
    assert HueStream.Parse(FRAME).Some?;
    EngineInvPreserved(b, Frame(FRAME), lag);
    var b1 := Apply(b, Frame(FRAME), lag);
    EngineInvPreserved(b1, TimerFires(b.engine.releaseCancel.value), lag);
  }

  /** Forced at the very end of the grace period, a session lasts for longer than the frame timeout. */
  lemma ForcedMisses(b: Bridge, lag: nat) returns (events: seq<Event>)
    requires FreeInv(b.engine) && b.engine.forcing && b.engine.lastFrame == b.engine.host.now
    requires !b.watchdog.Booting? && (b.watchdog.Sleeping? ==> b.engine.host.now <= b.watchdog.due)
    ensures Run(b, events, lag) && forall e <- events :: LeftAlone(e)
    ensures var r := Exec(b, events, lag).engine; r.releasing && r.host.now > b.engine.host.now + FRAME_TIMEOUT
  {
    if b.watchdog.Sleeping? {
      events := LastsUntilLastPoll(b);
      OnTimeRun(b, events, lag);
    } else {
      events := [Tick(FRAME_TIMEOUT + 1)];
      Prepend(b, events[0], [], lag);
      assert [events[0]] + [] == events;
    }
  }

  lemma PrependTwo(b: Bridge, e: Event, f: Event, events: seq<Event>, lag: nat)
    requires Enabled(b, e, lag) && Enabled(Apply(b, e, lag), f, lag)
    requires Run(Apply(Apply(b, e, lag), f, lag), events, lag)
    ensures Run(b, [e, f] + events, lag)
    ensures Exec(b, [e, f] + events, lag) == Exec(Apply(Apply(b, e, lag), f, lag), events, lag)
  {
    Prepend(Apply(b, e, lag), f, events, lag);
    Prepend(b, e, [f] + events, lag);
    assert [e] + ([f] + events) == [e, f] + events;
  }

  /** The watchdog boots, or time goes on to the next poll or to the end of the grace period. */
  lemma GraceGoesOn(b: Bridge, end: int, lag: nat) returns (e: Event)
    requires InGrace(b, end) && b.engine.active
    requires b.engine.host.now <= end && (!b.watchdog.Booting? ==> b.engine.host.now < end)
    requires b.watchdog.Sleeping? ==> b.engine.host.now < b.watchdog.due
    ensures Enabled(b, e, lag) && LeftAlone(e)
    ensures var r := Apply(b, e, lag);
      && InGrace(r, end) && r.engine.active && r.engine.host.now <= end
      && if b.watchdog.Booting? then WatchdogSteps(r) < WatchdogSteps(b) && r.engine.host.now == b.engine.host.now
         else b.engine.host.now < r.engine.host.now
  {
    var now := b.engine.host.now;
    if b.watchdog.Booting? {
      e := WatchdogBoots;
    } else {
      e := Tick((if b.watchdog.Sleeping? && b.watchdog.due < end then b.watchdog.due else end) - now);
    }
    EngineInvPreserved(b, e, lag);
  }

  /** Frames can keep a released session alive past the deadline, whatever its watchdog is doing. */
  lemma SessionMisses(b: Bridge, end: int, lag: nat) returns (events: seq<Event>)
    requires InGrace(b, end) && b.engine.active && b.engine.host.now <= end
    ensures Run(b, events, lag) && forall e <- events :: LeftAlone(e)
    ensures var r := Exec(b, events, lag).engine; r.releasing && r.host.now > end + FRAME_TIMEOUT
    decreases end - b.engine.host.now, WatchdogSteps(b)
  {
    var frame := Frame(FRAME);
    if b.watchdog.Sleeping? && b.watchdog.due <= b.engine.host.now {
      FrameThenPoll(b, end, lag);
      var rest := SessionMisses(Apply(Apply(b, frame, lag), WatchdogPolls, lag), end, lag);
      PrependTwo(b, frame, WatchdogPolls, rest, lag);
      events := [frame, WatchdogPolls] + rest;
    } else if !b.watchdog.Booting? && b.engine.host.now == end {
      var fires := TimerFires(b.engine.releaseCancel.value);
      FrameThenForced(b, lag);
      var rest := ForcedMisses(Apply(Apply(b, frame, lag), fires, lag), lag);
      PrependTwo(b, frame, fires, rest, lag);
      events := [frame, fires] + rest;
    } else {
      var e := GraceGoesOn(b, end, lag);
      var rest := SessionMisses(Apply(b, e, lag), end, lag);
      Prepend(b, e, rest, lag);
      events := [e] + rest;
    }
  }

  /**
   In any reachable state: a release is sure to be over by the documented deadline, its seconds and the frame
   timeout after the call, if and only if there is no session, in an event loop that never keeps a callback
   waiting for longer than that timeout.
   */
  lemma DocumentedDeadline(b: Bridge, ms: int, lag: nat)
    requires FreeInv(b.engine) && 0 <= ms <= MAX_YIELD
    ensures var seconds := if ms == 0 then DEFAULT_YIELD else ms;
      MeetsDeadline(Apply(b, ReleaseCall(ms), lag), b.engine.host.now + seconds + FRAME_TIMEOUT, lag)
      <==> !b.engine.active && lag <= FRAME_TIMEOUT
  {
    var r, end := Apply(b, ReleaseCall(ms), lag), b.engine.host.now + Resolved(ms);
    ReleaseBegins(b, ms, lag);
    if b.engine.active {
      var events := SessionMisses(r, end, lag);
      assert Exec(r, events, lag).engine.releasing && Exec(r, events, lag).engine.host.now > end + FRAME_TIMEOUT;
    } else if lag > FRAME_TIMEOUT {
      var events := LateLoopMisses(r, end, lag);
      assert Exec(r, events, lag).engine.releasing && Exec(r, events, lag).engine.host.now > end + FRAME_TIMEOUT;
    } else {
      forall events | Run(r, events, lag) && (forall e <- events :: LeftAlone(e))
        ensures Exec(r, events, lag).engine.releasing ==> Exec(r, events, lag).engine.host.now <= end + FRAME_TIMEOUT
      {
        IdleEndsInTime(r, events, end, lag);
      }
    }
  }

  // ---- an example ----

  /** A stream that never sends a frame, with its watchdog asleep. */
  predicate JustStarted(b: Bridge) {
    var s := b.engine;
    && FreeInv(s) && s.active && !s.releasing && s.host.now == 0 && s.lastFrame == 0
    && s.host.timers == map[] && s.host.nextId == 1 && b.watchdog == Sleeping(FRAME_WATCHDOG_INTERVAL)
  }

  lemma StartAndBoot(lights: seq<Light>, user: string, states: States)
    ensures var b := Initial(lights, 0);
      && Run(b, [Start(user, states), WatchdogBoots], 0)
      && JustStarted(Exec(b, [Start(user, states), WatchdogBoots], 0))
  {
    var b := Initial(lights, 0);
    Two(b, Start(user, states), WatchdogBoots, 0);
    InitialInv(lights, 0, 0);
    RunInv(b, [Start(user, states), WatchdogBoots], 0);
  }

  /** A release for a millisecond, right then, is pending for six seconds. */
  lemma DeadlineMissed(b: Bridge)
    requires JustStarted(b)
    ensures var events := [ReleaseCall(1), Tick(1), TimerFires(1)];
      && Run(b, events, 0)
      && var r := Exec(b, events, 0);
         Forced(r) && LastPoll(r) == 6000 && !MeetsDeadline(r, 1 + FRAME_TIMEOUT, 0)
  {
    var b1 := Apply(b, ReleaseCall(1), 0);
    var b2 := Apply(b1, Tick(1), 0);
    var b3 := Apply(b2, TimerFires(1), 0);
    assert Run(b3, [], 0) && Exec(b3, [], 0) == b3;
    Prepend(b2, TimerFires(1), [], 0);
    PrependTwo(b, ReleaseCall(1), Tick(1), [TimerFires(1)], 0);
    assert [ReleaseCall(1), Tick(1)] + [TimerFires(1)] == [ReleaseCall(1), Tick(1), TimerFires(1)];
    RunInv(b, [ReleaseCall(1), Tick(1), TimerFires(1)], 0);
    ForcedDeadline(b3, 1 + FRAME_TIMEOUT);
  }
}
