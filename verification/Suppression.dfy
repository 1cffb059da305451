/**
 What a pause and a release do for their callers, in terms of the calls made and of nothing the engine decides:
 while one lasts, no light call begins, nothing is queued, and neither a frame nor a PUT leaves a trace.
 */
module Suppression {
  import opened Prelude
  import opened Commands
  import opened EngineModel
  import opened BridgeModel
  import opened Invariants
  import opened History
  import Safety
  import HueStream

  /** The latest call that counts is a pause still running, or a release is pending. */
  predicate CalledOff(b: Bridge, calls: seq<Call>) { PausedBy(calls, b.engine.host.now) || b.engine.releasing }

  /** All through the run a pause or a release is in force. */
  predicate CalledOffThroughout(b: Bridge, events: seq<Event>, lag: nat, calls: seq<Call>)
    requires Run(b, events, lag)
    decreases |events|
  {
    && CalledOff(b, calls)
    && (events != [] ==>
          CalledOffThroughout(Apply(b, events[0], lag), events[1..], lag, calls + Counted(b, events[0])))
  }

  lemma CalledOffIsHeld(b: Bridge, calls: seq<Call>)
    requires PauseSim(b.engine, calls) && CalledOff(b, calls)
    ensures Held(b.engine)
  {
  }

  lemma {:induction false} HeldThroughout(b: Bridge, events: seq<Event>, lag: nat, calls: seq<Call>)
    requires FreeInv(b.engine) && Run(b, events, lag) && PauseSim(b.engine, calls)
    requires CalledOffThroughout(b, events, lag, calls)
    ensures Safety.SuppressedThroughout(b, events, lag)
    decreases |events|
  {
    CalledOffIsHeld(b, calls);
    if events != [] {
      EngineInvPreserved(b, events[0], lag);
      PauseStep(b, events[0], lag, calls);
      HeldThroughout(Apply(b, events[0], lag), events[1..], lag, calls + Counted(b, events[0]));
    }
  }

  /**
   After any run: as long as the calls made keep a pause or a release in force, no light call begins, and no light
   has anything queued, from the first moment on.
   */
  lemma NothingIsSentWhileCalledOff(lights: seq<Light>, now: nat, before: seq<Event>, events: seq<Event>, lag: nat)
    requires Run(Initial(lights, now), before, lag) && Run(Exec(Initial(lights, now), before, lag), events, lag)
    requires CalledOffThroughout(Exec(Initial(lights, now), before, lag), events, lag,
                                 Calls(Initial(lights, now), before, lag, []))
    ensures var s := Exec(Initial(lights, now), before, lag).engine;
      var r := Exec(Exec(Initial(lights, now), before, lag), events, lag).engine;
      && r.host.sent == s.host.sent
      && (forall i | 0 <= i < |s.slots| :: !s.slots[i].dirty && s.slots[i].pending.None?)
      && (forall i | 0 <= i < |r.slots| :: !r.slots[i].dirty && r.slots[i].pending.None?)
  {
    var b, m := Initial(lights, now), Exec(Initial(lights, now), before, lag);
    InitialInv(lights, now, lag);
    RunInv(b, before, lag);
    PauseSimRun(b, before, lag, []);
    HeldThroughout(m, events, lag, Calls(b, before, lag, []));
    Safety.NoCommandWhileSuppressed(m, [], lag);
    Safety.NoCommandWhileSuppressed(m, events, lag);
  }

  /** A frame that comes meanwhile only counts as a sign of life, and a PUT does nothing at all. */
  lemma InputsDoNothing(s: Engine, data: seq<HueStream.byte>, lightId: nat, body: Body)
    requires s.releasing || (s.pausedUntil.Some? && s.host.now < s.pausedUntil.value)
    ensures HandleFrame(s, data) == s.(lastFrame := HandleFrame(s, data).lastFrame)
    ensures HandleCommand(s, lightId, body) == s
  {
  }
}
