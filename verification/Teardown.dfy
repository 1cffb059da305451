/**
 Where the code falls short, and exactly when: something started while a session end waits for its drain
 task to unwind, and a session started while the watchdog is giving the lights back.
 */
module Teardown {
  import opened Prelude
  import opened Constants
  import opened Commands
  import opened EngineModel
  import opened BridgeModel
  import opened Invariants

  // ---- the unwinding of the drain task ----

  /** The rest of a session end: the drain task unwinds if it has not, then the restore goes on. */
  function Complete(s: Engine): Engine
    requires s.host.awaiting != []
  {
    var id := s.host.awaiting[0];
    ResumeRestore(if id in s.host.tasks then UnwindDrain(s, id) else s, 0)
  }

  lemma WaitingIsKept(b: Bridge, e: Event, lag: nat)
    requires !b.engine.active && Enabled(b, e, lag) && !e.RestoreResumes?
    ensures Apply(b, e, lag).engine.host.awaiting == b.engine.host.awaiting
  {
    if IsCall(e) {
      CallsFrame(b, e, lag);
    }
  }

  lemma CompleteKeeps(s: Engine)
    requires EngineInv(s) && s.host.awaiting != []
    ensures EngineInv(Complete(s))
  {
    var id := s.host.awaiting[0];
    if id in s.host.tasks {
      UnwindKeeps(s, id);
      ResumeRestoreKeeps(UnwindDrain(s, id), 0);
    } else {
      ResumeRestoreKeeps(s, 0);
    }
  }

  /** A loop started meanwhile survives, and nobody knows of it. */
  lemma StrayLoop(s: Engine, lightId: nat, body: Body)
    requires EngineInv(s) && s.host.awaiting != [] && MergeInto(s, lightId, body).Queued? && !s.drainRunning
    ensures var r := Complete(HandleCommand(s, lightId, body));
      s.host.nextId in r.host.tasks && !r.drainRunning
  {
  }

  /** So does a session started meanwhile, without its loop and its snapshot. */
  lemma LostSession(s: Engine, states: States)
    requires !s.active && s.host.awaiting != []
    ensures var r := Complete(SnapshotLights(s, states)); r.active && !r.drainRunning && r.saved.None? && !r.releasing
  {
  }

  /**
   Whatever happens while a session end waits for its drain task, the engine comes out of it consistent if
   and only if no session and no drain loop was started meanwhile.
   */
  lemma TeardownWindow(b: Bridge, e: Event, lag: nat)
    requires EngineInv(b.engine) && Enabled(b, e, lag) && b.engine.host.awaiting != [] && !e.RestoreResumes?
    ensures Apply(b, e, lag).engine.host.awaiting == b.engine.host.awaiting
    ensures EngineInv(Complete(Apply(b, e, lag).engine)) <==> QuietTeardown(b, e)
  {
    WaitingIsKept(b, e, lag);
    if QuietTeardown(b, e) {
      EngineInvPreserved(b, e, lag);
      CompleteKeeps(Apply(b, e, lag).engine);
    } else if e.Start? {
      LostSession(b.engine, e.states);
    } else {
      StrayLoop(b.engine, e.lightId, e.body);
    }
  }

  lemma CompleteSaves(s: Engine)
    requires SessionInv(s) && s.host.awaiting != []
    ensures SavedInv(Complete(s)) <==> !s.active
  {
  }

  /** The snapshot comes out of it right if and only if no session was started meanwhile. */
  lemma SnapshotWindow(b: Bridge, e: Event, lag: nat)
    requires SessionInv(b.engine) && FreeInv(b.engine) && Enabled(b, e, lag)
    requires b.engine.host.awaiting != [] && !e.RestoreResumes?
    ensures Apply(b, e, lag).engine.host.awaiting == b.engine.host.awaiting
    ensures SavedInv(Complete(Apply(b, e, lag).engine)) <==> !e.Start?
  {
    WaitingIsKept(b, e, lag);
    if e.Start? {
      LostSession(b.engine, e.states);
    } else {
      SessionPreserved(b, e, lag);
      CompleteSaves(Apply(b, e, lag).engine);
    }
  }

  /** A session that ends before its drain task has run once. */
  predicate EndedAtOnce(s: Engine) {
    && !s.active && !s.releasing && s.drainTask == Some(0) && s.drainRunning && s.host.awaiting == [0]
    && s.host.tasks == map[0 := Task(Created, None, true)]
  }

  lemma StartThenStop(lights: seq<Light>, now: nat, user: string, states: States, lag: nat)
    ensures EndedAtOnce(Apply(Apply(Initial(lights, now), Start(user, states), lag), Stop, lag).engine)
  {
  }

  lemma RestartLosesLoop(b: Bridge, user: string, states: States, lag: nat)
    requires EndedAtOnce(b.engine)
    ensures var events := [Start(user, states), DrainUnwinds(0), RestoreResumes(0)];
      && Run(b, events, lag)
      && var r := Exec(b, events, lag).engine;
         r.active && r.host.tasks == map[] && r.saved.None? && !r.releasing && r.host.awaiting == []
  {
    var b1 := Apply(b, Start(user, states), lag);
    var b2 := Apply(b1, DrainUnwinds(0), lag);
    var b3 := Apply(b2, RestoreResumes(0), lag);
    assert Run(b3, [], lag) && Exec(b3, [], lag) == b3;
    Prepend(b2, RestoreResumes(0), [], lag);
    Prepend(b1, DrainUnwinds(0), [RestoreResumes(0)], lag);
    Prepend(b, Start(user, states), [DrainUnwinds(0), RestoreResumes(0)], lag);
  }

  /** A session restarted in that window is left without a drain loop, and without its snapshot. */
  lemma LostLoop(lights: seq<Light>, now: nat, user: string, states: States, lag: nat)
    ensures var b := Initial(lights, now);
      var events := [Start(user, states), Stop, Start(user, states), DrainUnwinds(0), RestoreResumes(0)];
      && Run(b, events, lag)
      && var r := Exec(b, events, lag).engine;
         r.active && r.host.tasks == map[] && r.saved.None? && !r.releasing && r.host.awaiting == []
  {
    var start := Start(user, states);
    var b := Initial(lights, now);
    var b1 := Apply(b, start, lag);
    var rest := [start, DrainUnwinds(0), RestoreResumes(0)];
    StartThenStop(lights, now, user, states, lag);
    RestartLosesLoop(Apply(b1, Stop, lag), user, states, lag);
    Prepend(b1, Stop, rest, lag);
    Prepend(b, start, [Stop] + rest, lag);
    assert [start] + ([Stop] + rest) == [start, Stop, start, DrainUnwinds(0), RestoreResumes(0)];
  }

  // ---- the watchdog giving the lights back ----

  /** A session is watched if and only if it was not started while the watchdog was giving the lights back. */
  lemma WatchdogReuse(b: Bridge, user: string, states: States, lag: nat)
    requires WatchInv(b)
    ensures var r := Apply(b, Start(user, states), lag);
      r.engine.active && (Watched(r) <==> !b.watchdog.Restoring?)
  {
  }

  /** Whether anything is to be given back to the lights. */
  predicate GivesBack(s: Engine) { s.saved.Some? && s.saved.value != [] }

  /**
   A poll goes back to sleep exactly for a session that was heard in time. For a silent one it waits for the drain
   task if that is alive, and else for the lights if there is anything to give back; otherwise the watchdog is done.
   */
  lemma PollDecides(b: Bridge, lag: nat)
    requires Enabled(b, WatchdogPolls, lag)
    ensures var s, r := b.engine, Apply(b, WatchdogPolls, lag);
      var silent := s.active && s.host.now > s.lastFrame + 5000;
      && r.watchdog == (if s.active && !silent then Sleeping(s.host.now + FRAME_WATCHDOG_INTERVAL)
                        else if silent && Alive(s) then Restoring(s.drainTask)
                        else if silent && GivesBack(s) then Restoring(None)
                        else Off)
      && (r.engine.active <==> s.active && !silent)
      && (silent && !Alive(s) && GivesBack(s) ==> r.engine.host.reproduced == s.host.reproduced + [s.saved.value])
  {
  }

  /** The watchdog that waited for the drain task goes on to wait for the lights, if there is anything for them. */
  lemma RestoreHandsOver(b: Bridge, k: nat, lag: nat)
    requires Enabled(b, RestoreResumes(k), lag) && b.watchdog == Restoring(Some(b.engine.host.awaiting[k]))
    ensures var r := Apply(b, RestoreResumes(k), lag);
      r.watchdog == if GivesBack(b.engine) then Restoring(None) else Off
  {
  }

  /** A silent session with its watchdog asleep; its drain task has not run yet. */
  predicate Asleep(b: Bridge, since: int, given: string) {
    var s := b.engine;
    && s.active && !s.releasing && s.saved == Some([given]) && s.lastFrame == since
    && s.drainTask == Some(0) && s.host.tasks == map[0 := Task(Created, None, false)]
    && s.host.awaiting == [] && s.host.timers == map[] && s.host.reproduced == []
    && b.watchdog == Sleeping(s.host.now + FRAME_WATCHDOG_INTERVAL)
  }

  /** The watchdog has ended it, and is giving the light back. */
  predicate GivingBack(b: Bridge) {
    var s := b.engine;
    && !s.active && !s.releasing && s.host.awaiting == [] && b.watchdog == Restoring(None)
  }

  lemma SessionFallsAsleep(light: Light, now: nat, user: string, states: States, lag: nat)
    requires light.entityId in states
    ensures var b, events := Initial([light], now), [Start(user, states), WatchdogBoots];
      && Run(b, events, lag) && QuietTeardowns(b, events, lag)
      && Asleep(Exec(b, events, lag), now, states[light.entityId])
      && Exec(b, events, lag).engine.host.now == now
  {
    var b, start := Initial([light], now), Start(user, states);
    LightsInOrder([light], 0);
    assert b.engine.slots == [Fresh(light)];
    assert [Fresh(light)][..0] == [];
    assert Capture(b.engine.slots, states) == [states[light.entityId]];
    Two(b, start, WatchdogBoots, lag);
  }

  lemma SleepsOn(b: Bridge, since: int, given: string, lag: nat)
    requires Asleep(b, since, given) && b.engine.host.now + FRAME_WATCHDOG_INTERVAL - since <= FRAME_TIMEOUT
    ensures var events := [Tick(FRAME_WATCHDOG_INTERVAL), WatchdogPolls];
      && Run(b, events, lag) && QuietTeardowns(b, events, lag) && Asleep(Exec(b, events, lag), since, given)
      && Exec(b, events, lag).engine.host.now == b.engine.host.now + FRAME_WATCHDOG_INTERVAL
  {
    Two(b, Tick(FRAME_WATCHDOG_INTERVAL), WatchdogPolls, lag);
  }

  lemma TimesOut(b: Bridge, since: int, given: string, lag: nat)
    requires Asleep(b, since, given) && b.engine.host.now + FRAME_WATCHDOG_INTERVAL - since > FRAME_TIMEOUT
    ensures var events := [Tick(FRAME_WATCHDOG_INTERVAL), WatchdogPolls];
      && Run(b, events, lag) && QuietTeardowns(b, events, lag)
      && var r := Exec(b, events, lag);
         && !r.engine.active && !r.engine.releasing && r.engine.saved == Some([given])
         && r.engine.host.awaiting == [0] && r.engine.host.reproduced == []
         && r.engine.host.tasks == map[0 := Task(Created, None, true)] && r.watchdog == Restoring(Some(0))
  {
    Two(b, Tick(FRAME_WATCHDOG_INTERVAL), WatchdogPolls, lag);
  }

  lemma Unwinds(b: Bridge, given: string, lag: nat)
    requires !b.engine.active && !b.engine.releasing && b.engine.saved == Some([given])
    requires b.engine.host.awaiting == [0] && b.engine.host.tasks == map[0 := Task(Created, None, true)]
    requires b.watchdog == Restoring(Some(0))
    ensures var events := [DrainUnwinds(0), RestoreResumes(0)];
      Run(b, events, lag) && QuietTeardowns(b, events, lag) && GivingBack(Exec(b, events, lag))
  {
    Two(b, DrainUnwinds(0), RestoreResumes(0), lag);
  }

  lemma StartsUnwatched(b: Bridge, user: string, states: States, lag: nat)
    requires GivingBack(b)
    ensures var events := [Start(user, states), WatchdogRestored];
      && Run(b, events, lag) && QuietTeardowns(b, events, lag)
      && Exec(b, events, lag).engine.active && !Watched(Exec(b, events, lag))
  {
    Two(b, Start(user, states), WatchdogRestored, lag);
  }

  /** A session that goes silent at once, and another that is started while its light is given back. */
  function LostWatchdogRun(user: string, states: States): seq<Event> {
    var poll := [Tick(FRAME_WATCHDOG_INTERVAL), WatchdogPolls];
    [Start(user, states), WatchdogBoots] + (poll + (poll + (poll
    + ([DrainUnwinds(0), RestoreResumes(0)] + [Start(user, states), WatchdogRestored]))))
  }

  /** The second session has no watchdog, although nothing was started while the first one ended. */
  lemma LostWatchdog(light: Light, now: nat, user: string, states: States, lag: nat)
    requires light.entityId in states
    ensures var b, events := Initial([light], now), LostWatchdogRun(user, states);
      && Run(b, events, lag) && QuietTeardowns(b, events, lag)
      && Exec(b, events, lag).engine.active && !Watched(Exec(b, events, lag))
  {
    var given := states[light.entityId];
    var start, poll := [Start(user, states), WatchdogBoots], [Tick(FRAME_WATCHDOG_INTERVAL), WatchdogPolls];
    var unwind, again := [DrainUnwinds(0), RestoreResumes(0)], [Start(user, states), WatchdogRestored];
    var b := Initial([light], now);
    SessionFallsAsleep(light, now, user, states, lag);
    var b1 := Exec(b, start, lag);
    SleepsOn(b1, now, given, lag);
    var b2 := Exec(b1, poll, lag);
    SleepsOn(b2, now, given, lag);
    var b3 := Exec(b2, poll, lag);
    TimesOut(b3, now, given, lag);
    var b4 := Exec(b3, poll, lag);
    Unwinds(b4, given, lag);
    var b5 := Exec(b4, unwind, lag);
    StartsUnwatched(b5, user, states, lag);
    Join(b4, unwind, again, lag);
    Join(b3, poll, unwind + again, lag);
    Join(b2, poll, poll + (unwind + again), lag);
    Join(b1, poll, poll + (poll + (unwind + again)), lag);
    Join(b, start, poll + (poll + (poll + (unwind + again))), lag);
  }

  predicate Unattended(e: Event) { !e.Stop? && !e.Start? }

  /** An unwatched session outlives any silence and any release, until the TV itself ends or restarts it. */
  lemma {:induction false} UnwatchedSessionNeverEnds(b: Bridge, events: seq<Event>, lag: nat)
    requires b.engine.active && !Watched(b) && Run(b, events, lag)
    requires forall e <- events :: Unattended(e)
    ensures var r := Exec(b, events, lag); r.engine.active && !Watched(r)
    ensures b.engine.releasing && FreeInv(b.engine) ==> Exec(b, events, lag).engine.releasing
    decreases |events|
  {
    if events != [] {
      var e := events[0];
      assert e in events;
      UnwatchedStep(b, e, lag);
      UnwatchedSessionNeverEnds(Apply(b, e, lag), events[1..], lag);
    }
  }

  lemma UnwatchedStep(b: Bridge, e: Event, lag: nat)
    requires b.engine.active && !Watched(b) && Enabled(b, e, lag) && Unattended(e)
    ensures var r := Apply(b, e, lag); r.engine.active && !Watched(r)
    ensures b.engine.releasing && FreeInv(b.engine) ==>
              Apply(b, e, lag).engine.releasing && FreeInv(Apply(b, e, lag).engine)
  {
    if FreeInv(b.engine) {
      EngineInvPreserved(b, e, lag);
    }
  }
}
