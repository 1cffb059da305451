/**
 The properties callers rely on, over every run from the start: what the invariant means for releases and
 timers, for suppression, for the drain loop, for the sensors and for the API server.
 */
module Safety {
  import opened Prelude
  import opened Commands
  import opened EngineModel
  import opened BridgeModel
  import opened Invariants

  // ---- pause and release ----

  function GraceTimers(s: Engine): set<nat> { set id <- s.host.timers | s.host.timers[id].GraceTimer? }

  function PauseTimers(s: Engine): set<nat> { set id <- s.host.timers | s.host.timers[id].PauseTimer? }

  lemma TimersAreCounted(s: Engine)
    requires TimersInv(s)
    ensures GraceTimers(s) == if s.releaseCancel.Some? then {s.releaseCancel.value} else {}
    ensures PauseTimers(s) == if s.pauseCancel.Some? then {s.pauseCancel.value} else {}
  {
  }

  /**
   Over every run: a pending release has exactly one live grace timer, or forces an active session to end;
   nothing else keeps a grace timer alive. A pause has exactly one live timer, due when it ends.
   */
  lemma ReleaseIsNeverStuck(lights: seq<Light>, now: nat, events: seq<Event>, lag: nat)
    requires Run(Initial(lights, now), events, lag)
    ensures var s := Exec(Initial(lights, now), events, lag).engine;
      && (s.forcing ==> s.releasing && s.active)
      && |GraceTimers(s)| == (if s.releasing && !s.forcing then 1 else 0)
      && |PauseTimers(s)| == (if s.pausedUntil.Some? then 1 else 0)
      && (forall id <- PauseTimers(s) :: s.pausedUntil == Some(s.host.timers[id].due))
      && (s.pausedUntil.Some? ==> !s.releasing)
  {
    InitialInv(lights, now, lag);
    RunInv(Initial(lights, now), events, lag);
    TimersAreCounted(Exec(Initial(lights, now), events, lag).engine);
  }

  // ---- the status ----

  /** What each status says: a release before a pause, a session before classic mode. */
  lemma StatusMeans(s: Engine)
    ensures var status, paused := Current(s).status, s.pausedUntil.Some? && s.host.now < s.pausedUntil.value;
      && (status == Releasing <==> s.releasing)
      && (status == Paused <==> !s.releasing && paused)
      && (status == Streaming <==> !s.releasing && !paused && s.active)
      && (status == Classic <==> !s.releasing && !paused && !s.active && s.drainRunning)
      && (status == Idle <==> !s.releasing && !paused && !s.active && !s.drainRunning)
      && (Current(s).driving <==> !s.releasing && !paused && (s.active || s.drainRunning))
  {
  }

  // ---- suppression ----

  predicate SuppressedThroughout(b: Bridge, events: seq<Event>, lag: nat)
    requires Run(b, events, lag)
    decreases |events|
  {
    Held(b.engine) && (events != [] ==> SuppressedThroughout(Apply(b, events[0], lag), events[1..], lag))
  }

  function Calling(s: Engine): set<nat> { set id <- s.host.tasks | s.host.tasks[id].position.InFlight? }

  lemma ScanOfClean(slots: seq<Slot>, states: States, i: nat)
    requires i <= |slots| && AllClean(slots)
    ensures Scan(slots, states, i) == Pass(slots, None)
    decreases |slots| - i
  {
  }

  lemma TurnOfClean(s: Engine, id: nat, states: States, idleSince: Option<int>)
    requires AllClean(s.slots)
    ensures FullPass(s, id, states, idleSince) == Settle(s.(wake := false), id, idleSince)
  {
    ScanOfClean(s.slots, states, 0);
  }

  lemma DrainOfClean(s: Engine, id: nat, states: States)
    requires DrainReady(s, id) && AllClean(s.slots)
    ensures var task := s.host.tasks[id];
      ResumeDrain(s, id, states) ==
        Settle(s.(wake := false), id, if task.position.InFlight? then None else task.idleSince)
  {
    var task := s.host.tasks[id];
    if task.position.InFlight? {
      ScanOfClean(s.slots, states, task.position.light + 1);
      TurnOfClean(s, id, states, None);
    } else {
      TurnOfClean(s, id, states, task.idleSince);
    }
  }

  lemma SilentDrain(s: Engine, id: nat, states: States)
    requires DrainReady(s, id) && AllClean(s.slots)
    ensures ResumeDrain(s, id, states).host.sent == s.host.sent
    ensures Calling(ResumeDrain(s, id, states)) <= Calling(s)
  {
    DrainOfClean(s, id, states);
  }

  lemma SilentStep(b: Bridge, e: Event, lag: nat)
    requires FreeInv(b.engine) && Enabled(b, e, lag) && Held(b.engine)
    ensures Apply(b, e, lag).engine.host.sent == b.engine.host.sent
    ensures Calling(Apply(b, e, lag).engine) <= Calling(b.engine)
  {
    if e.DrainResumes? {
      SilentDrain(b.engine, e.task, e.states);
    } else if IsCall(e) {
      CallsFrame(b, e, lag);
    }
  }

  /**
   While pause and release suppress the engine no light call begins, whatever happens meanwhile; the calls
   under way are among those that had begun before, and with a single drain loop that is one at most.
   */
  lemma {:induction false} NoCommandWhileSuppressed(b: Bridge, events: seq<Event>, lag: nat)
    requires FreeInv(b.engine) && Run(b, events, lag) && SuppressedThroughout(b, events, lag)
    ensures var r := Exec(b, events, lag).engine;
      && AllClean(r.slots)
      && r.host.sent == b.engine.host.sent
      && Calling(r) <= Calling(b.engine)
    ensures LoopInv(b.engine) ==> |Calling(b.engine)| <= 1
    decreases |events|
  {
    if LoopInv(b.engine) {
      AtMostOneTask(b.engine);
    }
    if events != [] {
      EngineInvPreserved(b, events[0], lag);
      SilentStep(b, events[0], lag);
      NoCommandWhileSuppressed(Apply(b, events[0], lag), events[1..], lag);
    }
  }

  lemma AtMostOneTask(s: Engine)
    requires LoopInv(s)
    ensures |s.host.tasks| <= 1 && |Calling(s)| <= 1
  {
    if s.drainTask.Some? && s.host.tasks != map[] {
      var one := {s.drainTask.value};
      assert s.host.tasks.Keys == one;
      assert Calling(s) == {} || Calling(s) == one;
    } else {
      assert s.host.tasks == map[] && Calling(s) == {};
    }
  }

  // ---- the drain loop ----

  /**
   Outside the unwinding of a session end: one drain loop at most is alive, `drainRunning` says whether one
   is, and a session has one; a parked loop with something to send has been woken.
   */
  lemma OneLoopAndNoLostWakeup(lights: seq<Light>, now: nat, events: seq<Event>, lag: nat)
    requires var b := Initial(lights, now); Run(b, events, lag) && QuietTeardowns(b, events, lag)
    ensures var s := Exec(Initial(lights, now), events, lag).engine;
      && |s.host.tasks| <= 1
      && (s.host.awaiting == [] ==> (s.drainRunning <==> s.host.tasks != map[]) && (s.active ==> s.drainRunning))
      && (forall id <- s.host.tasks :: s.host.tasks[id].position.Parked? && AnyDirty(s.slots) ==> s.wake)
  {
    InitialInv(lights, now, lag);
    RunInv(Initial(lights, now), events, lag);
    AtMostOneTask(Exec(Initial(lights, now), events, lag).engine);
  }

  /** So whatever is queued where a loop is running can be drained at once: the loop never waits for something else. */
  lemma QueuedCanBeDrained(lights: seq<Light>, now: nat, events: seq<Event>, lag: nat, states: States)
    requires var b := Initial(lights, now); Run(b, events, lag) && QuietTeardowns(b, events, lag)
    ensures var b := Exec(Initial(lights, now), events, lag);
      b.engine.host.awaiting == [] && b.engine.drainRunning && AnyDirty(b.engine.slots) ==>
        b.engine.drainTask.Some? && Enabled(b, DrainResumes(b.engine.drainTask.value, states), lag)
  {
    InitialInv(lights, now, lag);
    RunInv(Initial(lights, now), events, lag);
  }

  /** And a session end can always be completed: its drain task unwinds, and the restore goes on. */
  lemma EndCanComplete(lights: seq<Light>, now: nat, events: seq<Event>, lag: nat) returns (rest: seq<Event>)
    requires var b := Initial(lights, now); Run(b, events, lag) && QuietTeardowns(b, events, lag)
    ensures var b := Exec(Initial(lights, now), events, lag);
      Run(b, rest, lag) && Exec(b, rest, lag).engine.host.awaiting == [] && |rest| <= 2
  {
    InitialInv(lights, now, lag);
    RunInv(Initial(lights, now), events, lag);
    var b := Exec(Initial(lights, now), events, lag);
    rest := CompleteEnd(b, lag);
  }

  lemma CompleteEnd(b: Bridge, lag: nat) returns (rest: seq<Event>)
    requires FreeInv(b.engine) && LoopInv(b.engine)
    ensures Run(b, rest, lag) && Exec(b, rest, lag).engine.host.awaiting == [] && |rest| <= 2
  {
    var h := b.engine.host;
    if h.awaiting == [] {
      rest := [];
    } else if h.tasks == map[] {
      rest := [RestoreResumes(0)];
    } else {
      rest := [DrainUnwinds(h.awaiting[0]), RestoreResumes(0)];
      Two(b, DrainUnwinds(h.awaiting[0]), RestoreResumes(0), lag);
    }
  }

  /** A session has its drain loop, and one end waits at a time, if no session is started while one ends. */
  lemma SessionsHaveALoop(lights: seq<Light>, now: nat, events: seq<Event>, lag: nat)
    requires var b := Initial(lights, now); Run(b, events, lag) && QuietStarts(b, events, lag)
    ensures var s := Exec(Initial(lights, now), events, lag).engine;
      |s.host.awaiting| <= 1 && (s.active ==> s.host.awaiting == [] && Alive(s))
  {
    InitialInv(lights, now, lag);
    RunInv(Initial(lights, now), events, lag);
  }

  lemma TurnThatEnds(s: Engine, id: nat, states: States, idleSince: Option<int>)
    requires CoreInv(s) && id in s.host.tasks && !s.host.tasks[id].cancelled
    requires id !in FullPass(s, id, states, idleSince).host.tasks
    ensures var r := FullPass(s, id, states, idleSince);
      !r.active && !r.drainRunning && r.host.tasks == map[] && AllClean(r.slots)
  {
    ScanKeeps(s, states, 0);
    FullPassKeeps(s, id, states, idleSince);
  }

  /** A drain loop that ends by itself ends outside sessions, and leaves nothing unsent. */
  lemma CleanIdleExit(s: Engine, id: nat, states: States)
    requires EngineInv(s) && DrainReady(s, id)
    requires id !in ResumeDrain(s, id, states).host.tasks
    ensures var r := ResumeDrain(s, id, states);
      !r.active && !r.drainRunning && r.host.tasks == map[] && AllClean(r.slots)
  {
    TurnThatEnds(s, id, states, s.host.tasks[id].idleSince);
  }

  // ---- sensors and API ----

  /**
   Over every run, except while a session end unwinds: what listeners were last told is the current status, unless
   a pause has run out and they have not been told anything since. That is so for no longer than a callback is
   kept waiting. And the lights are driven exactly in the statuses streaming and classic.
   */
  lemma SensorsAreFresh(lights: seq<Light>, now: nat, events: seq<Event>, lag: nat)
    requires Run(Initial(lights, now), events, lag)
    ensures var s := Exec(Initial(lights, now), events, lag).engine;
      && (s.host.awaiting == [] ==>
            (s.host.published.shown != Current(s) <==> PauseOverdue(s) && s.host.published.at < s.pausedUntil.value))
      && (PauseOverdue(s) ==> s.host.now <= s.pausedUntil.value + lag)
      && (Current(s).driving <==> Current(s).status in {Streaming, Classic})
  {
    InitialInv(lights, now, lag);
    RunInv(Initial(lights, now), events, lag);
  }

  /** Told now what is so now. */
  predicate JustTold(s: Engine) { s.host.published == Notice(Current(s), s.host.now) }

  lemma StartTellsEnd(s: Engine, states: States)
    requires s.releasing
    ensures JustTold(SnapshotLights(s, states))
  {
  }

  lemma RestoreTellsEnd(s: Engine)
    requires s.active && s.releasing
    ensures JustTold(RestoreLights(s))
  {
  }

  lemma FiringTellsEnd(s: Engine, id: nat)
    requires FreeInv(s) && id in s.host.timers && s.releasing && !FireTimer(s, id).releasing
    ensures JustTold(FireTimer(s, id))
  {
  }

  /** Whatever ends a release, listeners are told at once, and they are told what is so then. */
  lemma EndOfReleaseIsTold(b: Bridge, e: Event, lag: nat)
    requires FreeInv(b.engine) && Enabled(b, e, lag)
    requires b.engine.releasing && !Apply(b, e, lag).engine.releasing
    ensures JustTold(Apply(b, e, lag).engine)
  {
    match e
    case Start(_, states) => StartTellsEnd(b.engine, states);
    case TimerFires(id) => FiringTellsEnd(b.engine, id);
    case Stop => RestoreTellsEnd(b.engine);
    case WatchdogPolls => RestoreTellsEnd(b.engine);
    case _ =>
  }

  /** Over every run: a stream the API reports belongs to a session, and only a release separates the two. */
  lemma ApiAndEngineAgree(lights: seq<Light>, now: nat, events: seq<Event>, lag: nat)
    requires Run(Initial(lights, now), events, lag)
    ensures var b := Exec(Initial(lights, now), events, lag);
      && (b.apiActive ==> b.engine.active)
      && (b.engine.active && !b.apiActive ==> b.engine.releasing)
      && (b.owner.Some? <==> b.apiActive)
  {
    InitialInv(lights, now, lag);
    RunInv(Initial(lights, now), events, lag);
  }

  /** A session has its watchdog, unless one was started while the watchdog was giving the lights back. */
  lemma SessionsAreWatched(lights: seq<Light>, now: nat, events: seq<Event>, lag: nat)
    requires var b := Initial(lights, now); Run(b, events, lag) && QuietWatchdogs(b, events, lag)
    ensures var b := Exec(Initial(lights, now), events, lag);
      b.engine.active <==> Watched(b)
  {
    InitialInv(lights, now, lag);
    RunInv(Initial(lights, now), events, lag);
  }
}
