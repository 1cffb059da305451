/**
 The closures of `async_setup_entry` and the services that act on engine, API server and watchdog together,
 and the event loop that runs them: each is proved equal to its event in BridgeModel.
 */
module Wiring {
  import opened Prelude
  import opened Constants
  import opened Commands
  import opened EngineModel
  import opened BridgeModel
  import opened EngineClass

  class HueEntertainment {
    const engine: EntertainmentEngine
    var entertainmentActive: bool
    var entertainmentOwner: Option<string>
    var watchdogTask: Watchdog

    ghost function State(): Bridge
      reads this, engine, engine.loop, engine.mappings
    {
      Bridge(engine.State(), entertainmentActive, entertainmentOwner, watchdogTask)
    }

    constructor (loop: EventLoop, lights: seq<Light>)
      requires loop.View() == Host(loop.now, map[], map[], 0, [], Notice(Published(Idle, false), 0), [], [])
      ensures engine.loop == loop
      ensures State() == Initial(lights, loop.now)
    {
      engine := new EntertainmentEngine(loop, lights);
      entertainmentActive, entertainmentOwner, watchdogTask := false, None, Off;
    }

    method ClearEntertainment()
      modifies this`entertainmentActive, this`entertainmentOwner
      ensures !entertainmentActive && entertainmentOwner == None
    {
      entertainmentActive := false;
      entertainmentOwner := None;
    }

    method OnEntertainmentStart(user: string, states: States)
      modifies this, engine, engine.loop, engine.mappings
      ensures engine.mappings == old(engine.mappings)
      ensures State() == StartSession(old(State()), user, states)
    {
      entertainmentActive := true;
      entertainmentOwner := Some(user);
      engine.AsyncSnapshotLights(states);
      if watchdogTask.Off? {
        watchdogTask := Booting(engine.loop.now);
      }
    }

    method StopEntertainmentSession()
      modifies this`entertainmentActive, this`entertainmentOwner, engine, engine.loop, engine.mappings
      ensures engine.mappings == old(engine.mappings)
      ensures State() == StopSession(old(State()), watchdogTask)
    {
      ClearEntertainment();
      engine.AsyncRestoreLights();
    }

    method OnEntertainmentStop()
      modifies this, engine, engine.loop, engine.mappings
      ensures engine.mappings == old(engine.mappings)
      ensures State() == StopSession(old(State()), Off)
    {
      watchdogTask := Off;
      StopEntertainmentSession();
    }

    method HandleRelease(ms: int)
      modifies this, engine, engine.loop, engine.mappings
      ensures engine.mappings == old(engine.mappings)
      ensures State() == Bridge(Release(old(engine.State()), ms), false, None, old(watchdogTask))
    {
      ClearEntertainment();
      engine.AsyncRelease(ms);
    }

    /** The watchdog's coroutine from its start to its first sleep. */
    method WatchdogStarts()
      modifies this`watchdogTask
      ensures watchdogTask == if engine.active then Sleeping(engine.loop.now + FRAME_WATCHDOG_INTERVAL) else Off
    {
      if engine.active {
        watchdogTask := Sleeping(engine.loop.now + FRAME_WATCHDOG_INTERVAL);
      } else {
        watchdogTask := Off;
      }
    }

    /** The watchdog's coroutine from one sleep to its next suspension. */
    method WatchdogWakes()
      modifies this, engine, engine.loop, engine.mappings
      ensures engine.mappings == old(engine.mappings)
      ensures State() == Poll(old(State()))
    {
      if !engine.active {
        watchdogTask := Off;
        return;
      }
      var elapsed := engine.loop.now - engine.lastFrameTime;
      if elapsed > FRAME_TIMEOUT {
        var waiting, given, drain := engine.loop.awaiting, engine.loop.reproduced, engine.drainTask;
        StopEntertainmentSession();
        if engine.loop.awaiting != waiting {
          watchdogTask := Restoring(drain);
        } else if engine.loop.reproduced != given {
          watchdogTask := Restoring(None);
        } else {
          watchdogTask := Off;
        }
        return;
      }
      watchdogTask := Sleeping(engine.loop.now + FRAME_WATCHDOG_INTERVAL);
    }

    method RestoreContinues(k: nat)
      requires k < |engine.loop.awaiting|
      modifies this, engine, engine.loop, engine.mappings
      ensures engine.mappings == old(engine.mappings)
      ensures State() == RestoreResumed(old(State()), k)
    {
      var id, given := engine.loop.awaiting[k], engine.loop.reproduced;
      engine.AsyncRestoreLightsResumed(k);
      if watchdogTask == Restoring(Some(id)) {
        watchdogTask := if engine.loop.reproduced != given then Restoring(None) else Off;
      }
    }

    method TimePasses(d: nat)
      modifies engine.loop`now
      ensures State() == old(State()).(engine :=
                old(engine.State()).(host := old(engine.loop.View()).(now := old(engine.loop.now) + d)))
    {
      engine.loop.now := engine.loop.now + d;
    }

    /** Requests and service calls, and what the event loop delivers from the DTLS thread. */
    method HandleRequest(e: Event, ghost lag: nat)
      requires Enabled(State(), e, lag)
      requires e.Frame? || e.Put? || e.Start? || e.Stop? || e.PauseCall? || e.ResumeCall? || e.ReleaseCall?
      modifies this, engine, engine.loop, engine.mappings
      ensures engine.mappings == old(engine.mappings)
      ensures State() == Apply(old(State()), e, lag)
    {
      match e
      case Frame(data) => engine.OnFrame(data);
      case Put(lightId, body) => engine.HandleLightCommand(lightId, body);
      case Start(user, states) => OnEntertainmentStart(user, states);
      case Stop => OnEntertainmentStop();
      case PauseCall(ms) => engine.AsyncPause(ms);
      case ResumeCall => engine.AsyncResume();
      case ReleaseCall(ms) => HandleRelease(ms);
    }

    /** What the event loop runs of the watchdog and of a suspended restore. */
    method HandleTeardown(e: Event, ghost lag: nat)
      requires Enabled(State(), e, lag)
      requires e.WatchdogBoots? || e.WatchdogPolls? || e.WatchdogRestored? || e.RestoreResumes?
      modifies this, engine, engine.loop, engine.mappings
      ensures engine.mappings == old(engine.mappings)
      ensures State() == Apply(old(State()), e, lag)
    {
      match e
      case WatchdogBoots => WatchdogStarts();
      case WatchdogPolls => WatchdogWakes();
      case WatchdogRestored => watchdogTask := Off;
      case RestoreResumes(k) => RestoreContinues(k);
    }

    /** Timers, drain tasks and time. */
    method HandleLoop(e: Event, ghost lag: nat)
      requires Enabled(State(), e, lag)
      requires e.TimerFires? || e.DrainResumes? || e.DrainUnwinds? || e.Tick?
      modifies this, engine, engine.loop, engine.mappings
      ensures engine.mappings == old(engine.mappings)
      ensures State() == Apply(old(State()), e, lag)
    {
      match e
      case TimerFires(id) => engine.TimerFires(id);
      case DrainResumes(id, states) => engine.DrainLoopSegment(id, states);
      case DrainUnwinds(id) => engine.DrainLoopCancelled(id);
      case Tick(d) => TimePasses(d);
    }

    /** The event loop, and with it the state machine: any event that can happen does what `Apply` says. */
    method Handle(e: Event, ghost lag: nat)
      requires Enabled(State(), e, lag)
      modifies this, engine, engine.loop, engine.mappings
      ensures engine.mappings == old(engine.mappings)
      ensures State() == Apply(old(State()), e, lag)
    {
      if e.TimerFires? || e.DrainResumes? || e.DrainUnwinds? || e.Tick? {
        HandleLoop(e, lag);
      } else if e.WatchdogBoots? || e.WatchdogPolls? || e.WatchdogRestored? || e.RestoreResumes? {
        HandleTeardown(e, lag);
      } else {
        HandleRequest(e, lag);
      }
    }
  }
}
