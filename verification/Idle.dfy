/**
 When a drain loop of classic mode ends: once it has had nothing to send for long enough, not before, and then
 soon. Here the only loop alive is looked at, as any is while teardowns are quiet.
 */
module Idle {
  import opened Prelude
  import opened Constants
  import opened Commands
  import opened EngineModel
  import opened BridgeModel
  import opened Invariants
  import Safety
  import Stranding
  import HueStream

  /**
   A parked loop with nothing to send ends when it is resumed, if and only if its first idle turn is long past; that
   turn is its first one outside a session.
   */
  lemma EndsWhenIdle(s: Engine, id: nat, states: States)
    requires DrainReady(s, id) && s.host.tasks[id].position.Parked? && AllClean(s.slots)
    ensures id !in ResumeDrain(s, id, states).host.tasks <==>
      && !s.active && s.host.tasks[id].idleSince.Some?
      && s.host.now > s.host.tasks[id].idleSince.value + 2000
    ensures var since, tasks := s.host.tasks[id].idleSince, ResumeDrain(s, id, states).host.tasks;
      && (id in tasks && (since.Some? || s.active) ==> tasks[id].idleSince == since)
      && (id in tasks && since.None? && !s.active ==> tasks[id].idleSince == Some(s.host.now))
  {
    Safety.DrainOfClean(s, id, states);
  }

  // ---- it ends soon ----

  /** No session, nothing queued, no other loop, and the loop is resumed at most `lag` after its timeout. */
  predicate Unused(s: Engine, id: nat, lag: nat) {
    && !s.active && AllClean(s.slots) && s.host.tasks.Keys <= {id}
    && (id in s.host.tasks && s.host.tasks[id].position.Parked? ==> s.host.now <= s.host.tasks[id].position.due + lag)
  }

  predicate UnusedThroughout(b: Bridge, events: seq<Event>, lag: nat, id: nat)
    requires Run(b, events, lag)
    decreases |events|
  {
    Unused(b.engine, id, lag) && (events != [] ==> UnusedThroughout(Apply(b, events[0], lag), events[1..], lag, id))
  }

  /** The loop has not been resumed since `start`, or has counted its idle time from soon after it on. */
  predicate Waning(s: Engine, id: nat, lag: nat, start: int) {
    id in s.host.tasks ==>
      var task := s.host.tasks[id];
      && task.position.Parked?
      && (|| task.position.due <= start + CLASSIC_DRAIN_IDLE
          || (&& task.idleSince.Some? && task.idleSince.value <= start + CLASSIC_DRAIN_IDLE + lag
              && task.position.due <= task.idleSince.value + 2 * CLASSIC_DRAIN_IDLE))
  }

  lemma FiringKeepsTasks(s: Engine, timer: nat)
    requires timer in s.host.timers
    ensures FireTimer(s, timer).host.tasks == s.host.tasks
  {
  }

  /** Outside a session, and as long as none is opened, nothing but the loop itself touches its task. */
  lemma CallsKeepTask(b: Bridge, e: Event, lag: nat, id: nat)
    requires TaskInv(b.engine) && !b.engine.active && b.engine.host.tasks.Keys <= {id}
    requires Enabled(b, e, lag) && IsCall(e)
    requires Apply(b, e, lag).engine.host.tasks.Keys <= {id} && !Apply(b, e, lag).engine.active
    ensures id in Apply(b, e, lag).engine.host.tasks ==>
      (id in b.engine.host.tasks && Apply(b, e, lag).engine.host.tasks[id] == b.engine.host.tasks[id])
  {
    if e.TimerFires? {
      FiringKeepsTasks(b.engine, e.timer);
    }
  }

  lemma WaningTurn(s: Engine, id: nat, states: States, lag: nat, start: int)
    requires DrainReady(s, id) && TaskInv(s) && Unused(s, id, lag) && Waning(s, id, lag, start) && start <= s.host.now
    ensures Waning(ResumeDrain(s, id, states), id, lag, start)
  {
    Safety.DrainOfClean(s, id, states);
  }

  lemma WaningStep(b: Bridge, e: Event, lag: nat, id: nat, start: int)
    requires FreeInv(b.engine) && Enabled(b, e, lag) && start <= b.engine.host.now
    requires Unused(b.engine, id, lag) && Unused(Apply(b, e, lag).engine, id, lag) && Waning(b.engine, id, lag, start)
    ensures Waning(Apply(b, e, lag).engine, id, lag, start) && start <= Apply(b, e, lag).engine.host.now
  {
    if e.DrainResumes? {
      WaningTurn(b.engine, id, e.states, lag, start);
    } else if IsCall(e) {
      CallsKeepTask(b, e, lag, id);
      CallsFrame(b, e, lag);
    } else if e.Put? {
      PutKeepsTask(b.engine, e.lightId, e.body);
    }
  }

  /** A PUT does nothing, or queues something. */
  lemma PutKeepsTask(s: Engine, lightId: nat, body: Body)
    ensures HandleCommand(s, lightId, body) == s || !AllClean(HandleCommand(s, lightId, body).slots)
  {
    if MergeInto(s, lightId, body).Queued? {
      assert HandleCommand(s, lightId, body).slots[Find(s.slots, lightId).value].dirty;
    }
  }

  lemma {:induction false} WaningRun(b: Bridge, events: seq<Event>, lag: nat, id: nat, start: int)
    requires FreeInv(b.engine) && start <= b.engine.host.now && Waning(b.engine, id, lag, start)
    requires Run(b, events, lag) && UnusedThroughout(b, events, lag, id)
    ensures Waning(Exec(b, events, lag).engine, id, lag, start) && Unused(Exec(b, events, lag).engine, id, lag)
    decreases |events|
  {
    if events != [] {
      EngineInvPreserved(b, events[0], lag);
      WaningStep(b, events[0], lag, id, start);
      WaningRun(Apply(b, events[0], lag), events[1..], lag, id, start);
    }
  }

  /** From any reachable state: a parked loop that is not used any more ends within three timeouts. */
  lemma UnusedLoopEnds(b: Bridge, events: seq<Event>, lag: nat, id: nat)
    requires FreeInv(b.engine) && id in b.engine.host.tasks && b.engine.host.tasks[id].position.Parked?
    requires Run(b, events, lag) && UnusedThroughout(b, events, lag, id)
    ensures var r := Exec(b, events, lag).engine;
      id in r.host.tasks ==> r.host.now <= b.engine.host.now + 3 * CLASSIC_DRAIN_IDLE + 2 * lag
  {
    WaningRun(b, events, lag, id, b.engine.host.now);
  }

  /** And it can: where nothing else is due, time passes, and its timeout ends it. */
  lemma UnusedLoopCanEnd(b: Bridge, lag: nat, id: nat, states: States) returns (d: nat)
    requires id in b.engine.host.tasks && !b.engine.host.tasks[id].cancelled
    requires b.engine.host.tasks[id].position.Parked? && b.engine.host.tasks[id].idleSince.Some?
    requires !b.engine.active && AllClean(b.engine.slots) && b.engine.host.timers == map[] && b.watchdog.Off?
    ensures var events := [Tick(d), DrainResumes(id, states)];
      Run(b, events, lag) && id !in Exec(b, events, lag).engine.host.tasks
  {
    var task := b.engine.host.tasks[id];
    var end := task.idleSince.value + CLASSIC_DRAIN_IDLE + 1;
    var later := if end < task.position.due then task.position.due else end;
    d := if later < b.engine.host.now then 0 else later - b.engine.host.now;
    var m := Apply(b, Tick(d), lag);
    EndsWhenIdle(m.engine, id, states);
    Two(b, Tick(d), DrainResumes(id, states), lag);
  }

  // ---- and not before ----

  /** The loop counts its idle time from `start` at the earliest, or has ended after its timeout. */
  predicate Lasting(s: Engine, id: nat, start: int) {
    if id in s.host.tasks then s.host.tasks[id].idleSince.Some? ==> s.host.tasks[id].idleSince.value >= start
    else s.host.now > start + CLASSIC_DRAIN_IDLE
  }

  predicate Uncancelled(s: Engine, id: nat) {
    s.host.tasks.Keys <= {id} && (id in s.host.tasks ==> !s.host.tasks[id].cancelled)
  }

  predicate UncancelledThroughout(b: Bridge, events: seq<Event>, lag: nat, id: nat)
    requires Run(b, events, lag)
    decreases |events|
  {
    && Uncancelled(b.engine, id)
    && (events != [] ==> UncancelledThroughout(Apply(b, events[0], lag), events[1..], lag, id))
  }

  lemma SendLasts(s: Engine, id: nat, slots: seq<Slot>, k: nat, slot: Slot, start: int)
    requires k < |slots| && slot.pending.Some?
    ensures Lasting(Send(s, id, slots, k, slot), id, start)
  {
  }

  lemma SettleLasts(s: Engine, id: nat, idleSince: Option<int>, start: int)
    requires start <= s.host.now && (idleSince.Some? ==> idleSince.value >= start)
    ensures Lasting(Settle(s, id, idleSince), id, start)
  {
  }

  lemma TurnLasts(s: Engine, id: nat, states: States, idleSince: Option<int>, start: int)
    requires start <= s.host.now && (idleSince.Some? ==> idleSince.value >= start)
    ensures Lasting(FullPass(s, id, states, idleSince), id, start)
  {
    var r := s.(wake := false);
    var p := Scan(r.slots, states, 0);
    if p.hit.Some? {
      SendLasts(r, id, p.slots, p.hit.value, s.slots[p.hit.value], start);
    } else {
      SettleLasts(r.(slots := p.slots), id, idleSince, start);
    }
  }

  lemma RestLasts(s: Engine, id: nat, states: States, k: nat, start: int)
    requires k <= |s.slots| && start <= s.host.now
    ensures Lasting(Continued(s, id, states, k), id, start)
  {
    var p := Scan(s.slots, states, k);
    if p.hit.Some? {
      SendLasts(s, id, p.slots, p.hit.value, s.slots[p.hit.value], start);
    } else {
      TurnLasts(s.(slots := p.slots), id, states, None, start);
    }
  }

  lemma ContinuedLasts(s: Engine, r: Engine, id: nat, states: States, k: nat, start: int)
    requires k <= |s.slots| && start <= s.host.now && r == Continued(s, id, states, k)
    ensures Lasting(r, id, start)
  {
    RestLasts(s, id, states, k, start);
  }

  lemma FullPassLasts(s: Engine, r: Engine, id: nat, states: States, idleSince: Option<int>, start: int)
    requires start <= s.host.now && (idleSince.Some? ==> idleSince.value >= start)
    requires r == FullPass(s, id, states, idleSince)
    ensures Lasting(r, id, start)
  {
    TurnLasts(s, id, states, idleSince, start);
  }

  lemma DrainLasts(s: Engine, id: nat, states: States, start: int)
    requires DrainReady(s, id) && Lasting(s, id, start) && start <= s.host.now
    ensures Lasting(ResumeDrain(s, id, states), id, start)
  {
    var r := ResumeDrain(s, id, states);
    var task := s.host.tasks[id];
    if task.position.InFlight? {
      assert r == Continued(s, id, states, task.position.light + 1) by {
        ResumedIsContinued(s, id, states);
      }
      ContinuedLasts(s, r, id, states, task.position.light + 1, start);
    } else {
      assert r == FullPass(s, id, states, task.idleSince) by {
        ResumedIsTurn(s, id, states);
      }
      FullPassLasts(s, r, id, states, task.idleSince, start);
    }
  }

  lemma StartLasts(s: Engine, states: States, id: nat, start: int)
    requires Lasting(s, id, start)
    ensures Lasting(SnapshotLights(s, states), id, start)
  {
  }

  lemma EndLasts(s: Engine, id: nat, start: int)
    requires Lasting(s, id, start)
    ensures Lasting(RestoreLights(s), id, start)
  {
  }

  lemma FiringLasts(s: Engine, timer: nat, id: nat, start: int)
    requires Lasting(s, id, start) && timer in s.host.timers
    ensures Lasting(FireTimer(s, timer), id, start)
  {
  }

  lemma CallLasts(b: Bridge, e: Event, lag: nat, id: nat, start: int)
    requires Lasting(b.engine, id, start) && Enabled(b, e, lag) && IsCall(e)
    ensures Lasting(Apply(b, e, lag).engine, id, start)
  {
    match e
    case Start(_, states) => StartLasts(b.engine, states, id, start);
    case TimerFires(timer) => FiringLasts(b.engine, timer, id, start);
    case Stop => EndLasts(b.engine, id, start);
    case WatchdogPolls => EndLasts(b.engine, id, start);
    case _ =>
  }

  lemma LastingStep(b: Bridge, e: Event, lag: nat, id: nat, start: int)
    requires Enabled(b, e, lag) && Uncancelled(b.engine, id) && Lasting(b.engine, id, start)
    requires start <= b.engine.host.now
    ensures Lasting(Apply(b, e, lag).engine, id, start) && start <= Apply(b, e, lag).engine.host.now
  {
    if e.DrainResumes? {
      DrainLasts(b.engine, id, e.states, start);
    } else if IsCall(e) {
      CallLasts(b, e, lag, id, start);
      CallsFrame(b, e, lag);
    }
  }

  lemma {:induction false} LastingRun(b: Bridge, events: seq<Event>, lag: nat, id: nat, start: int)
    requires Lasting(b.engine, id, start) && start <= b.engine.host.now
    requires Run(b, events, lag) && UncancelledThroughout(b, events, lag, id)
    ensures Lasting(Exec(b, events, lag).engine, id, start)
    decreases |events|
  {
    if events != [] {
      LastingStep(b, events[0], lag, id, start);
      LastingRun(Apply(b, events[0], lag), events[1..], lag, id, start);
    }
  }

  /** A loop that has just started or just sent something does not end by itself before its timeout, used or not. */
  lemma LoopLasts(b: Bridge, events: seq<Event>, lag: nat, id: nat)
    requires id in b.engine.host.tasks && b.engine.host.tasks[id].idleSince.None?
    requires Run(b, events, lag) && UncancelledThroughout(b, events, lag, id)
    ensures var r := Exec(b, events, lag).engine;
      id !in r.host.tasks ==> r.host.now > b.engine.host.now + CLASSIC_DRAIN_IDLE
  {
    LastingRun(b, events, lag, id, b.engine.host.now);
  }

  // ---- in between it sleeps ----

  /** A drain segment that ends parked has found nothing to send, and waits for a wake-up or its timeout. */
  lemma ParksClean(s: Engine, id: nat, states: States)
    requires Consistent(s.slots) && DrainReady(s, id)
    ensures var r := ResumeDrain(s, id, states);
      id in r.host.tasks && r.host.tasks[id].position.Parked? ==>
        Asleep(r, id, s.host.now + CLASSIC_DRAIN_IDLE) && AllClean(r.slots)
  {
    var r := ResumeDrain(s, id, states);
    var task := s.host.tasks[id];
    if task.position.InFlight? {
      assert r == Continued(s, id, states, task.position.light + 1) by {
        ResumedIsContinued(s, id, states);
      }
      RestParks(s, r, id, states, task.position.light + 1);
    } else {
      assert r == FullPass(s, id, states, task.idleSince) by {
        ResumedIsTurn(s, id, states);
      }
      TurnParks(s, r, id, states, task.idleSince);
    }
  }

  lemma PassCleans(slots: seq<Slot>, states: States)
    requires Consistent(slots) && Scan(slots, states, 0).hit.None?
    ensures AllClean(Scan(slots, states, 0).slots)
  {
    ScanMeaning(slots, states, 0);
  }

  lemma SettleParks(s: Engine, id: nat, idleSince: Option<int>)
    requires !s.wake
    ensures Asleep(Settle(s, id, idleSince), id, s.host.now + CLASSIC_DRAIN_IDLE)
  {
  }

  lemma SendFlies(s: Engine, id: nat, slots: seq<Slot>, k: nat, slot: Slot)
    requires k < |slots| && slot.pending.Some?
    ensures id in Send(s, id, slots, k, slot).host.tasks
    ensures Send(s, id, slots, k, slot).host.tasks[id].position.InFlight?
  {
  }

  lemma TurnParks(s: Engine, r: Engine, id: nat, states: States, idleSince: Option<int>)
    requires Consistent(s.slots) && r == FullPass(s, id, states, idleSince)
    ensures id in r.host.tasks && r.host.tasks[id].position.Parked? ==>
      Asleep(r, id, s.host.now + CLASSIC_DRAIN_IDLE) && AllClean(r.slots)
  {
    var p := Scan(s.slots, states, 0);
    if p.hit.Some? {
      SendFlies(s.(wake := false), id, p.slots, p.hit.value, s.slots[p.hit.value]);
    } else {
      PassCleans(s.slots, states);
      SettleParks(s.(wake := false, slots := p.slots), id, idleSince);
    }
  }

  lemma RestParks(s: Engine, r: Engine, id: nat, states: States, start: nat)
    requires Consistent(s.slots) && start <= |s.slots| && r == Continued(s, id, states, start)
    ensures id in r.host.tasks && r.host.tasks[id].position.Parked? ==>
      Asleep(r, id, s.host.now + CLASSIC_DRAIN_IDLE) && AllClean(r.slots)
  {
    var p := Scan(s.slots, states, start);
    ScanMeaning(s.slots, states, start);
    if p.hit.None? {
      TurnParks(s.(slots := p.slots), r, id, states, None);
    }
  }

  /** The loop is parked until `due`, or gone, and nothing has asked it to wake up. */
  predicate Asleep(s: Engine, id: nat, due: int) {
    !s.wake && (id in s.host.tasks ==> s.host.tasks[id].position == Parked(due))
  }

  predicate CleanThroughout(b: Bridge, events: seq<Event>, lag: nat)
    requires Run(b, events, lag)
    decreases |events|
  {
    AllClean(b.engine.slots) && (events != [] ==> CleanThroughout(Apply(b, events[0], lag), events[1..], lag))
  }

  /** Nothing wakes a loop, and a loop that is gone does not come back. */
  predicate LetsSleep(s: Engine, r: Engine) {
    && r.wake == s.wake && r.host.nextId >= s.host.nextId
    && forall id <- r.host.tasks ::
         id >= s.host.nextId || (id in s.host.tasks && r.host.tasks[id].position == s.host.tasks[id].position)
  }

  lemma StartLetsSleep(s: Engine, states: States)
    ensures LetsSleep(s, SnapshotLights(s, states))
  {
  }

  lemma EndLetsSleep(s: Engine)
    ensures LetsSleep(s, RestoreLights(s))
  {
  }

  lemma FiringLetsSleep(s: Engine, timer: nat)
    requires timer in s.host.timers
    ensures LetsSleep(s, FireTimer(s, timer))
  {
  }

  lemma CallLetsSleep(b: Bridge, e: Event, lag: nat)
    requires Enabled(b, e, lag) && IsCall(e)
    ensures LetsSleep(b.engine, Apply(b, e, lag).engine)
  {
    match e
    case Start(_, states) => StartLetsSleep(b.engine, states);
    case TimerFires(timer) => FiringLetsSleep(b.engine, timer);
    case Stop => EndLetsSleep(b.engine);
    case WatchdogPolls => EndLetsSleep(b.engine);
    case _ =>
  }

  /** A frame wakes the loop only by queueing something. */
  lemma FrameLetsSleep(s: Engine, data: seq<HueStream.byte>)
    requires AllClean(HandleFrame(s, data).slots)
    ensures LetsSleep(s, HandleFrame(s, data))
  {
    if HueStream.Parse(data).Some? {
      var f := HueStream.Parse(data).value;
      if AnyAccepted(s.slots, f.channels, f.colorSpace) {
        Stranding.AcceptedIsDirty(s.slots, f.channels, f.colorSpace);
      }
    }
  }

  /** No event wakes the loop without queueing something. */
  lemma SleepStep(b: Bridge, e: Event, lag: nat, id: nat, due: int)
    requires FreeInv(b.engine) && Enabled(b, e, lag) && id < b.engine.host.nextId
    requires AllClean(b.engine.slots) && AllClean(Apply(b, e, lag).engine.slots)
    requires b.engine.host.now < due ==> Asleep(b.engine, id, due)
    ensures var r := Apply(b, e, lag).engine; r.host.now < due ==> Asleep(r, id, due)
    ensures id < Apply(b, e, lag).engine.host.nextId
  {
    if IsCall(e) {
      CallLetsSleep(b, e, lag);
      CallsFrame(b, e, lag);
    } else {
      match e
      case Frame(data) => FrameLetsSleep(b.engine, data);
      case Put(lightId, body) => PutKeepsTask(b.engine, lightId, body);
      case DrainResumes(task, states) => Safety.DrainOfClean(b.engine, task, states);
      case _ =>
    }
  }

  lemma {:induction false} SleepRun(b: Bridge, events: seq<Event>, lag: nat, id: nat, due: int)
    requires FreeInv(b.engine) && id < b.engine.host.nextId
    requires Run(b, events, lag) && CleanThroughout(b, events, lag)
    requires b.engine.host.now < due ==> Asleep(b.engine, id, due)
    ensures var r := Exec(b, events, lag).engine; r.host.now < due ==> Asleep(r, id, due)
    decreases |events|
  {
    if events != [] {
      EngineInvPreserved(b, events[0], lag);
      SleepStep(b, events[0], lag, id, due);
      SleepRun(Apply(b, events[0], lag), events[1..], lag, id, due);
    }
  }

  /**
   From any reachable state: a loop whose segment ends parked is not resumed before its timeout in any run in which
   nothing is queued. So it does not spin, and frames within tolerance do not wake it.
   */
  lemma SleepsUntilNeeded(b: Bridge, id: nat, states: States, events: seq<Event>, lag: nat)
    requires FreeInv(b.engine) && Enabled(b, DrainResumes(id, states), lag)
    requires var m := Apply(b, DrainResumes(id, states), lag);
      && id in m.engine.host.tasks && m.engine.host.tasks[id].position.Parked?
      && Run(m, events, lag) && CleanThroughout(m, events, lag)
    ensures var r := Exec(Apply(b, DrainResumes(id, states), lag), events, lag).engine;
      r.host.now < b.engine.host.now + CLASSIC_DRAIN_IDLE ==> !DrainReady(r, id)
  {
    var m, due := Apply(b, DrainResumes(id, states), lag), b.engine.host.now + CLASSIC_DRAIN_IDLE;
    ParksClean(b.engine, id, states);
    EngineInvPreserved(b, DrainResumes(id, states), lag);
    SleepRun(m, events, lag, id, due);
  }
}
