/**
 Two views of a run as its callers have it: whether the engine is paused follows from the pause, resume and
 release calls and from which of them fell into a pending release; what it restores follows from when sessions
 were started, released and ended, and from the states of the lights at their starts.
 */
module History {
  import opened Prelude
  import opened Constants
  import opened Commands
  import opened EngineModel
  import opened BridgeModel
  import opened Invariants

  // ---- pausing ----

  datatype Kind = PauseFor(ms: int) | ResumeNow | ReleaseNow
  datatype Call = Call(kind: Kind, at: int)

  /** The calls of a run that are not ignored: pause and resume are while a release is pending. */
  function Counted(b: Bridge, e: Event): seq<Call> {
    var now := b.engine.host.now;
    match e
    case PauseCall(ms) => if b.engine.releasing then [] else [Call(PauseFor(ms), now)]
    case ResumeCall => if b.engine.releasing then [] else [Call(ResumeNow, now)]
    case ReleaseCall(_) => [Call(ReleaseNow, now)]
    case _ => []
  }

  function Calls(b: Bridge, events: seq<Event>, lag: nat, before: seq<Call>): seq<Call>
    requires Run(b, events, lag)
    decreases |events|
  {
    if events == [] then before
    else Calls(Apply(b, events[0], lag), events[1..], lag, before + Counted(b, events[0]))
  }

  /** A pause lasts for the time it is called for; called for none, it lasts for two seconds. */
  function EndOf(call: Call): int
    requires call.kind.PauseFor?
  {
    call.at + (if call.kind.ms == 0 then 2000 else call.kind.ms)
  }

  /** The latest counted call is a pause that has not run out. */
  predicate PausedBy(calls: seq<Call>, now: int) {
    calls != [] &&
      var last := calls[|calls| - 1];
      last.kind.PauseFor? && now < EndOf(last)
  }

  predicate PauseSim(s: Engine, calls: seq<Call>) {
    if s.pausedUntil.Some? then
      calls != [] &&
        var last := calls[|calls| - 1];
        last.kind.PauseFor? && s.pausedUntil.value == EndOf(last)
    else !PausedBy(calls, s.host.now)
  }

  /** Only pause, resume and release calls and the pause timer touch a pause. */
  lemma OthersKeepPause(b: Bridge, e: Event, lag: nat)
    requires Enabled(b, e, lag) && (e.Start? || e.Stop? || e.WatchdogPolls?)
    ensures var r := Apply(b, e, lag).engine;
      r.pausedUntil == b.engine.pausedUntil && r.host.now == b.engine.host.now
  {
  }

  lemma TimerPauseStep(s: Engine, id: nat, calls: seq<Call>)
    requires FreeInv(s) && id in s.host.timers && s.host.timers[id].due <= s.host.now && PauseSim(s, calls)
    ensures PauseSim(FireTimer(s, id), calls)
  {
  }

  lemma CallPauseStep(b: Bridge, e: Event, lag: nat, calls: seq<Call>)
    requires FreeInv(b.engine) && Enabled(b, e, lag) && PauseSim(b.engine, calls)
    requires e.PauseCall? || e.ResumeCall? || e.ReleaseCall?
    ensures PauseSim(Apply(b, e, lag).engine, calls + Counted(b, e))
  {
  }

  lemma PauseStep(b: Bridge, e: Event, lag: nat, calls: seq<Call>)
    requires FreeInv(b.engine) && Enabled(b, e, lag) && PauseSim(b.engine, calls)
    ensures PauseSim(Apply(b, e, lag).engine, calls + Counted(b, e))
  {
    if e.PauseCall? || e.ResumeCall? || e.ReleaseCall? {
      CallPauseStep(b, e, lag, calls);
    } else {
      assert calls + Counted(b, e) == calls;
      if e.TimerFires? {
        TimerPauseStep(b.engine, e.timer, calls);
      } else if e.Start? || e.Stop? || e.WatchdogPolls? {
        OthersKeepPause(b, e, lag);
      }
    }
  }

  lemma {:induction false} PauseSimRun(b: Bridge, events: seq<Event>, lag: nat, calls: seq<Call>)
    requires FreeInv(b.engine) && Run(b, events, lag) && PauseSim(b.engine, calls)
    ensures PauseSim(Exec(b, events, lag).engine, Calls(b, events, lag, calls))
    decreases |events|
  {
    if events != [] {
      EngineInvPreserved(b, events[0], lag);
      PauseStep(b, events[0], lag, calls);
      PauseSimRun(Apply(b, events[0], lag), events[1..], lag, calls + Counted(b, events[0]));
    }
  }

  /**
   At any time of any run the engine is paused if and only if the latest call that counts is a pause whose
   time has not run out. So a release or a resume ends a pause for good, a second pause replaces the first,
   and no timer of an earlier call ends a later one.
   */
  lemma PauseFollowsCalls(lights: seq<Light>, now: nat, events: seq<Event>, lag: nat)
    requires Run(Initial(lights, now), events, lag)
    ensures var b := Initial(lights, now);
      var r := Exec(b, events, lag).engine;
      (r.pausedUntil.Some? && r.host.now < r.pausedUntil.value) <==> PausedBy(Calls(b, events, lag, []), r.host.now)
  {
    InitialInv(lights, now, lag);
    PauseSimRun(Initial(lights, now), events, lag, []);
  }

  // ---- restoring ----

  /** What Home Assistant knew of the lights when a session was opened. */
  datatype Opening = Opening(lights: seq<Light>, states: States)

  /** A session by its opening; `kept` until a release drops what it would give back. */
  datatype Session = Closed | Open(number: nat, kept: bool) | Closing(number: nat, kept: bool)

  /** All sessions of a run as they were opened, and which of them have been given back. */
  datatype Ledger = Ledger(session: Session, openings: seq<Opening>, restored: seq<nat>)

  predicate EndsSession(b: Bridge, e: Event) { e.Stop? || (e.WatchdogPolls? && TimedOut(b.engine)) }

  predicate AnyKnown(o: Opening) { exists i | 0 <= i < |o.lights| :: o.lights[i].entityId in o.states }

  function Record(b: Bridge, e: Event, l: Ledger): Ledger {
    if e.Start? && (l.session.Closed? || (l.session.Open? && !l.session.kept)) then
      l.(session := Open(|l.openings|, true), openings := l.openings + [Opening(LightsOf(b.engine.slots), e.states)])
    else if e.ReleaseCall? && !l.session.Closed? then l.(session := l.session.(kept := false))
    else if EndsSession(b, e) && l.session.Open? then l.(session := Closing(l.session.number, l.session.kept))
    else if e.RestoreResumes? && l.session.Closing? then
      var n := l.session.number;
      var given := l.session.kept && n < |l.openings| && AnyKnown(l.openings[n]);
      l.(session := Closed, restored := l.restored + (if given then [n] else []))
    else l
  }

  function RecordAll(b: Bridge, events: seq<Event>, lag: nat, l: Ledger): Ledger
    requires Run(b, events, lag)
    decreases |events|
  {
    if events == [] then l else RecordAll(Apply(b, events[0], lag), events[1..], lag, Record(b, events[0], l))
  }

  /** Sessions are given back in order and at most once each. */
  predicate WellKept(l: Ledger) {
    && (forall i | 0 <= i < |l.restored| :: l.restored[i] < |l.openings|)
    && (forall i, j | 0 <= i < j < |l.restored| :: l.restored[i] < l.restored[j])
    && (!l.session.Closed? ==>
          && l.session.number + 1 == |l.openings|
          && (l.restored != [] ==> l.restored[|l.restored| - 1] < l.session.number))
  }

  /** What a session gives back are the states of all its known lights at its opening. */
  ghost predicate Gives(o: Opening, given: Snapshot) { SnapshotOf(o.lights, o.states, given) }

  ghost predicate RestoreSim(s: Engine, l: Ledger) {
    && WellKept(l)
    && (s.active <==> l.session.Open?)
    && (s.host.awaiting != [] <==> l.session.Closing?)
    && (s.saved.Some? <==> !l.session.Closed? && l.session.kept)
    && (s.saved.Some? ==> Gives(l.openings[l.session.number], s.saved.value))
    && |s.host.reproduced| == |l.restored|
    && (forall i | 0 <= i < |l.restored| :: Gives(l.openings[l.restored[i]], s.host.reproduced[i]))
  }

  lemma GivesIfKnown(o: Opening, given: Snapshot)
    requires Gives(o, given)
    ensures given != [] <==> AnyKnown(o)
  {
    var index: seq<nat> :| IsIndex(o.lights, o.states, given, index);
    if given != [] {
      assert o.lights[index[0]].entityId in o.states;
    }
  }

  predicate IsSessionEvent(e: Event) {
    e.Start? || e.ReleaseCall? || e.Stop? || e.WatchdogPolls? || e.RestoreResumes?
  }

  predicate SameSession(s: Engine, r: Engine) {
    && r.active == s.active && r.saved == s.saved
    && r.host.awaiting == s.host.awaiting && r.host.reproduced == s.host.reproduced
  }

  lemma OtherCallsKeepSessions(b: Bridge, e: Event, lag: nat)
    requires Enabled(b, e, lag) && IsCall(e) && !IsSessionEvent(e)
    ensures SameSession(b.engine, Apply(b, e, lag).engine)
  {
  }

  lemma OtherEventsKeepSessions(b: Bridge, e: Event, lag: nat)
    requires Enabled(b, e, lag) && !IsSessionEvent(e)
    ensures SameSession(b.engine, Apply(b, e, lag).engine)
  {
    if IsCall(e) {
      OtherCallsKeepSessions(b, e, lag);
    }
  }

  lemma RestoreStep(b: Bridge, e: Event, lag: nat, l: Ledger)
    requires SessionInv(b.engine) && Enabled(b, e, lag) && QuietStart(b, e) && RestoreSim(b.engine, l)
    ensures RestoreSim(Apply(b, e, lag).engine, Record(b, e, l))
  {
    if IsSessionEvent(e) {
      SessionStep(b, e, lag, l);
    } else {
      OtherEventsKeepSessions(b, e, lag);
    }
  }

  lemma OpenStep(s: Engine, states: States, l: Ledger)
    requires SavedInv(s) && RestoreSim(s, l) && s.host.awaiting == [] && (!s.active || s.releasing)
    ensures var o := Opening(LightsOf(s.slots), states);
      RestoreSim(SnapshotLights(s, states), l.(session := Open(|l.openings|, true), openings := l.openings + [o]))
  {
    CaptureIsSnapshot(s.slots, states);
  }

  /** A session end leaves its target to the restore that waits for the drain task. */
  lemma EndStep(s: Engine)
    requires SessionInv(s) && s.active
    ensures var r := RestoreLights(s);
      !r.active && r.saved == s.saved && r.host.awaiting != [] && r.host.reproduced == s.host.reproduced
  {
  }

  lemma GiveBackStep(b: Bridge, k: nat, l: Ledger)
    requires SessionInv(b.engine) && RestoreSim(b.engine, l) && k < |b.engine.host.awaiting|
    ensures RestoreSim(RestoreResumed(b, k).engine, Record(b, RestoreResumes(k), l))
  {
    if b.engine.saved.Some? {
      GivesIfKnown(l.openings[l.session.number], b.engine.saved.value);
    }
  }

  lemma StartStep(b: Bridge, e: Event, lag: nat, l: Ledger)
    requires SessionInv(b.engine) && QuietStart(b, e) && RestoreSim(b.engine, l) && e.Start?
    ensures RestoreSim(Apply(b, e, lag).engine, Record(b, e, l))
  {
    if !b.engine.active || b.engine.releasing {
      OpenStep(b.engine, e.states, l);
    }
  }

  lemma ReleaseStep(b: Bridge, ms: int, lag: nat, l: Ledger)
    requires RestoreSim(b.engine, l) && Enabled(b, ReleaseCall(ms), lag)
    ensures RestoreSim(Apply(b, ReleaseCall(ms), lag).engine, Record(b, ReleaseCall(ms), l))
  {
  }

  lemma EndingStep(b: Bridge, e: Event, lag: nat, l: Ledger)
    requires SessionInv(b.engine) && RestoreSim(b.engine, l) && Enabled(b, e, lag) && (e.Stop? || e.WatchdogPolls?)
    ensures RestoreSim(Apply(b, e, lag).engine, Record(b, e, l))
  {
    if b.engine.active {
      EndStep(b.engine);
    }
  }

  lemma SessionStep(b: Bridge, e: Event, lag: nat, l: Ledger)
    requires SessionInv(b.engine) && Enabled(b, e, lag) && QuietStart(b, e) && IsSessionEvent(e)
    requires RestoreSim(b.engine, l)
    ensures RestoreSim(Apply(b, e, lag).engine, Record(b, e, l))
  {
    match e
    case Start(_, _) => StartStep(b, e, lag, l);
    case RestoreResumes(k) => GiveBackStep(b, k, l);
    case ReleaseCall(ms) => ReleaseStep(b, ms, lag, l);
    case _ => EndingStep(b, e, lag, l);
  }

  lemma {:induction false} RestoreFollowsSessionsFrom(b: Bridge, events: seq<Event>, lag: nat, l: Ledger)
    requires FreeInv(b.engine) && SessionInv(b.engine) && RestoreSim(b.engine, l)
    requires Run(b, events, lag) && QuietStarts(b, events, lag)
    ensures RestoreSim(Exec(b, events, lag).engine, RecordAll(b, events, lag, l))
    decreases |events|
  {
    if events != [] {
      EngineInvPreserved(b, events[0], lag);
      SessionPreserved(b, events[0], lag);
      RestoreStep(b, events[0], lag, l);
      RestoreFollowsSessionsFrom(Apply(b, events[0], lag), events[1..], lag, Record(b, events[0], l));
    }
  }

  /**
   Over any run in which no session is started while one ends, what is given back to the lights is what was
   captured as each session opened: never what a restart within the session saw, never after a release, in
   order and at most once.
   */
  lemma RestoreFollowsSessions(lights: seq<Light>, now: nat, events: seq<Event>, lag: nat)
    requires var b := Initial(lights, now); Run(b, events, lag) && QuietStarts(b, events, lag)
    ensures var b := Initial(lights, now);
      RestoreSim(Exec(b, events, lag).engine, RecordAll(b, events, lag, Ledger(Closed, [], [])))
  {
    InitialInv(lights, now, lag);
    RestoreFollowsSessionsFrom(Initial(lights, now), events, lag, Ledger(Closed, [], []));
  }

  // ---- who streams ----

  /** The user of the latest start, unless the stream was stopped or released since, or its session went silent. */
  function StreamedBy(b: Bridge, events: seq<Event>, lag: nat, before: Option<string>): Option<string>
    requires Run(b, events, lag)
    decreases |events|
  {
    if events == [] then before
    else
      var e, s := events[0], b.engine;
      var silent := s.active && s.host.now > s.lastFrame + 5000;
      StreamedBy(Apply(b, e, lag), events[1..], lag,
                 if e.Start? then Some(e.user)
                 else if e.Stop? || e.ReleaseCall? || (e.WatchdogPolls? && silent) then None
                 else before)
  }

  lemma {:induction false} OwnerRun(b: Bridge, events: seq<Event>, lag: nat)
    requires Run(b, events, lag) && (b.apiActive <==> b.owner.Some?)
    ensures var r := Exec(b, events, lag);
      r.owner == StreamedBy(b, events, lag, b.owner) && (r.apiActive <==> r.owner.Some?)
    decreases |events|
  {
    if events != [] {
      OwnerRun(Apply(b, events[0], lag), events[1..], lag);
    }
  }

  /** Over any run the API reports a stream, and whose it is, exactly as the starts, stops and releases have it. */
  lemma OwnerFollowsCalls(lights: seq<Light>, now: nat, events: seq<Event>, lag: nat)
    requires Run(Initial(lights, now), events, lag)
    ensures var b, r := Initial(lights, now), Exec(Initial(lights, now), events, lag);
      r.owner == StreamedBy(b, events, lag, None) && (r.apiActive <==> r.owner.Some?)
  {
    OwnerRun(Initial(lights, now), events, lag);
  }
}
