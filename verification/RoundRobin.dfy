/**
 Fairness of the drain loop: while a light is waiting, every other light is served at most once before it.
 */
module RoundRobin {
  import opened Prelude
  import opened Commands
  import opened EngineModel
  import opened BridgeModel
  import opened Invariants
  import opened Draining

  /** How many lights the scan passes between light `j` and light `k`, cyclically, out of `n`. */
  function Between(j: nat, k: nat, n: nat): nat
    requires j < n && k < n
  {
    if j < k then k - j - 1 else n - 1 - j + k
  }

  /** How many sends can still come before light `k`: the lights between the one being served and it. */
  function Ahead(s: Engine, id: nat, k: nat): nat
    requires id in s.host.tasks && k < |s.slots|
  {
    match s.host.tasks[id].position
    case InFlight(j) => if j < |s.slots| then Between(j, k, |s.slots|) else k
    case _ => k
  }

  /** Light `k` is waiting: its command is in the slot. */
  predicate Waiting(s: Engine, k: nat) { k < |s.slots| && s.slots[k].dirty && s.slots[k].pending.Some? }

  /**
   Loop `id` stays alive, light `k` stays waiting in every state, and is available whenever the loop runs:
   its command is neither flushed nor sent yet. Anything else may happen.
   */
  predicate KeepsWaiting(b: Bridge, events: seq<Event>, lag: nat, id: nat, k: nat)
    requires Run(b, events, lag)
    decreases |events|
  {
    && Waiting(b.engine, k) && b.engine.host.tasks.Keys == {id}
    && (events != [] ==>
          && (events[0].DrainResumes? ==> !Gone(b.engine.slots[k], events[0].states))
          && KeepsWaiting(Apply(b, events[0], lag), events[1..], lag, id, k))
  }

  /** The segment started the call for light `j` with what its slot held, and light `k` waits on unless it is `j`. */
  predicate Began(s: Engine, r: Engine, id: nat, j: nat, k: nat)
    requires Waiting(s, k)
  {
    && |r.slots| == |s.slots| && j < |s.slots|
    && id in r.host.tasks && r.host.tasks[id].position == InFlight(j)
    && |r.host.sent| == |s.host.sent| + 1 && r.host.sent[..|s.host.sent|] == s.host.sent
    && Carries(r.host.sent[|s.host.sent|], j, s.slots[j], s.host.now)
    && (Waiting(r, k) <==> j != k)
  }

  lemma SendBegins(s: Engine, id: nat, slots: seq<Slot>, j: nat, k: nat)
    requires Waiting(s, k) && j < |slots| == |s.slots| && s.slots[j].pending.Some?
    requires if j == k then Taken(s.slots[k], slots[k]) else slots[k] == s.slots[k]
    ensures Began(s, Send(s, id, slots, j, s.slots[j]), id, j, k)
  {
    SendCarries(s, id, slots, j, s.slots[j]);
  }

  /** A pass from the top serves the first light waiting. */
  lemma TurnSend(s: Engine, id: nat, states: States, idleSince: Option<int>, k: nat) returns (j: nat)
    requires Consistent(s.slots) && Waiting(s, k) && !Gone(s.slots[k], states)
    ensures j <= k && Began(s, FullPass(s, id, states, idleSince), id, j, k)
  {
    var p := Scan(s.slots, states, 0);
    ScanMeaning(s.slots, states, 0);
    j := p.hit.value;
    SendBegins(s.(wake := false), id, p.slots, j, k);
  }

  /** The rest of a pass that sends nothing, and the full turn after it. */
  lemma RestAndTurnSend(s: Engine, id: nat, states: States, start: nat, k: nat) returns (j: nat)
    requires Consistent(s.slots) && Waiting(s, k) && !Gone(s.slots[k], states)
    requires start <= |s.slots| && Scan(s.slots, states, start).hit.None?
    ensures k < start && j <= k
    ensures Began(s, FullPass(s.(slots := Scan(s.slots, states, start).slots), id, states, None), id, j, k)
  {
    var p := Scan(s.slots, states, start);
    ScanMeaning(s.slots, states, start);
    assert Consistent(p.slots);
    j := TurnSend(s.(slots := p.slots), id, states, None, k);
  }

  /** A call finished: the pass goes on, or a new one begins. */
  lemma SendAfterCall(s: Engine, id: nat, states: States, k: nat) returns (j: nat)
    requires Consistent(s.slots) && DrainReady(s, id) && Waiting(s, k) && !Gone(s.slots[k], states)
    requires s.host.tasks[id].position.InFlight?
    ensures Began(s, ResumeDrain(s, id, states), id, j, k)
    ensures j != k ==> Between(j, k, |s.slots|) < Between(s.host.tasks[id].position.light, k, |s.slots|)
  {
    var start := s.host.tasks[id].position.light + 1;
    var p := Scan(s.slots, states, start);
    if p.hit.Some? {
      ScanMeaning(s.slots, states, start);
      j := p.hit.value;
      SendBegins(s, id, p.slots, j, k);
    } else {
      j := RestAndTurnSend(s, id, states, start, k);
    }
  }

  /** One resumption of the loop starts a send: to the waiting light itself, or to one strictly ahead of it. */
  lemma NextSend(s: Engine, id: nat, states: States, k: nat) returns (j: nat)
    requires Consistent(s.slots) && DrainReady(s, id) && Waiting(s, k) && !Gone(s.slots[k], states)
    ensures Began(s, ResumeDrain(s, id, states), id, j, k)
    ensures j != k ==> Between(j, k, |s.slots|) < Ahead(s, id, k)
  {
    if s.host.tasks[id].position.InFlight? {
      j := SendAfterCall(s, id, states, k);
    } else {
      j := TurnSend(s, id, states, s.host.tasks[id].idleSince, k);
    }
  }

  /** The lights in a list of sends, each strictly closer ahead of light `k` than the one before. */
  predicate Approaching(sent: seq<Sent>, k: nat, n: nat) {
    && (forall i | 0 <= i < |sent| :: sent[i].light < n && sent[i].light != k)
    && k < n
    && (forall i, j | 0 <= i < j < |sent| :: Between(sent[j].light, k, n) < Between(sent[i].light, k, n))
  }

  lemma PutKeepsTasks(s: Engine, lightId: nat, body: Body, id: nat)
    requires TaskInv(s) && id in s.host.tasks
    ensures id in HandleCommand(s, lightId, body).host.tasks
    ensures HandleCommand(s, lightId, body).host.tasks[id] == s.host.tasks[id]
  {
  }

  lemma OthersKeepPosition(b: Bridge, e: Event, lag: nat, id: nat)
    requires Enabled(b, e, lag) && !e.DrainResumes? && !IsCall(e) && TaskInv(b.engine)
    requires id in b.engine.host.tasks && id in Apply(b, e, lag).engine.host.tasks
    ensures Apply(b, e, lag).engine.host.tasks[id] == b.engine.host.tasks[id]
  {
    if e.Put? {
      PutKeepsTasks(b.engine, e.lightId, e.body, id);
    }
  }

  lemma OtherEventsSendNothing(b: Bridge, e: Event, lag: nat, id: nat)
    requires Enabled(b, e, lag) && !e.DrainResumes? && TaskInv(b.engine)
    requires id in b.engine.host.tasks && id in Apply(b, e, lag).engine.host.tasks
    ensures var s, r := b.engine, Apply(b, e, lag).engine;
      && r.host.sent == s.host.sent && |r.slots| == |s.slots|
      && r.host.tasks[id].position == s.host.tasks[id].position
  {
    OthersSendNothing(b, e, lag);
    if IsCall(e) {
      CallsFrame(b, e, lag);
    } else {
      OthersKeepPosition(b, e, lag, id);
    }
  }

  /** A step during which light `k` keeps waiting sends nothing, or serves a light ahead of it. */
  predicate ServesOneAhead(s: Engine, r: Engine, id: nat, k: nat)
    requires id in s.host.tasks && id in r.host.tasks && k < |s.slots|
  {
    && |r.slots| == |s.slots|
    && if r.host.sent == s.host.sent then Ahead(r, id, k) <= Ahead(s, id, k)
       else
         && r.host.sent != []
         && var last := r.host.sent[|r.host.sent| - 1];
            && r.host.sent == s.host.sent + [last]
            && last.light != k && last.light < |s.slots|
            && Between(last.light, k, |s.slots|) == Ahead(r, id, k) < Ahead(s, id, k)
  }

  lemma BeganServesOneAhead(s: Engine, r: Engine, id: nat, j: nat, k: nat)
    requires Waiting(s, k) && Began(s, r, id, j, k) && j != k && id in s.host.tasks
    requires Between(j, k, |s.slots|) < Ahead(s, id, k)
    ensures ServesOneAhead(s, r, id, k)
  {
    assert r.host.sent == s.host.sent + [r.host.sent[|s.host.sent|]];
  }

  lemma BypassStep(b: Bridge, e: Event, lag: nat, id: nat, k: nat)
    requires FreeInv(b.engine) && Enabled(b, e, lag)
    requires id in b.engine.host.tasks && Waiting(b.engine, k)
    requires e.DrainResumes? ==> e.task == id && !Gone(b.engine.slots[k], e.states)
    requires id in Apply(b, e, lag).engine.host.tasks && Waiting(Apply(b, e, lag).engine, k)
    ensures ServesOneAhead(b.engine, Apply(b, e, lag).engine, id, k)
  {
    if e.DrainResumes? {
      var j := NextSend(b.engine, id, e.states, k);
      BeganServesOneAhead(b.engine, ResumeDrain(b.engine, id, e.states), id, j, k);
    } else {
      OtherEventsSendNothing(b, e, lag, id);
    }
  }

  /** `after` extends `before` by at most `bound` sends, to lights approaching light `k` from less than `bound` away. */
  predicate Bypasses(before: seq<Sent>, after: seq<Sent>, k: nat, n: nat, bound: nat) {
    && k < n && before <= after
    && |after| - |before| <= bound
    && Approaching(after[|before|..], k, n)
    && (forall i | |before| <= i < |after| :: after[i].light < n && Between(after[i].light, k, n) < bound)
  }

  lemma BypassesJoin(before: seq<Sent>, x: Sent, after: seq<Sent>, k: nat, n: nat, bound: nat)
    requires k < n && x.light < n && x.light != k && Between(x.light, k, n) < bound
    requires Bypasses(before + [x], after, k, n, Between(x.light, k, n))
    ensures Bypasses(before, after, k, n, bound)
  {
    assert after[|before|..] == [x] + after[|before| + 1..];
    assert after[|before|] == x;
  }

  /**
   From any state in which a light is waiting, as long as it waits: fewer sends begin than there are lights
   ahead of it, all to other lights, and no light is served twice. So its own is at worst the n-th to begin.
   */
  lemma {:induction false} BoundedBypass(b: Bridge, events: seq<Event>, lag: nat, id: nat, k: nat)
    requires FreeInv(b.engine) && Run(b, events, lag) && KeepsWaiting(b, events, lag, id, k)
    ensures var s, r := b.engine, Exec(b, events, lag).engine;
      Ahead(s, id, k) < |s.slots| && Bypasses(s.host.sent, r.host.sent, k, |s.slots|, Ahead(s, id, k))
    decreases |events|
  {
    if events != [] {
      var e := events[0];
      EngineInvPreserved(b, e, lag);
      BypassStep(b, e, lag, id, k);
      var s, m := b.engine, Apply(b, e, lag).engine;
      BoundedBypass(Apply(b, e, lag), events[1..], lag, id, k);
      if m.host.sent != s.host.sent {
        var r := Exec(b, events, lag).engine;
        BypassesJoin(s.host.sent, m.host.sent[|s.host.sent|], r.host.sent, k, |s.slots|, Ahead(s, id, k));
      }
    }
  }

  /** Strictly approaching lights are different lights. */
  lemma ApproachingAreDistinct(sent: seq<Sent>, k: nat, n: nat)
    requires Approaching(sent, k, n)
    ensures forall i, j | 0 <= i < j < |sent| :: sent[i].light != sent[j].light
  {
  }
}
