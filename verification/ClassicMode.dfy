/**
 Classic mode: what a light's slot holds after any list of PUTs queued between two drains,
 stated without the step-by-step merge.
 */
module ClassicMode {
  import opened Prelude
  import opened Commands
  import HueStream

  /** A PUT that carries a command. */
  datatype Put = Put(on: Option<bool>, data: Command)

  /** A PUT as it comes: its `on`, and what its body translates to. */
  datatype Arrival = Arrival(on: Option<bool>, data: Option<Command>)

  function Arrivals(bodies: seq<Body>): seq<Arrival> {
    seq(|bodies|, i requires 0 <= i < |bodies| => Arrival(bodies[i].on, Translate(bodies[i])))
  }

  function QueueEach(slot: Slot, arrivals: seq<Arrival>): Slot {
    if arrivals == [] then slot
    else
      var before, a := QueueEach(slot, arrivals[..|arrivals| - 1]), arrivals[|arrivals| - 1];
      match MergeData(before, a.on, a.data)
      case Queued(after) => after
      case _ => before
  }

  /** The slot after all of these PUTs. */
  function QueueAll(slot: Slot, bodies: seq<Body>): Slot { QueueEach(slot, Arrivals(bodies)) }

  function Carrying(arrivals: seq<Arrival>): seq<Put> {
    if arrivals == [] then []
    else
      var a := arrivals[|arrivals| - 1];
      Carrying(arrivals[..|arrivals| - 1])
      + (if a.data.None? || a.data.value == map[] then [] else [Put(a.on, a.data.value)])
  }

  /** Those of the PUTs that translate to a command. */
  function Effective(bodies: seq<Body>): seq<Put> { Carrying(Arrivals(bodies)) }

  /** Queueing is merging one body after the other. */
  lemma QueueOneMore(slot: Slot, bodies: seq<Body>, body: Body)
    ensures var merge := MergeBody(QueueAll(slot, bodies), body);
      QueueAll(slot, bodies + [body]) == if merge.Queued? then merge.slot else QueueAll(slot, bodies)
  {
    assert Arrivals(bodies + [body])[..|bodies|] == Arrivals(bodies);
  }

  // ---- the declarative meaning ----

  function LastOff(puts: seq<Put>): (k: int)
    ensures -1 <= k < |puts|
    ensures k >= 0 ==> IsOff(puts[k].data)
    ensures forall j | k < j < |puts| :: !IsOff(puts[j].data)
  {
    if puts == [] then -1
    else if IsOff(puts[|puts| - 1].data) then |puts| - 1
    else LastOff(puts[..|puts| - 1])
  }

  function FirstOn(puts: seq<Put>, start: nat): (k: nat)
    requires start <= |puts|
    ensures start <= k <= |puts|
    ensures k < |puts| ==> puts[k].on == Some(true)
    ensures forall j | start <= j < k :: puts[j].on != Some(true)
    decreases |puts| - start
  {
    if start == |puts| || puts[start].on == Some(true) then start else FirstOn(puts, start + 1)
  }

  /** Later keys win. */
  function Merged(puts: seq<Put>): Command {
    if puts == [] then map[] else Merged(puts[..|puts| - 1]) + puts[|puts| - 1].data
  }

  /** The meaning, given where the last off and the first on after it are. */
  function MeaningAt(puts: seq<Put>, off: int, on: nat): Command
    requires off < |puts| && on <= |puts|
  {
    if off < 0 then Merged(puts) else if on == |puts| then puts[off].data else Merged(puts[on..])
  }

  /** The last off stands alone unless an explicit on follows it; merging starts at the first such on. */
  function Meaning(puts: seq<Put>): Command {
    var off := LastOff(puts);
    MeaningAt(puts, off, FirstOn(puts, off + 1))
  }

  lemma {:induction false} MergedIsNotOff(puts: seq<Put>)
    requires forall j | 0 <= j < |puts| :: !IsOff(puts[j].data)
    ensures !IsOff(Merged(puts))
  {
    if puts != [] {
      MergedIsNotOff(puts[..|puts| - 1]);
    }
  }

  lemma MergedSnoc(puts: seq<Put>, p: Put)
    ensures Merged(puts + [p]) == Merged(puts) + p.data
  {
    assert (puts + [p])[..|puts|] == puts;
  }

  lemma MergedOne(p: Put)
    ensures Merged([p]) == p.data
  {
    assert [p][..0] == [];
    assert map[] + p.data == p.data;
  }

  lemma {:induction false} FirstOnSnoc(puts: seq<Put>, p: Put, start: nat)
    requires start <= |puts|
    ensures var on := FirstOn(puts, start);
      FirstOn(puts + [p], start) == if on < |puts| || p.on == Some(true) then on else on + 1
    decreases |puts| - start
  {
    if start < |puts| {
      FirstOnSnoc(puts, p, start + 1);
    }
  }

  /** A command that is not an off leaves the last off where it was. */
  lemma LastOffSnoc(puts: seq<Put>, p: Put)
    requires !IsOff(p.data)
    ensures LastOff(puts + [p]) == LastOff(puts)
  {
    assert (puts + [p])[..|puts|] == puts;
  }

  lemma MeaningIsOff(puts: seq<Put>)
    ensures IsOff(Meaning(puts)) <==> LastOff(puts) >= 0 && FirstOn(puts, LastOff(puts) + 1) == |puts|
  {
    var off := LastOff(puts);
    var on := FirstOn(puts, off + 1);
    if off < 0 {
      MergedIsNotOff(puts);
    } else if on < |puts| {
      assert forall j | 0 <= j < |puts| - on :: puts[on..][j] == puts[on + j];
      MergedIsNotOff(puts[on..]);
    }
  }

  /** A command that is not an off goes on with whatever merge is under way. */
  lemma MeaningGoesOn(puts: seq<Put>, p: Put, off: int, on: nat)
    requires off < |puts| && on <= |puts|
    ensures off < 0 || on < |puts| ==> MeaningAt(puts + [p], off, on) == MeaningAt(puts, off, on) + p.data
    ensures off >= 0 && on == |puts| ==> MeaningAt(puts + [p], off, on) == p.data
    ensures off >= 0 && on == |puts| ==> MeaningAt(puts + [p], off, on + 1) == MeaningAt(puts, off, on)
  {
    if off < 0 {
      MergedSnoc(puts, p);
    } else if on < |puts| {
      assert (puts + [p])[on..] == puts[on..] + [p];
      MergedSnoc(puts[on..], p);
    } else {
      assert (puts + [p])[on..] == [p];
      MergedOne(p);
    }
  }

  /** The meaning once it is known where the last off and the first on after it are. */
  lemma MeaningIsAt(puts: seq<Put>, off: int, on: nat)
    requires off == LastOff(puts) && on == FirstOn(puts, off + 1)
    ensures Meaning(puts) == MeaningAt(puts, off, on)
  {
  }

  /** Where they are after a PUT that is not an off. */
  lemma MeaningMoves(puts: seq<Put>, p: Put, off: int, on: nat)
    requires !IsOff(p.data) && off == LastOff(puts) && on == FirstOn(puts, off + 1)
    ensures Meaning(puts + [p]) == MeaningAt(puts + [p], off, if on < |puts| || p.on == Some(true) then on else on + 1)
  {
    LastOffSnoc(puts, p);
    FirstOnSnoc(puts, p, off + 1);
    MeaningIsAt(puts + [p], off, if on < |puts| || p.on == Some(true) then on else on + 1);
  }

  /** Adding one PUT to the meaning is one merge step. */
  lemma MeaningSnoc(puts: seq<Put>, p: Put)
    ensures Meaning(puts + [p]) ==
            if IsOff(p.data) then p.data
            else if !IsOff(Meaning(puts)) then Meaning(puts) + p.data
            else if p.on == Some(true) then p.data
            else Meaning(puts)
  {
    if !IsOff(p.data) {
      var off := LastOff(puts);
      var on := FirstOn(puts, off + 1);
      MeaningIsOff(puts);
      MeaningMoves(puts, p, off, on);
      MeaningGoesOn(puts, p, off, on);
    }
  }

  function Holding(slot: Slot, c: Command): Slot {
    slot.(pending := Some(c[EntityId := Name(slot.light.entityId)]), dirty := true, explicit := true)
  }

  /** The slot's content counts as a classic command, which a PUT is merged with. */
  predicate HoldsClassic(slot: Slot) { slot.dirty && slot.pending.Some? && slot.explicit }

  /** One merge into a slot holding the meaning of the earlier PUTs. */
  lemma MergeStep(slot: Slot, puts: seq<Put>, p: Put)
    requires puts == [] ==> !HoldsClassic(slot)
    ensures var now := if puts == [] then slot else Holding(slot, Meaning(puts));
      var next := Holding(slot, Meaning(puts + [p]));
      var merge := MergeCommand(now, p.on, p.data);
      (if merge.Queued? then merge.slot else now) == next
  {
    MeaningSnoc(puts, p);
    var name := Name(slot.light.entityId);
    assert map[] + p.data == p.data;
    if puts != [] {
      assert IsOff(Meaning(puts)[EntityId := name]) == IsOff(Meaning(puts));
      assert (Meaning(puts)[EntityId := name] + p.data)[EntityId := name]
          == (Meaning(puts) + p.data)[EntityId := name];
    }
  }

  /** What is in the slot already, as the first of the PUTs. */
  function Backlog(slot: Slot): seq<Put> { if HoldsClassic(slot) then [Put(None, slot.pending.value)] else [] }

  lemma BacklogIsHeld(slot: Slot)
    requires HoldsClassic(slot) && Addressed(slot)
    ensures Holding(slot, Meaning(Backlog(slot))) == slot
  {
    var c := slot.pending.value;
    MergedOne(Put(None, c));
    assert Meaning(Backlog(slot)) == c;
    assert c[EntityId := Name(slot.light.entityId)] == c;
  }

  /** The slot that holds these PUTs. */
  function HoldingAll(slot: Slot, puts: seq<Put>): Slot {
    if puts == [] then slot else Holding(slot, Meaning(puts))
  }

  lemma ArrivalStep(slot: Slot, puts: seq<Put>, a: Arrival)
    requires puts == [] ==> !HoldsClassic(slot)
    ensures var merge := MergeData(HoldingAll(slot, puts), a.on, a.data);
      (if merge.Queued? then merge.slot else HoldingAll(slot, puts)) == HoldingAll(slot, puts + Carrying([a]))
  {
    assert [a][..0] == [];
    if a.data.Some? && a.data.value != map[] {
      var p := Put(a.on, a.data.value);
      MergeStep(slot, puts, p);
      assert Carrying([a]) == [p];
    } else {
      assert puts + Carrying([a]) == puts;
    }
  }

  lemma {:induction false} QueueEachMeaning(slot: Slot, arrivals: seq<Arrival>)
    requires Addressed(slot)
    ensures QueueEach(slot, arrivals) == HoldingAll(slot, Backlog(slot) + Carrying(arrivals))
  {
    if arrivals == [] {
      assert Backlog(slot) + Carrying(arrivals) == Backlog(slot);
      if HoldsClassic(slot) {
        BacklogIsHeld(slot);
      }
    } else {
      var before, a := arrivals[..|arrivals| - 1], arrivals[|arrivals| - 1];
      QueueEachMeaning(slot, before);
      ArrivalStep(slot, Backlog(slot) + Carrying(before), a);
      assert [a][..0] == [];
      assert Backlog(slot) + Carrying(arrivals) == Backlog(slot) + Carrying(before) + Carrying([a]);
    }
  }

  /**
   For any list of PUTs into any slot: the slot ends up holding their meaning, with what counted as a classic
   command in it before as the first of them.
   */
  lemma QueueMeaning(slot: Slot, bodies: seq<Body>)
    requires Addressed(slot)
    ensures QueueAll(slot, bodies) == HoldingAll(slot, Backlog(slot) + Effective(bodies))
  {
    QueueEachMeaning(slot, Arrivals(bodies));
  }

  // ---- a PUT that meets a stream update ----

  /**
   A PUT takes the place of a stream update in the slot, as it is meant to, if and only if the slot's mark of a
   classic command has been cleared, or the PUT is an off, or it sets all that the update did.
   */
  lemma FreshStart(slot: Slot, c: HueStream.Channel, colorSpace: int, on: Option<bool>, data: Command)
    requires data != map[]
    ensures var streamed := Accept(slot, c, colorSpace);
      MergeData(streamed, on, Some(data)) == Queued(Holding(streamed, data))
      <==> !slot.explicit || IsOff(data) || StreamCommand(slot.light, c, colorSpace).Keys - {EntityId} <= data.Keys
  {
    var update, name := StreamCommand(slot.light, c, colorSpace), Name(slot.light.entityId);
    assert map[] + data == data;
    if slot.explicit && !IsOff(data) {
      assert (update + data)[EntityId := name].Keys == update.Keys + data.Keys + {EntityId};
      assert data[EntityId := name].Keys == data.Keys + {EntityId};
      if update.Keys - {EntityId} <= data.Keys {
        assert (update + data)[EntityId := name] == data[EntityId := name];
      } else {
        var key :| key in update.Keys - {EntityId} && key !in data.Keys;
        assert key in (update + data)[EntityId := name] && key !in data[EntityId := name];
      }
    }
  }

  /** The mark of a PUT survives a flush, so the next PUT after a frame is merged with the frame's colour. */
  lemma ColourMergedWithPut(light: Light, c: HueStream.Channel)
    ensures var on := Body(None, Some(true), None, None, None, None, None);
      var put := MergeBody(Fresh(light), on);
      && put.Queued?
      && var streamed := Accept(Flush(put.slot), c, 0);
         var merged := MergeBody(streamed, on);
         merged.Queued? && RgbColor in merged.slot.pending.value
  {
    var on := Body(None, Some(true), None, None, None, None, None);
    var none: Command, data: Command := map[], map[Service := TurnOn];
    assert none + none + none == none && none[Service := TurnOn] == data;
    assert data != map[] by {
      assert Service in data;
    }
    assert Translate(on) == Some(data);
    assert !IsOff(data) && !IsOff(StreamCommand(light, c, 0));
  }
}
