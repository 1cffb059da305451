/**
 Light service commands, the translation of a Hue v1 state body into one, and the per-light
 record that holds the command waiting to be sent (`LightMapping` in entertainment.py).
 */
module Commands {
  import opened Prelude
  import opened Constants
  import HueStream

  // ---- service data ----

  datatype Key = Service | Transition | Brightness | XyColor | HsColor | ColorTempKelvin | RgbColor | EntityId

  /** `Num` is an integer; a transition is a `Num` counting tenths of a second. */
  datatype Value =
    | TurnOn | TurnOff | Num(n: int) | Pair(x: real, y: real) | Rgb(r: int, g: int, b: int) | Name(name: string)

  type Command = map<Key, Value>

  predicate IsOff(c: Command) { Service in c && c[Service] == TurnOff }

  // ---- PUT /lights/{id}/state bodies ----

  /** A JSON value where a number is expected; `Junk` is anything int() and float() refuse. */
  datatype Field = Whole(n: int) | Fraction(q: real) | Junk

  /** `on` is None unless the key holds a boolean, `xy` is None unless it holds a two-element list. */
  datatype Body = Body(transitiontime: Option<Field>, on: Option<bool>, bri: Option<Field>,
                       xy: Option<(Field, Field)>, hue: Option<Field>, sat: Option<Field>, ct: Option<Field>)

  function Truncated(q: real): int { if q >= 0.0 then q.Floor else -((-q).Floor) }

  function ToInt(f: Field): Option<int> {
    match f
    case Whole(n) => Some(n)
    case Fraction(q) => Some(Truncated(q))
    case Junk => None
  }

  function ToReal(f: Field): Option<real> {
    match f
    case Whole(n) => Some(n as real)
    case Fraction(q) => Some(q)
    case Junk => None
  }

  function OrElse(f: Option<Field>, default: int): Field { if f.Some? then f.value else Whole(default) }

  /** Python's `round(q, 2)` on an exact rational. */
  function Round2(q: real): real {
    var h := (q * 100.0).Floor;
    var m := q * 100.0 - h as real;
    (if m < 0.5 || (m == 0.5 && h % 2 == 0) then h else h + 1) as real / 100.0
  }

  function Clamp(lo: int, hi: int, n: int): int { if n < lo then lo else if n > hi then hi else n }

  function WithTransition(f: Option<Field>): Command {
    if f.None? || ToInt(f.value).None? then map[]
    else map[Transition := Num(if ToInt(f.value).value < 0 then 0 else ToInt(f.value).value)]
  }

  function WithBrightness(f: Option<Field>): Command {
    if f.None? then map[]
    else
      var bri := if ToInt(f.value).Some? then ToInt(f.value).value else 254;
      map[Brightness := Num(Clamp(1, 255, RoundRatio(bri * 255, 254)))]
  }

  /** The colour part of a body, or None where float() raises. */
  function WithColour(body: Body): Option<Command> {
    if body.xy.Some? then
      var x, y := ToReal(body.xy.value.0), ToReal(body.xy.value.1);
      if x.None? || y.None? then None else Some(map[XyColor := Pair(x.value, y.value)])
    else if body.hue.Some? || body.sat.Some? then
      var hue, sat := ToReal(OrElse(body.hue, 0)), ToReal(OrElse(body.sat, 254));
      if hue.None? || sat.None? then None
      else Some(map[HsColor := Pair(Round2(hue.value / 65535.0 * 360.0), Round2(sat.value / 254.0 * 100.0))])
    else if body.ct.Some? && ToInt(body.ct.value).Some? && ToInt(body.ct.value).value > 0 then
      Some(map[ColorTempKelvin := Num(RoundRatio(1000000, ToInt(body.ct.value).value))])
    else Some(map[])
  }

  /** `_v1_state_to_service_data`: None where it raises, the empty map where there is nothing to do. */
  function Translate(body: Body): Option<Command> {
    var data := WithTransition(body.transitiontime);
    if body.on == Some(false) then Some(data[Service := TurnOff])
    else
      var colour := WithColour(body);
      if colour.None? then None
      else
        var full := data + WithBrightness(body.bri) + colour.value;
        if full == map[] && body.on != Some(true) then Some(map[]) else Some(full[Service := TurnOn])
  }

  // ---- the per-light record ----

  datatype Light = Light(channelId: nat, entityId: string)

  datatype Slot = Slot(light: Light, lastR: int, lastG: int, lastB: int,
                       pending: Option<Command>, dirty: bool, explicit: bool, lastSent: nat)

  predicate Clean(slot: Slot) { !slot.dirty && slot.pending.None? }

  /** What is pending in a slot is a command to its light. */
  predicate Addressed(slot: Slot) {
    slot.pending.Some? ==> EntityId in slot.pending.value && slot.pending.value[EntityId] == Name(slot.light.entityId)
  }

  function Fresh(light: Light): Slot { Slot(light, -1, -1, -1, None, false, false, 0) }

  /** `_reset_mappings` for one light; `explicit_transition` survives it. */
  function Flush(slot: Slot): Slot {
    slot.(dirty := false, pending := None, lastR := -1, lastG := -1, lastB := -1, lastSent := 0)
  }

  /** The drain loop takes the slot's content before it decides what to do with it. */
  function Grab(slot: Slot): Slot { slot.(dirty := false, pending := None, explicit := false) }

  // ---- classic mode: merging a command into the slot ----

  datatype Merge = Raised | Ignored | Queued(slot: Slot)

  function MergeCommand(slot: Slot, on: Option<bool>, data: Command): Merge {
    var queued := if slot.dirty && slot.pending.Some? && slot.explicit then slot.pending.value else map[];
    if !IsOff(data) && IsOff(queued) && on != Some(true) then Ignored
    else
      var base := if IsOff(data) || IsOff(queued) then map[] else queued;
      Queued(slot.(pending := Some((base + data)[EntityId := Name(slot.light.entityId)]),
                   explicit := true, dirty := true))
  }

  /** The same for a translation that may have raised or come to nothing. */
  function MergeData(slot: Slot, on: Option<bool>, data: Option<Command>): Merge {
    match data
    case None => Raised
    case Some(c) => if c == map[] then Ignored else MergeCommand(slot, on, c)
  }

  function MergeBody(slot: Slot, body: Body): Merge { MergeData(slot, body.on, Translate(body)) }

  // ---- streaming: the tolerance filter ----

  function Abs(n: int): nat { if n < 0 then -n else n }

  function AbsR(q: real): real { if q < 0.0 then -q else q }

  function Scaled(v: int): real { v as real / 65535.0 }

  function LastScaled(v: int): real { if v >= 0 then Scaled(v) else -1.0 }

  predicate WithinTolerance(slot: Slot, c: HueStream.Channel, colorSpace: int) {
    if colorSpace == COLOR_SPACE_XY then
      && AbsR(Scaled(c.r) - LastScaled(slot.lastR)) < CIE_TOLERANCE
      && AbsR(Scaled(c.g) - LastScaled(slot.lastG)) < CIE_TOLERANCE
      && Abs(c.b - slot.lastB) < BRIGHTNESS_TOLERANCE
    else
      && Abs(c.r - slot.lastR) < BRIGHTNESS_TOLERANCE
      && Abs(c.g - slot.lastG) < BRIGHTNESS_TOLERANCE
      && Abs(c.b - slot.lastB) < BRIGHTNESS_TOLERANCE
  }

  function Max(a: int, b: int): int { if a < b then b else a }

  /** The 8-bit brightness of an RGB command: the peak component, and at least 1 to keep the light on. */
  function PeakBrightness(c: HueStream.Channel): int {
    var peak := Max(c.r, Max(c.g, c.b)) / 256;
    if peak == 0 then 1 else peak
  }

  function StreamCommand(light: Light, c: HueStream.Channel, colorSpace: int): Command {
    if colorSpace == COLOR_SPACE_XY then
      map[EntityId := Name(light.entityId), XyColor := Pair(Scaled(c.r), Scaled(c.g)),
          Brightness := Num(RoundRatio(c.b * 255, 65535))]
    else
      map[EntityId := Name(light.entityId), RgbColor := Rgb(c.r / 256, c.g / 256, c.b / 256),
          Brightness := Num(PeakBrightness(c))]
  }

  function Accept(slot: Slot, c: HueStream.Channel, colorSpace: int): Slot {
    slot.(lastR := c.r, lastG := c.g, lastB := c.b,
          pending := Some(StreamCommand(slot.light, c, colorSpace)), dirty := true)
  }

  function Filter(slot: Slot, c: HueStream.Channel, colorSpace: int): Slot {
    if WithinTolerance(slot, c, colorSpace) then slot else Accept(slot, c, colorSpace)
  }

  // ---- what that comes to ----

  /**
   A command asks for the colour of a channel: each 8-bit component is the upper byte of the 16-bit one, brightness
   is that of the strongest component and at least 1; in XY the chromaticity is exact, and brightness the nearest.
   */
  predicate Asks(data: Command, light: Light, c: HueStream.Channel, colorSpace: int) {
    && data.Keys == {EntityId, Brightness, if colorSpace == COLOR_SPACE_XY then XyColor else RgbColor}
    && data[EntityId] == Name(light.entityId)
    && data[Brightness].Num?
    && var n := data[Brightness].n;
       if colorSpace == COLOR_SPACE_XY then
         && data[XyColor].Pair?
         && data[XyColor].x * 65535.0 == c.r as real && data[XyColor].y * 65535.0 == c.g as real
         && 2 * c.b - 257 <= 514 * n <= 2 * c.b + 257
       else
         && data[RgbColor].Rgb?
         && 0 <= c.r - 256 * data[RgbColor].r < 256
         && 0 <= c.g - 256 * data[RgbColor].g < 256
         && 0 <= c.b - 256 * data[RgbColor].b < 256
         && n >= 1 && c.r < 256 * n + 256 && c.g < 256 * n + 256 && c.b < 256 * n + 256
         && (n == 1 || 256 * n <= c.r || 256 * n <= c.g || 256 * n <= c.b)
  }

  lemma StreamCommandAsks(light: Light, c: HueStream.Channel, colorSpace: int)
    ensures Asks(StreamCommand(light, c, colorSpace), light, c, colorSpace)
  {
    RoundRatioIsNearest(c.b * 255, 65535);
  }

  /**
   In raw 16-bit units: nothing is within tolerance of no reference in XY; otherwise x and y may differ by up to
   1966, and any other component by up to 15. Without a reference, RGB compares with -1.
   */
  lemma ToleranceMeans(slot: Slot, c: HueStream.Channel, colorSpace: int)
    ensures WithinTolerance(slot, c, colorSpace) <==>
      if colorSpace == COLOR_SPACE_XY then
        && slot.lastR >= 0 && slot.lastG >= 0
        && -1966 <= c.r - slot.lastR <= 1966 && -1966 <= c.g - slot.lastG <= 1966 && -15 <= c.b - slot.lastB <= 15
      else
        -15 <= c.r - slot.lastR <= 15 && -15 <= c.g - slot.lastG <= 15 && -15 <= c.b - slot.lastB <= 15
  {
    if colorSpace == COLOR_SPACE_XY {
      ChromaticityTolerance(c.r, slot.lastR);
      ChromaticityTolerance(c.g, slot.lastG);
    }
  }

  lemma ChromaticityTolerance(m: nat, n: int)
    ensures AbsR(Scaled(m) - LastScaled(n)) < CIE_TOLERANCE <==> n >= 0 && -1966 <= m - n <= 1966
  {
    if n >= 0 {
      assert (Scaled(m) - Scaled(n)) * 65535.0 == m as real - n as real;
    } else {
      assert Scaled(m) >= 0.0;
    }
  }
}
