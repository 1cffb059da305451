/**
 What the body of a classic PUT comes to, key by key. Which key is set depends on the body alone; each value is the
 nearest one in the units of a light service, and what cannot be read is treated as `int` and `float` would have it.
 */
module Translation {
  import opened Prelude
  import opened Commands

  // ---- when a body is refused, ignored, or an off ----

  predicate Readable(f: Field) { !f.Junk? }

  predicate NumberOr(f: Option<Field>) { f.Some? ==> Readable(f.value) }

  /** The colour of the body can be read; a body with xy is not asked for anything else. */
  predicate ColourIsReadable(body: Body) {
    if body.xy.Some? then Readable(body.xy.value.0) && Readable(body.xy.value.1)
    else if body.hue.Some? || body.sat.Some? then NumberOr(body.hue) && NumberOr(body.sat)
    else true
  }

  /** Translating raises if and only if the body is no off and its colour cannot be read. */
  lemma RaisesOnBadColour(body: Body)
    ensures Translate(body).None? <==> body.on != Some(false) && !ColourIsReadable(body)
  {
  }

  /** An off is an off, with a transition at most, whatever else the body says. */
  lemma OffIsOff(body: Body)
    requires body.on == Some(false)
    ensures Translate(body).Some?
    ensures Service in Translate(body).value && Translate(body).value[Service] == TurnOff
    ensures Translate(body).value.Keys <= {Service, Transition}
    ensures Transition in Translate(body).value <==> HasTransition(body)
    ensures HasTransition(body) ==> Translate(body).value[Transition] == Num(NonNegative(body.transitiontime.value))
  {
  }

  predicate HasTransition(body: Body) { body.transitiontime.Some? && Readable(body.transitiontime.value) }

  /** Towards zero, and never below it; in tenths of a second. */
  function NonNegative(f: Field): (n: int)
    requires Readable(f)
    ensures n >= 0
    ensures f.Whole? ==> n == if f.n < 0 then 0 else f.n
    ensures f.Fraction? && f.q >= 0.0 ==> n as real <= f.q < n as real + 1.0
    ensures f.Fraction? && f.q < 0.0 ==> n == 0
  {
    var n := ToInt(f).value;
    if n < 0 then 0 else n
  }

  predicate HasColourTemperature(body: Body) {
    && body.xy.None? && body.hue.None? && body.sat.None?
    && body.ct.Some? && ToInt(body.ct.value).Some? && ToInt(body.ct.value).value > 0
  }

  /** The keys of an on: one for each part of the body, and of the colours the first of xy, hue or sat, and ct. */
  lemma OnHasKeys(body: Body)
    requires body.on != Some(false) && ColourIsReadable(body)
    ensures Translate(body).Some?
    ensures var data := Translate(body).value;
      && (data == map[] || (Service in data && data[Service] == TurnOn))
      && (Transition in data <==> HasTransition(body))
      && (Brightness in data <==> body.bri.Some?)
      && (XyColor in data <==> body.xy.Some?)
      && (HsColor in data <==> body.xy.None? && (body.hue.Some? || body.sat.Some?))
      && (ColorTempKelvin in data <==> HasColourTemperature(body))
      && RgbColor !in data && EntityId !in data
  {
    OnParts(body);
  }

  /** Their values are those of the parts below. */
  lemma OnHasValues(body: Body)
    requires body.on != Some(false) && ColourIsReadable(body)
    ensures Translate(body).Some? && WithColour(body).Some?
    ensures var data := Translate(body).value;
      && (Transition in data ==> HasTransition(body) && data[Transition] == Num(NonNegative(body.transitiontime.value)))
      && (Brightness in data ==> body.bri.Some? && data[Brightness] == WithBrightness(body.bri)[Brightness])
      && (forall key <- data.Keys :: key !in {Service, Transition, Brightness} ==>
            key in WithColour(body).value && data[key] == WithColour(body).value[key])
  {
    OnParts(body);
  }

  /** A body with none of them does nothing, unless it says on. */
  lemma NothingToDo(body: Body)
    requires body.on != Some(false) && ColourIsReadable(body)
    ensures Translate(body) == Some(map[]) <==>
      && body.on != Some(true) && !HasTransition(body) && body.bri.None? && body.xy.None?
      && body.hue.None? && body.sat.None? && !HasColourTemperature(body)
  {
    OnParts(body);
    var parts := Parts(body);
    if parts == map[] {
      assert Transition !in parts && Brightness !in parts && XyColor !in parts && HsColor !in parts
          && ColorTempKelvin !in parts;
    } else {
      var key :| key in parts;
      assert key in {Transition, Brightness, XyColor, HsColor, ColorTempKelvin};
    }
    assert Service in parts[Service := TurnOn];
  }

  /** The transition, brightness and colour of a body, without the service. */
  function Parts(body: Body): Command
    requires ColourIsReadable(body)
  {
    WithTransition(body.transitiontime) + WithBrightness(body.bri) + WithColour(body).value
  }

  lemma OnParts(body: Body)
    requires body.on != Some(false) && ColourIsReadable(body)
    ensures WithColour(body).Some?
    ensures Translate(body)
         == Some(if Parts(body) == map[] && body.on != Some(true) then map[] else Parts(body)[Service := TurnOn])
    ensures WithTransition(body.transitiontime).Keys == if HasTransition(body) then {Transition} else {}
    ensures WithBrightness(body.bri).Keys == if body.bri.Some? then {Brightness} else {}
    ensures WithColour(body).value.Keys ==
      if body.xy.Some? then {XyColor}
      else if body.hue.Some? || body.sat.Some? then {HsColor}
      else if HasColourTemperature(body) then {ColorTempKelvin} else {}
  {
  }

  // ---- the values ----

  /** Hue's 254 steps to Home Assistant's 255: the nearest, from 1; what cannot be read is full brightness. */
  lemma BrightnessIsNearest(bri: Field)
    ensures var n := WithBrightness(Some(bri))[Brightness];
      && n.Num? && 1 <= n.n <= 255
      && (bri.Whole? && 1 <= bri.n <= 254 ==> -127 <= 254 * n.n - 255 * bri.n <= 127)
      && (bri.Whole? && bri.n <= 0 ==> n.n == 1)
      && (bri.Whole? && bri.n >= 254 ==> n.n == 255)
      && (bri.Junk? ==> n.n == 255)
  {
    var v := if ToInt(bri).Some? then ToInt(bri).value else 254;
    RoundRatioIsNearest(v * 255, 254);
  }

  /** xy is passed on as it is. */
  lemma XyIsExact(body: Body)
    requires body.xy.Some? && ColourIsReadable(body)
    ensures WithColour(body) == Some(map[XyColor := Pair(AsReal(body.xy.value.0), AsReal(body.xy.value.1))])
  {
  }

  function AsReal(f: Field): real
    requires Readable(f)
  {
    if f.Whole? then f.n as real else f.q
  }

  /** Hue in degrees and saturation in percent, to the nearest hundredth; without one of them, red or full. */
  lemma HueAndSaturationAreNearest(body: Body)
    requires body.xy.None? && (body.hue.Some? || body.sat.Some?) && ColourIsReadable(body)
    ensures WithColour(body).Some? && HsColor in WithColour(body).value && WithColour(body).value[HsColor].Pair?
    ensures var hs := WithColour(body).value[HsColor];
      var hue := if body.hue.Some? then AsReal(body.hue.value) else 0.0;
      var sat := if body.sat.Some? then AsReal(body.sat.value) else 254.0;
      && -0.005 <= hs.x - hue * 360.0 / 65535.0 <= 0.005
      && -0.005 <= hs.y - sat * 100.0 / 254.0 <= 0.005
  {
    var hue := if body.hue.Some? then AsReal(body.hue.value) else 0.0;
    var sat := if body.sat.Some? then AsReal(body.sat.value) else 254.0;
    HundredthIsNearest(hue / 65535.0 * 360.0);
    HundredthIsNearest(sat / 254.0 * 100.0);
  }

  /** Halfway between two hundredths it is the even one. */
  lemma HundredthIsNearest(q: real)
    ensures -0.005 <= Round2(q) - q <= 0.005
    ensures AbsR(Round2(q) - q) == 0.005 ==> (Round2(q) * 100.0).Floor % 2 == 0
  {
    var h := (q * 100.0).Floor;
    assert h as real <= q * 100.0 < h as real + 1.0;
    assert Round2(q) * 100.0 == h as real || Round2(q) * 100.0 == (h + 1) as real;
  }

  /** Mired to kelvin: the nearest whole number to a million divided by it, an even one in the middle of two. */
  lemma KelvinIsNearest(body: Body)
    requires HasColourTemperature(body)
    ensures WithColour(body).Some? && ColorTempKelvin in WithColour(body).value
    ensures WithColour(body).value[ColorTempKelvin].Num?
    ensures var mired, n := ToInt(body.ct.value).value, WithColour(body).value[ColorTempKelvin].n;
      && 2000000 - mired <= 2 * mired * n <= 2000000 + mired
      && (2 * mired * n in {2000000 - mired, 2000000 + mired} ==> n % 2 == 0)
  {
    RoundRatioIsNearest(1000000, ToInt(body.ct.value).value);
  }
}
