/**
 * Command encoding on the client (extension.js): argument parsing and
 * clamping, the preset colour tables, light descriptors, the five-slot
 * backpack arguments, the four-corner cube arguments and the head and lift
 * mappings. Everything here is a pure function of the block's arguments and,
 * for the backpack, of the current slots.
 */
module Commands {
  import opened Wrappers
  import opened JsonValues

  // ---------------------------------------------------------------------------
  // Arguments

  /** What `Number(arg)` yields: a finite number, or NaN / an infinity. */
  datatype JsNumber = Finite(r: real) | NonFinite

  /** A block argument read as a boolean: a string, or any other value
      (represented by its JavaScript truthiness). */
  datatype BoolArg = BStr(s: string) | BValue(truthy: bool)

  function MaxR(a: real, b: real): real { if a >= b then a else b }
  function MinR(a: real, b: real): real { if a <= b then a else b }
  function MaxI(a: int, b: int): int { if a >= b then a else b }
  function MinI(a: int, b: int): int { if a <= b then a else b }

  /** `_parseNumber(arg, fallback, lo, hi)`: the fallback for a non-finite
      number, otherwise `Math.max(lo, Math.min(hi, num))`, a missing bound
      standing for an infinite one. */
  function ParseNumber(arg: JsNumber, fallback: real, lo: Option<real>, hi: Option<real>): (r: real)
    ensures arg.NonFinite? ==> r == fallback
    ensures arg.Finite? && lo.Some? ==> lo.value <= r
    ensures arg.Finite? && hi.Some? && (lo.None? || lo.value <= hi.value) ==> r <= hi.value
    ensures arg.Finite? && (lo.None? || lo.value <= arg.r) && (hi.None? || arg.r <= hi.value) ==> r == arg.r
    ensures arg.Finite? && hi.Some? && hi.value < arg.r && (lo.None? || lo.value <= hi.value) ==> r == hi.value
    ensures arg.Finite? && lo.Some? && arg.r < lo.value ==> r == lo.value
  {
    match arg
    case NonFinite => fallback
    case Finite(x) =>
      var upper := if hi.Some? then MinR(hi.value, x) else x;
      if lo.Some? then MaxR(lo.value, upper) else upper
  }

  /** Every caller in the encoder uses the default, infinite bounds. */
  function Num(arg: JsNumber, fallback: real): real
  {
    ParseNumber(arg, fallback, None, None)
  }

  /** The letters of "true" in any mix of cases. Full Unicode lower-casing maps
      no other character onto one of these four letters, so an ASCII fold is
      exact here. */
  predicate IsTrueText(s: string)
  {
    |s| == 4 && forall i :: 0 <= i < 4 ==> LowerAscii(s[i]) == "true"[i]
  }

  function LowerAscii(c: char): char
  {
    if 'A' <= c <= 'Z' then (c as int + 32) as char else c
  }

  /** `_parseBool(arg, fallback)`: a string is true exactly when it reads
      "true" in any case; any other value by its truthiness. The fallback is
      never consulted. */
  function ParseBool(arg: BoolArg, fallback: bool): (r: bool)
    ensures arg.BStr? ==> (r <==> IsTrueText(arg.s))
    ensures arg.BValue? ==> r == arg.truthy
  {
    match arg
    case BStr(s) => IsTrueText(s)
    case BValue(t) => t
  }

  lemma ParseBoolMenuValues(fallback: bool)
    ensures ParseBool(BStr("True"), fallback) && ParseBool(BStr("true"), fallback)
    ensures !ParseBool(BStr("False"), fallback) && !ParseBool(BStr(""), fallback)
    ensures forall a: BoolArg :: ParseBool(a, true) == ParseBool(a, false)
  {
    assert LowerAscii('T') == 't';
  }

  /** JavaScript's WhiteSpace and LineTerminator characters, which `trim`
      removes. */
  predicate IsJsSpace(c: char)
  {
    c == ' ' || c == '\t' || c == '\n' || c == '\r' || c as int == 0x0B || c as int == 0x0C
    || c as int == 0xA0 || c as int == 0x1680 || (0x2000 <= c as int <= 0x200A)
    || c as int == 0x2028 || c as int == 0x2029 || c as int == 0x202F || c as int == 0x205F
    || c as int == 0x3000 || c as int == 0xFEFF
  }

  /** The number of white-space characters that start `s`. */
  function LeadCount(s: string): (n: nat)
    ensures n <= |s|
    ensures forall k :: 0 <= k < n ==> IsJsSpace(s[k])
    ensures n < |s| ==> !IsJsSpace(s[n])
  {
    if |s| > 0 && IsJsSpace(s[0]) then 1 + LeadCount(s[1..]) else 0
  }

  /** The number of white-space characters that end `s`. */
  function TrailCount(s: string): (n: nat)
    ensures n <= |s|
    ensures forall k :: |s| - n <= k < |s| ==> IsJsSpace(s[k])
    ensures n < |s| ==> !IsJsSpace(s[|s| - 1 - n])
  {
    if |s| > 0 && IsJsSpace(s[|s| - 1]) then 1 + TrailCount(s[..|s| - 1]) else 0
  }

  /** `s.trim()`: `s` without its leading and trailing white space. */
  function Trim(s: string): (r: string)
    ensures |r| <= |s|
    ensures |r| > 0 ==> !IsJsSpace(r[0]) && !IsJsSpace(r[|r| - 1])
    ensures (forall k :: 0 <= k < |s| ==> !IsJsSpace(s[k])) ==> r == s
    ensures (forall k :: 0 <= k < |s| ==> IsJsSpace(s[k])) ==> r == ""
    ensures LeadCount(s) + |r| <= |s| && r == s[LeadCount(s)..LeadCount(s) + |r|]
    ensures forall k :: LeadCount(s) + |r| <= k < |s| ==> IsJsSpace(s[k])
  {
    var t := s[LeadCount(s)..];
    t[..|t| - TrailCount(t)]
  }

  // ---------------------------------------------------------------------------
  // Colours and light descriptors

  datatype Rgb = Rgb(r: int, g: int, b: int)

  const Off := Rgb(0, 0, 0)
  const Blue := Rgb(0, 0, 255)

  /** The preset table shared by `_convertColorToLight` and the backpack
      operations. */
  function PresetRgb(name: string): (r: Option<Rgb>)
  {
    if name == "off" then Some(Rgb(0, 0, 0))
    else if name == "red" then Some(Rgb(255, 0, 0))
    else if name == "green" then Some(Rgb(0, 255, 0))
    else if name == "blue" then Some(Rgb(0, 0, 255))
    else if name == "white" then Some(Rgb(255, 255, 255))
    else if name == "red_light" then Some(Rgb(64, 0, 0))
    else if name == "green_light" then Some(Rgb(0, 64, 0))
    else if name == "blue_light" then Some(Rgb(0, 0, 64))
    else if name == "white_light" then Some(Rgb(64, 64, 64))
    else if name == "off_light" then Some(Rgb(0, 0, 0))
    else None
  }

  function PresetOr(name: string, fallback: Rgb): Rgb
  {
    if PresetRgb(name).Some? then PresetRgb(name).value else fallback
  }

  predicate IsByte(x: int) { 0 <= x <= 255 }

  predicate ValidRgb(c: Rgb) { IsByte(c.r) && IsByte(c.g) && IsByte(c.b) }

  lemma PresetsAreColours(name: string)
    ensures PresetRgb(name).Some? ==> ValidRgb(PresetRgb(name).value)
  {
  }

  /** `{__cozmo_type: kind, value: v}`, the typed wrapper the peer converts. */
  function Wrapper(kind: string, v: Json): Json
  {
    JObj([Member("__cozmo_type", JStr(kind)), Member("value", v)])
  }

  function RgbJson(c: Rgb): Json
  {
    JArr([JNum(c.r as real), JNum(c.g as real), JNum(c.b as real)])
  }

  function LightOf(c: Rgb): Json { Wrapper("light", RgbJson(c)) }

  const OffLight := LightOf(Off)

  /** `_convertColorToLight(color)`: the preset's colour, blue when the name is
      not in the table. */
  function ConvertColorToLight(color: string): (r: Json)
    ensures PresetRgb(color).Some? ==> r == LightOf(PresetRgb(color).value)
    ensures PresetRgb(color).None? ==> r == LightOf(Blue)
  {
    LightOf(PresetOr(color, Blue))
  }

  /** A blinking light pattern as the pattern blocks build it; its on and off
      colours are the same. */
  datatype Pattern = Pattern(rgb: Rgb, onMs: int, offMs: int, tOnMs: int, tOffMs: int, name: string)

  function PatternJson(p: Pattern): Json
  {
    JObj([Member("on", RgbJson(p.rgb)), Member("off", RgbJson(p.rgb)),
          Member("on_period_ms", JNum(p.onMs as real)), Member("off_period_ms", JNum(p.offMs as real)),
          Member("transition_on_period_ms", JNum(p.tOnMs as real)),
          Member("transition_off_period_ms", JNum(p.tOffMs as real)),
          Member("pattern", JStr(p.name))])
  }

  /** A colour channel: floored, then clamped to 0..255 (0 for a non-finite
      argument). */
  function Channel(arg: JsNumber): (r: int)
    ensures IsByte(r)
    ensures arg.Finite? && IsByte(arg.r.Floor) ==> r == arg.r.Floor
    ensures arg.Finite? && arg.r < 0.0 ==> r == 0
    ensures arg.Finite? && arg.r >= 256.0 ==> r == 255
    ensures arg.NonFinite? ==> r == 0
  {
    MaxI(0, MinI(255, Num(arg, 0.0).Floor))
  }

  /** A period in milliseconds: floored, then at least 0. */
  function Period(arg: JsNumber): (r: int)
    ensures r >= 0
    ensures arg.Finite? && arg.r >= 0.0 ==> r == arg.r.Floor
    ensures arg.Finite? && arg.r < 0.0 ==> r == 0
    ensures arg.NonFinite? ==> r == 0
  {
    MaxI(0, Num(arg, 0.0).Floor)
  }

  /** `(args.PATTERN || 'steady').trim()`, an absent argument being "". */
  function PatternName(arg: string): string
  {
    Trim(if arg == "" then "steady" else arg)
  }

  function MakePattern(pattern: string, r: JsNumber, g: JsNumber, b: JsNumber,
                       on: JsNumber, off: JsNumber, tOn: JsNumber, tOff: JsNumber): (p: Pattern)
    ensures ValidRgb(p.rgb) && p.onMs >= 0 && p.offMs >= 0 && p.tOnMs >= 0 && p.tOffMs >= 0
  {
    Pattern(Rgb(Channel(r), Channel(g), Channel(b)), Period(on), Period(off), Period(tOn), Period(tOff),
            PatternName(pattern))
  }

  // ---------------------------------------------------------------------------
  // Backpack

  /** What `_backpack` holds in one slot: a preset name, an RGB triple or a
      pattern object. */
  datatype Slot = Named(name: string) | Triple(rgb: Rgb) | Patterned(p: Pattern)

  const InitialSlot := Named("off")

  /** A slot index block argument: floored, clamped to 1..5 (1 when
      non-finite). */
  function SlotIndex(arg: JsNumber): (r: int)
    ensures 1 <= r <= 5
    ensures arg.Finite? && 1 <= arg.r.Floor <= 5 ==> r == arg.r.Floor
    ensures arg.Finite? && arg.r < 1.0 ==> r == 1
    ensures arg.Finite? && arg.r >= 6.0 ==> r == 5
    ensures arg.NonFinite? ==> r == 1
  {
    var idx := Num(arg, 1.0).Floor;
    if idx < 1 then 1 else if idx > 5 then 5 else idx
  }

  /** The light a slot stands for on the wire (`makeWrapper` of
      set_backpack_led): a pattern object as is, a triple as its three
      channels, a preset name through the table with off as default. */
  function SlotLight(s: Slot): (r: Json)
    ensures s.Named? ==> r == LightOf(PresetOr(s.name, Off))
    ensures s.Triple? ==> r == LightOf(s.rgb)
    ensures s.Patterned? ==> r == Wrapper("light", PatternJson(s.p))
  {
    match s
    case Patterned(p) => Wrapper("light", PatternJson(p))
    case Triple(c) => LightOf(c)
    case Named(n) => LightOf(PresetOr(n, Off))
  }

  /** The five arguments of set_backpack_lights. */
  function BackpackArgs(slots: seq<Slot>): (r: seq<Json>)
    requires |slots| == 5
    ensures |r| == 5 && forall i :: 0 <= i < 5 ==> r[i] == SlotLight(slots[i])
  {
    seq(5, i requires 0 <= i < 5 => SlotLight(slots[i]))
  }

  /** A single-slot update re-sends the four untouched slots exactly as the
      previous full send carried them, and the touched slot as its new light. */
  lemma {:induction false} BackpackResendKeepsOthers(slots: seq<Slot>, k: nat, s: Slot)
    requires |slots| == 5 && k < 5
    ensures var r := BackpackArgs(slots[k := s]);
            r[k] == SlotLight(s)
            && forall j :: 0 <= j < 5 && j != k ==> r[j] == BackpackArgs(slots)[j]
  {
  }

  /** `makeWrapper` as set_backpack_light_pattern writes it: it has no case
      for a slot holding a preset name, which therefore goes out as off. */
  function PatternSlotLightAsWritten(s: Slot): Json
  {
    match s
    case Patterned(p) => Wrapper("light", PatternJson(p))
    case Triple(c) => LightOf(c)
    case Named(_) => LightOf(Off)
  }

  /** The one call that re-sends all five backpack slots. */
  function BackpackCommand(slots: seq<Slot>): Command
    requires |slots| == 5
  {
    Command("robot.set_backpack_lights", BackpackArgs(slots), false, 10000)
  }

  function BackpackArgsAsWritten(slots: seq<Slot>): (r: seq<Json>)
    requires |slots| == 5
    ensures |r| == 5 && forall i :: 0 <= i < 5 ==> r[i] == PatternSlotLightAsWritten(slots[i])
  {
    seq(5, i requires 0 <= i < 5 => PatternSlotLightAsWritten(slots[i]))
  }

  /** After set_backpack_led(1, "red"), set_backpack_light_pattern(2, ...) as
      written turns LED 1 off: the untouched slot goes out differently from
      the previous send. */
  lemma PatternResendTurnsPresetOff(p: Pattern)
    ensures var before := [Named("red"), InitialSlot, InitialSlot, InitialSlot, InitialSlot];
            BackpackArgs(before)[0] == LightOf(Rgb(255, 0, 0))
            && BackpackArgsAsWritten(before[1 := Patterned(p)])[0] == LightOf(Off)
            && BackpackArgsAsWritten(before[1 := Patterned(p)])[0] != BackpackArgs(before)[0]
  {
    assert LightOf(Rgb(255, 0, 0)) != LightOf(Off) by {
      assert RgbJson(Rgb(255, 0, 0)).items[0] != RgbJson(Off).items[0];
    }
  }

  // ---------------------------------------------------------------------------
  // Cube lights

  /** `{light1: 0, light2: 1, light3: 2, light4: 3}[corner]`. */
  function CornerIndex(corner: string): (r: Option<nat>)
    ensures r.Some? ==> r.value < 4
  {
    if corner == "light1" then Some(0)
    else if corner == "light2" then Some(1)
    else if corner == "light3" then Some(2)
    else if corner == "light4" then Some(3)
    else None
  }

  /** The four corner arguments: all off except the chosen corner. An unknown
      corner name indexes the array with `undefined`, which sets no element,
      so then all four are off. */
  function CornerArgs(corner: string, light: Json): (r: seq<Json>)
    ensures |r| == 4
    ensures forall i :: 0 <= i < 4 && CornerIndex(corner) != Some(i) ==> r[i] == OffLight
    ensures CornerIndex(corner).Some? ==> r[CornerIndex(corner).value] == light
  {
    var lights := [OffLight, OffLight, OffLight, OffLight];
    match CornerIndex(corner)
    case Some(i) => lights[i := light]
    case None => lights
  }

  /** A call the encoder hands to the transport. */
  datatype Command = Command(name: string, args: seq<Json>, shouldAwait: bool, timeoutMs: int)

  function CubePath(cubeId: string, member: string): string
  {
    "robot.world.light_cubes[" + cubeId + "]." + member
  }

  /** set_cube_lights / set_cube_light_corners_pattern: "all" sets the whole
      cube with one light, any other corner name sends four corner lights. */
  function CubeLightsCommand(cubeId: string, corner: string, light: Json): (c: Command)
    ensures !c.shouldAwait
    ensures corner == "all" ==> c.name == CubePath(cubeId, "set_lights") && c.args == [light]
    ensures corner != "all" ==> c.name == CubePath(cubeId, "set_light_corners")
                                && c.args == CornerArgs(corner, light)
  {
    if corner == "all" then Command(CubePath(cubeId, "set_lights"), [light], false, 10000)
    else Command(CubePath(cubeId, "set_light_corners"), CornerArgs(corner, light), false, 10000)
  }

  // ---------------------------------------------------------------------------
  // Head and lift

  const HeadMin: real := -25.0
  const HeadMax: real := 44.5

  function Percent(arg: JsNumber, fallback: real): (p: real)
    requires 0.0 <= fallback <= 100.0
    ensures 0.0 <= p <= 100.0
    ensures arg.Finite? && 0.0 <= arg.r <= 100.0 ==> p == arg.r
    ensures arg.Finite? && arg.r < 0.0 ==> p == 0.0
    ensures arg.Finite? && arg.r > 100.0 ==> p == 100.0
    ensures arg.NonFinite? ==> p == fallback
  {
    var x := Num(arg, fallback);
    MaxR(0.0, MinR(100.0, x))
  }

  /** set_head_angle: the percentage, clamped to [0, 100], mapped linearly onto
      [-25, 44.5] degrees. */
  function HeadAngle(percent: JsNumber): (deg: real)
    ensures HeadMin <= deg <= HeadMax
  {
    var p := Percent(percent, 0.0);
    HeadMin + (p / 100.0) * (HeadMax - HeadMin)
  }

  lemma HeadAnglePoints()
    ensures HeadAngle(Finite(0.0)) == -25.0
    ensures HeadAngle(Finite(50.0)) == 9.75
    ensures HeadAngle(Finite(100.0)) == 44.5
    ensures HeadAngle(NonFinite) == -25.0
  {
  }

  /** Out-of-range percentages are clamped before mapping, and the mapping is
      monotone. */
  lemma HeadAngleClampsAndIsMonotone(x: real, y: real)
    ensures x <= 0.0 ==> HeadAngle(Finite(x)) == HeadMin
    ensures x >= 100.0 ==> HeadAngle(Finite(x)) == HeadMax
    ensures x <= y ==> HeadAngle(Finite(x)) <= HeadAngle(Finite(y))
  {
  }

  /** set_lift_height: the percentage (20 by default), clamped to [0, 100],
      as a fraction of full height. */
  function LiftHeight(height: JsNumber): (h: real)
    ensures 0.0 <= h <= 1.0
    ensures height.NonFinite? ==> h == 0.2
    ensures height.Finite? && 0.0 <= height.r <= 100.0 ==> h == height.r / 100.0
    ensures height.Finite? && height.r > 100.0 ==> h == 1.0
    ensures height.Finite? && height.r < 0.0 ==> h == 0.0
  {
    Percent(height, 20.0) / 100.0
  }

  /** `_parseAsyncArgs`: IN_PARALLEL and AWAIT read as booleans. */
  function HeadAngleCommand(percent: JsNumber, duration: JsNumber, inParallel: BoolArg, await: BoolArg): (c: Command)
    ensures c.name == "robot.set_head_angle" && |c.args| == 3
    ensures c.args[0] == Wrapper("degrees", JNum(HeadAngle(percent)))
    ensures c.args[1] == JNum(Num(duration, 0.0)) && c.args[2] == JBool(ParseBool(inParallel, false))
    ensures c.shouldAwait == ParseBool(await, false) && c.timeoutMs == 10000
  {
    Command("robot.set_head_angle",
            [Wrapper("degrees", JNum(HeadAngle(percent))), JNum(Num(duration, 0.0)), JBool(ParseBool(inParallel, false))],
            ParseBool(await, false), 10000)
  }

  function LiftHeightCommand(height: JsNumber, duration: JsNumber, inParallel: BoolArg, await: BoolArg): (c: Command)
    ensures c.name == "robot.set_lift_height" && |c.args| == 3
    ensures c.args[0] == JNum(LiftHeight(height)) && 0.0 <= c.args[0].n <= 1.0
    ensures c.args[1] == JNum(Num(duration, 0.0)) && c.args[2] == JBool(ParseBool(inParallel, false))
    ensures c.shouldAwait == ParseBool(await, false) && c.timeoutMs == 10000
  {
    Command("robot.set_lift_height",
            [JNum(LiftHeight(height)), JNum(Num(duration, 0.0)), JBool(ParseBool(inParallel, false))],
            ParseBool(await, false), 10000)
  }
}
