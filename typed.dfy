/**
 * The peer's conversion of tagged JSON arguments into SDK values
 * (server.py, `_convert_typed_value`, `_coerce_call_args`) and its battery
 * gauge (`battery_percent`). The SDK constructors themselves are not
 * modelled: a converted value records which constructor receives which
 * converted arguments, and a light records the colours and periods it is
 * built from.
 */
module TypedValues {
  import opened Wrappers
  import opened JsonValues
  import opened Commands

  // ---------------------------------------------------------------------------
  // Python integers

  /** `int(x)` of a float: truncation toward zero. */
  function Trunc(r: real): (t: int)
    ensures 0.0 <= r ==> 0 <= t && t as real <= r < t as real + 1.0
    ensures r < 0.0 ==> t <= 0 && t as real - 1.0 < r <= t as real
  {
    if r >= 0.0 then r.Floor else -((-r).Floor)
  }

  /** `int(x)` of a parsed JSON value; `None` where Python raises. Strings
      are not parsed (see the README). */
  function PyInt(v: Json): Option<int>
  {
    match v
    case JNum(n) => Some(Trunc(n))
    case JBool(b) => Some(if b then 1 else 0)
    case _ => None
  }

  /** `x & 0xFF`: the low eight bits of a two's-complement integer. */
  function Mask(x: int): (m: int)
    ensures 0 <= m < 256
    ensures (x - m) % 256 == 0
    ensures 0 <= x < 256 ==> m == x
  {
    x % 256
  }

  /** `d.get(key)`, `None` when absent. */
  function GetPy(v: Json, key: string): Json
  {
    match Get(v, key)
    case None => JNull
    case Some(x) => x
  }

  /** A value bound in an object is smaller than the object, so conversion
      may recurse on it. */
  lemma {:induction false} LookupSmaller(ms: seq<Member>, key: string)
    requires Lookup(ms, key).Some?
    ensures Lookup(ms, key).value < JObj(ms)
  {
    if ms[|ms| - 1].key != key {
      LookupSmaller(ms[..|ms| - 1], key);
      assert ms[..|ms| - 1] < ms;
    }
  }

  // ---------------------------------------------------------------------------
  // Converted values

  /** The `__cozmo_type` tags the peer knows; `degrees`, `degree` and
      `angle` all name the degrees constructor. */
  datatype Tag = DistanceMm | SpeedMmps | Degrees | SongNote | Anim | Light

  function TagOf(ctype: Json): (t: Option<Tag>)
    ensures t.Some? <==> ctype in KnownTags
  {
    if ctype == JStr("distance_mm") then Some(DistanceMm)
    else if ctype == JStr("speed_mmps") then Some(SpeedMmps)
    else if ctype == JStr("degrees") || ctype == JStr("degree") || ctype == JStr("angle") then Some(Degrees)
    else if ctype == JStr("songnote") then Some(SongNote)
    else if ctype == JStr("anim") then Some(Anim)
    else if ctype == JStr("light") then Some(Light)
    else None
  }

  const KnownTags: set<Json> := {JStr("distance_mm"), JStr("speed_mmps"), JStr("degrees"), JStr("degree"),
                                 JStr("angle"), JStr("songnote"), JStr("anim"), JStr("light")}

  /** What `_convert_typed_value` returns. */
  datatype Converted =
    | Unchanged(v: Json)                          // the input, as is
    | Items(items: seq<Converted>)                // a list, converted element by element
    | SdkObject(kind: Tag, args: seq<Converted>)  // an SDK constructor applied to converted arguments
    | ColorLight(color: Rgb)                      // a light with one colour for on and off
    | PatternLight(on: Option<Rgb>, off: Option<Rgb>, onMs: int, offMs: int,
                   tOnMs: int, tOffMs: int, flash: bool)
    | SdkOffLight                                 // the SDK's ready-made off light

  /** `_to_rgb_tuple`: the masked first three entries of a list, `None` for
      anything else; `Err` where `int()` raises. */
  function ToRgb(x: Json): (r: Result<Option<Rgb>, ()>)
    ensures r.Ok? && r.value.Some? ==> ValidRgb(r.value.value)
    ensures x.JArr? && |x.items| >= 3 ==>
              var r0, g0, b0 := PyInt(x.items[0]), PyInt(x.items[1]), PyInt(x.items[2]);
              if r0.Some? && g0.Some? && b0.Some? then r == Ok(Some(Rgb(Mask(r0.value), Mask(g0.value), Mask(b0.value))))
              else r.Err?
    ensures !(x.JArr? && |x.items| >= 3) ==> r == Ok(None)
  {
    if x.JArr? && |x.items| >= 3 then
      var r, g, b := PyInt(x.items[0]), PyInt(x.items[1]), PyInt(x.items[2]);
      if r.Some? && g.Some? && b.Some? then Ok(Some(Rgb(Mask(r.value), Mask(g.value), Mask(b.value)))) else Err(())
    else Ok(None)
  }

  function LowerText(s: string): string
  {
    seq(|s|, i requires 0 <= i < |s| => LowerAscii(s[i]))
  }

  /** The `light` tag applied to its raw value; `None` where the conversion
      raises or falls through, in which case the tagged input is returned. */
  function ConvertLight(raw: Json): (r: Option<Converted>)
  {
    if raw.JObj? then ObjectLight(raw)
    else if raw.JArr? then
      if |raw.items| < 3 then None
      else
        match ToRgb(raw)
        case Ok(Some(c)) => Some(ColorLight(c))
        case _ => None
    else None
  }

  /** The `light` tag on a dictionary: on and off colours with their
      fallbacks, the four periods, and the pattern name. */
  function ObjectLight(raw: Json): (r: Option<Converted>)
    requires raw.JObj?
    ensures r.Some? ==> ChannelsInRange(r.value)
  {
    var onRgb := PyOr(PyOr(PyOr(GetPy(raw, "on"), GetPy(raw, "on_color")), GetPy(raw, "on_rgb")), GetPy(raw, "value"));
    var offRgb := PyOr(PyOr(PyOr(GetPy(raw, "off"), GetPy(raw, "off_color")), GetPy(raw, "off_rgb")), onRgb);
    var onMs := PyInt(PyOr(PyOr(GetPy(raw, "on_period_ms"), GetPy(raw, "on_ms")), JNum(0.0)));
    var offMs := PyInt(PyOr(PyOr(GetPy(raw, "off_period_ms"), GetPy(raw, "off_ms")), JNum(0.0)));
    var tOn := PyInt(PyOr(PyOr(GetPy(raw, "transition_on_period_ms"), GetPy(raw, "transition_on_ms")), JNum(0.0)));
    var tOff := PyInt(PyOr(PyOr(GetPy(raw, "transition_off_period_ms"), GetPy(raw, "transition_off_ms")), JNum(0.0)));
    var onT := ToRgb(onRgb);
    var offT0 := ToRgb(offRgb);
    var pattern := PyOr(GetPy(raw, "pattern"), JStr(""));
    if onMs.None? || offMs.None? || tOn.None? || tOff.None? || onT.Err? || offT0.Err? || !pattern.JStr? then None
    else
      var offT := if offT0.value.Some? then offT0.value else onT.value;
      var p := LowerText(pattern.s);
      if p == "off" then Some(SdkOffLight)
      else Some(PatternLight(onT.value, offT, onMs.value, offMs.value, tOn.value, tOff.value, p == "flash"))
  }

  /** `_convert_typed_value`. */
  function ConvertTypedValue(v: Json): (r: Converted)
    decreases v
  {
    match v
    case JArr(items) => Items(seq(|items|, i requires 0 <= i < |items| => ConvertTypedValue(items[i])))
    case JObj(ms) =>
      var ctype := GetPy(v, "__cozmo_type");
      if !PyTruthy(ctype) then Unchanged(v)
      else
        (match TagOf(ctype)
         case None => Unchanged(v)
         case Some(Light) =>
           (match ConvertLight(GetPy(v, "value"))
            case Some(l) => l
            case None => Unchanged(v))
         case Some(tag) => SdkObject(tag, ConvertedArgs(v)))
    case _ => Unchanged(v)
  }

  /** The constructor arguments of a tagged object: its `value` converted
      element by element when it is a list, otherwise as one argument. */
  function ConvertedArgs(v: Json): (r: seq<Converted>)
    requires v.JObj?
    decreases v, 0
  {
    match Lookup(v.members, "value")
    case None => [Unchanged(JNull)]
    case Some(raw) =>
      LookupSmaller(v.members, "value");
      if raw.JArr? then seq(|raw.items|, i requires 0 <= i < |raw.items| => ConvertTypedValue(raw.items[i]))
      else [ConvertTypedValue(raw)]
  }

  /** `_coerce_call_args`: positional and keyword arguments converted one by
      one. */
  function CoerceCallArgs(args: seq<Json>, kwargs: seq<Member>): (r: (seq<Converted>, seq<(string, Converted)>))
    ensures |r.0| == |args| && forall i :: 0 <= i < |args| ==> r.0[i] == ConvertTypedValue(args[i])
    ensures |r.1| == |kwargs| && forall i :: 0 <= i < |kwargs| ==> r.1[i] == (kwargs[i].key, ConvertTypedValue(kwargs[i].value))
    ensures forall i :: 0 <= i < |r.0| ==> ChannelsInRange(r.0[i])
    ensures forall i :: 0 <= i < |r.1| ==> ChannelsInRange(r.1[i].1)
    ensures forall i :: 0 <= i < |args| && !args[i].JArr? && !args[i].JObj? ==> r.0[i] == Unchanged(args[i])
    ensures forall i :: 0 <= i < |kwargs| && !kwargs[i].value.JArr? && !kwargs[i].value.JObj? ==>
              r.1[i].1 == Unchanged(kwargs[i].value)
  {
    var pos := seq(|args|, i requires 0 <= i < |args| => ConvertTypedValue(args[i]));
    var named := seq(|kwargs|, i requires 0 <= i < |kwargs| => (kwargs[i].key, ConvertTypedValue(kwargs[i].value)));
    assert forall i :: 0 <= i < |pos| ==> ChannelsInRange(pos[i]) by {
      forall i | 0 <= i < |pos| { ConvertChannelsInRange(args[i]); }
    }
    assert forall i :: 0 <= i < |named| ==> ChannelsInRange(named[i].1) by {
      forall i | 0 <= i < |named| { ConvertChannelsInRange(kwargs[i].value); }
    }
    (pos, named)
  }

  // ---------------------------------------------------------------------------
  // Properties of the conversion

  /** A tagged object becomes an SDK object over its converted arguments, a
      light, or itself. */
  lemma ConvertObjectShape(v: Json)
    requires v.JObj?
    ensures var r := ConvertTypedValue(v);
            r == Unchanged(v) || (r.SdkObject? && r.args == ConvertedArgs(v))
            || ConvertLight(GetPy(v, "value")) == Some(r)
  {
  }

  /** Lists keep their length and convert element by element; untagged
      values and objects pass through; an unknown tag returns its input. */
  lemma ConvertStructure(v: Json)
    ensures v.JArr? ==> ConvertTypedValue(v).Items?
                        && |ConvertTypedValue(v).items| == |v.items|
                        && forall i :: 0 <= i < |v.items| ==> ConvertTypedValue(v).items[i] == ConvertTypedValue(v.items[i])
    ensures !v.JArr? && !v.JObj? ==> ConvertTypedValue(v) == Unchanged(v)
    ensures v.JObj? && !PyTruthy(GetPy(v, "__cozmo_type")) ==> ConvertTypedValue(v) == Unchanged(v)
    ensures (v.JObj? && GetPy(v, "__cozmo_type") !in KnownTags) ==> ConvertTypedValue(v) == Unchanged(v)
  {
  }

  /** Every colour anywhere in a converted value has channels in 0..255. */
  predicate ChannelsInRange(c: Converted)
  {
    match c
    case Items(items) => forall i :: 0 <= i < |items| ==> ChannelsInRange(items[i])
    case SdkObject(_, args) => forall i :: 0 <= i < |args| ==> ChannelsInRange(args[i])
    case ColorLight(color) => ValidRgb(color)
    case PatternLight(on, off, _, _, _, _, _) => (on.Some? ==> ValidRgb(on.value)) && (off.Some? ==> ValidRgb(off.value))
    case _ => true
  }

  lemma {:induction false} ConvertLightInRange(raw: Json)
    ensures ConvertLight(raw).Some? ==> ChannelsInRange(ConvertLight(raw).value)
  {
  }

  /** Masking puts every colour channel in range, at any depth. */
  lemma {:induction false} ConvertChannelsInRange(v: Json)
    ensures ChannelsInRange(ConvertTypedValue(v))
    decreases v, 1
  {
    match v
    case JArr(items) =>
      forall i | 0 <= i < |items| ensures ChannelsInRange(ConvertTypedValue(items[i])) {
        ConvertChannelsInRange(items[i]);
      }
    case JObj(ms) =>
      ConvertObjectShape(v);
      ArgsChannelsInRange(v);
      ConvertLightInRange(GetPy(v, "value"));
    case _ =>
  }

  lemma {:induction false} ArgsChannelsInRange(v: Json)
    requires v.JObj?
    ensures forall i :: 0 <= i < |ConvertedArgs(v)| ==> ChannelsInRange(ConvertedArgs(v)[i])
    decreases v, 0
  {
    match Lookup(v.members, "value")
    case None =>
    case Some(raw) =>
      LookupSmaller(v.members, "value");
      if raw.JArr? {
        forall i | 0 <= i < |raw.items| ensures ChannelsInRange(ConvertTypedValue(raw.items[i])) {
          ConvertChannelsInRange(raw.items[i]);
        }
      } else {
        ConvertChannelsInRange(raw);
      }
  }

  /** A light the client builds from an RGB triple in range reaches the SDK
      as exactly that colour. */
  lemma RgbLightConverts(c: Rgb)
    requires ValidRgb(c)
    ensures ConvertTypedValue(LightOf(c)) == ColorLight(c)
  {
    var v := LightOf(c);
    assert "value"[0] != "__cozmo_type"[0];
    assert v.members[..1] == [Member("__cozmo_type", JStr("light"))];
    assert Lookup(v.members[..1], "__cozmo_type") == Some(JStr("light"));
    assert GetPy(v, "__cozmo_type") == JStr("light");
    assert GetPy(v, "value") == RgbJson(c);
  }

  /** `x & 0xFF` of `x + 256 k` is `x` for a byte `x`: channels wrap around. */
  lemma MaskWraps(x: int, k: int)
    requires 0 <= x < 256
    ensures Mask(x + 256 * k) == x
  {
    assert (x + 256 * k) % 256 == x;
  }

  /** `int()` of a whole number is that number. */
  lemma TruncWhole(n: int)
    ensures Trunc(n as real) == n
  {
  }

  /** A light given as a list reaches the SDK as the masked colour of its
      first three entries; when the list is shorter or an entry is no
      number, `int()` or indexing raises and the tagged input comes back. */
  lemma ListLightConverts(items: seq<Json>)
    ensures var w := Wrapper("light", JArr(items));
            if |items| >= 3 && PyInt(items[0]).Some? && PyInt(items[1]).Some? && PyInt(items[2]).Some? then
              ConvertTypedValue(w) == ColorLight(Rgb(Mask(PyInt(items[0]).value), Mask(PyInt(items[1]).value), Mask(PyInt(items[2]).value)))
            else ConvertTypedValue(w) == Unchanged(w)
  {
    var w := Wrapper("light", JArr(items));
    assert "value"[0] != "__cozmo_type"[0];
    assert w.members[..1] == [Member("__cozmo_type", JStr("light"))];
    assert Lookup(w.members[..1], "__cozmo_type") == Some(JStr("light"));
    assert GetPy(w, "__cozmo_type") == JStr("light");
    assert GetPy(w, "value") == JArr(items);
  }

  /** Out-of-range channels wrap modulo 256 rather than saturate: a light
      with channels `c + 256 k` reaches the SDK as `c`. */
  lemma {:induction false} WrappedLightConverts(c: Rgb, k0: int, k1: int, k2: int)
    requires ValidRgb(c)
    ensures ConvertTypedValue(Wrapper("light", JArr([JNum((c.r + 256 * k0) as real), JNum((c.g + 256 * k1) as real),
                                                     JNum((c.b + 256 * k2) as real)]))) == ColorLight(c)
  {
    var items := [JNum((c.r + 256 * k0) as real), JNum((c.g + 256 * k1) as real), JNum((c.b + 256 * k2) as real)];
    TruncWhole(c.r + 256 * k0);
    TruncWhole(c.g + 256 * k1);
    TruncWhole(c.b + 256 * k2);
    MaskWraps(c.r, k0);
    MaskWraps(c.g, k1);
    MaskWraps(c.b, k2);
    ListLightConverts(items);
  }

  // ---------------------------------------------------------------------------
  // Battery

  /** `battery_percent`: full at 4.2 V and above, empty at 3.3 V and below,
      linear in between. */
  function BatteryPercent(volts: real): (p: real)
    ensures 0.0 <= p <= 100.0
    ensures volts >= 4.2 ==> p == 100.0
    ensures volts <= 3.3 ==> p == 0.0
  {
    if volts >= 4.2 then 100.0
    else if volts <= 3.3 then 0.0
    else 100.0 * (volts - 3.3) / (4.2 - 3.3)
  }

  /** A higher voltage never reads as a lower percentage. */
  lemma {:induction false} BatteryPercentMonotone(x: real, y: real)
    requires x <= y
    ensures BatteryPercent(x) <= BatteryPercent(y)
  {
    if 3.3 < x && y < 4.2 {
      assert (x - 3.3) / 0.9 <= (y - 3.3) / 0.9;
    }
  }
}
