/**
 * JSON values as both sides of the bridge see them after parsing, with the
 * two truthiness rules in play (JavaScript on the client, Python on the peer),
 * key lookup with last-binding-wins semantics, the peer's `json.dumps`
 * (default separators, ASCII-only output) and the client's `String(...)`.
 */
module JsonValues {
  import opened Wrappers

  /** A parsed JSON value; numbers are exact reals. */
  datatype Json =
    | JNull
    | JBool(b: bool)
    | JNum(n: real)
    | JStr(s: string)
    | JArr(items: seq<Json>)
    | JObj(members: seq<Member>)

  datatype Member = Member(key: string, value: Json)

  // ---------------------------------------------------------------------------
  // Lookup

  /** The value bound to `key`; a later binding shadows an earlier one, as in
      both JSON.parse and json.loads. */
  function Lookup(ms: seq<Member>, key: string): (r: Option<Json>)
    ensures r.None? <==> forall i :: 0 <= i < |ms| ==> ms[i].key != key
    ensures r.Some? ==> exists i :: 0 <= i < |ms| && ms[i] == Member(key, r.value)
                          && forall j :: i < j < |ms| ==> ms[j].key != key
  {
    if |ms| == 0 then None
    else if ms[|ms| - 1].key == key then Some(ms[|ms| - 1].value)
    else Lookup(ms[..|ms| - 1], key)
  }

  /** Property access `v[key]`: absent (`undefined` / missing) unless `v` is an
      object that binds `key`. */
  function Get(v: Json, key: string): (r: Option<Json>)
    ensures r.Some? ==> v.JObj?
  {
    if v.JObj? then Lookup(v.members, key) else None
  }

  /** The members of `ms` whose key is not `key`, in order. */
  function Without(ms: seq<Member>, key: string): (r: seq<Member>)
    ensures forall i :: 0 <= i < |r| ==> r[i].key != key && r[i] in ms
    ensures forall i :: 0 <= i < |ms| && ms[i].key != key ==> ms[i] in r
  {
    if |ms| == 0 then []
    else if ms[|ms| - 1].key == key then Without(ms[..|ms| - 1], key)
    else Without(ms[..|ms| - 1], key) + [ms[|ms| - 1]]
  }

  /** Removing one key leaves every other key bound as before. */
  lemma {:induction false} LookupWithout(ms: seq<Member>, key: string, other: string)
    requires other != key
    ensures Lookup(Without(ms, key), other) == Lookup(ms, other)
  {
    if |ms| > 0 {
      var init := ms[..|ms| - 1];
      LookupWithout(init, key, other);
      if ms[|ms| - 1].key != key {
        assert (Without(init, key) + [ms[|ms| - 1]])[..|Without(init, key)|] == Without(init, key);
      }
    }
  }

  /** Removal works member by member and keeps the order of what remains. */
  lemma {:induction false} WithoutConcat(a: seq<Member>, b: seq<Member>, key: string)
    ensures Without(a + b, key) == Without(a, key) + Without(b, key)
  {
    if |b| > 0 {
      var init := b[..|b| - 1];
      assert (a + b)[..|a + b| - 1] == a + init;
      WithoutConcat(a, init, key);
    } else {
      assert a + b == a;
    }
  }

  // ---------------------------------------------------------------------------
  // Truthiness

  /** JavaScript truthiness of a property read (`undefined` when absent). */
  predicate JsTruthy(o: Option<Json>) {
    match o
    case None => false
    case Some(JNull) => false
    case Some(JBool(b)) => b
    case Some(JNum(n)) => n != 0.0
    case Some(JStr(s)) => s != ""
    case Some(JArr(_)) => true
    case Some(JObj(_)) => true
  }

  /** JavaScript `a || b`. */
  function JsOr(a: Option<Json>, b: Option<Json>): (r: Option<Json>)
    ensures JsTruthy(r) <==> JsTruthy(a) || JsTruthy(b)
    ensures JsTruthy(a) ==> r == a
  {
    if JsTruthy(a) then a else b
  }

  /** Python truthiness: empty containers are false. */
  predicate PyTruthy(v: Json) {
    match v
    case JNull => false
    case JBool(b) => b
    case JNum(n) => n != 0.0
    case JStr(s) => s != ""
    case JArr(items) => |items| > 0
    case JObj(ms) => |ms| > 0
  }

  /** Python `a or b`. */
  function PyOr(a: Json, b: Json): (r: Json)
    ensures PyTruthy(r) <==> PyTruthy(a) || PyTruthy(b)
    ensures PyTruthy(a) ==> r == a
  {
    if PyTruthy(a) then a else b
  }

  // ---------------------------------------------------------------------------
  // Text helpers

  /** Every character is printable ASCII (space through tilde). */
  predicate Printable(s: string) {
    forall i :: 0 <= i < |s| ==> ' ' <= s[i] <= '~'
  }

  lemma PrintableConcat(a: string, b: string)
    requires Printable(a) && Printable(b)
    ensures Printable(a + b)
  {
  }

  function DigitChar(d: nat): (c: char)
    requires d < 10
    ensures '0' <= c <= '9'
  {
    "0123456789"[d]
  }

  function HexChar(d: nat): (c: char)
    requires d < 16
    ensures ' ' <= c <= '~'
  {
    "0123456789abcdef"[d]
  }

  /** Decimal digits of a natural number, without leading zeros. */
  function NatText(n: nat): (r: string)
    ensures |r| > 0 && Printable(r)
  {
    if n < 10 then [DigitChar(n)] else NatText(n / 10) + [DigitChar(n % 10)]
  }

  /** At most `k` decimal digits of a fraction in [0, 1), stopping once the
      remainder is zero. */
  function FracDigits(f: real, k: nat): (r: string)
    requires 0.0 <= f < 1.0
    ensures |r| <= k && Printable(r)
    decreases k
  {
    if k == 0 || f == 0.0 then ""
    else
      var d := (f * 10.0).Floor;
      [DigitChar(d)] + FracDigits(f * 10.0 - d as real, k - 1)
  }

  /** The decimal text of a number: sign, integer digits, and fraction digits
      when the number is not integral. */
  function NumberText(r: real): (t: string)
    ensures |t| > 0 && Printable(t)
  {
    if r < 0.0 then "-" + UnsignedText(-r) else UnsignedText(r)
  }

  function UnsignedText(r: real): (t: string)
    requires r >= 0.0
    ensures |t| > 0 && Printable(t)
  {
    var w := r.Floor;
    var f := FracDigits(r - w as real, 17);
    NatText(w) + (if f == "" then "" else "." + f)
  }

  /** Four lower-case hex digits of a 16-bit value. */
  function Hex4(x: nat): (r: string)
    requires x < 0x1_0000
    ensures |r| == 4 && Printable(r)
  {
    [HexChar(x / 4096), HexChar(x / 256 % 16), HexChar(x / 16 % 16), HexChar(x % 16)]
  }

  /** `parts` separated by `sep`. */
  function Join(parts: seq<string>, sep: string): (r: string)
    ensures Printable(sep) && (forall i :: 0 <= i < |parts| ==> Printable(parts[i])) ==> Printable(r)
  {
    if |parts| == 0 then ""
    else if |parts| == 1 then parts[0]
    else parts[0] + sep + Join(parts[1..], sep)
  }

  // ---------------------------------------------------------------------------
  // Python json.dumps (ensure_ascii=True, separators ", " and ": ")

  /** One character as json.dumps writes it inside a string literal: the two
      quoting characters and the five named controls get a short escape, every
      other character outside space..tilde a \uXXXX escape (a surrogate pair
      above U+FFFF). */
  function EscapeChar(c: char): (r: string)
  {
    if c == '"' then "\\\""
    else if c == '\\' then "\\\\"
    else if c == '\n' then "\\n"
    else if c == '\r' then "\\r"
    else if c == '\t' then "\\t"
    else if c as int == 8 then "\\b"
    else if c as int == 12 then "\\f"
    else if ' ' <= c <= '~' then [c]
    else if c as int < 0x1_0000 then "\\u" + Hex4(c as int)
    else
      var n := c as int - 0x1_0000;
      "\\u" + Hex4(0xD800 + n / 1024) + "\\u" + Hex4(0xDC00 + n % 1024)
  }

  function EscapeString(s: string): string
  {
    if |s| == 0 then "" else EscapeChar(s[0]) + EscapeString(s[1..])
  }

  function Quote(s: string): string
  {
    "\"" + EscapeString(s) + "\""
  }

  function Dumps(v: Json): string
    decreases v, 1
  {
    match v
    case JNull => "null"
    case JBool(b) => if b then "true" else "false"
    case JNum(n) => NumberText(n)
    case JStr(s) => Quote(s)
    case JArr(items) => "[" + Join(ItemTexts(items), ", ") + "]"
    case JObj(ms) => "{" + Join(MemberTexts(ms), ", ") + "}"
  }

  /** The dumped text of each element of a list. */
  function ItemTexts(items: seq<Json>): (r: seq<string>)
    ensures |r| == |items|
    decreases JArr(items), 0
  {
    seq(|items|, i requires 0 <= i < |items| => Dumps(items[i]))
  }

  /** The dumped `"key": value` text of each member of an object. */
  function MemberTexts(ms: seq<Member>): (r: seq<string>)
    ensures |r| == |ms|
    decreases JObj(ms), 0
  {
    seq(|ms|, i requires 0 <= i < |ms| => Quote(ms[i].key) + ": " + Dumps(ms[i].value))
  }

  lemma {:induction false} EscapeCharPrintable(c: char)
    ensures Printable(EscapeChar(c)) && |EscapeChar(c)| > 0
  {
    if c as int >= 0x1_0000 && !(' ' <= c <= '~') {
      var n := c as int - 0x1_0000;
      assert n < 0x10_0000;
    }
  }

  lemma {:induction false} EscapeStringPrintable(s: string)
    ensures Printable(EscapeString(s))
  {
    if |s| > 0 {
      EscapeCharPrintable(s[0]);
      EscapeStringPrintable(s[1..]);
    }
  }

  /** json.dumps with ensure_ascii emits printable ASCII only; in particular it
      never emits a raw line feed. */
  lemma {:induction false} DumpsPrintable(v: Json)
    ensures Printable(Dumps(v)) && |Dumps(v)| > 0
    decreases v, 1
  {
    match v
    case JNull =>
    case JBool(b) =>
    case JNum(n) =>
    case JStr(s) =>
      EscapeStringPrintable(s);
    case JArr(items) =>
      ItemTextsPrintable(items);
    case JObj(ms) =>
      MemberTextsPrintable(ms);
  }

  lemma {:induction false} ItemTextsPrintable(items: seq<Json>)
    ensures forall i :: 0 <= i < |items| ==> Printable(ItemTexts(items)[i])
    decreases JArr(items), 0
  {
    forall i | 0 <= i < |items| ensures Printable(ItemTexts(items)[i]) {
      DumpsPrintable(items[i]);
    }
  }

  lemma {:induction false} MemberTextsPrintable(ms: seq<Member>)
    ensures forall i :: 0 <= i < |ms| ==> Printable(MemberTexts(ms)[i])
    decreases JObj(ms), 0
  {
    forall i | 0 <= i < |ms| ensures Printable(MemberTexts(ms)[i]) {
      EscapeStringPrintable(ms[i].key);
      DumpsPrintable(ms[i].value);
      PrintableConcat(Quote(ms[i].key), ": ");
      PrintableConcat(Quote(ms[i].key) + ": ", Dumps(ms[i].value));
    }
  }

  // ---------------------------------------------------------------------------
  // JavaScript String(v)

  /** `String(v)` for a parsed JSON value: arrays join their elements' strings
      with commas (null elements become empty), objects print as
      "[object Object]". */
  function JsString(v: Json): string
    decreases v
  {
    match v
    case JNull => "null"
    case JBool(b) => if b then "true" else "false"
    case JNum(n) => NumberText(n)
    case JStr(s) => s
    case JArr(items) =>
      Join(seq(|items|, i requires 0 <= i < |items| => if items[i].JNull? then "" else JsString(items[i])), ",")
    case JObj(_) => "[object Object]"
  }
}
