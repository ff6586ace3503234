/**
 * The peer's handling of a `call` command (server.py, `_handle_call` and the
 * `call` branch of `_process_message`): argument unpacking with defaults,
 * extraction of the correlation id, the cube corner-light cache, and the
 * reply. The SDK is an oracle: given the method path, the positional
 * arguments (as JSON, before conversion; conversion is the pure
 * `ConvertTypedValue`) and the keyword arguments, it raises or returns a
 * result.
 */
module Peer {
  import opened Wrappers
  import opened JsonValues
  import opened TypedValues
  import Commands

  // ---------------------------------------------------------------------------
  // Unpacking

  /** The pieces `_handle_call` takes from its argument list, with the id
      keys already popped from the keyword arguments. */
  datatype Request = Request(path: Json, callArgs: Json, kwargs: seq<Member>, doAwait: bool, callId: Json)

  /** The keyword-argument object, `{}` when absent. */
  function KwargsOf(args: seq<Json>): Json
  {
    if |args| > 2 then args[2] else JObj([])
  }

  /** Whether unpacking pops `key` from the keyword arguments `kw`:
      `__call_id` always, `call_id` only when `__call_id` is falsy. */
  predicate Popped(kw: Json, key: string)
  {
    key == "__call_id" || (key == "call_id" && !PyTruthy(GetPy(kw, "__call_id")))
  }

  /** Argument unpacking: path `''`, positional `[]`, keyword `{}` and await
      `False` by default; the id is `kwargs.pop('__call_id', None) or
      kwargs.pop('call_id', None)`, so `call_id` is only popped when
      `__call_id` is missing or falsy. Keyword arguments that are not an
      object make `pop` raise. */
  function Unpack(args: seq<Json>): (r: Result<Request, string>)
    ensures r.Ok? <==> KwargsOf(args).JObj?
    ensures r.Ok? ==> && r.value.path == (if |args| > 0 then args[0] else JStr(""))
                      && r.value.callArgs == (if |args| > 1 then args[1] else JArr([]))
                      && r.value.doAwait == (|args| > 3 && PyTruthy(args[3]))
    ensures r.Ok? ==> var first := GetPy(KwargsOf(args), "__call_id");
                      r.value.callId == (if PyTruthy(first) then first else GetPy(KwargsOf(args), "call_id"))
    ensures r.Ok? ==> && (forall m :: m in r.value.kwargs <==> m in KwargsOf(args).members && !Popped(KwargsOf(args), m.key))
                      && (forall k :: !Popped(KwargsOf(args), k) ==> Lookup(r.value.kwargs, k) == Lookup(KwargsOf(args).members, k))
  {
    var path := if |args| > 0 then args[0] else JStr("");
    var callArgs := if |args| > 1 then args[1] else JArr([]);
    var kwargs := KwargsOf(args);
    var doAwait := |args| > 3 && PyTruthy(args[3]);
    if !kwargs.JObj? then Err("'" + "kwargs' object has no attribute 'pop'")
    else
      var first := GetPy(kwargs, "__call_id");
      var rest := Without(kwargs.members, "__call_id");
      assert "call_id"[0] != "__call_id"[0];
      LookupWithout(kwargs.members, "__call_id", "call_id");
      assert forall k :: k != "__call_id" ==> Lookup(rest, k) == Lookup(kwargs.members, k) by {
        forall k | k != "__call_id" { LookupWithout(kwargs.members, "__call_id", k); }
      }
      if PyTruthy(first) then Ok(Request(path, callArgs, rest, doAwait, first))
      else
        var second := match Lookup(rest, "call_id") case None => JNull case Some(x) => x;
        assert forall k :: k != "call_id" ==> Lookup(Without(rest, "call_id"), k) == Lookup(rest, k) by {
          forall k | k != "call_id" { LookupWithout(rest, "call_id", k); }
        }
        Ok(Request(path, callArgs, Without(rest, "call_id"), doAwait, PyOr(first, second)))
  }

  /** Missing trailing arguments take their defaults. */
  lemma UnpackDefaults(p: Json, a: Json)
    ensures Unpack([]) == Ok(Request(JStr(""), JArr([]), [], false, JNull))
    ensures Unpack([p]) == Ok(Request(p, JArr([]), [], false, JNull))
    ensures Unpack([p, a]) == Ok(Request(p, a, [], false, JNull))
  {
  }

  /** The id the client attaches is the one extracted, and it is removed
      from the keyword arguments; an id under `call_id` alone is found too. */
  lemma UnpackFindsCallId(p: Json, a: Json, id: string, aw: Json)
    requires id != ""
    ensures var r := Unpack([p, a, JObj([Member("__call_id", JStr(id))]), aw]);
            r.Ok? && r.value.callId == JStr(id) && r.value.kwargs == [] && r.value.doAwait == PyTruthy(aw)
    ensures var r := Unpack([p, a, JObj([Member("call_id", JStr(id))]), aw]);
            r.Ok? && r.value.callId == JStr(id) && r.value.kwargs == []
  {
    assert "call_id"[0] != "__call_id"[0];
    var first := [Member("__call_id", JStr(id))];
    assert first[..0] == [];
    assert Lookup(first, "__call_id") == Some(JStr(id));
    assert Without(first, "__call_id") == [];
    var ms := [Member("call_id", JStr(id))];
    assert ms[..0] == [];
    assert Lookup(ms, "__call_id") == None && Lookup(ms, "call_id") == Some(JStr(id));
    assert Without(ms, "__call_id") == ms;
    assert Without(ms, "call_id") == [];
  }

  /** When `__call_id` is truthy the short-circuit leaves a `call_id` key in
      the keyword arguments, which then reach the SDK method. */
  lemma TruthyCallIdKeepsOtherKey(p: Json, a: Json, id: string, other: Json)
    requires id != ""
    ensures var r := Unpack([p, a, JObj([Member("__call_id", JStr(id)), Member("call_id", other)])]);
            r.Ok? && r.value.callId == JStr(id) && r.value.kwargs == [Member("call_id", other)]
  {
    assert "call_id"[0] != "__call_id"[0];
    var ms := [Member("__call_id", JStr(id)), Member("call_id", other)];
    var head := [Member("__call_id", JStr(id))];
    assert ms[..1] == head && head[..0] == [];
    assert Without(head, "__call_id") == [];
    assert Without(ms, "__call_id") == [Member("call_id", other)];
  }

  // ---------------------------------------------------------------------------
  // The cube id: `re.search(r'light_cubes\[(\d+)\]\.set_light_corners', path)`

  predicate IsDigit(c: char) { '0' <= c <= '9' }

  /** The length of the leading run of digits. */
  function DigitRun(s: string): (n: nat)
    ensures n <= |s| && (forall i :: 0 <= i < n ==> IsDigit(s[i])) && (n < |s| ==> !IsDigit(s[n]))
  {
    if |s| > 0 && IsDigit(s[0]) then 1 + DigitRun(s[1..]) else 0
  }

  /** `int()` of a run of digits. */
  function DigitsValue(s: string): nat
    requires forall i :: 0 <= i < |s| ==> IsDigit(s[i])
  {
    if |s| == 0 then 0
    else
      assert IsDigit(s[|s| - 1]);
      DigitsValue(s[..|s| - 1]) * 10 + (s[|s| - 1] as int - '0' as int)
  }

  const CubePrefix := "light_cubes["
  const CornersSuffix := "].set_light_corners"

  predicate StartsWith(s: string, p: string) { |p| <= |s| && s[..|p|] == p }

  /** The pattern matched at the start of `s`. Digits are followed by `]`,
      which is not a digit, so the greedy digit run is the only candidate. */
  function MatchAt(s: string): Option<nat>
  {
    if !StartsWith(s, CubePrefix) then None
    else
      var t := s[|CubePrefix|..];
      var n := DigitRun(t);
      if n > 0 && StartsWith(t[n..], CornersSuffix) then Some(DigitsValue(t[..n])) else None
  }

  /** `re.search` for a pattern matched by `at`: the match at the leftmost
      position where there is one. */
  function Search(at: string -> Option<nat>, s: string): Option<nat>
    decreases |s|
  {
    if at(s).Some? then at(s)
    else if |s| == 0 then None
    else Search(at, s[1..])
  }

  /** The cube id the corner-light path names, if any. */
  function SearchCubeId(s: string): Option<nat>
  {
    Search(MatchAt, s)
  }

  /** Where the search matches: the result is the match at that position
      and there is none before it. */
  function SearchStart(at: string -> Option<nat>, s: string): (k: nat)
    requires Search(at, s).Some?
    ensures k <= |s| && at(s[k..]) == Search(at, s)
    ensures forall j :: 0 <= j < k ==> at(s[j..]).None?
    decreases |s|
  {
    if at(s).Some? then
      assert s[0..] == s;
      0
    else
      var k := SearchStart(at, s[1..]);
      NoMatchShifted(at, s, k);
      1 + k
  }

  /** No match in the first `k` positions after the first character means
      none in the first `k + 1` positions when the first has none either. */
  lemma NoMatchShifted(at: string -> Option<nat>, s: string, k: nat)
    requires 0 < |s| && k <= |s| - 1 && at(s).None?
    requires forall j :: 0 <= j < k ==> at(s[1..][j..]).None?
    ensures s[1..][k..] == s[1 + k..]
    ensures forall j :: 0 <= j < k + 1 ==> at(s[j..]).None?
  {
    forall j | 0 <= j < k + 1 ensures at(s[j..]).None? {
      if j == 0 {
        assert s[0..] == s;
      } else {
        assert s[1..][j - 1..] == s[j..];
      }
    }
  }

  predicate OccursAt(s: string, t: string, k: int)
  {
    0 <= k <= |s| - |t| && s[k..k + |t|] == t
  }

  ghost predicate Contains(s: string, t: string)
  {
    exists k :: OccursAt(s, t, k)
  }

  lemma SuffixNamesMethod(x: string)
    requires StartsWith(x, CornersSuffix)
    ensures |x| >= 19 && x[2..19] == "set_light_corners"
  {
    assert x[2..19] == x[..19][2..];
  }

  /** A match implies the substring test `'set_light_corners' in path` that
      guards the search, so the search decides the branch on its own. */
  lemma {:induction false} MatchContainsName(s: string)
    requires SearchCubeId(s).Some?
    ensures Contains(s, "set_light_corners")
  {
    var k := SearchStart(MatchAt, s);
    var at := MatchNamesMethod(s[k..]);
    OccursShifted(s, k, "set_light_corners", at);
  }

  /** Where a match names the method. */
  lemma MatchNamesMethod(u: string) returns (at: nat)
    requires MatchAt(u).Some?
    ensures OccursAt(u, "set_light_corners", at)
  {
    var t := u[|CubePrefix|..];
    var n := DigitRun(t);
    var x := t[n..];
    assert x == u[|CubePrefix| + n..];
    SuffixNamesMethod(x);
    at := |CubePrefix| + n + 2;
    assert u[at..at + 17] == x[2..19];
  }

  lemma OccursShifted(s: string, k: nat, t: string, at: nat)
    requires k <= |s| && OccursAt(s[k..], t, at)
    ensures OccursAt(s, t, k + at)
  {
    assert s[k..][at..at + |t|] == s[k + at..k + at + |t|];
  }

  // ---------------------------------------------------------------------------
  // The corner merge

  /** Python `v == [0, 0, 0]`, where `False == 0`. */
  predicate IsZeroTriple(v: Json)
  {
    v.JArr? && |v.items| == 3
    && forall i :: 0 <= i < 3 ==> v.items[i] == JNum(0.0) || v.items[i] == JBool(false)
  }

  /** `call_args[i]`, or `None` past the end. */
  function ArgAt(callArgs: seq<Json>, i: nat): Json
  {
    if i < |callArgs| then callArgs[i] else JNull
  }

  /** Only objects and `None` have `.get`; anything else among the first
      four arguments makes the merge raise. */
  predicate CornerArgsUsable(callArgs: seq<Json>)
  {
    forall i :: 0 <= i < 4 && i < |callArgs| ==> callArgs[i].JNull? || callArgs[i].JObj?
  }

  /** One corner after the merge: a missing argument keeps the cached light;
      an explicit off keeps a cached light; anything else replaces it. */
  function MergeSlot(arg: Json, cached: Option<Json>): Option<Json>
    requires arg.JNull? || arg.JObj?
  {
    if arg.JNull? then cached
    else if IsZeroTriple(GetPy(arg, "value")) && cached.Some? then cached
    else Some(arg)
  }

  /** A corner that has a cached light never reverts to nothing, an explicit
      off cannot switch a cached light off, and a light that is not off
      always replaces the cache. */
  lemma MergeSlotProperties(arg: Json, cached: Option<Json>)
    requires arg.JNull? || arg.JObj?
    ensures cached.Some? ==> MergeSlot(arg, cached).Some?
    ensures arg.JObj? && IsZeroTriple(GetPy(arg, "value")) && cached.Some? ==> MergeSlot(arg, cached) == cached
    ensures arg.JObj? && !IsZeroTriple(GetPy(arg, "value")) ==> MergeSlot(arg, cached) == Some(arg)
    ensures arg.JNull? ==> MergeSlot(arg, cached) == cached
  {
  }

  /** The `for i in range(4)` loop building `new_lights`: `None` when an
      argument has no `.get`. */
  method MergeCorners(callArgs: seq<Json>, cached: seq<Option<Json>>) returns (r: Option<seq<Option<Json>>>)
    requires |cached| == 4
    ensures r.Some? <==> CornerArgsUsable(callArgs)
    ensures r.Some? ==> |r.value| == 4
                        && forall i :: 0 <= i < 4 ==> r.value[i] == MergeSlot(ArgAt(callArgs, i), cached[i])
  {
    var lights: seq<Option<Json>> := [None, None, None, None];
    for i := 0 to 4
      invariant |lights| == 4
      invariant forall j :: 0 <= j < i && j < |callArgs| ==> callArgs[j].JNull? || callArgs[j].JObj?
      invariant forall j :: 0 <= j < i ==> lights[j] == MergeSlot(ArgAt(callArgs, j), cached[j])
    {
      if i < |callArgs| && !callArgs[i].JNull? {
        if !callArgs[i].JObj? {
          return None;
        }
        if IsZeroTriple(GetPy(callArgs[i], "value")) && cached[i].Some? {
          lights := lights[i := cached[i]];
        } else {
          lights := lights[i := Some(callArgs[i])];
        }
      } else {
        lights := lights[i := cached[i]];
      }
    }
    return Some(lights);
  }

  /** The off light a corner left empty is sent as. */
  const OffWrapper: Json := JObj([Member("__cozmo_type", JStr("light")), Member("value", JArr([JNum(0.0), JNum(0.0), JNum(0.0)]))])

  function SentLight(l: Option<Json>): Json
  {
    if l.Some? then l.value else OffWrapper
  }

  /** `new_lights_coerced`: every corner converted, an empty one as the off
      light. */
  function CoercedLights(lights: seq<Option<Json>>): (sent: seq<Converted>)
    ensures |sent| == |lights|
    ensures forall i :: 0 <= i < |lights| ==> sent[i] == ConvertTypedValue(SentLight(lights[i]))
    ensures forall i :: 0 <= i < |lights| && lights[i].None? ==> sent[i] == ColorLight(Commands.Off)
    ensures forall i :: 0 <= i < |sent| ==> ChannelsInRange(sent[i])
  {
    RgbLightConverts(Commands.Off);
    assert OffWrapper == Commands.LightOf(Commands.Off);
    var sent := seq(|lights|, i requires 0 <= i < |lights| => ConvertTypedValue(SentLight(lights[i])));
    assert forall i :: 0 <= i < |sent| ==> ChannelsInRange(sent[i]) by {
      forall i | 0 <= i < |sent| { ConvertChannelsInRange(SentLight(lights[i])); }
    }
    sent
  }

  /** Keyword arguments passed on without conversion. */
  function RawKwargs(kwargs: seq<Member>): (r: seq<(string, Converted)>)
    ensures |r| == |kwargs| && forall i :: 0 <= i < |kwargs| ==> r[i] == (kwargs[i].key, Unchanged(kwargs[i].value))
  {
    seq(|kwargs|, i requires 0 <= i < |kwargs| => (kwargs[i].key, Unchanged(kwargs[i].value)))
  }

  /** The one-character strings of `s`, in order. */
  function Chars(s: string): (r: seq<Json>)
    ensures |r| == |s| && forall i :: 0 <= i < |s| ==> r[i] == JStr([s[i]])
  {
    seq(|s|, i requires 0 <= i < |s| => JStr([s[i]]))
  }

  /** The keys of an object, in order. */
  function Keys(ms: seq<Member>): (r: seq<Json>)
    ensures |r| == |ms| && forall i :: 0 <= i < |ms| ==> r[i] == JStr(ms[i].key)
  {
    seq(|ms|, i requires 0 <= i < |ms| => JStr(ms[i].key))
  }

  /** `list(args or [])`: nothing for a falsy value, the items of a list,
      the characters of a string, the keys of an object; other values are
      not iterable. */
  function PyList(v: Json): (r: Option<seq<Json>>)
    ensures r.None? <==> PyTruthy(v) && !v.JArr? && !v.JStr? && !v.JObj?
    ensures !PyTruthy(v) ==> r == Some([])
    ensures v.JArr? ==> r == Some(v.items)
    ensures v.JStr? ==> r.Some? && |r.value| == |v.s| && forall i :: 0 <= i < |v.s| ==> r.value[i] == JStr([v.s[i]])
    ensures v.JObj? ==> r.Some? && |r.value| == |v.members| && forall i :: 0 <= i < |v.members| ==> r.value[i] == JStr(v.members[i].key)
  {
    match v
    case JArr(items) => Some(items)
    case JStr(s) => Some(Chars(s))
    case JObj(ms) => Some(Keys(ms))
    case _ => if PyTruthy(v) then None else Some([])
  }

  /** `call_args[0] if call_args else None`; `None` where indexing raises. */
  function FirstArg(v: Json): (r: Option<Json>)
    ensures r.None? <==> PyTruthy(v) && !v.JArr? && !v.JStr?
    ensures !PyTruthy(v) ==> r == Some(JNull)
    ensures PyTruthy(v) && v.JArr? ==> r == Some(v.items[0])
    ensures PyTruthy(v) && v.JStr? ==> r == Some(JStr([v.s[0]]))
  {
    if !PyTruthy(v) then Some(JNull)
    else match v
      case JArr(items) => Some(items[0])
      case JStr(s) => Some(JStr([s[0]]))
      case _ => None
  }

  /** What `len(call_args)` and `call_args[i]` see in the corner branch: a
      list's items; an empty string or object has length 0 and is never
      indexed; anything else raises on `len`, on indexing or on `.get`. */
  function CornerItems(callArgs: Json): Option<seq<Json>>
  {
    match callArgs
    case JArr(items) => Some(items)
    case JStr(s) => if s == "" then Some([]) else None
    case JObj(ms) => if |ms| == 0 then Some([]) else None
    case _ => None
  }

  /** `new_lights`: the four merged corners. */
  function Merged(callArgs: seq<Json>, cached: seq<Option<Json>>): (lights: seq<Option<Json>>)
    requires CornerArgsUsable(callArgs) && |cached| == 4
    ensures |lights| == 4
  {
    seq(4, i requires 0 <= i < 4 => MergeSlot(ArgAt(callArgs, i), cached[i]))
  }

  /** The positional arguments the SDK method receives: every empty corner
      as an off light. */
  // ---------------------------------------------------------------------------
  // SDK results and replies

  /** What an SDK method returned: `None`, or an object rendered for JSON
      with its optional `state`, `failure_reason` and `failure_code` (the
      last two absent when `None`). */
  datatype SdkResult =
    | NoneResult
    | Returned(rendered: Json, state: Option<string>, failureReason: Option<Json>, failureCode: Option<Json>)

  datatype SdkOutcome = Raised(message: string) | Completed(res: SdkResult)

  /** The SDK method the path names, applied to positional and keyword
      arguments and, when the flag is set, awaited with
      `wait_for_completed`. */
  type Sdk = (string, seq<Converted>, seq<(string, Converted)>, bool) -> SdkOutcome

  const AwaitOnNone := "'NoneType' object has no attribute 'wait_for_completed'"

  /** `out[key] = v` on a dictionary that does not bind `key` yet, when `v`
      is present. */
  function Put(ms: seq<Member>, key: string, v: Option<Json>): (r: seq<Member>)
    ensures |ms| <= |r| && r[..|ms|] == ms
  {
    if v.Some? then
      assert (ms + [Member(key, v.value)])[..|ms|] == ms;
      ms + [Member(key, v.value)]
    else ms
  }

  /** After `Put`, `key` holds the new value and every other key keeps its own. */
  lemma PutLookup(ms: seq<Member>, key: string, v: Option<Json>, k: string)
    ensures Lookup(Put(ms, key, v), k) == if k == key && v.Some? then v else Lookup(ms, k)
  {
  }

  /** The reply dictionary `out`. */
  function ReplyOf(res: SdkResult, callId: Json): (out: Json)
    ensures out.JObj? && |out.members| > 0 && out.members[0].key == "result"
  {
    var base := ResultFields(res);
    JObj(Put(base, "call_id", if PyTruthy(callId) then Some(callId) else None))
  }

  /** Each key of the reply holds what the SDK result carried: the rendered
      result (`None` for no result), the state, the failure reason and code
      when present, and the id when truthy. */
  lemma ReplyFields(res: SdkResult, callId: Json)
    ensures var out := ReplyOf(res, callId);
            && Get(out, "result") == Some(if res.NoneResult? then JNull else res.rendered)
            && Get(out, "state") == (if res.Returned? && res.state.Some? then Some(JStr(res.state.value)) else None)
            && Get(out, "failure_reason") == (if res.Returned? then res.failureReason else None)
            && Get(out, "failure_code") == (if res.Returned? then res.failureCode else None)
            && Get(out, "call_id") == (if PyTruthy(callId) then Some(callId) else None)
  {
    var id := if PyTruthy(callId) then Some(callId) else None;
    var fields := ResultFields(res);
    assert ReplyOf(res, callId) == JObj(Put(fields, "call_id", id));
    PutLookup(fields, "call_id", id, "result");
    PutLookup(fields, "call_id", id, "state");
    PutLookup(fields, "call_id", id, "failure_reason");
    PutLookup(fields, "call_id", id, "failure_code");
    PutLookup(fields, "call_id", id, "call_id");
    ResultFieldsBind(res);
  }

  /** The reply's members before the id: the result and what it carries. */
  function ResultFields(res: SdkResult): seq<Member>
  {
    match res
    case NoneResult => [Member("result", JNull)]
    case Returned(rendered, state, reason, code) =>
      Put(Put(Put([Member("result", rendered)], "state", if state.Some? then Some(JStr(state.value)) else None),
              "failure_reason", reason), "failure_code", code)
  }

  lemma ResultFieldsBind(res: SdkResult)
    ensures var fields := ResultFields(res);
            && Lookup(fields, "result") == Some(if res.NoneResult? then JNull else res.rendered)
            && Lookup(fields, "state") == (if res.Returned? && res.state.Some? then Some(JStr(res.state.value)) else None)
            && Lookup(fields, "failure_reason") == (if res.Returned? then res.failureReason else None)
            && Lookup(fields, "failure_code") == (if res.Returned? then res.failureCode else None)
            && Lookup(fields, "call_id") == None
  {
    var head := [Member("result", if res.NoneResult? then JNull else res.rendered)];
    assert head[..0] == [];
    if res.Returned? {
      var st := if res.state.Some? then Some(JStr(res.state.value)) else None;
      var s1 := Put(head, "state", st);
      var s2 := Put(s1, "failure_reason", res.failureReason);
      var s3 := Put(s2, "failure_code", res.failureCode);
      assert ResultFields(res) == s3;
      PutLookup(head, "state", st, "result");
      PutLookup(s1, "failure_reason", res.failureReason, "result");
      PutLookup(s2, "failure_code", res.failureCode, "result");
      PutLookup(head, "state", st, "state");
      PutLookup(s1, "failure_reason", res.failureReason, "state");
      PutLookup(s2, "failure_code", res.failureCode, "state");
      PutLookup(head, "state", st, "failure_reason");
      PutLookup(s1, "failure_reason", res.failureReason, "failure_reason");
      PutLookup(s2, "failure_code", res.failureCode, "failure_reason");
      PutLookup(head, "state", st, "failure_code");
      PutLookup(s1, "failure_reason", res.failureReason, "failure_code");
      PutLookup(s2, "failure_code", res.failureCode, "failure_code");
      PutLookup(head, "state", st, "call_id");
      PutLookup(s1, "failure_reason", res.failureReason, "call_id");
      PutLookup(s2, "failure_code", res.failureCode, "call_id");
    }
  }

  /** What `_handle_call` makes of the SDK's outcome: an exception becomes
      its message, awaiting a `None` result fails on `wait_for_completed`,
      and anything else becomes the reply. */
  function CallReply(req: Request, o: SdkOutcome): (r: Result<Json, string>)
    ensures r.Err? <==> o.Raised? || (req.doAwait && o.res.NoneResult?)
    ensures o.Raised? ==> r == Err(o.message)
    ensures o.Completed? && req.doAwait && o.res.NoneResult? ==> r == Err(AwaitOnNone)
    ensures r.Ok? ==> && Get(r.value, "result") == Some(if o.res.NoneResult? then JNull else o.res.rendered)
                      && Get(r.value, "state") == (if o.res.Returned? && o.res.state.Some? then Some(JStr(o.res.state.value)) else None)
                      && Get(r.value, "call_id") == (if PyTruthy(req.callId) then Some(req.callId) else None)
  {
    match o
    case Raised(msg) => Err(msg)
    case Completed(res) =>
      if req.doAwait && res.NoneResult? then Err(AwaitOnNone)
      else ReplyFields(res, req.callId); Ok(ReplyOf(res, req.callId))
  }

  /** Whether the cache takes the merged lights: the result is `None`, or has
      a state that is not `action_failed`. */
  predicate CacheAccepts(res: SdkResult)
  {
    res.NoneResult? || (res.state.Some? && res.state.value != "action_failed")
  }

  /** The message the client receives for a call: `{"event": "call_result",
      "data": out}`, or `{"error": str(e)}` as data when handling raised. */
  function CallResultMessage(r: Result<Json, string>): Json
  {
    JObj([Member("event", JStr("call_result")),
          Member("data", if r.Ok? then r.value else JObj([Member("error", JStr(r.error))]))])
  }

  const GetLightCubePath := JStr("robot.world.get_light_cube")

  /** The get_light_cube lookup: the cube found, `None` when none is found or
      the lookup raises (the exception is caught). */
  function LightCubeResult(o: SdkOutcome): Json
  {
    match o
    case Completed(Returned(rendered, _, _, _)) => rendered
    case _ => JNull
  }

  /** The cube a request addresses through the corner-light path, if any. */
  function CornerTarget(req: Request): Option<nat>
  {
    if req.path.JStr? then SearchCubeId(req.path.s) else None
  }

  /** The peer's corner-light memory, `light_corners_cache`. */
  class Peer {
    var lightCornersCache: map<int, seq<Option<Json>>>

    ghost predicate Valid()
      reads this
    {
      forall k :: k in lightCornersCache ==> |lightCornersCache[k]| == 4
    }

    constructor()
      ensures Valid() && lightCornersCache == map[]
    {
      lightCornersCache := map[];
    }

    function Cached(cubeId: int): (r: seq<Option<Json>>)
      reads this
      requires Valid()
      ensures |r| == 4
      ensures cubeId !in lightCornersCache ==> r == [None, None, None, None]
    {
      if cubeId in lightCornersCache then lightCornersCache[cubeId] else [None, None, None, None]
    }

    /** `_handle_call(args)`: `Ok(out)` for a reply, `Err(message)` for an
        exception, which `_process_message` turns into an error reply. */
    method HandleCall(args: seq<Json>, sdk: Sdk) returns (r: Result<Json, string>)
      requires Valid()
      modifies this
      ensures Valid()
      ensures Unpack(args).Err? ==> r == Err(Unpack(args).error) && lightCornersCache == old(lightCornersCache)
      ensures Unpack(args).Ok? && Unpack(args).value.path == GetLightCubePath ==>
                var ca := Unpack(args).value.callArgs;
                && (r.Err? <==> PyTruthy(ca) && !ca.JArr? && !ca.JStr?)
                && (r.Ok? ==> && Get(r.value, "call_id").None?
                              && Get(r.value, "result") == Some(LightCubeResult(sdk(GetLightCubePath.s, [Unchanged(FirstArg(ca).value)], [], false))))
                && lightCornersCache == old(lightCornersCache)
      ensures Unpack(args).Ok? && Unpack(args).value.path != GetLightCubePath && !Unpack(args).value.path.JStr? ==>
                r.Err? && lightCornersCache == old(lightCornersCache)
      ensures Unpack(args).Ok? && Unpack(args).value.path != GetLightCubePath && CornerTarget(Unpack(args).value).Some? ==>
                var req := Unpack(args).value;
                var cube := CornerTarget(req).value;
                var items := CornerItems(req.callArgs);
                if items.None? || !CornerArgsUsable(items.value) then
                  r.Err? && lightCornersCache == old(lightCornersCache)
                else
                  var merged := Merged(items.value, old(Cached(cube)));
                  var o := sdk(req.path.s, CoercedLights(merged), RawKwargs(req.kwargs), req.doAwait);
                  && r == CallReply(req, o)
                  && lightCornersCache == (if r.Ok? && CacheAccepts(o.res) then old(lightCornersCache)[cube := merged]
                                           else old(lightCornersCache))
      ensures Unpack(args).Ok? && Unpack(args).value.path != GetLightCubePath && Unpack(args).value.path.JStr?
              && CornerTarget(Unpack(args).value).None? ==>
                var req := Unpack(args).value;
                var pos := PyList(req.callArgs);
                && lightCornersCache == old(lightCornersCache)
                && (pos.None? ==> r.Err?)
                && (pos.Some? ==> var coerced := CoerceCallArgs(pos.value, req.kwargs);
                                  r == CallReply(req, sdk(req.path.s, coerced.0, coerced.1, req.doAwait)))
    {
      var u := Unpack(args);
      if u.Err? {
        return Err(u.error);
      }
      var req := u.value;
      if req.path == GetLightCubePath {
        var cubeId := FirstArg(req.callArgs);
        if cubeId.None? {
          return Err("call arguments are not subscriptable");
        }
        var cube := LightCubeResult(sdk(GetLightCubePath.s, [Unchanged(cubeId.value)], [], false));
        assert "result"[0] != "call_id"[0];
        return Ok(JObj([Member("result", cube)]));
      }
      if !req.path.JStr? {
        return Err("path is not a string");
      }
      var target := CornerTarget(req);
      if target.Some? {
        r := CornerCall(req, target.value, sdk);
        return;
      }
      var pos := PyList(req.callArgs);
      if pos.None? {
        return Err("call arguments are not iterable");
      }
      var coerced := CoerceCallArgs(pos.value, req.kwargs);
      r := CallReply(req, sdk(req.path.s, coerced.0, coerced.1, req.doAwait));
    }

    /** The `set_light_corners` branch: merge with the cube's cached corners,
        send empty corners as off, call the SDK, and remember the merged
        corners when the result is `None` or its state is not
        `action_failed`. */
    method CornerCall(req: Request, cube: nat, sdk: Sdk) returns (r: Result<Json, string>)
      requires Valid() && req.path.JStr?
      modifies this
      ensures Valid()
      ensures var items := CornerItems(req.callArgs);
              if items.None? || !CornerArgsUsable(items.value) then
                r.Err? && lightCornersCache == old(lightCornersCache)
              else
                var merged := Merged(items.value, old(Cached(cube)));
                var o := sdk(req.path.s, CoercedLights(merged), RawKwargs(req.kwargs), req.doAwait);
                && r == CallReply(req, o)
                && lightCornersCache == (if r.Ok? && CacheAccepts(o.res) then old(lightCornersCache)[cube := merged]
                                         else old(lightCornersCache))
    {
      var items := CornerItems(req.callArgs);
      if items.None? {
        return Err("call arguments have no length or no corner lights");
      }
      var merged := MergeCorners(items.value, Cached(cube));
      if merged.None? {
        return Err("'" + "argument' object has no attribute 'get'");
      }
      assert merged.value == Merged(items.value, Cached(cube));
      var o := sdk(req.path.s, CoercedLights(merged.value), RawKwargs(req.kwargs), req.doAwait);
      r := CallReply(req, o);
      if r.Ok? && CacheAccepts(o.res) {
        lightCornersCache := lightCornersCache[cube := merged.value];
      }
    }
  }
}
