/**
 * The two sides together: what the client sends is what the peer unpacks,
 * and what the peer replies is what the client correlates.
 */
module Protocol {
  import opened Wrappers
  import opened JsonValues
  import opened Commands
  import Session
  import Peer
  import TypedValues

  /** The peer finds the id the client attached to a `call`, and leaves no
      id key among the keyword arguments. */
  lemma PeerSeesClientCallId(c: Command, id: string)
    requires id != ""
    ensures var payload := Session.CallPayload(c, id);
            var u := Peer.Unpack(TypedValues.GetPy(payload, "args").items);
            && u.Ok? && u.value.callId == JStr(id) && u.value.kwargs == []
            && u.value.path == JStr(c.name) && u.value.callArgs == JArr(c.args)
            && u.value.doAwait == c.shouldAwait
  {
    var payload := Session.CallPayload(c, id);
    assert "args"[0] != "cmd"[0];
    var args := [JStr(c.name), JArr(c.args), JObj([Member("__call_id", JStr(id))]), JBool(c.shouldAwait)];
    assert TypedValues.GetPy(payload, "args") == JArr(args);
    Peer.UnpackFindsCallId(JStr(c.name), JArr(c.args), id, JBool(c.shouldAwait));
  }

  /** A reply echoing a non-empty id reaches the client as that id's
      `call_result`, carrying the reply itself. */
  lemma ReplyResolvesCall(res: Peer.SdkResult, id: string)
    requires id != ""
    ensures var reply := Peer.ReplyOf(res, JStr(id));
            Session.CallResult(Some(Peer.CallResultMessage(Ok(reply)))) == Some((id, reply))
  {
    var reply := Peer.ReplyOf(res, JStr(id));
    assert Get(reply, "call_id") == Some(JStr(id)) by {
      Peer.ReplyFields(res, JStr(id));
    }
    EchoingReplyResolves(reply, id);
  }

  /** Any reply object that binds `call_id` to `id` resolves that id. */
  lemma EchoingReplyResolves(reply: Json, id: string)
    requires id != "" && reply.JObj? && |reply.members| > 0 && Get(reply, "call_id") == Some(JStr(id))
    ensures Session.CallResult(Some(Peer.CallResultMessage(Ok(reply)))) == Some((id, reply))
  {
    var msg := Peer.CallResultMessage(Ok(reply));
    assert "data"[0] != "event"[0] && "data"[0] != "state"[0] && "event"[0] != "state"[0];
    assert msg.members[..1] == [Member("event", JStr("call_result"))];
    assert Lookup(msg.members[..1], "event") == Some(JStr("call_result"));
    assert Get(msg, "state").None?;
    assert Get(msg, "event") == Some(JStr("call_result"));
    assert Get(msg, "data") == Some(reply);
  }

  /** When handling raised, the reply carries no id, so the waiting call is
      not resolved by it and ends by its deadline. */
  lemma ErrorReplyResolvesNothing(e: string)
    ensures Session.CallResult(Some(Peer.CallResultMessage(Err(e)))) == None
  {
    var msg := Peer.CallResultMessage(Err(e));
    var d := JObj([Member("error", JStr(e))]);
    assert "data"[0] != "event"[0] && "data"[0] != "state"[0] && "event"[0] != "state"[0];
    assert msg.members[..1] == [Member("event", JStr("call_result"))];
    assert Get(msg, "data") == Some(d);
    assert "error"[0] != "call_id"[0] && "error"[0] != "callId"[0] && "error"[0] != "id"[0];
    assert Get(d, "call_id").None? && Get(d, "callId").None? && Get(d, "id").None?;
  }

  /** The off light the peer fills empty corners with is the client's off
      light. */
  lemma OffLightsAgree()
    ensures Peer.OffWrapper == OffLight
  {
  }

  /** The cube path the client builds for a numeric cube id is parsed back
      to that id. */
  lemma CubePathParses(n: nat)
    ensures Peer.SearchCubeId(CubePath(NatText(n), "set_light_corners")) == Some(n)
  {
    var id := NatText(n);
    var s := CubePath(id, "set_light_corners");
    var tail := Peer.CubePrefix + id + Peer.CornersSuffix;
    assert s == "robot.world." + tail;
    assert s[..12] == "robot.world." && s[12..] == tail;
    NoMatchInHead(s);
    SearchSkips(Peer.MatchAt, s, 12);
    MatchesNumber(n, tail);
  }

  lemma NoMatchInHead(s: string)
    requires |s| >= 12 && s[..12] == "robot.world."
    ensures forall j :: 0 <= j < 12 ==> Peer.MatchAt(s[j..]).None?
  {
    forall j | 0 <= j < 12 ensures !Peer.StartsWith(s[j..], Peer.CubePrefix) {
      assert s[j] == "robot.world."[j];
      if j == 9 {
        assert s[10] == 'd';
        assert s[j..][1] == 'd';
      } else {
        assert s[j..][0] == s[j] != 'l';
      }
    }
  }

  lemma MatchesNumber(n: nat, tail: string)
    requires tail == Peer.CubePrefix + NatText(n) + Peer.CornersSuffix
    ensures Peer.SearchCubeId(tail) == Some(n)
  {
    var id := NatText(n);
    var t := tail[|Peer.CubePrefix|..];
    assert tail[..|Peer.CubePrefix|] == Peer.CubePrefix;
    assert t == id + Peer.CornersSuffix;
    NatTextDigits(n);
    DigitRunOfNumber(id, Peer.CornersSuffix);
    assert t[..|id|] == id && t[|id|..] == Peer.CornersSuffix;
  }

  /** The search skips a prefix where the pattern does not start. */
  lemma {:induction false} SearchSkips(at: string -> Option<nat>, s: string, k: nat)
    requires k <= |s|
    requires forall j :: 0 <= j < k ==> at(s[j..]).None?
    ensures Peer.Search(at, s) == Peer.Search(at, s[k..])
    decreases k
  {
    if k > 0 {
      assert at(s[0..]).None? && s[0..] == s;
      forall j | 0 <= j < k - 1 ensures at(s[1..][j..]).None? {
        assert s[1..][j..] == s[j + 1..];
      }
      SearchSkips(at, s[1..], k - 1);
      assert s[1..][k - 1..] == s[k..];
    }
  }

  /** The decimal text of a number is all digits and reads back as it. */
  lemma {:induction false} NatTextDigits(n: nat)
    ensures forall i :: 0 <= i < |NatText(n)| ==> Peer.IsDigit(NatText(n)[i])
    ensures Peer.DigitsValue(NatText(n)) == n
  {
    if n >= 10 {
      NatTextDigits(n / 10);
      var t := NatText(n);
      assert t == NatText(n / 10) + [DigitChar(n % 10)];
      assert t[..|t| - 1] == NatText(n / 10);
      assert DigitChar(n % 10) as int - '0' as int == n % 10 by {
        assert "0123456789"[n % 10] as int == '0' as int + n % 10;
      }
    } else {
      assert DigitChar(n) as int - '0' as int == n by {
        assert "0123456789"[n] as int == '0' as int + n;
      }
      assert NatText(n)[..0] == [];
    }
  }

  lemma {:induction false} DigitRunOfNumber(d: string, rest: string)
    requires forall i :: 0 <= i < |d| ==> Peer.IsDigit(d[i])
    requires |rest| > 0 && !Peer.IsDigit(rest[0])
    ensures Peer.DigitRun(d + rest) == |d|
    decreases |d|
  {
    if |d| > 0 {
      assert (d + rest)[1..] == d[1..] + rest;
      DigitRunOfNumber(d[1..], rest);
    } else {
      assert d + rest == rest;
    }
  }

  /** A single-corner update (set_cube_lights, set_cube_light_corners_pattern)
      sets the chosen corner, and each other corner keeps the light the peer
      cached for it, falling back to off when nothing was cached. */
  lemma {:induction false} SingleCornerKeepsOthers(corner: string, light: Json, cached: seq<Option<Json>>)
    requires |cached| == 4 && CornerIndex(corner).Some?
    requires light.JObj? && !Peer.IsZeroTriple(TypedValues.GetPy(light, "value"))
    ensures var args := CornerArgs(corner, light);
            Peer.CornerArgsUsable(args)
            && forall i :: 0 <= i < 4 ==>
                 Peer.MergeSlot(Peer.ArgAt(args, i), cached[i])
                 == if i == CornerIndex(corner).value then Some(light)
                    else if cached[i].Some? then cached[i] else Some(OffLight)
  {
    var args := CornerArgs(corner, light);
    assert "value"[0] != "__cozmo_type"[0];
    assert TypedValues.GetPy(OffLight, "value") == RgbJson(Off);
    assert Peer.IsZeroTriple(RgbJson(Off));
  }

  /** A colour the client picks by name reaches the SDK as that colour. */
  lemma NamedColourConverts(color: string)
    ensures TypedValues.ConvertTypedValue(ConvertColorToLight(color))
            == TypedValues.ColorLight(PresetOr(color, Blue))
  {
    PresetsAreColours(color);
    TypedValues.RgbLightConverts(PresetOr(color, Blue));
  }
}
