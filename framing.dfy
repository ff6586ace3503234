/**
 * Binary frames: the peer sends `utf8(json.dumps({"event": name, "data": data}))`,
 * one line-feed byte, then the raw payload (server.py, _send_binary_event);
 * the client splits a binary message at its first line feed, requires that
 * line feed not to be the first byte, and hands the bytes after it to the
 * camera overlay when the header's event is "camera_frame"
 * (extension.js, the ArrayBuffer branch of onmessage).
 */
module Framing {
  import opened Wrappers
  import opened JsonValues

  type Byte = b: int | 0 <= b < 256

  const LineFeed: Byte := 10

  // ---------------------------------------------------------------------------
  // UTF-8 (str.encode('utf-8'))

  /** The UTF-8 encoding of one Unicode scalar value. */
  function Utf8Char(c: char): (r: seq<Byte>)
    ensures 1 <= |r| <= 4
    ensures c as int < 0x80 ==> r == [c as int]
    ensures c as int >= 0x80 ==> forall i :: 0 <= i < |r| ==> r[i] >= 0x80
  {
    var n := c as int;
    if n < 0x80 then [n]
    else if n < 0x800 then [0xC0 + n / 64, 0x80 + n % 64]
    else if n < 0x1_0000 then [0xE0 + n / 4096, 0x80 + n / 64 % 64, 0x80 + n % 64]
    else [0xF0 + n / 0x4_0000, 0x80 + n / 4096 % 64, 0x80 + n / 64 % 64, 0x80 + n % 64]
  }

  function Utf8(s: string): (r: seq<Byte>)
  {
    if |s| == 0 then [] else Utf8Char(s[0]) + Utf8(s[1..])
  }

  /** A line-feed byte appears in the UTF-8 encoding exactly where a line-feed
      character appears in the text: every byte of a multi-byte sequence is at
      least 0x80. */
  lemma {:induction false} Utf8LineFeed(s: string)
    ensures LineFeed in Utf8(s) <==> '\n' in s
    ensures |s| > 0 ==> |Utf8(s)| > 0
  {
    if |s| > 0 {
      Utf8LineFeed(s[1..]);
      assert Utf8(s) == Utf8Char(s[0]) + Utf8(s[1..]);
      assert s == [s[0]] + s[1..];
      if s[0] as int >= 0x80 {
        assert LineFeed !in Utf8Char(s[0]);
      }
    }
  }

  // ---------------------------------------------------------------------------
  // Peer side: building a frame

  /** The JSON object the peer dumps as a binary frame's header. */
  function Envelope(name: string, data: Option<Json>): Json
  {
    JObj([Member("event", JStr(name)), Member("data", if data.Some? then data.value else JNull)])
  }

  function HeaderBytes(name: string, data: Option<Json>): seq<Byte>
  {
    Utf8(Dumps(Envelope(name, data)))
  }

  /** A header is never empty and never contains a line-feed byte. */
  lemma HeaderHasNoLineFeed(name: string, data: Option<Json>)
    ensures |HeaderBytes(name, data)| > 0
    ensures LineFeed !in HeaderBytes(name, data)
  {
    var text := Dumps(Envelope(name, data));
    DumpsPrintable(Envelope(name, data));
    assert '\n' !in text by {
      forall i | 0 <= i < |text| ensures text[i] != '\n' {
        assert ' ' <= text[i];
      }
    }
    Utf8LineFeed(text);
  }

  /** What _send_binary_event puts on the wire. */
  datatype Outgoing = BinaryMessage(bytes: seq<Byte>) | TextMessage(obj: Json)

  /** With binary data, a header line followed by the data; without, a text
      event whose "data" member is present only when data is. */
  function BinaryEvent(name: string, data: Option<Json>, binary: Option<seq<Byte>>): (r: Outgoing)
    ensures binary.Some? <==> r.BinaryMessage?
  {
    if binary.Some? then BinaryMessage(HeaderBytes(name, data) + [LineFeed] + binary.value)
    else if data.Some? then TextMessage(JObj([Member("event", JStr(name)), Member("data", data.value)]))
    else TextMessage(JObj([Member("event", JStr(name))]))
  }

  // ---------------------------------------------------------------------------
  // Client side: splitting a frame

  /** `bytes.indexOf(b)`: the first index holding `b`, or -1. */
  function IndexOf(bytes: seq<Byte>, b: Byte): (r: int)
    ensures r == -1 <==> b !in bytes
    ensures r != -1 ==> 0 <= r < |bytes| && bytes[r] == b && b !in bytes[..r]
  {
    if |bytes| == 0 then -1
    else if bytes[0] == b then 0
    else
      var k := IndexOf(bytes[1..], b);
      assert bytes[1..][..k + 1] == bytes[1..k + 2] by { }
      if k == -1 then -1 else k + 1
  }

  datatype Split = Split(header: seq<Byte>, payload: seq<Byte>)

  /** The binary branch's split: only when the first line feed is at an index
      greater than zero. */
  function Demux(msg: seq<Byte>): (r: Option<Split>)
    ensures r.Some? ==> msg == r.value.header + [LineFeed] + r.value.payload
                        && |r.value.header| > 0 && LineFeed !in r.value.header
    ensures r.None? <==> LineFeed !in msg || msg[0] == LineFeed
  {
    var i := IndexOf(msg, LineFeed);
    if i > 0 then Some(Split(msg[..i], msg[i + 1..])) else None
  }

  /** Splitting undoes joining, for any non-empty header free of line feeds. */
  lemma DemuxJoin(header: seq<Byte>, payload: seq<Byte>)
    requires |header| > 0 && LineFeed !in header
    ensures Demux(header + [LineFeed] + payload) == Some(Split(header, payload))
  {
    var msg := header + [LineFeed] + payload;
    var i := IndexOf(msg, LineFeed);
    assert msg[|header|] == LineFeed;
    assert msg[..i] == header;
    assert msg[i + 1..] == payload;
  }

  /** The overlay's share of a binary message: the payload, when the header
      parses to an object whose event is "camera_frame". `parse` stands for
      TextDecoder followed by JSON.parse, None meaning it threw. */
  function CameraPayload(msg: seq<Byte>, parse: seq<Byte> -> Option<Json>): (r: Option<seq<Byte>>)
    ensures r.Some? ==> Demux(msg).Some? && r.value == Demux(msg).value.payload
  {
    match Demux(msg)
    case None => None
    case Some(sp) =>
      match parse(sp.header)
      case None => None
      case Some(h) =>
        if JsTruthy(Some(h)) && Get(h, "event") == Some(JStr("camera_frame")) then Some(sp.payload) else None
  }

  /** A camera frame built by the peer reaches the overlay byte for byte, and a
      frame for any other event never does, given a header parser that reads
      back the header json.dumps wrote. */
  lemma FrameRoundTrip(name: string, data: Option<Json>, payload: seq<Byte>, parse: seq<Byte> -> Option<Json>)
    requires parse(HeaderBytes(name, data)) == Some(Envelope(name, data))
    ensures BinaryEvent(name, data, Some(payload)).BinaryMessage?
    ensures var msg := BinaryEvent(name, data, Some(payload)).bytes;
            Demux(msg) == Some(Split(HeaderBytes(name, data), payload))
            && (CameraPayload(msg, parse) == if name == "camera_frame" then Some(payload) else None)
  {
    HeaderHasNoLineFeed(name, data);
    DemuxJoin(HeaderBytes(name, data), payload);
    var ms := Envelope(name, data).members;
    assert ms[..|ms| - 1] == [Member("event", JStr(name))];
    assert "data" != "event" by { assert "data"[0] != "event"[0]; }
    assert Lookup(ms, "event") == Lookup([Member("event", JStr(name))], "event");
    assert Get(Envelope(name, data), "event") == Some(JStr(name));
  }
}
