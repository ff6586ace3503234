/**
 * The client's connection lifecycle (extension.js, `_connect`, `onopen`,
 * `onclose`) as transitions over the connection fields. Every socket the
 * client ever created keeps its own readyState, because each socket keeps
 * its own event handlers, which all write the same `ws` and `connecting`
 * fields of the one session object. Timers are explicit: a scheduled
 * callback sits in `timers` until the environment fires it.
 */
module Connection {
  import opened Wrappers
  import opened JsonValues

  /** A browser WebSocket's readyState. */
  datatype ReadyState = Connecting | Open | Closing | Closed

  /** A socket that can still deliver traffic or become open. */
  predicate Live(r: ReadyState) { r == Connecting || r == Open }

  /** The callbacks the client schedules with setTimeout. */
  datatype TimerEvent =
    | RetryConnect                     // `new WebSocket` threw: clear `connecting`, connect again
    | Reconnect                        // a socket closed: connect again
    | Resend(payload: Json)            // `_sendWithRetry`'s single re-send
    | CallExpiry(id: string, h: nat)   // `_awaitCallResult`'s deadline for call `h`
    | StateExpiry(h: nat)              // `_requestState`'s deadline for read `h`

  datatype Timer = Timer(event: TimerEvent, delayMs: int)

  const ReconnectDelayMs: int := 2000
  const ResendDelayMs: int := 500

  /** The connection fields: every socket created so far (by handle), `ws`,
      `connecting` and the pending timers. */
  datatype Link = Link(sockets: seq<ReadyState>, ws: Option<nat>, connecting: bool, timers: seq<Timer>)

  const Initial := Link([], None, false, [])

  /** `this.ws && this.ws.readyState === WebSocket.OPEN`. */
  predicate IsOpen(l: Link)
  {
    l.ws.Some? && l.ws.value < |l.sockets| && l.sockets[l.ws.value] == Open
  }

  /** Structure every reachable link has. `createFails` says whether
      `new WebSocket(url)` throws; the URL is a constant, so it throws always
      or never. */
  predicate WellFormed(l: Link, createFails: bool)
  {
    && (l.ws.Some? ==> l.ws.value < |l.sockets|)
    && (createFails ==> l.sockets == [] && l.ws == None)
    && (forall t :: t in l.timers && t.event == RetryConnect ==> createFails)
  }

  /** The invariant the connect guard is there for: at most one live socket,
      and it is `ws`; while it is still connecting, `connecting` is set. */
  predicate SingleSocket(l: Link)
  {
    && (l.ws.Some? ==> l.ws.value < |l.sockets|)
    && (forall s :: 0 <= s < |l.sockets| && Live(l.sockets[s]) ==> l.ws == Some(s))
    && (l.ws.Some? && l.sockets[l.ws.value] == Connecting ==> l.connecting)
  }

  function AddTimer(l: Link, t: Timer): Link
  {
    l.(timers := l.timers + [t])
  }

  function RemoveAt<T>(s: seq<T>, k: nat): (r: seq<T>)
    requires k < |s|
    ensures |r| == |s| - 1
    ensures forall x :: x in r ==> x in s
    ensures forall x :: x in s && x != s[k] ==> x in r
  {
    s[..k] + s[k + 1..]
  }

  /** `_connect()`: nothing while connecting or open; otherwise set
      `connecting` and create a socket, or, when creation throws, schedule a
      retry in 2000 ms that clears `connecting` first. */
  function ConnectNext(l: Link, createFails: bool): (r: Link)
  {
    if l.connecting || IsOpen(l) then l
    else if createFails then AddTimer(l.(connecting := true), Timer(RetryConnect, ReconnectDelayMs))
    else l.(sockets := l.sockets + [Connecting], ws := Some(|l.sockets|), connecting := true)
  }

  /** The duplicate-connect guard: connecting while a connect is in flight or
      the socket is open changes nothing, so connect is idempotent, and an
      attempt that goes ahead creates at most one socket. */
  lemma ConnectGuard(l: Link, createFails: bool)
    ensures l.connecting || IsOpen(l) ==> ConnectNext(l, createFails) == l
    ensures ConnectNext(ConnectNext(l, createFails), createFails) == ConnectNext(l, createFails)
    ensures ConnectNext(l, createFails).connecting || IsOpen(l)
    ensures |l.sockets| <= |ConnectNext(l, createFails).sockets| <= |l.sockets| + 1
  {
  }

  /** `onopen` of socket `s`. */
  function OpenNext(l: Link, s: nat): Link
    requires s < |l.sockets|
  {
    l.(sockets := l.sockets[s := Open], connecting := false)
  }

  /** The peer started the closing handshake on socket `s`. */
  function ClosingNext(l: Link, s: nat): Link
    requires s < |l.sockets|
  {
    l.(sockets := l.sockets[s := Closing])
  }

  /** `onclose` of socket `s` as written: clear `ws` and `connecting` and
      schedule a reconnect, whichever socket `ws` refers to by now. */
  function CloseNextAsWritten(l: Link, s: nat): Link
    requires s < |l.sockets|
  {
    AddTimer(l.(sockets := l.sockets[s := Closed], ws := None, connecting := false), Timer(Reconnect, ReconnectDelayMs))
  }

  /** `onclose` of socket `s` when it only acts for the current socket: a
      superseded socket's close is recorded and nothing else. */
  function CloseNext(l: Link, s: nat): Link
    requires s < |l.sockets|
  {
    if l.ws == Some(s) then CloseNextAsWritten(l, s) else l.(sockets := l.sockets[s := Closed])
  }

  /** For the current socket the corrected handler is the written one: it
      clears `ws` and `connecting`. */
  lemma CloseNextCurrent(l: Link, s: nat)
    requires s < |l.sockets| && l.ws == Some(s)
    ensures CloseNext(l, s) == CloseNextAsWritten(l, s)
    ensures CloseNext(l, s).ws.None? && !CloseNext(l, s).connecting
  {
  }

  // ---------------------------------------------------------------------------
  // Every transition keeps the structure

  lemma {:induction false} TransitionsWellFormed(l: Link, createFails: bool, s: nat, k: nat)
    requires WellFormed(l, createFails)
    ensures WellFormed(ConnectNext(l, createFails), createFails)
    ensures s < |l.sockets| ==> WellFormed(OpenNext(l, s), createFails)
    ensures s < |l.sockets| ==> WellFormed(ClosingNext(l, s), createFails)
    ensures s < |l.sockets| ==> WellFormed(CloseNext(l, s), createFails)
    ensures s < |l.sockets| ==> WellFormed(CloseNextAsWritten(l, s), createFails)
    ensures k < |l.timers| ==> WellFormed(l.(timers := RemoveAt(l.timers, k)), createFails)
  {
    if k < |l.timers| {
      var r := RemoveAt(l.timers, k);
      assert forall t :: t in r ==> t in l.timers;
    }
  }

  // ---------------------------------------------------------------------------
  // The single-socket invariant

  lemma {:induction false} ConnectKeepsSingleSocket(l: Link, createFails: bool)
    requires WellFormed(l, createFails) && SingleSocket(l)
    ensures SingleSocket(ConnectNext(l, createFails))
  {
    if !(l.connecting || IsOpen(l)) && !createFails {
      var r := ConnectNext(l, createFails);
      assert forall s :: 0 <= s < |l.sockets| ==> r.sockets[s] == l.sockets[s];
    }
  }

  lemma {:induction false} OpenKeepsSingleSocket(l: Link, s: nat)
    requires SingleSocket(l) && s < |l.sockets| && l.sockets[s] == Connecting
    ensures SingleSocket(OpenNext(l, s))
  {
  }

  lemma {:induction false} ClosingKeepsSingleSocket(l: Link, s: nat)
    requires SingleSocket(l) && s < |l.sockets| && l.sockets[s] == Open
    ensures SingleSocket(ClosingNext(l, s))
  {
  }

  lemma {:induction false} CloseKeepsSingleSocket(l: Link, s: nat)
    requires SingleSocket(l) && s < |l.sockets|
    ensures SingleSocket(CloseNext(l, s))
  {
    var r := CloseNext(l, s);
    if l.ws == Some(s) {
      assert forall t :: 0 <= t < |r.sockets| && t != s ==> r.sockets[t] == l.sockets[t];
    }
  }

  lemma {:induction false} RemoveTimerKeepsSingleSocket(l: Link, k: nat)
    requires SingleSocket(l) && k < |l.timers|
    ensures SingleSocket(l.(timers := RemoveAt(l.timers, k)))
  {
  }

  /** The retry after a failed creation clears `connecting` and connects again;
      with creation failing there are no sockets to duplicate. */
  lemma {:induction false} RetryKeepsSingleSocket(l: Link, createFails: bool)
    requires WellFormed(l, createFails) && SingleSocket(l) && createFails
    ensures SingleSocket(ConnectNext(l.(connecting := false), createFails))
  {
  }

  /** A session that starts, opens, sees the peer begin to close, sends (which
      connects a second socket because the first is no longer open), and then
      receives the first socket's close: the written handler clears `ws`
      although it refers to the second socket, and the reconnect it schedules
      creates a third while the second is still connecting. */
  lemma CloseRaceAsWritten()
    ensures var l1 := ConnectNext(Initial, false);
            var l2 := OpenNext(l1, 0);
            var l3 := ClosingNext(l2, 0);
            var l4 := ConnectNext(l3, false);
            var l5 := CloseNextAsWritten(l4, 0);
            var l6 := ConnectNext(l5, false);
            SingleSocket(l4) && !SingleSocket(l6)
            && l6.sockets == [Closed, Connecting, Connecting] && l6.ws == Some(2)
  {
    var l6 := ConnectNext(CloseNextAsWritten(ConnectNext(ClosingNext(OpenNext(ConnectNext(Initial, false), 0), 0), false), 0), false);
    assert Live(l6.sockets[1]) && l6.ws != Some(1);
  }

  /** The same events with the corrected handler leave one live socket. */
  lemma CloseRaceCorrected()
    ensures var l1 := ConnectNext(Initial, false);
            var l2 := OpenNext(l1, 0);
            var l3 := ClosingNext(l2, 0);
            var l4 := ConnectNext(l3, false);
            var l5 := CloseNext(l4, 0);
            var l6 := ConnectNext(l5, false);
            SingleSocket(l6) && l6.sockets == [Closed, Connecting] && l6.ws == Some(1)
  {
  }
}
