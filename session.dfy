/**
 * The browser-side session object (extension.js, class `Cozmo`): the
 * connection fields, the table of callbacks waiting for `call_result`
 * replies, the queue of callbacks waiting for a state snapshot, the cached
 * snapshot, the backpack light memory and the camera overlay.
 *
 * Promises are modelled by the records they settle: `calls[h]` is the
 * promise `_awaitCallResult` returned for call `h`, `stateReads[h]` the one
 * `_requestState` returned for read `h`. A callback registered in
 * `callResolvers` or `stateWaiters` is named by that handle. The random call
 * id and the current time are parameters; the environment delivers socket
 * events and fires timers by calling the `On...` and `Fire...` methods.
 */
module Session {
  import opened Wrappers
  import opened JsonValues
  import opened Framing
  import opened Commands
  import opened Connection

  /** A promise's state. */
  datatype Outcome = Waiting | Settled(value: Json)

  datatype CallRecord = CallRecord(id: string, timeoutMs: int, outcome: Outcome)
  datatype StateRead = StateRead(timeoutMs: int, outcome: Outcome)

  /** What a block returns: a value at once, or the handle of a promise. */
  datatype Reply = Now(value: Json) | Later(h: nat)

  /** The snapshot a state read falls back to when no push arrives in time. */
  function DefaultSnapshot(): (r: Json)
    ensures JsTruthy(Some(r))
  {
    JObj([Member("pose", JObj([Member("x", JNum(0.0)), Member("y", JNum(0.0)), Member("angle", JNum(0.0))])),
          Member("head", JNum(0.0)), Member("lift", JNum(0.0)), Member("battery", JNum(0.0)),
          Member("cube_visible", JBool(false)), Member("faces", JArr([]))])
  }

  /** The `call` envelope `_sendCommand` builds, the id attached as
      `__call_id` in the keyword arguments. */
  function CallPayload(c: Command, id: string): Json
  {
    JObj([Member("cmd", JStr("call")),
          Member("args", JArr([JStr(c.name), JArr(c.args), JObj([Member("__call_id", JStr(id))]), JBool(c.shouldAwait)]))])
  }

  /** The connection after `_sendWithRetry(payload, 500)`: unchanged when the
      socket is open, otherwise a connect attempt and one pending re-send. */
  function AfterSendWithRetry(l: Link, createFails: bool, payload: Json): Link
  {
    if IsOpen(l) then l else AddTimer(ConnectNext(l, createFails), Timer(Resend(payload), ResendDelayMs))
  }

  /** Every resolver names the waiting call with its id, every waiting call
      has its resolver and its deadline pending, every call carries an id
      that was drawn and is not empty, and every deadline names its call. */
  ghost predicate CallsOk(calls: seq<CallRecord>, resolvers: map<string, nat>, timers: seq<Timer>, issued: set<string>)
  {
    && (forall id :: id in resolvers ==>
          resolvers[id] < |calls| && calls[resolvers[id]].id == id
          && calls[resolvers[id]].outcome.Waiting?)
    && (forall h :: 0 <= h < |calls| && calls[h].outcome.Waiting? ==>
          calls[h].id in resolvers && resolvers[calls[h].id] == h
          && Timer(CallExpiry(calls[h].id, h), calls[h].timeoutMs) in timers)
    && (forall h :: 0 <= h < |calls| ==> calls[h].id in issued && calls[h].id != "")
    && (forall t :: t in timers && t.event.CallExpiry? ==>
          t.event.h < |calls| && calls[t.event.h].id == t.event.id)
  }

  /** A fired deadline settles its call to false when it is still waiting
      and drops its resolver; the call invariants survive. */
  lemma ExpiryKeepsCallsOk(calls: seq<CallRecord>, resolvers: map<string, nat>, timers: seq<Timer>,
                           issued: set<string>, k: nat)
    requires CallsOk(calls, resolvers, timers, issued) && k < |timers| && timers[k].event.CallExpiry?
    ensures var e := timers[k].event;
            var rest := RemoveAt(timers, k);
            && e.h < |calls|
            && (calls[e.h].outcome.Waiting? ==>
                  CallsOk(calls[e.h := calls[e.h].(outcome := Settled(JBool(false)))], resolvers - {e.id}, rest, issued))
            && (calls[e.h].outcome.Settled? ==> CallsOk(calls, resolvers, rest, issued))
  {
    var e := timers[k].event;
    var fired := timers[k];
    var rest := RemoveAt(timers, k);
    forall h | 0 <= h < |calls| && calls[h].outcome.Waiting? && h != e.h
      ensures Timer(CallExpiry(calls[h].id, h), calls[h].timeoutMs) in rest
    {
      assert Timer(CallExpiry(calls[h].id, h), calls[h].timeoutMs) != fired;
    }
    if calls[e.h].outcome.Waiting? {
      assert calls[e.h].id == e.id && resolvers[e.id] == e.h;
    }
  }

  /** Every waiting read is queued and has its expiry timer pending; once a
      snapshot is cached nothing is queued. */
  ghost predicate ReadsOk(rs: seq<StateRead>, waiters: seq<nat>, timers: seq<Timer>, lastState: Option<Json>)
  {
    && (forall i :: 0 <= i < |waiters| ==> waiters[i] < |rs|)
    && (forall h :: 0 <= h < |rs| && rs[h].outcome.Waiting? ==>
          h in waiters && Timer(StateExpiry(h), rs[h].timeoutMs) in timers)
    && (forall t :: t in timers && t.event.StateExpiry? ==> t.event.h < |rs|)
    && (lastState.Some? ==> JsTruthy(lastState) && waiters == [])
  }

  /** Dropping a timer that is no read's deadline keeps the read invariants. */
  lemma DropKeepsReadsOk(rs: seq<StateRead>, waiters: seq<nat>, timers: seq<Timer>, lastState: Option<Json>, k: nat)
    requires ReadsOk(rs, waiters, timers, lastState) && k < |timers| && !timers[k].event.StateExpiry?
    ensures ReadsOk(rs, waiters, RemoveAt(timers, k), lastState)
  {
    var rest := RemoveAt(timers, k);
    forall h | 0 <= h < |rs| && rs[h].outcome.Waiting?
      ensures Timer(StateExpiry(h), rs[h].timeoutMs) in rest
    {
      assert Timer(StateExpiry(h), rs[h].timeoutMs) != timers[k];
    }
  }

  const GetStatePayload: Json := JObj([Member("cmd", JStr("get_state")), Member("args", JArr([]))])

  /** The state snapshot a text message pushes, if any: `data && data.state`. */
  function PushedState(msg: Option<Json>): (r: Option<Json>)
    ensures r.Some? ==> JsTruthy(r)
  {
    if msg.Some? && JsTruthy(msg) && JsTruthy(Get(msg.value, "state")) then Get(msg.value, "state") else None
  }

  /** For a `call_result` message that is not a state push: the correlation
      key (`call_id`, then `callId`, then `id` of `data || {}`, as a string)
      and the data the waiting promise resolves with. */
  function CallResult(msg: Option<Json>): (r: Option<(string, Json)>)
    ensures r.Some? ==> PushedState(msg).None? && JsTruthy(Some(r.value.1))
  {
    if msg.None? || !JsTruthy(msg) || PushedState(msg).Some? then None
    else if Get(msg.value, "event") != Some(JStr("call_result")) then None
    else
      var d := JsOr(Get(msg.value, "data"), Some(JObj([]))).value;
      var key := JsOr(JsOr(Get(d, "call_id"), Get(d, "callId")), Get(d, "id"));
      if JsTruthy(key) then Some((JsString(key.value), JsOr(Some(d), Some(JBool(true))).value)) else None
  }

  class Cozmo {
    const createFails: bool
    var sockets: seq<ReadyState>
    var ws: Option<nat>
    var connecting: bool
    var timers: seq<Timer>
    /** Payloads written to an open socket, in order. */
    var sent: seq<Json>
    var callResolvers: map<string, nat>
    var calls: seq<CallRecord>
    var stateWaiters: seq<nat>
    var stateReads: seq<StateRead>
    var backpack: array<Slot>
    var lastState: Option<Json>
    var lastStateTs: int
    var overlayReady: bool
    var shownFrame: Option<seq<Byte>>
    /** Every call id drawn so far. */
    ghost var issued: set<string>
    /** Every `call` payload handed to the transport, sent or not. */
    ghost var dispatched: seq<Json>
    /** Each state waiter invoked, with the length of the waiter queue at that moment. */
    ghost var waiterLog: seq<(nat, nat)>

    function Conn(): Link
      reads this`sockets, this`ws, this`connecting, this`timers
    {
      Link(sockets, ws, connecting, timers)
    }

    ghost predicate LinkValid()
      reads this`sockets, this`ws, this`connecting, this`timers
    {
      WellFormed(Conn(), createFails) && SingleSocket(Conn())
    }

    /** Every registered resolver belongs to a waiting call with that id, and
        every waiting call is registered and has its expiry timer pending. */
    ghost predicate CallsValid()
      reads this`calls, this`callResolvers, this`timers, this`issued
    {
      CallsOk(calls, callResolvers, timers, issued)
    }

    /** Every waiting read is queued and has its expiry timer pending; once a
        snapshot is cached nothing is queued. */
    ghost predicate ReadsValid()
      reads this`stateReads, this`stateWaiters, this`timers, this`lastState
    {
      ReadsOk(stateReads, stateWaiters, timers, lastState)
    }

    ghost predicate Valid()
      reads this
    {
      backpack.Length == 5 && LinkValid() && CallsValid() && ReadsValid()
    }

    /** A settled promise keeps its value: no promise resolves twice. */
    twostate predicate SettledStay()
      reads this`calls, this`stateReads
    {
      && |old(calls)| <= |calls| && |old(stateReads)| <= |stateReads|
      && (forall h :: 0 <= h < |old(calls)| && old(calls[h].outcome).Settled? ==> calls[h] == old(calls[h]))
      && (forall h :: 0 <= h < |old(stateReads)| && old(stateReads[h].outcome).Settled? ==> stateReads[h] == old(stateReads[h]))
    }

    /** Everything `_sendCommand(c)` with call id `id` does: the id is drawn,
        the `call` envelope goes out now when the socket is open and is
        otherwise re-sent once later (after a connect attempt); an awaited
        call with a non-empty id gets a waiting record, its resolver and its
        deadline and replies with that record's handle, any other call
        replies at once (true when not awaited, false for an empty id). */
    twostate predicate Commanded(c: Command, id: string, r: Reply)
      reads this`sockets, this`ws, this`connecting, this`timers, this`sent,
            this`calls, this`callResolvers, this`issued, this`dispatched
    {
      var payload := CallPayload(c, id);
      var awaited := c.shouldAwait && id != "";
      var link := AfterSendWithRetry(old(Conn()), createFails, payload);
      && issued == old(issued) + {id}
      && dispatched == old(dispatched) + [payload]
      && sent == (if IsOpen(old(Conn())) then old(sent) + [payload] else old(sent))
      && Conn() == (if awaited then AddTimer(link, Timer(CallExpiry(id, |old(calls)|), c.timeoutMs)) else link)
      && (awaited ==> && r == Later(|old(calls)|)
                      && calls == old(calls) + [CallRecord(id, c.timeoutMs, Waiting)]
                      && callResolvers == old(callResolvers)[id := |old(calls)|])
      && (!awaited ==> r == Now(JBool(!c.shouldAwait)) && calls == old(calls) && callResolvers == old(callResolvers))
    }

    constructor(createFails: bool)
      ensures Valid()
      ensures Conn() == ConnectNext(Initial, createFails)
      ensures fresh(backpack) && backpack[..] == [InitialSlot, InitialSlot, InitialSlot, InitialSlot, InitialSlot]
      ensures calls == [] && stateReads == [] && sent == [] && callResolvers == map[] && stateWaiters == []
      ensures lastState == None && lastStateTs == 0 && !overlayReady && shownFrame == None
    {
      this.createFails := createFails;
      sockets := [];
      ws := None;
      connecting := false;
      timers := [];
      sent := [];
      callResolvers := map[];
      calls := [];
      stateWaiters := [];
      stateReads := [];
      backpack := new Slot[5](_ => InitialSlot);
      lastState := None;
      lastStateTs := 0;
      overlayReady := false;
      shownFrame := None;
      issued := {};
      dispatched := [];
      waiterLog := [];
      new;
      assert backpack[..] == [InitialSlot, InitialSlot, InitialSlot, InitialSlot, InitialSlot];
      Connect();
    }

    // -------------------------------------------------------------------------
    // Connection

    /** `_connect()`. */
    method Connect()
      requires Valid()
      modifies this`sockets, this`ws, this`connecting, this`timers
      ensures Valid()
      ensures Conn() == ConnectNext(old(Conn()), createFails)
    {
      ghost var before := Conn();
      TransitionsWellFormed(before, createFails, 0, 0);
      ConnectKeepsSingleSocket(before, createFails);
      if connecting || IsOpen(Conn()) {
        return;
      }
      connecting := true;
      if createFails {
        timers := timers + [Timer(RetryConnect, ReconnectDelayMs)];
        return;
      }
      sockets := sockets + [Connecting];
      ws := Some(|sockets| - 1);
    }

    /** `onopen` of socket `s`: the connect attempt is over and the camera
        overlay exists from now on. */
    method OnOpen(s: nat)
      requires Valid() && s < |sockets| && sockets[s] == Connecting
      modifies this`sockets, this`connecting, this`overlayReady
      ensures Valid()
      ensures Conn() == OpenNext(old(Conn()), s) && overlayReady
    {
      TransitionsWellFormed(Conn(), createFails, s, 0);
      OpenKeepsSingleSocket(Conn(), s);
      sockets := sockets[s := Open];
      connecting := false;
      overlayReady := true;
    }

    /** The peer began the closing handshake on socket `s`. */
    method OnPeerClosing(s: nat)
      requires Valid() && s < |sockets| && sockets[s] == Open
      modifies this`sockets
      ensures Valid()
      ensures Conn() == ClosingNext(old(Conn()), s)
    {
      TransitionsWellFormed(Conn(), createFails, s, 0);
      ClosingKeepsSingleSocket(Conn(), s);
      sockets := sockets[s := Closing];
    }

    /** `onclose` of socket `s`, acting only when `s` is still the current
        socket (see `CloseNextAsWritten` for the handler as written). */
    method OnClose(s: nat)
      requires Valid() && s < |sockets| && sockets[s] != Closed
      modifies this`sockets, this`ws, this`connecting, this`timers
      ensures Valid()
      ensures Conn() == CloseNext(old(Conn()), s)
    {
      TransitionsWellFormed(Conn(), createFails, s, 0);
      CloseKeepsSingleSocket(Conn(), s);
      ghost var next := CloseNext(Conn(), s);
      if ws == Some(s) {
        sockets := sockets[s := Closed];
        ws := None;
        connecting := false;
        timers := timers + [Timer(Reconnect, ReconnectDelayMs)];
      } else {
        sockets := sockets[s := Closed];
      }
      assert Conn() == next;
    }

    /** `_send(payload)`: write to the socket when it is open, otherwise
        start connecting and report failure. */
    method Send(payload: Json) returns (ok: bool)
      requires Valid()
      modifies this`sockets, this`ws, this`connecting, this`timers, this`sent
      ensures Valid()
      ensures ok == IsOpen(old(Conn()))
      ensures ok ==> sent == old(sent) + [payload] && Conn() == old(Conn())
      ensures !ok ==> sent == old(sent) && Conn() == ConnectNext(old(Conn()), createFails)
    {
      if IsOpen(Conn()) {
        sent := sent + [payload];
        return true;
      }
      Connect();
      return false;
    }

    /** `_sendWithRetry(payload, delayMs)`: one send now and, only when it
        failed, one more attempt after `delayMs`. */
    method SendWithRetry(payload: Json, delayMs: int) returns (ok: bool)
      requires Valid()
      modifies this`sockets, this`ws, this`connecting, this`timers, this`sent
      ensures Valid()
      ensures ok == IsOpen(old(Conn()))
      ensures ok ==> sent == old(sent) + [payload] && Conn() == old(Conn())
      ensures !ok ==> sent == old(sent)
                      && Conn() == AddTimer(ConnectNext(old(Conn()), createFails), Timer(Resend(payload), delayMs))
    {
      ok := Send(payload);
      if !ok {
        timers := timers + [Timer(Resend(payload), delayMs)];
      }
    }

    // -------------------------------------------------------------------------
    // Timers

    /** The retry after a failed socket creation: clear `connecting`, connect. */
    method FireRetryConnect(k: nat)
      requires Valid() && k < |timers| && timers[k].event == RetryConnect
      modifies this`sockets, this`ws, this`connecting, this`timers
      ensures Valid()
      ensures Conn() == ConnectNext(old(Conn()).(timers := RemoveAt(old(timers), k), connecting := false), createFails)
    {
      TransitionsWellFormed(Conn(), createFails, 0, k);
      timers := RemoveAt(timers, k);
      connecting := false;
      Connect();
    }

    /** The reconnect a close scheduled. */
    method FireReconnect(k: nat)
      requires Valid() && k < |timers| && timers[k].event == Reconnect
      modifies this`sockets, this`ws, this`connecting, this`timers
      ensures Valid()
      ensures Conn() == ConnectNext(old(Conn()).(timers := RemoveAt(old(timers), k)), createFails)
    {
      TransitionsWellFormed(Conn(), createFails, 0, k);
      timers := RemoveAt(timers, k);
      Connect();
    }

    /** The single re-send: a plain `_send`, which schedules no further retry. */
    method FireResend(k: nat) returns (ok: bool)
      requires Valid() && k < |timers| && timers[k].event.Resend?
      modifies this`sockets, this`ws, this`connecting, this`timers, this`sent
      ensures Valid()
      ensures var rest := old(Conn()).(timers := RemoveAt(old(timers), k));
              ok == IsOpen(rest)
              && (ok ==> sent == old(sent) + [old(timers[k].event.payload)] && Conn() == rest)
              && (!ok ==> sent == old(sent) && Conn() == ConnectNext(rest, createFails))
    {
      TransitionsWellFormed(Conn(), createFails, 0, k);
      var payload := timers[k].event.payload;
      timers := RemoveAt(timers, k);
      ok := Send(payload);
    }

    /** A call's deadline: a call still waiting resolves to false and its
        resolver is removed; a call already answered is left alone. */
    method FireCallExpiry(k: nat)
      requires Valid() && k < |timers| && timers[k].event.CallExpiry?
      modifies this`timers, this`calls, this`callResolvers
      ensures Valid() && SettledStay()
      ensures timers == RemoveAt(old(timers), k) && |calls| == |old(calls)|
      ensures var e := old(timers[k].event);
              && (old(calls[e.h].outcome).Waiting? ==>
                    calls == old(calls)[e.h := old(calls[e.h]).(outcome := Settled(JBool(false)))]
                    && callResolvers == old(callResolvers) - {e.id})
              && (old(calls[e.h].outcome).Settled? ==> calls == old(calls) && callResolvers == old(callResolvers))
    {
      var e := timers[k].event;
      TransitionsWellFormed(Conn(), createFails, 0, k);
      ExpiryKeepsCallsOk(calls, callResolvers, timers, issued, k);
      DropKeepsReadsOk(stateReads, stateWaiters, timers, lastState, k);
      var waiting := calls[e.h].outcome.Waiting?;
      timers, calls, callResolvers :=
        RemoveAt(timers, k),
        (if waiting then calls[e.h := calls[e.h].(outcome := Settled(JBool(false)))] else calls),
        (if waiting then callResolvers - {e.id} else callResolvers);
    }

    /** A state read's deadline: a read still waiting resolves to the default
        snapshot. The dead waiter stays queued until the next push. */
    method FireStateExpiry(k: nat)
      requires Valid() && k < |timers| && timers[k].event.StateExpiry?
      modifies this`timers, this`stateReads
      ensures Valid() && SettledStay()
      ensures timers == RemoveAt(old(timers), k) && |stateReads| == |old(stateReads)|
      ensures var h := old(timers[k].event.h);
              && (old(stateReads[h].outcome).Waiting? ==> stateReads == old(stateReads)[h := old(stateReads[h]).(outcome := Settled(DefaultSnapshot()))])
              && (old(stateReads[h].outcome).Settled? ==> stateReads == old(stateReads))
    {
      var h := timers[k].event.h;
      timers := RemoveAt(timers, k);
      if stateReads[h].outcome.Waiting? {
        stateReads := stateReads[h := stateReads[h].(outcome := Settled(DefaultSnapshot()))];
      }
    }

    // -------------------------------------------------------------------------
    // Calls

    /** `_awaitCallResult(callId, timeoutMs)`: an empty id resolves to false at
        once; otherwise register the resolver and the deadline. */
    method AwaitCallResult(id: string, timeoutMs: int) returns (r: Reply)
      requires Valid() && id in issued
      requires forall h :: 0 <= h < |calls| ==> calls[h].id != id
      modifies this`calls, this`callResolvers, this`timers
      ensures Valid() && SettledStay()
      ensures id == "" ==> r == Now(JBool(false)) && calls == old(calls)
                           && callResolvers == old(callResolvers) && timers == old(timers)
      ensures id != "" ==> && r == Later(|old(calls)|)
                           && calls == old(calls) + [CallRecord(id, timeoutMs, Waiting)]
                           && callResolvers == old(callResolvers)[id := |old(calls)|]
                           && timers == old(timers) + [Timer(CallExpiry(id, |old(calls)|), timeoutMs)]
    {
      if id == "" {
        return Now(JBool(false));
      }
      assert id !in callResolvers;
      var h := |calls|;
      calls := calls + [CallRecord(id, timeoutMs, Waiting)];
      callResolvers := callResolvers[id := h];
      timers := timers + [Timer(CallExpiry(id, h), timeoutMs)];
      r := Later(h);
    }

    /** The sending half of `_sendCommand`: take the fresh id and send the
        `call` envelope with one retry. No call is waiting on the id yet. */
    method Dispatch(c: Command, id: string) returns (payload: Json)
      requires Valid() && id !in issued
      modifies this`sockets, this`ws, this`connecting, this`timers, this`sent, this`issued, this`dispatched
      ensures Valid() && id in issued
      ensures payload == CallPayload(c, id)
      ensures forall h :: 0 <= h < |calls| ==> calls[h].id != id
      ensures && issued == old(issued) + {id}
              && dispatched == old(dispatched) + [payload]
              && sent == (if IsOpen(old(Conn())) then old(sent) + [payload] else old(sent))
              && Conn() == AfterSendWithRetry(old(Conn()), createFails, payload)
    {
      issued := issued + {id};
      payload := CallPayload(c, id);
      dispatched := dispatched + [payload];
      assert CallsValid();
      var ok := SendWithRetry(payload, ResendDelayMs);
    }

    /** `_sendCommand`: draw a fresh id, send the `call` envelope with one
        retry, and either await the reply or report success at once. */
    method SendCommand(c: Command, id: string) returns (r: Reply)
      requires Valid() && id !in issued
      modifies this`sockets, this`ws, this`connecting, this`timers, this`sent,
               this`calls, this`callResolvers, this`issued, this`dispatched
      ensures Valid() && SettledStay()
      ensures Commanded(c, id, r)
    {
      var payload := Dispatch(c, id);
      if c.shouldAwait {
        r := AwaitCallResult(id, c.timeoutMs);
      } else {
        r := Now(JBool(true));
      }
    }

    // -------------------------------------------------------------------------
    // State

    /** `_requestState(timeoutMs)`: the cached snapshot when there is one;
        otherwise queue one waiter, send one `get_state` and set a deadline. */
    method RequestState(timeoutMs: int) returns (r: Reply)
      requires Valid()
      modifies this`sockets, this`ws, this`connecting, this`timers, this`sent,
               this`stateReads, this`stateWaiters
      ensures Valid() && SettledStay()
      ensures old(lastState).Some? ==> && r == Now(old(lastState).value) && sent == old(sent)
                                       && Conn() == old(Conn()) && stateReads == old(stateReads)
                                       && stateWaiters == old(stateWaiters)
      ensures old(lastState).None? ==>
                && r == Later(|old(stateReads)|)
                && stateReads == old(stateReads) + [StateRead(timeoutMs, Waiting)]
                && stateWaiters == old(stateWaiters) + [|old(stateReads)|]
                && sent == (if IsOpen(old(Conn())) then old(sent) + [GetStatePayload] else old(sent))
                && Conn() == AddTimer(if IsOpen(old(Conn())) then old(Conn()) else ConnectNext(old(Conn()), createFails),
                                      Timer(StateExpiry(|old(stateReads)|), timeoutMs))
    {
      if lastState.Some? {
        return Now(lastState.value);
      }
      var ok := Send(GetStatePayload);
      r := QueueRead(timeoutMs);
    }

    /** The waiting half of `_requestState`: a new read, its waiter at the end
        of the queue and its deadline. */
    method QueueRead(timeoutMs: int) returns (r: Reply)
      requires Valid() && lastState.None?
      modifies this`timers, this`stateReads, this`stateWaiters
      ensures Valid() && SettledStay()
      ensures r == Later(|old(stateReads)|)
      ensures stateReads == old(stateReads) + [StateRead(timeoutMs, Waiting)]
      ensures stateWaiters == old(stateWaiters) + [|old(stateReads)|]
      ensures timers == old(timers) + [Timer(StateExpiry(|old(stateReads)|), timeoutMs)]
    {
      var h := |stateReads|;
      stateReads := stateReads + [StateRead(timeoutMs, Waiting)];
      stateWaiters := stateWaiters + [h];
      timers := timers + [Timer(StateExpiry(h), timeoutMs)];
      r := Later(h);
    }

    /** A pushed snapshot: cache it with its time, empty the waiter queue, and
        then invoke every waiter that was queued, in order; each resolves its
        read unless the read's deadline already did. */
    method OnStatePush(state: Json, now: int)
      requires Valid() && JsTruthy(Some(state))
      modifies this`lastState, this`lastStateTs, this`stateWaiters, this`stateReads, this`waiterLog
      ensures Valid() && SettledStay()
      ensures lastState == Some(state) && lastStateTs == now && stateWaiters == []
      ensures |stateReads| == |old(stateReads)|
      ensures forall h :: 0 <= h < |stateReads| ==>
                stateReads[h] == (if old(stateReads[h].outcome).Waiting?
                                  then old(stateReads[h]).(outcome := Settled(state)) else old(stateReads[h]))
      ensures |waiterLog| == |old(waiterLog)| + |old(stateWaiters)|
      ensures waiterLog[..|old(waiterLog)|] == old(waiterLog)
      ensures forall j :: 0 <= j < |old(stateWaiters)| ==> waiterLog[|old(waiterLog)| + j] == (old(stateWaiters)[j], 0)
    {
      lastState := Some(state);
      lastStateTs := now;
      var waiters := stateWaiters;
      stateWaiters := [];
      var i := 0;
      while i < |waiters|
        invariant 0 <= i <= |waiters|
        invariant stateWaiters == [] && lastState == Some(state) && lastStateTs == now
        invariant |stateReads| == |old(stateReads)|
        invariant forall h :: 0 <= h < |stateReads| ==>
                    stateReads[h] == (if old(stateReads[h].outcome).Waiting? && h in waiters[..i]
                                      then old(stateReads[h]).(outcome := Settled(state)) else old(stateReads[h]))
        invariant |waiterLog| == |old(waiterLog)| + i
        invariant waiterLog[..|old(waiterLog)|] == old(waiterLog)
        invariant forall j :: 0 <= j < i ==> waiterLog[|old(waiterLog)| + j] == (waiters[j], 0)
      {
        var h := waiters[i];
        waiterLog := waiterLog + [(h, |stateWaiters|)];
        if stateReads[h].outcome.Waiting? {
          stateReads := stateReads[h := stateReads[h].(outcome := Settled(state))];
        }
        assert waiters[..i + 1] == waiters[..i] + [h];
        i := i + 1;
      }
      assert waiters[..i] == waiters;
    }

    /** `onmessage` with a text frame on socket `s`; `msg` is what
        `JSON.parse` returned, `None` when it threw (the error is swallowed).
        A state push wins over a `call_result` in the same message. */
    method OnTextMessage(s: nat, msg: Option<Json>, now: int)
      requires Valid() && s < |sockets| && sockets[s] == Open
      modifies this`lastState, this`lastStateTs, this`stateWaiters, this`stateReads, this`waiterLog,
               this`calls, this`callResolvers
      ensures Valid() && SettledStay()
      ensures PushedState(msg).Some? ==>
                && lastState == PushedState(msg) && lastStateTs == now && stateWaiters == []
                && |stateReads| == |old(stateReads)|
                && (forall h :: 0 <= h < |stateReads| && old(stateReads[h].outcome).Waiting? ==>
                      stateReads[h].outcome == Settled(PushedState(msg).value))
                && calls == old(calls) && callResolvers == old(callResolvers)
      ensures PushedState(msg).None? ==> && lastState == old(lastState) && stateReads == old(stateReads)
                                         && stateWaiters == old(stateWaiters)
      ensures CallResult(msg).Some? && CallResult(msg).value.0 in old(callResolvers) ==>
                var (key, d) := CallResult(msg).value;
                && callResolvers == old(callResolvers) - {key}
                && calls == old(calls)[old(callResolvers)[key] := old(calls[callResolvers[key]]).(outcome := Settled(d))]
      ensures CallResult(msg).None? || CallResult(msg).value.0 !in old(callResolvers) ==>
                calls == old(calls) && callResolvers == old(callResolvers)
    {
      var pushed := PushedState(msg);
      if pushed.Some? {
        OnStatePush(pushed.value, now);
        return;
      }
      var result := CallResult(msg);
      if result.Some? && result.value.0 in callResolvers {
        ResolveCall(result.value.0, result.value.1);
      }
    }

    /** A `call_result` whose key has a registered resolver: unregister it and
        resolve that call with the reply's data. */
    method ResolveCall(key: string, d: Json)
      requires Valid() && key in callResolvers
      modifies this`calls, this`callResolvers
      ensures Valid() && SettledStay()
      ensures callResolvers == old(callResolvers) - {key}
      ensures calls == old(calls)[old(callResolvers[key]) := old(calls[callResolvers[key]]).(outcome := Settled(d))]
    {
      var h := callResolvers[key];
      callResolvers := callResolvers - {key};
      calls := calls[h := calls[h].(outcome := Settled(d))];
    }

    /** `onmessage` with a binary frame: a camera frame is shown in the
        overlay once the overlay exists; anything else is ignored. */
    method OnBinaryMessage(s: nat, msg: seq<Byte>, parse: seq<Byte> -> Option<Json>)
      requires Valid() && s < |sockets| && sockets[s] == Open
      modifies this`shownFrame
      ensures Valid()
      ensures var p := CameraPayload(msg, parse);
              shownFrame == if p.Some? && overlayReady then p else old(shownFrame)
    {
      var p := CameraPayload(msg, parse);
      if p.Some? && overlayReady {
        shownFrame := p;
      }
    }

    // -------------------------------------------------------------------------
    // Blocks that drive the lights, the head and the lift

    /** set_backpack_preset: a blank preset does nothing; otherwise every
        slot remembers the preset's colour (off when unknown) and one
        set_all_backpack_lights call carries it. */
    method SetBackpackPreset(preset: string, id: string) returns (r: Option<Reply>)
      requires Valid() && id !in issued
      modifies this`sockets, this`ws, this`connecting, this`timers, this`sent,
               this`calls, this`callResolvers, this`issued, this`dispatched, this`backpack
      ensures Valid() && SettledStay()
      ensures Trim(preset) == "" ==> r == None && unchanged(this)
      ensures Trim(preset) != "" ==>
                var rgb := PresetOr(Trim(preset), Off);
                && r.Some? && fresh(backpack)
                && backpack[..] == [Triple(rgb), Triple(rgb), Triple(rgb), Triple(rgb), Triple(rgb)]
                && Commanded(Command("robot.set_all_backpack_lights", [LightOf(rgb)], false, 10000), id, r.value)
    {
      var p := Trim(preset);
      if p == "" {
        return None;
      }
      var rgb := PresetOr(p, Off);
      backpack := new Slot[5](_ => Triple(rgb));
      assert backpack[..] == [Triple(rgb), Triple(rgb), Triple(rgb), Triple(rgb), Triple(rgb)];
      var reply := SendCommand(Command("robot.set_all_backpack_lights", [LightOf(rgb)], false, 10000), id);
      r := Some(reply);
    }

    /** set_backpack_led: a blank preset does nothing; otherwise the chosen
        slot remembers the preset name and all five slots are re-sent. */
    method SetBackpackLed(index: JsNumber, preset: string, id: string) returns (r: Option<Reply>)
      requires Valid() && id !in issued
      modifies this`sockets, this`ws, this`connecting, this`timers, this`sent,
               this`calls, this`callResolvers, this`issued, this`dispatched, backpack
      ensures Valid() && SettledStay()
      ensures Trim(preset) == "" ==> r == None && unchanged(this) && unchanged(backpack)
      ensures Trim(preset) != "" ==>
                && r.Some?
                && backpack[..] == old(backpack[..])[SlotIndex(index) - 1 := Named(Trim(preset))]
                && Commanded(BackpackCommand(backpack[..]), id, r.value)
    {
      var p := Trim(preset);
      if p == "" {
        return None;
      }
      backpack[SlotIndex(index) - 1] := Named(p);
      var reply := SendCommand(BackpackCommand(backpack[..]), id);
      r := Some(reply);
    }

    /** Five slots that all hold `light`. */
    static function Uniform(light: Slot): (slots: seq<Slot>)
      ensures |slots| == 5 && forall i :: 0 <= i < 5 ==> slots[i] == light
    {
      [light, light, light, light, light]
    }

    /** set_backpack_light_pattern: the chosen slot remembers the pattern and
        all five slots are re-sent, each as the light it stands for. */
    method SetBackpackLightPattern(index: JsNumber, pattern: string, red: JsNumber, green: JsNumber, blue: JsNumber,
                                   on: JsNumber, off: JsNumber, tOn: JsNumber, tOff: JsNumber, id: string)
      returns (r: Reply)
      requires Valid() && id !in issued
      modifies this`sockets, this`ws, this`connecting, this`timers, this`sent,
               this`calls, this`callResolvers, this`issued, this`dispatched, backpack
      ensures Valid() && SettledStay()
      ensures var slots := old(backpack[..])[SlotIndex(index) - 1 := Patterned(MakePattern(pattern, red, green, blue, on, off, tOn, tOff))];
              && backpack[..] == slots
              && Commanded(BackpackCommand(slots), id, r)
    {
      var light := Patterned(MakePattern(pattern, red, green, blue, on, off, tOn, tOff));
      var slots := backpack[..][SlotIndex(index) - 1 := light];
      backpack[SlotIndex(index) - 1] := light;
      assert backpack[..] == slots;
      r := SendCommand(BackpackCommand(slots), id);
    }

    /** set_backpack_preset_pattern: every slot remembers the same pattern and
        all five carry it. */
    method SetBackpackPresetPattern(pattern: string, red: JsNumber, green: JsNumber, blue: JsNumber,
                                    on: JsNumber, off: JsNumber, tOn: JsNumber, tOff: JsNumber, id: string)
      returns (r: Reply)
      requires Valid() && id !in issued
      modifies this`sockets, this`ws, this`connecting, this`timers, this`sent,
               this`calls, this`callResolvers, this`issued, this`dispatched, this`backpack
      ensures Valid() && SettledStay()
      ensures fresh(backpack) && backpack[..] == Uniform(Patterned(MakePattern(pattern, red, green, blue, on, off, tOn, tOff)))
      ensures Commanded(BackpackCommand(Uniform(Patterned(MakePattern(pattern, red, green, blue, on, off, tOn, tOff)))), id, r)
    {
      var light := Patterned(MakePattern(pattern, red, green, blue, on, off, tOn, tOff));
      backpack := new Slot[5](_ => light);
      assert backpack[..] == Uniform(light);
      r := SendCommand(BackpackCommand(Uniform(light)), id);
    }

    /** set_cube_lights: a colour name on one corner or on the whole cube. */
    method SetCubeLights(cubeId: string, corner: string, preset: string, id: string) returns (r: Reply)
      requires Valid() && id !in issued
      modifies this`sockets, this`ws, this`connecting, this`timers, this`sent,
               this`calls, this`callResolvers, this`issued, this`dispatched
      ensures Valid() && SettledStay()
      ensures Commanded(CubeLightsCommand(cubeId, corner, ConvertColorToLight(preset)), id, r)
    {
      r := SendCommand(CubeLightsCommand(cubeId, corner, ConvertColorToLight(preset)), id);
    }

    /** set_cube_lights_preset: a colour name on the whole cube. */
    method SetCubeLightsPreset(cubeId: string, preset: string, id: string) returns (r: Reply)
      requires Valid() && id !in issued
      modifies this`sockets, this`ws, this`connecting, this`timers, this`sent,
               this`calls, this`callResolvers, this`issued, this`dispatched
      ensures Valid() && SettledStay()
      ensures Commanded(CubeLightsCommand(cubeId, "all", ConvertColorToLight(preset)), id, r)
    {
      r := SendCommand(Command(CubePath(cubeId, "set_lights"), [ConvertColorToLight(preset)], false, 10000), id);
    }

    /** set_cube_light_corners_pattern: a pattern on one corner or on the
        whole cube. */
    method SetCubeLightCornersPattern(cubeId: string, corner: string, pattern: string,
                                      red: JsNumber, green: JsNumber, blue: JsNumber,
                                      on: JsNumber, off: JsNumber, tOn: JsNumber, tOff: JsNumber, id: string)
      returns (r: Reply)
      requires Valid() && id !in issued
      modifies this`sockets, this`ws, this`connecting, this`timers, this`sent,
               this`calls, this`callResolvers, this`issued, this`dispatched
      ensures Valid() && SettledStay()
      ensures var light := Wrapper("light", PatternJson(MakePattern(pattern, red, green, blue, on, off, tOn, tOff)));
              Commanded(CubeLightsCommand(cubeId, corner, light), id, r)
    {
      var light := Wrapper("light", PatternJson(MakePattern(pattern, red, green, blue, on, off, tOn, tOff)));
      r := SendCommand(CubeLightsCommand(cubeId, corner, light), id);
    }

    /** set_head_angle: awaited only when AWAIT says so. */
    method SetHeadAngle(percent: JsNumber, duration: JsNumber, inParallel: BoolArg, await: BoolArg, id: string)
      returns (r: Reply)
      requires Valid() && id !in issued
      modifies this`sockets, this`ws, this`connecting, this`timers, this`sent,
               this`calls, this`callResolvers, this`issued, this`dispatched
      ensures Valid() && SettledStay()
      ensures Commanded(HeadAngleCommand(percent, duration, inParallel, await), id, r)
    {
      r := SendCommand(HeadAngleCommand(percent, duration, inParallel, await), id);
    }

    /** set_lift_height: awaited only when AWAIT says so. */
    method SetLiftHeight(height: JsNumber, duration: JsNumber, inParallel: BoolArg, await: BoolArg, id: string)
      returns (r: Reply)
      requires Valid() && id !in issued
      modifies this`sockets, this`ws, this`connecting, this`timers, this`sent,
               this`calls, this`callResolvers, this`issued, this`dispatched
      ensures Valid() && SettledStay()
      ensures Commanded(LiftHeightCommand(height, duration, inParallel, await), id, r)
    {
      r := SendCommand(LiftHeightCommand(height, duration, inParallel, await), id);
    }
  }
}
