/**
  The gateway connection's state machine as pure transitions. Socket writes,
  close requests, timers, promise resolutions and emitted events are recorded,
  in order, in an append-only effect log.
 */
module Protocol {
  import opened Wrappers
  import opened Js
  import opened Config

  /** A pending `#waitForOpcode` entry; its promise is identified by its index in the list. */
  datatype Wait = Wait(opcode: int)

  /** The repeating heartbeat timer, identified by the period it was started with. */
  datatype Timer = Timer(period: Value)

  /**
    Where `#onOpen` is: not yet run, suspended on the promise of the waiter at
    index `wait`, or finished.
   */
  datatype Handshake = NotOpened | AwaitingHello(wait: nat) | Done

  datatype Effect =
    | Emit(name: string, payload: Value)
    | SocketSend(frame: Value)
    | SocketClose(code: Value, reason: Value)
    | Resolution(wait: nat, message: Value)
    | StartTimer(timer: Timer)
    | ClearTimer(timer: Timer)
    | Reject(error: string)

  datatype State = State(
    token: Value,
    config: ClientConfig,
    waits: seq<Wait>,
    settled: map<nat, Value>,
    handshake: Handshake,
    interval: Option<Timer>,
    receivedLast: bool,
    lastSequence: Value,
    log: seq<Effect>)

  const EmptyObject: Value := Obj(map[])
  const CloseCode: int := 4000

  /** A freshly constructed client: no waiters, no timer, no acknowledgement, no sequence. */
  function Init(token: Value, config: ClientConfig): State
  {
    State(token, config, [], map[], NotOpened, None, false, Null, [])
  }

  /** Append one effect to the log. */
  function Record(s: State, e: Effect): State
  {
    s.(log := s.log + [e])
  }

  /** The outbound wire object: sequence number and event name are always null. */
  function Envelope(op: Value, d: Value): (frame: Value)
    ensures Get(frame, "op") == op && Get(frame, "d") == d
    ensures Get(frame, "s") == Null && Get(frame, "t") == Null
    ensures frame.Obj? && frame.fields.Keys == {"op", "d", "s", "t"}
  {
    Obj(map["op" := op, "d" := d, "s" := Null, "t" := Null])
  }

  /** `send(opcode, data)`: write the envelope, then emit `gateway.send`. */
  function Send(s: State, op: Value, d: Value): State
  {
    Record(Record(s, SocketSend(Envelope(op, d))), Emit("gateway.send", Obj(map["opcode" := op, "data" := d])))
  }

  /** The arguments `close(code = 4000, reason = null)` passes to the socket. */
  function CloseArgs(code: Value, reason: Value): (args: (Value, Value))
    ensures code == Undefined ==> args.0 == Num(CloseCode)
    ensures code != Undefined ==> args.0 == code
    ensures reason == Undefined ==> args.1 == Null
    ensures reason != Undefined ==> args.1 == reason
  {
    (IfDefined(code, Num(CloseCode)), IfDefined(reason, Null))
  }

  /** `close(code, reason)`: a close request to the socket, nothing else. */
  function Close(s: State, code: Value, reason: Value): State
  {
    var (c, r) := CloseArgs(code, reason);
    Record(s, SocketClose(c, r))
  }

  /** `#waitForOpcode(opcode)`: append a waiter; its promise is the new last index. */
  function WaitForOpcode(s: State, opcode: int): State
  {
    s.(waits := s.waits + [Wait(opcode)])
  }

  /** `#onOpen` up to its `await`: emit `socket.open` and wait for Hello (opcode 10). */
  function OnSocketOpen(s: State): State
    requires s.handshake.NotOpened?
  {
    var s1 := Record(s, Emit("socket.open", EmptyObject));
    WaitForOpcode(s1, 10).(handshake := AwaitingHello(|s1.waits|))
  }

  /** The Identify payload (opcode 2). */
  function IdentifyPayload(token: Value, config: ClientConfig): Value
  {
    Obj(map[
      "token" := token,
      "properties" := Obj(map["os" := Str("windows"), "browser" := Str("custom"), "device" := Str("custom")]),
      "presence" := config.defaultPresence,
      "intents" := config.intents])
  }

  /**
    The rest of `#onOpen`, once the Hello waiter's promise has settled: one
    heartbeat, start the timer at the Hello's interval, Identify, `gateway.open`.
    A Hello whose data is null or undefined makes the property read throw.
   */
  function OnHello(s: State): State
    requires s.handshake.AwaitingHello? && s.handshake.wait in s.settled
  {
    var hello := s.settled[s.handshake.wait];
    var data := Get(hello, "data");
    var s0 := s.(handshake := Done);
    if Nullish(data) then
      Record(s0, Reject("TypeError"))
    else
      AnswerHello(s0, Timer(Get(data, "heartbeat_interval")))
  }

  /** The answer to a Hello with data: heartbeat, start the timer, Identify, `gateway.open`. */
  function AnswerHello(s: State, timer: Timer): State
  {
    var s1 := Send(s, Num(1), s.lastSequence);
    var s2 := Record(s1.(interval := Some(timer)), StartTimer(timer));
    var s3 := Send(s2, Num(2), IdentifyPayload(s2.token, s2.config));
    Record(s3, Emit("gateway.open", EmptyObject))
  }

  /** The timer callback: close when no acknowledgement was seen, then send a heartbeat regardless. */
  function Tick(s: State): State
    requires s.interval.Some?
  {
    var s1 := if !s.receivedLast then Close(s, Undefined, Undefined) else s;
    Send(s1, Num(1), s1.lastSequence)
  }

  /** The normalised inbound message built from a parsed frame. */
  function Normalise(raw: Value): (message: Value)
    ensures Get(message, "opcode") == Get(raw, "op")
    ensures Get(message, "data") == Get(raw, "d")
    ensures Get(message, "sequence") == Get(raw, "s")
    ensures Get(message, "event") == Get(raw, "t")
  {
    Obj(map["opcode" := Get(raw, "op"), "data" := Get(raw, "d"),
            "sequence" := Get(raw, "s"), "event" := Get(raw, "t")])
  }

  /** The waiter at an index is registered for the message's opcode (strict equality). */
  predicate Matches(w: Wait, message: Value)
  {
    Num(w.opcode) == Get(message, "opcode")
  }

  /** Some waiter in the list is registered for the message's opcode. */
  predicate AnyMatch(waits: seq<Wait>, message: Value)
  {
    exists i :: 0 <= i < |waits| && Matches(waits[i], message)
  }

  /**
    The `forEach` over the waiters: resolve the promise of every matching
    waiter, in list order. Resolving an already settled promise does nothing.
    Yields the resolutions that took effect and the settled promises afterwards.
   */
  function ResolveAll(waits: seq<Wait>, message: Value, settled: map<nat, Value>): (r: (seq<Effect>, map<nat, Value>))
  {
    if waits == [] then ([], settled)
    else
      var (effects, done) := ResolveAll(waits[..|waits| - 1], message, settled);
      var k := |waits| - 1;
      if Matches(waits[k], message) && k !in done then
        (effects + [Resolution(k, message)], done[k := message])
      else
        (effects, done)
  }

  /** The opcode dispatch of `#onMessage`, reached only when no waiter matched. */
  function Route(s: State, message: Value): State
  {
    var op := Get(message, "opcode");
    if op == Num(1) then Send(s, Num(1), s.lastSequence)
    else if op == Num(11) then s.(receivedLast := true)
    else
      var s1 := if op == Num(7) then Close(s, Undefined, Undefined) else s;
      var s2 := if op == Num(9) then Close(s1, Undefined, Undefined) else s1;
      if op == Num(0) then
        Record(s2, Emit("gateway.event." + ToString(Get(message, "event")), Get(message, "data")))
      else s2
  }

  /** Emit `gateway.message` and overwrite the last sequence with the message's. */
  function Receive(s: State, message: Value): State
  {
    Record(s, Emit("gateway.message", message)).(lastSequence := Get(message, "sequence"))
  }

  /** Settle the matching waiters' promises and log the resolutions that took effect. */
  function Claim(s: State, message: Value): State
  {
    var (effects, done) := ResolveAll(s.waits, message, s.settled);
    s.(settled := done, log := s.log + effects)
  }

  /**
    `#onMessage` on a parsed frame: normalise, emit `gateway.message`, overwrite
    the last sequence, then either resolve the matching waiters or route by
    opcode. A `null` frame makes the property read throw.
   */
  function OnMessage(s: State, raw: Value): State
  {
    if Nullish(raw) then Record(s, Reject("TypeError"))
    else
      var message := Normalise(raw);
      var s1 := Receive(s, message);
      if AnyMatch(s1.waits, message) then Claim(s1, message) else Route(s1, message)
  }

  /** Clear the heartbeat timer if one is set. */
  function StopHeartbeat(s: State): State
  {
    if s.interval.Some? then Record(s.(interval := None), ClearTimer(s.interval.value))
    else s
  }

  /** `#onClose(code, reason)`. */
  function OnClose(s: State, code: Value, reason: Value): State
  {
    var payload := Obj(map["code" := code, "reason" := reason]);
    Record(StopHeartbeat(Record(s, Emit("gateway.close", payload))), Emit("socket.close", payload))
  }

  /** `#onError(error)`. */
  function OnError(s: State, error: Value): State
  {
    var payload := Obj(map["error" := error]);
    Record(StopHeartbeat(Record(s, Emit("gateway.error", payload))), Emit("socket.error", payload))
  }
}
