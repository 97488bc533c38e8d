/**
  Whole runs of one gateway connection: every sequence of socket events, timer
  ticks, resumed handshakes and caller requests, from construction on.
 */
module Lifecycle {
  import opened Wrappers
  import opened Js
  import opened Config
  import opened Protocol
  import opened Properties

  /** What can happen to a connection, one handler at a time. */
  datatype Event =
    | SocketOpened
    | HelloResumed
    | Frame(raw: Value)
    | TimerFired
    | SocketClosed(code: Value, reason: Value)
    | SocketErrored(error: Value)
    | CallerSend(op: Value, d: Value)
    | CallerClose(code: Value, reason: Value)

  /**
    Whether the event can happen in this state: the socket opens once, the
    handshake resumes once its Hello promise has settled, and only a set timer
    fires.
   */
  predicate Enabled(s: State, e: Event)
  {
    match e
    case SocketOpened => s.handshake.NotOpened?
    case HelloResumed => s.handshake.AwaitingHello? && s.handshake.wait in s.settled
    case TimerFired => s.interval.Some?
    case _ => true
  }

  /** One handler run; an event that cannot happen leaves the state as it is. */
  function Step(s: State, e: Event): State
  {
    if !Enabled(s, e) then s
    else
      match e
      case SocketOpened => OnSocketOpen(s)
      case HelloResumed => OnHello(s)
      case Frame(raw) => OnMessage(s, raw)
      case TimerFired => Tick(s)
      case SocketClosed(code, reason) => OnClose(s, code, reason)
      case SocketErrored(error) => OnError(s, error)
      case CallerSend(op, d) => Send(s, op, d)
      case CallerClose(code, reason) => Close(s, code, reason)
  }

  function Run(s: State, events: seq<Event>): State
    decreases |events|
  {
    if events == [] then s else Run(Step(s, events[0]), events[1..])
  }

  predicate IsStart(e: Effect) { e.StartTimer? }
  predicate IsClear(e: Effect) { e.ClearTimer? }
  predicate IsOpen(e: Effect) { e.Emit? && e.name == "gateway.open" }

  /** How many effects of the log satisfy `p`. */
  function Count(log: seq<Effect>, p: Effect -> bool): nat
  {
    if log == [] then 0 else (if p(log[0]) then 1 else 0) + Count(log[1..], p)
  }

  lemma {:induction false} CountAppend(a: seq<Effect>, b: seq<Effect>, p: Effect -> bool)
    ensures Count(a + b, p) == Count(a, p) + Count(b, p)
  {
    if a != [] {
      assert (a + b)[0] == a[0];
      assert (a + b)[1..] == a[1..] + b;
      CountAppend(a[1..], b, p);
    } else {
      assert a + b == b;
    }
  }

  lemma {:induction false} CountNone(q: seq<Effect>, p: Effect -> bool)
    requires forall i :: 0 <= i < |q| ==> !p(q[i])
    ensures Count(q, p) == 0
  {
    if q != [] {
      CountNone(q[1..], p);
    }
  }

  /** The log counts the same timer starts, timer clears and `gateway.open` emissions as another. */
  predicate SameCounts(a: seq<Effect>, b: seq<Effect>)
  {
    && Count(a, IsStart) == Count(b, IsStart)
    && Count(a, IsClear) == Count(b, IsClear)
    && Count(a, IsOpen) == Count(b, IsOpen)
  }

  lemma RecordCounts(s: State, e: Effect)
    ensures Count(Record(s, e).log, IsStart) == Count(s.log, IsStart) + (if IsStart(e) then 1 else 0)
    ensures Count(Record(s, e).log, IsClear) == Count(s.log, IsClear) + (if IsClear(e) then 1 else 0)
    ensures Count(Record(s, e).log, IsOpen) == Count(s.log, IsOpen) + (if IsOpen(e) then 1 else 0)
  {
    CountAppend(s.log, [e], IsStart);
    CountAppend(s.log, [e], IsClear);
    CountAppend(s.log, [e], IsOpen);
  }

  lemma SendCounts(s: State, op: Value, d: Value)
    ensures SameCounts(Send(s, op, d).log, s.log)
  {
    var s1 := Record(s, SocketSend(Envelope(op, d)));
    RecordCounts(s, SocketSend(Envelope(op, d)));
    RecordCounts(s1, Emit("gateway.send", Obj(map["opcode" := op, "data" := d])));
  }

  lemma CloseCounts(s: State, code: Value, reason: Value)
    ensures SameCounts(Close(s, code, reason).log, s.log)
  {
    var (c, r) := CloseArgs(code, reason);
    RecordCounts(s, SocketClose(c, r));
  }

  /** Each settled promise holds a message with its waiter's opcode. */
  predicate SettledOk(s: State)
  {
    forall k :: k in s.settled ==> k < |s.waits| && Matches(s.waits[k], s.settled[k])
  }

  /** A suspended handshake waits on a Hello waiter; a timer is set only once the handshake ran. */
  predicate HandshakeOk(s: State)
  {
    && (s.handshake.AwaitingHello? ==>
          s.handshake.wait < |s.waits| && s.waits[s.handshake.wait].opcode == 10)
    && (s.interval.Some? ==> s.handshake.Done?)
  }

  /**
    Every started timer is either still set or was cleared once; at most one
    timer is ever started and `gateway.open` is emitted at most once, neither
    before the handshake resumes.
   */
  predicate CountsOk(s: State)
  {
    && Count(s.log, IsStart) == Count(s.log, IsClear) + (if s.interval.Some? then 1 else 0)
    && (s.handshake.Done? ==> Count(s.log, IsStart) <= 1 && Count(s.log, IsOpen) <= 1)
    && (!s.handshake.Done? ==> Count(s.log, IsStart) == 0 && Count(s.log, IsOpen) == 0)
  }

  /** The connection invariant. */
  predicate Inv(s: State)
  {
    SettledOk(s) && HandshakeOk(s) && CountsOk(s)
  }

  lemma InitInv(token: Value, config: ClientConfig)
    ensures Inv(Init(token, config))
  {
  }

  /** The promises `ResolveAll` settles hold a message of their waiter's opcode. */
  lemma SettledMatch(waits: seq<Wait>, message: Value, settled: map<nat, Value>)
    requires forall k :: k in settled ==> k < |waits| && Matches(waits[k], settled[k])
    ensures var done := ResolveAll(waits, message, settled).1;
      forall k :: k in done ==> k < |waits| && Matches(waits[k], done[k])
  {
    ResolveAllSettles(waits, message, settled);
  }

  lemma RouteCounts(s: State, message: Value)
    ensures SameCounts(Route(s, message).log, s.log)
  {
    var op := Get(message, "opcode");
    if op == Num(1) {
      SendCounts(s, Num(1), s.lastSequence);
    } else if op != Num(11) {
      var s1 := if op == Num(7) then Close(s, Undefined, Undefined) else s;
      var s2 := if op == Num(9) then Close(s1, Undefined, Undefined) else s1;
      CloseCounts(s, Undefined, Undefined);
      CloseCounts(s1, Undefined, Undefined);
      var name := "gateway.event." + ToString(Get(message, "event"));
      assert name != "gateway.open" by {
        assert |name| >= 14;
      }
      RecordCounts(s2, Emit(name, Get(message, "data")));
    }
  }

  lemma ReceiveKeepsInv(s: State, message: Value)
    requires Inv(s)
    ensures Inv(Receive(s, message))
    ensures SameCounts(Receive(s, message).log, s.log)
  {
    RecordCounts(s, Emit("gateway.message", message));
  }

  /** Resolving waiters settles only promises of matching waiters and logs only resolutions. */
  lemma ClaimKeepsInv(s: State, message: Value)
    requires Inv(s)
    ensures Inv(Claim(s, message))
    ensures SameCounts(Claim(s, message).log, s.log)
  {
    var (effects, done) := ResolveAll(s.waits, message, s.settled);
    var t := Claim(s, message);
    assert t == s.(settled := done, log := s.log + effects);
    ResolveAllEffects(s.waits, message, s.settled);
    SettledMatch(s.waits, message, s.settled);
    CountAppend(s.log, effects, IsStart);
    CountAppend(s.log, effects, IsClear);
    CountAppend(s.log, effects, IsOpen);
    CountNone(effects, IsStart);
    CountNone(effects, IsClear);
    CountNone(effects, IsOpen);
    assert SettledOk(t);
    assert CountsOk(t);
  }

  lemma RouteKeepsInv(s: State, message: Value)
    requires Inv(s)
    ensures Inv(Route(s, message))
    ensures SameCounts(Route(s, message).log, s.log)
  {
    RouteCounts(s, message);
    RouteFrame(s, message);
  }

  /** `#onMessage` keeps the invariant. */
  lemma MessageKeepsInv(s: State, raw: Value)
    requires Inv(s)
    ensures Inv(OnMessage(s, raw))
    ensures SameCounts(OnMessage(s, raw).log, s.log)
  {
    if Nullish(raw) {
      RecordCounts(s, Reject("TypeError"));
    } else {
      var message := Normalise(raw);
      var s1 := Receive(s, message);
      ReceiveKeepsInv(s, message);
      if AnyMatch(s1.waits, message) {
        ClaimKeepsInv(s1, message);
      } else {
        RouteKeepsInv(s1, message);
      }
    }
  }

  /** Clearing the timer moves one started timer from "set" to "cleared". */
  lemma StopCounts(s: State)
    ensures var t := StopHeartbeat(s);
      && Count(t.log, IsStart) == Count(s.log, IsStart)
      && Count(t.log, IsOpen) == Count(s.log, IsOpen)
      && Count(t.log, IsClear) == Count(s.log, IsClear) + (if s.interval.Some? then 1 else 0)
      && t.interval.None? && t.(log := s.log, interval := s.interval) == s
  {
    if s.interval.Some? {
      RecordCounts(s.(interval := None), ClearTimer(s.interval.value));
    }
  }

  lemma CloseKeepsInv(s: State, code: Value, reason: Value)
    requires Inv(s)
    ensures Inv(OnClose(s, code, reason))
  {
    var payload := Obj(map["code" := code, "reason" := reason]);
    var s1 := Record(s, Emit("gateway.close", payload));
    RecordCounts(s, Emit("gateway.close", payload));
    StopCounts(s1);
    RecordCounts(StopHeartbeat(s1), Emit("socket.close", payload));
  }

  lemma ErrorKeepsInv(s: State, error: Value)
    requires Inv(s)
    ensures Inv(OnError(s, error))
  {
    var payload := Obj(map["error" := error]);
    var s1 := Record(s, Emit("gateway.error", payload));
    RecordCounts(s, Emit("gateway.error", payload));
    StopCounts(s1);
    RecordCounts(StopHeartbeat(s1), Emit("socket.error", payload));
  }

  lemma OpenKeepsInv(s: State)
    requires Inv(s) && s.handshake.NotOpened?
    ensures Inv(OnSocketOpen(s))
  {
    RecordCounts(s, Emit("socket.open", EmptyObject));
  }

  /** The resumed handshake starts the one timer and emits the one `gateway.open`. */
  lemma HelloKeepsInv(s: State)
    requires Inv(s)
    requires s.handshake.AwaitingHello? && s.handshake.wait in s.settled
    ensures Inv(OnHello(s))
  {
    var hello := s.settled[s.handshake.wait];
    var data := Get(hello, "data");
    var s0 := s.(handshake := Done);
    if Nullish(data) {
      RecordCounts(s0, Reject("TypeError"));
    } else {
      var timer := Timer(Get(data, "heartbeat_interval"));
      var s1 := Send(s0, Num(1), s0.lastSequence);
      var s2 := Record(s1.(interval := Some(timer)), StartTimer(timer));
      var s3 := Send(s2, Num(2), IdentifyPayload(s2.token, s2.config));
      SendCounts(s0, Num(1), s0.lastSequence);
      RecordCounts(s1.(interval := Some(timer)), StartTimer(timer));
      SendCounts(s2, Num(2), IdentifyPayload(s2.token, s2.config));
      RecordCounts(s3, Emit("gateway.open", EmptyObject));
    }
  }

  lemma TickKeepsInv(s: State)
    requires Inv(s) && s.interval.Some?
    ensures Inv(Tick(s))
  {
    var s1 := if !s.receivedLast then Close(s, Undefined, Undefined) else s;
    CloseCounts(s, Undefined, Undefined);
    SendCounts(s1, Num(1), s1.lastSequence);
  }

  /** Every handler keeps the invariant. */
  lemma StepKeepsInv(s: State, e: Event)
    requires Inv(s)
    ensures Inv(Step(s, e))
  {
    if Enabled(s, e) {
      match e
      case SocketOpened => OpenKeepsInv(s);
      case HelloResumed => HelloKeepsInv(s);
      case Frame(raw) => MessageKeepsInv(s, raw);
      case TimerFired => TickKeepsInv(s);
      case SocketClosed(code, reason) => CloseKeepsInv(s, code, reason);
      case SocketErrored(error) => ErrorKeepsInv(s, error);
      case CallerSend(op, d) => SendCounts(s, op, d);
      case CallerClose(code, reason) => CloseCounts(s, code, reason);
    }
  }

  /** The state `t` comes after `s`: its log extends that of `s` and the acknowledgement flag was not reset. */
  predicate Extends(t: State, s: State)
  {
    s.log <= t.log && (s.receivedLast ==> t.receivedLast)
  }

  /** `#onMessage` only appends to the log and only ever sets the acknowledgement flag. */
  lemma MessageExtends(s: State, raw: Value)
    ensures Extends(OnMessage(s, raw), s)
  {
    if !Nullish(raw) {
      var message := Normalise(raw);
      var s1 := Receive(s, message);
      assert Extends(s1, s);
      if AnyMatch(s1.waits, message) {
        ClaimFrame(s1, message);
      } else {
        RouteFrame(s1, message);
      }
    }
  }

  lemma TeardownExtends(s: State, payload: Value, first: string, second: string)
    ensures Extends(Record(StopHeartbeat(Record(s, Emit(first, payload))), Emit(second, payload)), s)
  {
    var s1 := Record(s, Emit(first, payload));
    var s2 := StopHeartbeat(s1);
    assert Extends(s2, s1);
  }

  lemma HelloExtends(s: State)
    requires s.handshake.AwaitingHello? && s.handshake.wait in s.settled
    ensures Extends(OnHello(s), s)
  {
    if Nullish(Get(s.settled[s.handshake.wait], "data")) {
      HelloWithoutData(s);
    } else {
      HelloHandshakeOrder(s);
    }
  }

  /** No handler drops a logged effect or resets the acknowledgement flag. */
  lemma StepExtends(s: State, e: Event)
    ensures Extends(Step(s, e), s)
  {
    if Enabled(s, e) {
      match e
      case SocketOpened => SocketOpenWaitsForHello(s);
      case HelloResumed => HelloExtends(s);
      case Frame(raw) => MessageExtends(s, raw);
      case TimerFired => TickClosesThenStillBeats(s);
      case SocketClosed(code, reason) =>
        TeardownExtends(s, Obj(map["code" := code, "reason" := reason]), "gateway.close", "socket.close");
      case SocketErrored(error) =>
        TeardownExtends(s, Obj(map["error" := error]), "gateway.error", "socket.error");
      case CallerSend(op, d) => SendWritesEnvelope(s, op, d);
      case CallerClose(code, reason) =>
    }
  }

  /** Over any run: the invariant holds, the log only grows, the acknowledgement flag is never reset. */
  lemma {:induction false} RunKeepsInv(s: State, events: seq<Event>)
    requires Inv(s)
    ensures Inv(Run(s, events)) && Extends(Run(s, events), s)
    decreases |events|
  {
    if events != [] {
      var s1 := Step(s, events[0]);
      StepKeepsInv(s, events[0]);
      StepExtends(s, events[0]);
      RunKeepsInv(s1, events[1..]);
    }
  }

  /**
    From construction on: at most one heartbeat timer is ever started, it is
    cleared at most once and only if it was started, and `gateway.open` is
    emitted at most once.
   */
  lemma TimerAndOpenAtMostOnce(token: Value, config: ClientConfig, events: seq<Event>)
    ensures var log := Run(Init(token, config), events).log;
      && Count(log, IsStart) <= 1
      && Count(log, IsClear) <= Count(log, IsStart)
      && Count(log, IsOpen) <= 1
  {
    InitInv(token, config);
    RunKeepsInv(Init(token, config), events);
  }

  /** Only an opcode-11 frame that no waiter claims sets the acknowledgement flag. */
  lemma OnlyAckSetsReceivedLast(s: State, e: Event)
    requires !s.receivedLast && Step(s, e).receivedLast
    ensures e.Frame? && !Nullish(e.raw) && Get(e.raw, "op") == Num(11)
    ensures forall i :: 0 <= i < |s.waits| ==> s.waits[i].opcode != 11
  {
    if e.Frame? && !Nullish(e.raw) {
      var message := Normalise(e.raw);
      if !AnyMatch(s.waits, message) {
        RouteFrame(Receive(s, message), message);
      }
    }
  }

  /**
    The heartbeat timer is started only by the Hello frame (opcode 10) the
    handshake waited for, at the interval that frame carries.
   */
  lemma TimerStartsAtHelloInterval(s: State)
    requires Inv(s) && s.handshake.AwaitingHello? && s.handshake.wait in s.settled
    requires !Nullish(Get(s.settled[s.handshake.wait], "data"))
    ensures var hello := s.settled[s.handshake.wait];
      && Get(hello, "opcode") == Num(10)
      && OnHello(s).interval == Some(Timer(Get(Get(hello, "data"), "heartbeat_interval")))
  {
  }

  /** The Hello frame of the documented opening. */
  const HelloFrame: Value :=
    Obj(map["op" := Num(10), "d" := Obj(map["heartbeat_interval" := Num(41250)]), "s" := Null, "t" := Null])

  /** The Hello frame, normalised. */
  const HelloMessage: Value :=
    Obj(map["opcode" := Num(10), "data" := Obj(map["heartbeat_interval" := Num(41250)]),
            "sequence" := Null, "event" := Null])

  lemma ResolveAllOne(w: Wait, message: Value, settled: map<nat, Value>)
    ensures ResolveAll([w], message, settled) ==
      if Matches(w, message) && 0 !in settled then ([Resolution(0, message)], settled[0 := message])
      else ([], settled)
  {
    assert [w][..0] == [];
    var (effects, done) := ResolveAll([w][..0], message, settled);
    assert effects == [] && done == settled;
    assert effects + [Resolution(0, message)] == [Resolution(0, message)];
  }

  lemma HelloFrameSettlesWaiter(s: State)
    requires s.waits == [Wait(10)] && s.settled == map[]
    ensures OnMessage(s, HelloFrame) ==
      s.(settled := map[0 := HelloMessage], lastSequence := Null,
         log := s.log + [Emit("gateway.message", HelloMessage), Resolution(0, HelloMessage)])
  {
    assert Normalise(HelloFrame) == HelloMessage;
    assert AnyMatch(s.waits, HelloMessage) by {
      assert Matches(s.waits[0], HelloMessage);
    }
    ResolveAllOne(Wait(10), HelloMessage, map[]);
  }

  /** The state once the socket has opened: one waiter for Hello (opcode 10). */
  function Opened(token: Value, config: ClientConfig): State
  {
    State(token, config, [Wait(10)], map[], AwaitingHello(0), None, false, Null, [Emit("socket.open", Obj(map[]))])
  }

  /** The state once the Hello frame has also settled that waiter. */
  function HelloSettled(token: Value, config: ClientConfig): State
  {
    State(token, config, [Wait(10)], map[0 := HelloMessage], AwaitingHello(0), None, false, Null,
          [Emit("socket.open", Obj(map[])), Emit("gateway.message", HelloMessage), Resolution(0, HelloMessage)])
  }

  /** The state once the handshake has resumed: Hello answered with a heartbeat, the timer set, Identify sent. */
  function Identified(token: Value, config: ClientConfig): State
  {
    State(token, config, [Wait(10)], map[0 := HelloMessage], Done, Some(Timer(Num(41250))), false, Null,
          [Emit("socket.open", Obj(map[])),
           Emit("gateway.message", HelloMessage),
           Resolution(0, HelloMessage),
           SocketSend(Envelope(Num(1), Null)),
           Emit("gateway.send", Obj(map["opcode" := Num(1), "data" := Null])),
           StartTimer(Timer(Num(41250))),
           SocketSend(Envelope(Num(2), IdentifyPayload(token, config))),
           Emit("gateway.send", Obj(map["opcode" := Num(2), "data" := IdentifyPayload(token, config)])),
           Emit("gateway.open", Obj(map[]))])
  }

  lemma InitThenOpen(token: Value, config: ClientConfig)
    ensures Step(Init(token, config), SocketOpened) == Opened(token, config)
  {
    SocketOpenWaitsForHello(Init(token, config));
  }

  lemma OpenThenHello(token: Value, config: ClientConfig)
    ensures Step(Opened(token, config), Frame(HelloFrame)) == HelloSettled(token, config)
  {
    var s := Opened(token, config);
    assert Step(s, Frame(HelloFrame)) == OnMessage(s, HelloFrame);
    HelloFrameSettlesWaiter(s);
  }

  lemma HelloThenResume(token: Value, config: ClientConfig)
    ensures Step(HelloSettled(token, config), HelloResumed) == Identified(token, config)
  {
    var s := HelloSettled(token, config);
    assert Step(s, HelloResumed) == OnHello(s);
    HelloSettledResumes(token, config);
  }

  lemma HelloSettledResumes(token: Value, config: ClientConfig)
    ensures OnHello(HelloSettled(token, config)) == Identified(token, config)
  {
    var s := HelloSettled(token, config);
    var data := Obj(map["heartbeat_interval" := Num(41250)]);
    assert Get(s.settled[0], "data") == data;
    assert Get(data, "heartbeat_interval") == Num(41250);
    var timer := Timer(Num(41250));
    var s1 := Send(s.(handshake := Done), Num(1), Null);
    var s2 := Record(s1.(interval := Some(timer)), StartTimer(timer));
    var s3 := Send(s2, Num(2), IdentifyPayload(token, config));
    assert OnHello(s) == Record(s3, Emit("gateway.open", EmptyObject));
  }

  /**
    The documented opening: socket open, Hello `{op: 10, d: {heartbeat_interval:
    41250}, s: null, t: null}`, the handshake resumed. The log holds, in this
    order, `socket.open`, `gateway.message`, the Hello waiter's resolution, the
    heartbeat `{op: 1, d: null}`, the timer at 41250, Identify and one
    `gateway.open`.
   */
  lemma OpeningScenario(token: Value, config: ClientConfig)
    ensures Run(Init(token, config), [SocketOpened, Frame(HelloFrame), HelloResumed]) == Identified(token, config)
  {
    var s1 := Step(Init(token, config), SocketOpened);
    InitThenOpen(token, config);
    var s2 := Step(s1, Frame(HelloFrame));
    OpenThenHello(token, config);
    var s3 := Step(s2, HelloResumed);
    HelloThenResume(token, config);
    assert Run(s3, []) == s3;
    assert Run(s2, [HelloResumed]) == s3;
    assert Run(s1, [Frame(HelloFrame), HelloResumed]) == s3;
  }
}
