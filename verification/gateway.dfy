/**
  The gateway client object: its handlers update the waiter list and the
  heartbeat record in place and append what they do to an effect log. Each
  handler is proved to do exactly what the matching transition of `Protocol`
  describes, and to keep the connection invariant of `Lifecycle`.
 */
module Gateway {
  import opened Wrappers
  import opened Js
  import opened Config
  import opened Protocol
  import Lifecycle
  import Properties

  class Gateway {
    const token: Value
    const config: ClientConfig
    /** The REST client built from the resolved configuration. */
    const apiClient: ApiClient

    /** `#opcodeWaits`; the promise of a waiter is its index. */
    var waits: seq<Wait>
    /** The promises that have been resolved, with their value. */
    var settled: map<nat, Value>
    /** Where the suspended `#onOpen` is. */
    var handshake: Handshake
    /** `#heartbeat.interval`, `#heartbeat.receivedLast`, `#heartbeat.lastSequence`. */
    var interval: Option<Timer>
    var receivedLast: bool
    var lastSequence: Value
    /** Socket writes, close requests, timer calls, resolutions and events, in order. */
    var log: seq<Effect>

    function State(): State
      reads this
    {
      Protocol.State(token, config, waits, settled, handshake, interval, receivedLast, lastSequence, log)
    }

    ghost predicate Valid()
      reads this
    {
      Lifecycle.Inv(State())
    }

    /**
      `new Datcord(token, config)`: resolve the configuration with the gateway
      client's defaults and build the REST client from it.
     */
    constructor (token: Value, config: Value)
      ensures this.config == GatewayConfig(config)
      ensures apiClient == ApiClient(token, this.config)
      ensures State() == Init(token, GatewayConfig(config))
      ensures Valid()
    {
      this.token := token;
      this.config := GatewayConfig(config);
      apiClient := NewApiClient(token, ToValue(GatewayConfig(config)));
      waits := [];
      settled := map[];
      handshake := NotOpened;
      interval := None;
      receivedLast := false;
      lastSequence := Null;
      log := [];
      GatewayApiClientConfig(token, config);
      Lifecycle.InitInv(token, GatewayConfig(config));
    }

    /** `this.emit(name, payload)`. */
    method EmitEvent(name: string, payload: Value)
      modifies this`log
      ensures log == old(log) + [Emit(name, payload)]
    {
      log := log + [Emit(name, payload)];
    }

    /** `send(opcode, data)`. */
    method Send(op: Value, d: Value)
      modifies this`log
      ensures State() == Protocol.Send(old(State()), op, d)
      ensures Valid() <==> old(Valid())
    {
      Lifecycle.SendCounts(State(), op, d);
      log := log + [SocketSend(Envelope(op, d))];
      EmitEvent("gateway.send", Obj(map["opcode" := op, "data" := d]));
    }

    /** `close(code = 4000, reason = null)`; pass `Undefined` for an omitted argument. */
    method Close(code: Value, reason: Value)
      modifies this`log
      ensures State() == Protocol.Close(old(State()), code, reason)
      ensures Valid() <==> old(Valid())
    {
      Lifecycle.CloseCounts(State(), code, reason);
      var c := if code == Undefined then Num(CloseCode) else code;
      var r := if reason == Undefined then Null else reason;
      log := log + [SocketClose(c, r)];
    }

    /** `#waitForOpcode(opcode)`: register a waiter and hand back its promise. */
    method WaitForOpcode(opcode: int) returns (promise: nat)
      modifies this`waits
      ensures waits == old(waits) + [Wait(opcode)]
      ensures promise == |old(waits)| && waits[promise].opcode == opcode
    {
      promise := |waits|;
      waits := waits + [Wait(opcode)];
    }

    /** `#onOpen` up to its `await`. */
    method OnSocketOpen()
      requires Valid() && handshake.NotOpened?
      modifies this
      ensures State() == Protocol.OnSocketOpen(old(State()))
      ensures Valid()
    {
      Lifecycle.OpenKeepsInv(State());
      EmitEvent("socket.open", Obj(map[]));
      var hello := WaitForOpcode(10);
      handshake := AwaitingHello(hello);
    }

    /** The rest of `#onOpen`, run once the Hello promise has settled. */
    method OnHello()
      requires Valid() && handshake.AwaitingHello? && handshake.wait in settled
      modifies this
      ensures State() == Protocol.OnHello(old(State()))
      ensures Valid()
    {
      Lifecycle.HelloKeepsInv(State());
      var hello := settled[handshake.wait];
      handshake := Done;
      var data := Get(hello, "data");
      if Nullish(data) {
        log := log + [Reject("TypeError")];
      } else {
        AnswerHello(Get(data, "heartbeat_interval"));
      }
    }

    /** The part of `#onOpen` after the Hello's data has been read. */
    method AnswerHello(heartbeatInterval: Value)
      modifies this`log, this`interval
      ensures State() == Protocol.AnswerHello(old(State()), Timer(heartbeatInterval))
    {
      ghost var s0 := State();
      Send(Num(1), lastSequence);
      ghost var s1 := State();
      interval := Some(Timer(heartbeatInterval));
      log := log + [StartTimer(Timer(heartbeatInterval))];
      ghost var s2 := State();
      assert s2 == Record(s1.(interval := Some(Timer(heartbeatInterval))), StartTimer(Timer(heartbeatInterval)));
      Send(Num(2), IdentifyPayload(token, config));
      EmitEvent("gateway.open", Obj(map[]));
    }

    /** The heartbeat timer's callback. */
    method Tick()
      requires Valid() && interval.Some?
      modifies this
      ensures State() == Protocol.Tick(old(State()))
      ensures Valid()
    {
      Lifecycle.TickKeepsInv(State());
      if !receivedLast {
        Close(Undefined, Undefined);
      }
      Send(Num(1), lastSequence);
    }

    /** `#onMessage(frame)` on an already parsed frame. */
    method OnMessage(raw: Value)
      requires Valid()
      modifies this
      ensures State() == Protocol.OnMessage(old(State()), raw)
      ensures Valid()
    {
      ghost var start := State();
      if Nullish(raw) {
        log := log + [Reject("TypeError")];
      } else {
        var message := Normalise(raw);
        EmitEvent("gateway.message", message);
        lastSequence := Get(message, "sequence");
        ghost var received := State();
        assert received == Receive(start, message);
        var waited := ResolveWaiters(message);
        if waited {
          assert State() == Claim(received, message);
        } else {
          Properties.ResolveAllNoMatch(waits, message, received.settled);
          assert State() == received;
          Route(message);
        }
      }
      assert State() == Protocol.OnMessage(start, raw);
      Lifecycle.MessageKeepsInv(start, raw);
    }

    /**
      The `forEach` over `#opcodeWaits`: resolve every matching waiter's
      promise and report whether any waiter matched.
     */
    method ResolveWaiters(message: Value) returns (waited: bool)
      modifies this`settled, this`log
      ensures waited == AnyMatch(waits, message)
      ensures log == old(log) + ResolveAll(waits, message, old(settled)).0
      ensures settled == ResolveAll(waits, message, old(settled)).1
    {
      waited := false;
      var i := 0;
      while i < |waits|
        invariant 0 <= i <= |waits|
        invariant log == old(log) + ResolveAll(waits[..i], message, old(settled)).0
        invariant settled == ResolveAll(waits[..i], message, old(settled)).1
        invariant waited == AnyMatch(waits[..i], message)
      {
        assert waits[..i + 1][..i] == waits[..i];
        if Num(waits[i].opcode) == Get(message, "opcode") {
          // the promise takes only its first resolution
          if i !in settled {
            settled := settled[i := message];
            log := log + [Resolution(i, message)];
          }
          waited := true;
          // `slice(i, 1)` returns a copy that is discarded: the waiter stays
        }
        assert AnyMatch(waits[..i + 1], message) <==>
          AnyMatch(waits[..i], message) || Matches(waits[i], message);
        i := i + 1;
      }
      assert waits[..i] == waits;
    }

    /** What `#onMessage` does with a frame no waiter claimed, by opcode. */
    method Route(message: Value)
      modifies this`log, this`receivedLast
      ensures State() == Protocol.Route(old(State()), message)
    {
      var op := Get(message, "opcode");
      if op == Num(1) {
        Send(Num(1), lastSequence);
        return;
      }
      if op == Num(11) {
        receivedLast := true;
        return;
      }
      if op == Num(7) {
        Close(Undefined, Undefined);
      }
      if op == Num(9) {
        Close(Undefined, Undefined);
      }
      if op == Num(0) {
        EmitEvent("gateway.event." + ToString(Get(message, "event")), Get(message, "data"));
      }
    }

    /** `#onClose(code, reason)`. */
    method OnClose(code: Value, reason: Value)
      requires Valid()
      modifies this
      ensures State() == Protocol.OnClose(old(State()), code, reason)
      ensures Valid()
    {
      Lifecycle.CloseKeepsInv(State(), code, reason);
      EmitEvent("gateway.close", Obj(map["code" := code, "reason" := reason]));
      StopHeartbeat();
      EmitEvent("socket.close", Obj(map["code" := code, "reason" := reason]));
    }

    /** `#onError(error)`. */
    method OnError(error: Value)
      requires Valid()
      modifies this
      ensures State() == Protocol.OnError(old(State()), error)
      ensures Valid()
    {
      Lifecycle.ErrorKeepsInv(State(), error);
      EmitEvent("gateway.error", Obj(map["error" := error]));
      StopHeartbeat();
      EmitEvent("socket.error", Obj(map["error" := error]));
    }

    /** `clearInterval` and reset the handle, only when a timer is set. */
    method StopHeartbeat()
      modifies this`interval, this`log
      ensures State() == Protocol.StopHeartbeat(old(State()))
    {
      if interval.Some? {
        log := log + [ClearTimer(interval.value)];
        interval := None;
      }
    }
  }
}
