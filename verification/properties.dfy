/** What each handler of the gateway connection does to the state and the effect log. */
module Properties {
  import opened Wrappers
  import opened Js
  import opened Protocol

  /** `send` writes exactly the envelope, then emits `gateway.send`; nothing else changes. */
  lemma SendWritesEnvelope(s: State, op: Value, d: Value)
    ensures var t := Send(s, op, d);
      && t.(log := s.log) == s
      && t.log[..|s.log|] == s.log
      && t.log[|s.log|..] == [SocketSend(Obj(map["op" := op, "d" := d, "s" := Null, "t" := Null])),
                              Emit("gateway.send", Obj(map["opcode" := op, "data" := d]))]
  {
  }

  /** `close()` requests close code 4000 (an application code, section 7.4.2 of RFC 6455) and a null reason. */
  lemma CloseDefaults(s: State)
    ensures Close(s, Undefined, Undefined) == s.(log := s.log + [SocketClose(Num(4000), Null)])
  {
  }

  /**
    The `forEach` over the waiters settles exactly the promises of the
    matching waiters that had not settled, with the message; settled promises
    keep their value.
   */
  lemma {:induction false} ResolveAllSettles(waits: seq<Wait>, message: Value, settled: map<nat, Value>)
    ensures var done := ResolveAll(waits, message, settled).1;
      && (forall k: nat :: k in done <==> k in settled || (k < |waits| && Matches(waits[k], message)))
      && (forall k :: k in settled ==> done[k] == settled[k])
      && (forall k :: k in done && k !in settled ==> done[k] == message)
  {
    if waits != [] {
      ResolveAllSettles(waits[..|waits| - 1], message, settled);
    }
  }

  /**
    The resolutions that take effect are those of the newly settled promises,
    each with the message, and none when nothing new settles.
   */
  lemma {:induction false} ResolveAllEffects(waits: seq<Wait>, message: Value, settled: map<nat, Value>)
    ensures var (effects, done) := ResolveAll(waits, message, settled);
      && (forall i :: 0 <= i < |effects| ==>
            effects[i].Resolution? && effects[i].message == message &&
            effects[i].wait !in settled && effects[i].wait in done)
      && (forall k :: k in done && k !in settled ==> Resolution(k, message) in effects)
      && (effects == [] <==> done == settled)
  {
    if waits != [] {
      var prefix := waits[..|waits| - 1];
      ResolveAllEffects(prefix, message, settled);
      ResolveAllSettles(prefix, message, settled);
    }
  }

  /** The resolutions follow the list order of the waiters, each index at most once. */
  lemma {:induction false} ResolveAllInOrder(waits: seq<Wait>, message: Value, settled: map<nat, Value>)
    ensures ResolvesInOrder(ResolveAll(waits, message, settled).0, |waits|)
  {
    if waits != [] {
      var prefix := waits[..|waits| - 1];
      ResolveAllInOrder(prefix, message, settled);
      var (effects, done) := ResolveAll(prefix, message, settled);
      var k := |waits| - 1;
      if Matches(waits[k], message) && k !in done {
        var all := effects + [Resolution(k, message)];
        assert forall i :: 0 <= i < |effects| ==> all[i] == effects[i];
        assert all[|effects|] == Resolution(k, message);
        assert ResolvesInOrder(all, |waits|);
      }
    }
  }

  /** Resolutions only, of waiters below `n`, with increasing waiter indices. */
  predicate ResolvesInOrder(effects: seq<Effect>, n: nat)
  {
    && (forall i :: 0 <= i < |effects| ==> effects[i].Resolution? && effects[i].wait < n)
    && (forall i, j :: 0 <= i < j < |effects| ==> effects[i].Resolution? && effects[j].Resolution? && effects[i].wait < effects[j].wait)
  }

  /** With no matching waiter the `forEach` resolves nothing. */
  lemma ResolveAllNoMatch(waits: seq<Wait>, message: Value, settled: map<nat, Value>)
    requires !AnyMatch(waits, message)
    ensures ResolveAll(waits, message, settled) == ([], settled)
  {
    ResolveAllSettles(waits, message, settled);
    ResolveAllEffects(waits, message, settled);
    var done := ResolveAll(waits, message, settled).1;
    assert done.Keys == settled.Keys;
  }

  /** Routing only appends to the log and may set the acknowledgement flag; nothing else changes. */
  lemma RouteFrame(s: State, message: Value)
    ensures var t := Route(s, message);
      && t.(log := s.log, receivedLast := s.receivedLast) == s
      && |t.log| >= |s.log| && t.log[..|s.log|] == s.log
      && (s.receivedLast ==> t.receivedLast)
  {
    var op := Get(message, "opcode");
    if op != Num(1) && op != Num(11) {
      var s1 := if op == Num(7) then Close(s, Undefined, Undefined) else s;
      var s2 := if op == Num(9) then Close(s1, Undefined, Undefined) else s1;
      assert s2.(log := s.log) == s && s2.log[..|s.log|] == s.log;
    }
  }

  /** Resolving waiters only settles promises and appends to the log. */
  lemma ClaimFrame(s: State, message: Value)
    ensures var t := Claim(s, message);
      && t.(log := s.log, settled := s.settled) == s
      && |t.log| >= |s.log| && t.log[..|s.log|] == s.log
  {
  }

  /**
    Every inbound frame emits `gateway.message` with the normalised message
    first and overwrites the last sequence with the frame's `s`, even a null
    or absent one. The waiter list, the timer and the handshake never change.
   */
  lemma MessageFirstAndSequence(s: State, raw: Value)
    requires !Nullish(raw)
    ensures var t := OnMessage(s, raw);
      && |t.log| > |s.log| && t.log[..|s.log|] == s.log
      && t.log[|s.log|] == Emit("gateway.message",
           Obj(map["opcode" := Get(raw, "op"), "data" := Get(raw, "d"),
                   "sequence" := Get(raw, "s"), "event" := Get(raw, "t")]))
      && t.lastSequence == Get(raw, "s")
      && t.waits == s.waits && t.interval == s.interval && t.handshake == s.handshake
  {
    var message := Normalise(raw);
    var s1 := Receive(s, message);
    var t := OnMessage(s, raw);
    assert s1.log == s.log + [Emit("gateway.message", message)];
    if AnyMatch(s1.waits, message) {
      ClaimFrame(s1, message);
    } else {
      RouteFrame(s1, message);
    }
    assert t.log[..|s1.log|] == s1.log;
    assert t.log[..|s.log|] == t.log[..|s1.log|][..|s.log|];
    assert t.log[|s.log|] == t.log[..|s1.log|][|s.log|];
  }

  /** A frame with no `op` to read (null) throws before anything else happens. */
  lemma NullFrameRejected(s: State, raw: Value)
    requires Nullish(raw)
    ensures OnMessage(s, raw) == s.(log := s.log + [Reject("TypeError")])
  {
  }

  /**
    When some waiter is registered for the frame's opcode, every matching
    waiter's promise is resolved with the normalised message and no heartbeat,
    acknowledgement, close or dispatch routing happens.
   */
  lemma WaiterMatchSuppressesRouting(s: State, raw: Value)
    requires !Nullish(raw)
    requires exists i :: 0 <= i < |s.waits| && Num(s.waits[i].opcode) == Get(raw, "op")
    ensures var t := OnMessage(s, raw);
      var message := Normalise(raw);
      && t.receivedLast == s.receivedLast
      && t.log[..|s.log| + 1] == s.log + [Emit("gateway.message", message)]
      && (forall i :: |s.log| + 1 <= i < |t.log| ==> t.log[i].Resolution? && t.log[i].message == message)
      && (forall k: nat :: k in t.settled <==> k in s.settled || (k < |s.waits| && Num(s.waits[k].opcode) == Get(raw, "op")))
      && (forall k :: k in s.settled ==> t.settled[k] == s.settled[k])
      && (forall k :: k in t.settled && k !in s.settled ==> t.settled[k] == message)
  {
    var message := Normalise(raw);
    ResolveAllSettles(s.waits, message, s.settled);
    ResolveAllEffects(s.waits, message, s.settled);
    assert AnyMatch(s.waits, message);
  }

  /**
    A frame whose opcode only matches waiters that already settled (a second
    Hello after the handshake's waiter settled) is swallowed: it only emits
    `gateway.message` and overwrites the sequence.
   */
  lemma SettledWaitersSwallowFrame(s: State, raw: Value)
    requires !Nullish(raw)
    requires exists i :: 0 <= i < |s.waits| && Num(s.waits[i].opcode) == Get(raw, "op")
    requires forall i :: 0 <= i < |s.waits| && Num(s.waits[i].opcode) == Get(raw, "op") ==> i in s.settled
    ensures OnMessage(s, raw) ==
      s.(log := s.log + [Emit("gateway.message", Normalise(raw))], lastSequence := Get(raw, "s"))
  {
    var message := Normalise(raw);
    ResolveAllSettles(s.waits, message, s.settled);
    ResolveAllEffects(s.waits, message, s.settled);
    var (effects, done) := ResolveAll(s.waits, message, s.settled);
    assert done == s.settled;
    assert AnyMatch(s.waits, message);
  }

  /**
    Opcode routing when no waiter matches: 1 answers with one heartbeat
    carrying the (just overwritten) last sequence, 11 records the
    acknowledgement, 7 and 9 request a close with code 4000, 0 emits the
    dispatch event `gateway.event.<t>` with the frame's data, and any other
    opcode does nothing more.
   */
  lemma RouteByOpcode(s: State, raw: Value)
    requires !Nullish(raw)
    requires forall i :: 0 <= i < |s.waits| ==> Num(s.waits[i].opcode) != Get(raw, "op")
    ensures var t := OnMessage(s, raw);
      var op := Get(raw, "op");
      var seen := s.log + [Emit("gateway.message", Normalise(raw))];
      && t.settled == s.settled && t.lastSequence == Get(raw, "s")
      && (op == Num(1) ==>
            t.receivedLast == s.receivedLast &&
            t.log == seen + [SocketSend(Envelope(Num(1), Get(raw, "s"))),
                             Emit("gateway.send", Obj(map["opcode" := Num(1), "data" := Get(raw, "s")]))])
      && (op == Num(11) ==> t.receivedLast && t.log == seen)
      && (op == Num(7) || op == Num(9) ==>
            t.receivedLast == s.receivedLast && t.log == seen + [SocketClose(Num(4000), Null)])
      && (op == Num(0) ==>
            t.receivedLast == s.receivedLast &&
            t.log == seen + [Emit("gateway.event." + ToString(Get(raw, "t")), Get(raw, "d"))])
      && (op !in {Num(0), Num(1), Num(7), Num(9), Num(11)} ==> t.receivedLast == s.receivedLast && t.log == seen)
  {
    assert !AnyMatch(s.waits, Normalise(raw));
  }

  /** A dispatch event named by a string reaches the channel of that name and of no other name. */
  lemma DispatchChannel(x: string, y: string)
    ensures "gateway.event." + ToString(Str(x)) == "gateway.event." + x
    ensures "gateway.event." + x == "gateway.event." + y ==> x == y
  {
    if "gateway.event." + x == "gateway.event." + y {
      assert x == ("gateway.event." + x)[14..];
    }
  }

  /** Opening the socket emits `socket.open` and registers a waiter for Hello (opcode 10). */
  lemma SocketOpenWaitsForHello(s: State)
    requires s.handshake.NotOpened?
    ensures var t := OnSocketOpen(s);
      && t.log == s.log + [Emit("socket.open", Obj(map[]))]
      && t.waits == s.waits + [Wait(10)]
      && t.handshake == AwaitingHello(|s.waits|) && t.waits[t.handshake.wait].opcode == 10
      && t.(log := s.log, waits := s.waits, handshake := s.handshake) == s
  {
  }

  /**
    After Hello, in order: a heartbeat with the last sequence, the timer set at
    the Hello's interval, Identify (opcode 2 with the token, the client
    properties, the configured presence and intents), then `gateway.open`.
   */
  lemma HelloHandshakeOrder(s: State)
    requires s.handshake.AwaitingHello? && s.handshake.wait in s.settled
    requires !Nullish(Get(s.settled[s.handshake.wait], "data"))
    ensures var t := OnHello(s);
      var timer := Timer(Get(Get(s.settled[s.handshake.wait], "data"), "heartbeat_interval"));
      var identify := Obj(map[
        "token" := s.token,
        "properties" := Obj(map["os" := Str("windows"), "browser" := Str("custom"), "device" := Str("custom")]),
        "presence" := s.config.defaultPresence,
        "intents" := s.config.intents]);
      && t.interval == Some(timer) && t.handshake == Done
      && t.log == s.log + [
           SocketSend(Envelope(Num(1), s.lastSequence)),
           Emit("gateway.send", Obj(map["opcode" := Num(1), "data" := s.lastSequence])),
           StartTimer(timer),
           SocketSend(Envelope(Num(2), identify)),
           Emit("gateway.send", Obj(map["opcode" := Num(2), "data" := identify])),
           Emit("gateway.open", Obj(map[]))]
      && t.(log := s.log, interval := s.interval, handshake := s.handshake) == s
  {
  }

  /** A Hello without data throws in `#onOpen`: no heartbeat, no timer, no Identify, no `gateway.open`. */
  lemma HelloWithoutData(s: State)
    requires s.handshake.AwaitingHello? && s.handshake.wait in s.settled
    requires Nullish(Get(s.settled[s.handshake.wait], "data"))
    ensures OnHello(s) == s.(handshake := Done, log := s.log + [Reject("TypeError")])
  {
  }

  /**
    A tick without an acknowledgement requests a close with code 4000 and then
    still sends a heartbeat; with one it only sends the heartbeat. Neither
    resets the acknowledgement flag.
   */
  lemma TickClosesThenStillBeats(s: State)
    requires s.interval.Some?
    ensures var t := Tick(s);
      var beat := [SocketSend(Envelope(Num(1), s.lastSequence)),
                   Emit("gateway.send", Obj(map["opcode" := Num(1), "data" := s.lastSequence]))];
      && t.(log := s.log) == s
      && (!s.receivedLast ==> t.log == s.log + [SocketClose(Num(4000), Null)] + beat)
      && (s.receivedLast ==> t.log == s.log + beat)
  {
  }

  /**
    `#onClose` emits `gateway.close` before `socket.close`, both with the same
    `{code, reason}`, and clears the timer between them only if it was set.
    Afterwards no timer is set, so a second close clears nothing.
   */
  lemma CloseTearsDown(s: State, code: Value, reason: Value)
    ensures var t := OnClose(s, code, reason);
      var payload := Obj(map["code" := code, "reason" := reason]);
      && t.interval == None
      && t.log == s.log + [Emit("gateway.close", payload)]
                        + (if s.interval.Some? then [ClearTimer(s.interval.value)] else [])
                        + [Emit("socket.close", payload)]
      && t.(log := s.log, interval := s.interval) == s
      && OnClose(t, code, reason).log == t.log + [Emit("gateway.close", payload), Emit("socket.close", payload)]
  {
  }

  /**
    `#onError` emits `gateway.error` before `socket.error`, both with the same
    `{error}`, and clears the timer between them only if it was set.
   */
  lemma ErrorTearsDown(s: State, error: Value)
    ensures var t := OnError(s, error);
      var payload := Obj(map["error" := error]);
      && t.interval == None
      && t.log == s.log + [Emit("gateway.error", payload)]
                        + (if s.interval.Some? then [ClearTimer(s.interval.value)] else [])
                        + [Emit("socket.error", payload)]
      && t.(log := s.log, interval := s.interval) == s
      && OnError(t, error).log == t.log + [Emit("gateway.error", payload), Emit("socket.error", payload)]
  {
  }
}
