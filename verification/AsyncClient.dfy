/** messi/c_source/templates/async/client.c: a client on an event loop that calls it when
    a connection is made, lost or readable, when a timer expires, and when a deferred call
    is due. Every method is proved to take steps of ClientMachine. */
module AsyncClient {
  import opened Header
  import opened Framing
  import opened Messages
  import opened Input
  import opened ClientMachine

  datatype Link = Closed | Connecting | Open

  /** An async_stcp_client_t: nothing is read from it unless it is connected. */
  class Stcp {
    var link: Link
    ghost var received: seq<byte>
    ghost var written: seq<byte>

    /** The number of bytes that have arrived and were not yet read. */
    var arriving: nat

    constructor ()
      ensures link == Closed && received == [] && written == []
    {
      link, received, written, arriving := Closed, [], [], 0;
    }

    /** What is written is taken whole by the stream, unless it is not connected. */
    method Write(data: array<byte>, n: nat)
      requires n <= data.Length
      modifies this`written
      ensures written == if link == Open then old(written) + data[..n] else old(written)
    {
      if link == Open {
        written := written + data[..n];
      }
    }

    /** Reads at most max bytes into buf[at..at + max]. */
    method Read(buf: array<byte>, at: nat, max: nat) returns (n: nat, ghost chunk: seq<byte>)
      requires max > 0 && at + max <= buf.Length
      modifies this`received, this`arriving, buf
      ensures n <= max && |chunk| == n && received == old(received) + chunk && arriving == old(arriving) - n
      ensures buf[..] == old(buf[..at]) + chunk + old(buf[at + n..])
      ensures n == 0 <==> link != Open || old(arriving) == 0
    {
      var bytes: seq<byte> := *;
      if link != Open || arriving == 0 {
        bytes := [];
      } else if |bytes| == 0 || |bytes| > max || |bytes| > arriving {
        bytes := [0];
      }
      n, chunk := |bytes|, bytes;
      forall i | 0 <= i < n {
        buf[at + i] := bytes[i];
      }
      received, arriving := received + bytes, arriving - n;
    }
  }

  class AsyncClient {
    const stcp: Stcp
    const input: Input
    const encoded: array<byte>

    /** The payloads that the application's protocol can decode. */
    const decodes: seq<byte> -> bool

    var isConnected: bool
    var pongReceived: bool
    var disconnectReason: Reason
    var keepAliveRunning: bool
    var reconnectRunning: bool

    /** The calls of on_disconnected that are still due. */
    var deferred: nat
    var trace: seq<Notice>

    ghost var steps: seq<Step>
    ghost var m: Machine

    /** Of the last connection: the frames written, the frames that handle_message has dealt
        with, those given to the application, and what the reassembly buffer held when it was
        made and holds now. */
    ghost var attempted: seq<Frame>
    ghost var handled: seq<Frame>
    ghost var delivered: seq<Frame>
    ghost var carried: seq<byte>
    ghost var unparsed: seq<byte>
    ghost var tooBig: bool

    /** The messages that could not be encoded while connected. */
    ghost var unencoded: nat

    ghost predicate Wired() {
      input.InBuffer() && encoded.Length >= HEADER_SIZE && encoded != input.data
    }

    /** What the fields say about the phase. */
    ghost predicate Flags()
      reads this`isConnected, this`disconnectReason, this`keepAliveRunning, this`reconnectRunning, this`deferred, this`m
      reads stcp`link
    {
      match m.phase
      case Idle => !isConnected && !keepAliveRunning && !reconnectRunning && deferred == 0 && stcp.link == Closed
      case Trying =>
        && !isConnected && !keepAliveRunning && deferred == 0
        && stcp.link == if reconnectRunning then Closed else Connecting
      case Up => isConnected && keepAliveRunning && !reconnectRunning && deferred == 0 && stcp.link == Open
      case Down(r) =>
        && !isConnected && !keepAliveRunning && !reconnectRunning && deferred == 1 && stcp.link == Closed
        && disconnectReason == r
      case Stuck => false
    }

    /** The steps taken are a run of the machine, and the callbacks are the machine's. */
    ghost predicate InStep()
      reads this`trace, this`m, this`steps
    {
      trace == m.trace && Legal(steps) && Run(steps) == m && Misreports(steps) == 0
    }

    /** The frames handled are those in the bytes carried over and received, and the
        application was given its messages among them. */
    ghost predicate Incoming()
      reads this`carried, this`handled, this`delivered, this`unparsed, this`tooBig, stcp`received
    {
      IncomingWith(handled, delivered)
    }

    ghost predicate IncomingWith(handled: seq<Frame>, delivered: seq<Frame>)
      reads this`carried, this`unparsed, this`tooBig, stcp`received
    {
      && Parse(carried + stcp.received, input.cap) == Parsed(handled, unparsed, tooBig)
      && delivered == ToApplication(decodes, handled)
    }

    /** A connected client has received frame f, which is still to be dealt with. */
    ghost predicate Due(f: Frame)
      reads this, stcp`link, stcp`received, stcp`written
    {
      && Wired() && Flags() && InStep() && Outgoing() && m.phase.Up?
      && IncomingWith(handled + [f], delivered + if ForApplication(decodes, f) then [f] else [])
    }

    /** The bytes written are the frames attempted. */
    ghost predicate Outgoing()
      reads this`attempted, stcp`written
    {
      stcp.written == EncodeAll(attempted) && forall f :: f in attempted ==> |f.payload| < SIZE_LIMIT
    }

    ghost predicate Valid()
      reads this, stcp`link, stcp`received, stcp`written
    {
      Wired() && Flags() && InStep() && Incoming() && Outgoing()
    }

    ghost predicate InputOk()
      reads this`unparsed, this`tooBig, input, input.data
    {
      input.Keeps(unparsed, tooBig)
    }

    /** NAME_client_init. */
    constructor (inputSize: nat, messageSize: nat, decodes: seq<byte> -> bool)
      requires inputSize >= HEADER_SIZE && messageSize >= HEADER_SIZE
      ensures Valid() && InputOk() && m == Machine(Idle, []) && steps == []
      ensures input.cap == inputSize && encoded.Length == messageSize && this.decodes == decodes
      ensures fresh(stcp) && fresh(input) && fresh(input.data) && fresh(encoded)
    {
      var buf := new byte[inputSize];
      stcp := new Stcp();
      encoded := new byte[messageSize];
      this.decodes := decodes;
      input := new Input(0, buf, 0, inputSize);
      isConnected, pongReceived, disconnectReason := false, false, MessageEncodeError;
      keepAliveRunning, reconnectRunning, deferred, trace := false, false, 0, [];
      steps, m := [], Machine(Idle, []);
      attempted, handled, delivered, carried, unparsed, tooBig, unencoded := [], [], [], [], [], false, 0;
      new;
      input.Reset();
      input.AwaitingIsUnparsed();
    }

    /** disconnect_and_start_reconnect_timer: only the first reason on a connection counts,
        and it is reported by a deferred call. */
    method DisconnectAndStartReconnectTimer(reason: Reason)
      requires Valid()
      modifies this`isConnected, this`keepAliveRunning, this`disconnectReason, this`deferred, this`m, this`steps
      modifies stcp`link
      ensures Valid() && trace == old(trace)
      ensures if old(m).phase.Up? then m == Machine(Down(reason), old(m).trace) else m == old(m)
      ensures steps == if old(m).phase.Up? || old(m).phase.Down? then old(steps) + [Raise(reason)] else old(steps)
    {
      hide Run, Legal, Misreports, Wired, Incoming, Outgoing;
      if !isConnected {
        RecordRaise(reason);
        return;
      }
      isConnected := false;
      keepAliveRunning := false;
      stcp.link := Closed;
      disconnectReason := reason;
      deferred := deferred + 1;
      RecordRaise(reason);
    }

    /** A reason is raised, if there is a connection that it can be about. */
    ghost method RecordRaise(reason: Reason)
      requires InStep()
      modifies this`m, this`steps
      ensures InStep() && trace == old(trace)
      ensures if old(m).phase.Up? then m == Machine(Down(reason), old(m).trace) else m == old(m)
      ensures steps == if old(m).phase.Up? || old(m).phase.Down? then old(steps) + [Raise(reason)] else old(steps)
    {
      hide Run, Legal, Misreports;
      if m.phase.Up? || m.phase.Down? {
        Extend(steps, Raise(reason));
        steps, m := steps + [Raise(reason)], m.After(Raise(reason));
      }
    }

    /** The deferred call. What the application sends in on_disconnected has no effect. */
    method OnDisconnected()
      requires Valid() && deferred > 0
      modifies this`isConnected, this`keepAliveRunning, this`disconnectReason, this`deferred, this`m, this`steps
      modifies stcp`link, encoded, this`attempted, stcp`written, this`reconnectRunning, this`trace, this`unencoded
      ensures Valid() && m.phase.Trying? && deferred == old(deferred) - 1 && old(steps) <= steps
      ensures trace == old(trace) + [ClientMachine.OnDisconnected(old(disconnectReason))] && attempted == old(attempted)
    {
      hide *;
      Facts();
      RunScript();
      Facts();
      RecordReport();
      Restart();
    }

    /** The callback has been made. */
    method RecordReport()
      requires InStep() && m.phase.Down? && disconnectReason == m.phase.reason
      modifies this`trace, this`m, this`steps
      ensures InStep() && m.phase.Trying? && steps == old(steps) + [Report]
      ensures trace == old(trace) + [ClientMachine.OnDisconnected(disconnectReason)]
    {
      hide Run, Legal, Misreports;
      Extend(steps, Report);
      trace := trace + [ClientMachine.OnDisconnected(disconnectReason)];
      steps, m := steps + [Report], m.After(Report);
    }

    method Restart()
      requires Wired() && InStep() && Incoming() && Outgoing() && m.phase.Trying?
      requires !isConnected && !keepAliveRunning && !reconnectRunning && deferred == 1 && stcp.link == Closed
      modifies this`deferred, this`reconnectRunning
      ensures Valid() && deferred == 0
    {
      hide InStep, Incoming, Outgoing, Wired;
      deferred := deferred - 1;
      reconnectRunning := true;
    }

    // ----- sending -----

    /** A frame is handed to the stream. */
    method Write(bytes: array<byte>, n: nat, ghost f: Frame)
      requires Valid() && n <= bytes.Length && bytes[..n] == Encode(f) && |f.payload| < SIZE_LIMIT
      modifies this`attempted, stcp`written
      ensures Valid() && attempted == if m.phase.Up? then old(attempted) + [f] else old(attempted)
    {
      hide Parse, EncodeAll, Encode, Run, Legal;
      EncodeAllSnoc(attempted, f);
      stcp.Write(bytes, n);
      if stcp.link == Open {
        attempted := attempted + [f];
      }
    }

    /** NAME_client_send. */
    method Send(msg: Message)
      requires Valid() && Encodable(msg)
      modifies this`isConnected, this`keepAliveRunning, this`disconnectReason, this`deferred, this`m, this`steps
      modifies stcp`link, encoded, this`attempted, stcp`written, this`unencoded
      ensures Valid() && old(steps) <= steps && trace == old(trace)
      ensures unencoded == old(unencoded) + if old(m).phase.Up? && !Sendable(msg, encoded.Length) then 1 else 0
      ensures if old(m).phase.Up? && !Sendable(msg, encoded.Length) then m.phase == Down(MessageEncodeError)
              else m == old(m)
      ensures attempted == if old(m).phase.Up? && Sendable(msg, encoded.Length)
                           then old(attempted) + [UserFrame(CLIENT_TO_SERVER_USER, msg)] else old(attempted)
    {
      hide *;
      Facts();
      EncodableSize(CLIENT_TO_SERVER_USER, msg);
      var size := EncodeInto(encoded, CLIENT_TO_SERVER_USER, msg);
      if size < 0 {
        CountUnencoded();
        DisconnectAndStartReconnectTimer(MessageEncodeError);
        return;
      }
      Write(encoded, size, UserFrame(CLIENT_TO_SERVER_USER, msg));
    }

    ghost method CountUnencoded()
      requires Valid()
      modifies this`unencoded
      ensures Valid() && unencoded == old(unencoded) + if m.phase.Up? then 1 else 0
    {
      hide Parse, EncodeAll, Run, Legal, ToApplication;
      unencoded := unencoded + if m.phase.Up? then 1 else 0;
    }

    /** What the application sends in a callback. */
    method Application() returns (script: seq<Message>)
      ensures forall msg :: msg in script ==> Encodable(msg)
    {
      script := *;
      if exists msg :: msg in script && !Encodable(msg) {
        script := [];
      }
    }

    /** What the application does in a callback: it sends messages. */
    method RunScript()
      requires Valid()
      modifies this`isConnected, this`keepAliveRunning, this`disconnectReason, this`deferred, this`m, this`steps
      modifies stcp`link, encoded, this`attempted, stcp`written, this`unencoded
      ensures Valid() && old(steps) <= steps && trace == old(trace) && old(attempted) <= attempted
      ensures if unencoded > old(unencoded) then old(m).phase.Up? && m.phase == Down(MessageEncodeError)
              else unencoded == old(unencoded) && m == old(m)
      ensures !old(m).phase.Up? ==> attempted == old(attempted)
    {
      hide *;
      var script := Application();
      for n := 0 to |script|
        invariant Valid() && old(steps) <= steps && trace == old(trace) && old(attempted) <= attempted
        invariant if unencoded > old(unencoded) then old(m).phase.Up? && m.phase == Down(MessageEncodeError)
                  else unencoded == old(unencoded) && m == old(m)
        invariant !old(m).phase.Up? ==> attempted == old(attempted)
      {
        Send(script[n]);
      }
    }

    // ----- connecting -----

    /** NAME_client_start, called by the application, once. */
    method Start()
      requires Valid() && steps == []
      modifies this`trace, this`m, this`steps, stcp`link
      ensures Valid() && m.phase.Trying? && trace == [] && steps == [ClientMachine.Start]
    {
      hide Parse;
      Extend(steps, ClientMachine.Start);
      trace := [];
      steps, m := steps + [ClientMachine.Start], m.After(ClientMachine.Start);
      stcp.link := Connecting;
    }

    /** NAME_client_start, called when the reconnect timer has expired. */
    method OnReconnectTimeout()
      requires Valid() && reconnectRunning
      modifies this`reconnectRunning, stcp`link
      ensures Valid() && !reconnectRunning
    {
      hide Parse, Run, Legal;
      reconnectRunning := false;
      stcp.link := Connecting;
    }

    /** on_stcp_connected, after an attempt to connect that succeeded or failed. */
    method OnStcpConnected(ok: bool)
      requires Valid() && InputOk() && stcp.link == Connecting
      modifies this, stcp, encoded
      ensures Valid() && InputOk() && old(steps) <= steps
      ensures ok ==> m.phase == if unencoded > old(unencoded) then Down(MessageEncodeError) else Up
      ensures if ok then trace == old(trace) + [OnConnected] && pongReceived
              else m == old(m) && steps == old(steps) && reconnectRunning
      ensures tooBig == old(tooBig)
    {
      hide Parse, Run, Legal;
      if ok {
        Establish();
        RunScript();
      } else {
        stcp.link := Closed;
        reconnectRunning := true;
      }
    }

    /** A new connection, on which nothing was written or received. */
    ghost method BeginStreams()
      requires InputOk()
      modifies stcp`received, stcp`written, this`attempted, this`handled, this`delivered, this`carried
      ensures Incoming() && Outgoing() && attempted == handled == [] && carried == unparsed
    {
      hide Parse;
      stcp.received, stcp.written := [], [];
      attempted, handled, delivered, carried := [], [], [], unparsed;
      assert unparsed + [] == unparsed;
    }

    method Establish()
      requires Valid() && InputOk() && stcp.link == Connecting
      modifies this, stcp
      ensures Valid() && InputOk() && m.phase.Up? && steps == old(steps) + [Connect]
      ensures trace == old(trace) + [OnConnected] && pongReceived
      ensures tooBig == old(tooBig) && unencoded == old(unencoded)
    {
      hide Run, Legal, Misreports, Wired, Incoming, Outgoing, Input.Keeps;
      BeginStreams();
      stcp.link := Open;
      keepAliveRunning := true;
      pongReceived := true;
      isConnected := true;
      Extend(steps, Connect);
      trace := trace + [OnConnected];
      steps, m := steps + [Connect], m.After(Connect);
    }

    /** on_stcp_disconnected: the stream has found that the connection is gone. */
    method OnStcpDisconnected()
      requires Valid() && stcp.link != Connecting
      modifies this`isConnected, this`keepAliveRunning, this`disconnectReason, this`deferred, this`m, this`steps
      modifies stcp`link
      ensures Valid() && old(steps) <= steps
      ensures if old(m).phase.Up? then m.phase == Down(ConnectionClosed) else m == old(m)
    {
      hide Parse, Run, Legal;
      DisconnectAndStartReconnectTimer(ConnectionClosed);
    }

    // ----- keeping alive -----

    /** on_keep_alive_timeout: with a pong received, the timer, which has expired, is started
        again and the next ping is written. */
    method OnKeepAliveTimeout()
      requires Valid() && keepAliveRunning
      modifies this`isConnected, this`keepAliveRunning, this`pongReceived, this`disconnectReason, this`deferred
      modifies this`m, this`steps, stcp`link, this`attempted, stcp`written
      ensures Valid() && old(steps) <= steps
      ensures if old(pongReceived) then m == old(m) && !pongReceived && keepAliveRunning
                                        && attempted == old(attempted) + [Frame(PING, [])]
              else m.phase == Down(KeepAliveTimeout) && attempted == old(attempted)
    {
      hide *;
      Facts();
      if pongReceived {
        keepAliveRunning := false;
        StartKeepAlive();
        var header := new byte[HEADER_SIZE];
        Create(header, PING, 0);
        PingBytes(header);
        Write(header, HEADER_SIZE, Frame(PING, []));
      } else {
        DisconnectAndStartReconnectTimer(KeepAliveTimeout);
      }
    }

    method StartKeepAlive()
      requires !keepAliveRunning && m.phase.Up? && isConnected && !reconnectRunning && deferred == 0
      requires stcp.link == Open
      requires Wired() && InStep() && Incoming() && Outgoing()
      modifies this`keepAliveRunning, this`pongReceived
      ensures Valid() && !pongReceived && keepAliveRunning
    {
      hide Parse, EncodeAll, Run, Legal;
      keepAliveRunning := true;
      pongReceived := false;
    }

    lemma PingBytes(header: array<byte>)
      requires header.Length == HEADER_SIZE && header[..HEADER_SIZE] == [PING] + SizeBytes(0)
      ensures header[..HEADER_SIZE] == Encode(Frame(PING, [])) && |Frame(PING, []).payload| < SIZE_LIMIT
    {
      assert [PING] + SizeBytes(0) + [] == [PING] + SizeBytes(0);
    }

    // ----- receiving -----

    /** The message handler of the application. */
    method OnMessage(f: Frame)
      requires Wired() && Flags() && InStep() && Outgoing() && IncomingWith(handled, delivered + [f])
      modifies this`isConnected, this`keepAliveRunning, this`disconnectReason, this`deferred, this`m, this`steps
      modifies stcp`link, encoded, this`attempted, stcp`written, this`unencoded, this`delivered
      ensures Valid() && old(steps) <= steps && trace == old(trace) && old(attempted) <= attempted
      ensures if unencoded > old(unencoded) then old(m).phase.Up? && m.phase == Down(MessageEncodeError)
              else unencoded == old(unencoded) && m == old(m)
      ensures delivered == old(delivered) + [f]
    {
      hide Parse, Run, Legal, Flags, Outgoing, ToApplication;
      delivered := delivered + [f];
      RunScript();
    }

    /** handle_message_user: the message is given to the application, if it can be decoded. */
    method HandleMessageUser(f: Frame)
      requires Wired() && Flags() && InStep() && Outgoing() && m.phase.Up?
      requires IncomingWith(handled, delivered + if decodes(f.payload) then [f] else [])
      modifies this`isConnected, this`keepAliveRunning, this`disconnectReason, this`deferred, this`m, this`steps
      modifies stcp`link, encoded, this`attempted, stcp`written, this`unencoded, this`delivered
      ensures Valid() && old(steps) <= steps && trace == old(trace) && old(unencoded) <= unencoded
      ensures delivered == old(delivered) + if decodes(f.payload) then [f] else []
      ensures m.phase == if !decodes(f.payload) then Down(MessageDecodeError)
                         else if unencoded > old(unencoded) then Down(MessageEncodeError) else Up
      ensures !decodes(f.payload) ==> unencoded == old(unencoded)
    {
      hide Parse, Run, Legal, Flags, Outgoing, ToApplication;
      if !decodes(f.payload) {
        assert delivered + [] == delivered;
        DisconnectAndStartReconnectTimer(MessageDecodeError);
        return;
      }
      OnMessage(f);
    }

    /** handle_message: user messages are given to the application, a pong is noted, and
        everything else is ignored. */
    method HandleMessage(f: Frame)
      requires Due(f)
      modifies this`isConnected, this`keepAliveRunning, this`disconnectReason, this`deferred, this`m, this`steps
      modifies stcp`link, encoded, this`unencoded, this`handled, this`delivered
      modifies this`pongReceived, this`attempted, stcp`written
      ensures Valid() && old(steps) <= steps && trace == old(trace) && old(unencoded) <= unencoded
      ensures handled == old(handled) + [f]
      ensures delivered == old(delivered) + if ForApplication(decodes, f) then [f] else []
      ensures pongReceived == (f.kind == PONG || old(pongReceived))
      ensures m.phase == if Undecodable(decodes, f) then Down(MessageDecodeError)
                         else if unencoded > old(unencoded) then Down(MessageEncodeError) else Up
      ensures Undecodable(decodes, f) ==> unencoded == old(unencoded)
    {
      hide Parse, Run, Legal, Flags, Outgoing, ToApplication;
      KindsDiffer();
      handled := handled + [f];
      if f.kind == SERVER_TO_CLIENT_USER {
        HandleMessageUser(f);
      } else {
        assert delivered + [] == delivered;
        if f.kind == PONG {
          pongReceived := true;
        }
      }
    }

    /** The client has read since it had handled handled0, given delivered0 to the application,
        and so on. A pong was received exactly if one is among the frames handled; and the
        connection is given up for the header of a frame that is too large, a message that could
        not be decoded, or one of its own that could not be encoded, and for nothing else. */
    ghost predicate HeardSince(handled0: seq<Frame>, delivered0: seq<Frame>, unencoded0: nat, pong0: bool)
      reads this`handled, this`delivered, this`unencoded, this`pongReceived, this`m, this`tooBig
    {
      && handled0 <= handled && delivered0 <= delivered && unencoded0 <= unencoded
      && Pongs(handled0) <= Pongs(handled) && Undelivered(handled0, delivered0) <= Undelivered(handled, delivered)
      && (pongReceived <==> pong0 || Pongs(handled0) < Pongs(handled))
      && m.phase == if tooBig then Down(MessageTooBig)
                    else if Undelivered(handled0, delivered0) < Undelivered(handled, delivered) then
                      Down(MessageDecodeError)
                    else if unencoded0 < unencoded then Down(MessageEncodeError) else Up
    }

    static function Pongs(fs: seq<Frame>): nat {
      |OfKind(PONG, fs)|
    }

    /** The number of messages that were not given to the application. */
    static function Undelivered(handled: seq<Frame>, delivered: seq<Frame>): int {
      |OfKind(SERVER_TO_CLIENT_USER, handled)| - |delivered|
    }

    lemma HandledOne(f: Frame, handled0: seq<Frame>, delivered0: seq<Frame>)
      requires handled == handled0 + [f]
      requires delivered == delivered0 + if ForApplication(decodes, f) then [f] else []
      ensures Pongs(handled) == Pongs(handled0) + if f.kind == PONG then 1 else 0
      ensures Undelivered(handled, delivered) ==
              Undelivered(handled0, delivered0) + if Undecodable(decodes, f) then 1 else 0
    {
      hide OfKind;
      KindsDiffer();
      OfKindSnoc(PONG, handled0, f);
      OfKindSnoc(SERVER_TO_CLIENT_USER, handled0, f);
    }

    lemma Facts()
      requires Valid()
      ensures Wired() && trace == m.trace && encoded != input.data && encoded.Length >= HEADER_SIZE && HEADER_SIZE > 0
      ensures keepAliveRunning == m.phase.Up?
      ensures m.phase.Up? ==> isConnected && !reconnectRunning
      ensures (m.phase.Up? <==> stcp.link == Open) && deferred == if m.phase.Down? then 1 else 0
      ensures m.phase.Down? ==> disconnectReason == m.phase.reason && stcp.link == Closed && !isConnected
      ensures m.phase.Down? ==> !keepAliveRunning && !reconnectRunning
      ensures m.phase.Up? || !keepAliveRunning
      ensures InStep() && Incoming() && Outgoing()
    {
      hide Parse, Run, Legal;
    }

    lemma InputFacts()
      requires InputOk()
      ensures input.size + input.left <= input.cap <==> !tooBig
    {
      hide Parse;
    }

    lemma ReadFacts()
      requires Valid() && InputOk() && !tooBig
      ensures input.InBuffer() && input.Awaiting() && input.left > 0 && input.Prefix() == unparsed
      ensures m.phase.Up? <==> stcp.link == Open
    {
      hide Parse, Run, Legal;
    }

    /** One read in the loop of on_stcp_input. A frame that it completes is still to be dealt
        with. */
    method ReadSome() returns (n: nat, p: Progress)
      requires Valid() && InputOk() && !tooBig
      modifies input, input.data, stcp`received, stcp`arriving, this`unparsed, this`tooBig
      ensures stcp.arriving == old(stcp.arriving) - n && tooBig == (n > 0 && p.TooBig?)
      ensures n == 0 ==> !m.phase.Up? || stcp.arriving == 0
      ensures n > 0 ==> m.phase.Up?
      ensures if n > 0 && p.Complete? then Due(p.frame) && unparsed == [] else Valid() && InputOk()
    {
      hide Parse, Run, Legal, Asks, Flags, InStep, Outgoing, Wired, ToApplication;
      ReadFacts();
      ghost var before, prefix, stream := input.data[..], input.Prefix(), carried + stcp.received;
      ghost var chunk;
      p := Partial;
      n, chunk := stcp.Read(input.data, input.base + input.size, input.left);
      assert input.data[..input.base + input.size] == before[..input.base + input.size];
      assert input.Prefix() == prefix;
      assert carried + stcp.received == stream + chunk;
      if n == 0 {
        assert stream + chunk == stream;
        return;
      }
      assert input.data[input.base + input.size..input.base + input.size + n] == chunk;
      p := input.Advance(n);
      assert input.Prefix() == prefix + chunk;
      if p.Partial? {
        input.AwaitingIsUnparsed();
      }
      ParseAppend(stream, chunk, input.cap);
      ghost var q := Parse(input.Prefix(), input.cap);
      unparsed, tooBig := q.rest, q.tooBig;
      if p.Complete? {
        ToApplicationSnoc(decodes, handled, p.frame);
      } else {
        assert handled + q.frames == handled;
      }
    }

    method FreshInput()
      requires Wired() && unparsed == [] && !tooBig
      modifies input
      ensures InputOk()
    {
      input.Reset();
      input.AwaitingIsUnparsed();
    }

    /** on_stcp_input: all that has arrived is read and dealt with, unless the connection is given
        up; HeardSince tells why, and whether a pong was received. */
    method OnStcpInput()
      requires Valid() && InputOk() && m.phase.Up? && !tooBig
      modifies this, input, input.data, stcp, encoded
      ensures Valid() && InputOk() && old(steps) <= steps && trace == old(trace)
      ensures HeardSince(old(handled), old(delivered), old(unencoded), old(pongReceived))
      ensures m.phase.Up? ==> stcp.arriving == 0
    {
      hide *;
      NothingHeard();
      var go := true;
      while go
        invariant Valid() && InputOk() && old(steps) <= steps && trace == old(trace)
        invariant HeardSince(old(handled), old(delivered), old(unencoded), old(pongReceived))
        invariant tooBig ==> !go
        invariant !go && m.phase.Up? ==> stcp.arriving == 0
        decreases stcp.arriving, go
      {
        go := ReadRound(old(handled), old(delivered), old(unencoded), old(pongReceived));
      }
    }

    lemma NothingHeard()
      requires m.phase.Up? && !tooBig
      ensures HeardSince(handled, delivered, unencoded, pongReceived)
    {
    }

    /** One round of the loop of on_stcp_input; `go` says whether it goes on. */
    method ReadRound(ghost handled0: seq<Frame>, ghost delivered0: seq<Frame>, ghost unencoded0: nat, ghost pong0: bool)
      returns (go: bool)
      requires Valid() && InputOk() && !tooBig && HeardSince(handled0, delivered0, unencoded0, pong0)
      modifies this, input, input.data, stcp, encoded
      ensures Valid() && InputOk() && old(steps) <= steps && trace == old(trace)
      ensures HeardSince(handled0, delivered0, unencoded0, pong0)
      ensures go ==> !tooBig && stcp.arriving < old(stcp.arriving)
      ensures stcp.arriving <= old(stcp.arriving) && (!go && m.phase.Up? ==> stcp.arriving == 0)
    {
      hide *;
      Facts();
      HeardFacts(handled0, delivered0, unencoded0, pong0);
      var n, p := ReadSome();
      if n > 0 && p.Complete? {
        HandleMessage(p.frame);
        Facts();
        FreshInput();
        HandledOne(p.frame, old(handled), old(delivered));
        HeardMore(p.frame, old(handled), old(delivered), old(unencoded), old(pongReceived), handled0, delivered0,
                  unencoded0, pong0);
        return true;
      }
      if n > 0 && p.TooBig? {
        DisconnectAndStartReconnectTimer(MessageTooBig);
        TooBigFacts(old(m));
        HeardTooBig(handled0, delivered0, unencoded0, pong0);
        return false;
      }
      HeardSame(handled0, delivered0, unencoded0, pong0, old(m));
      return n > 0;
    }

    lemma TooBigFacts(m0: Machine)
      ensures m == Machine(Down(MessageTooBig), m0.trace) ==> m.phase == Down(MessageTooBig)
    {
    }

    lemma HeardFacts(handled0: seq<Frame>, delivered0: seq<Frame>, unencoded0: nat, pong0: bool)
      requires HeardSince(handled0, delivered0, unencoded0, pong0)
      ensures handled0 <= handled && delivered0 <= delivered && unencoded0 <= unencoded
      ensures Pongs(handled0) <= Pongs(handled) && Undelivered(handled0, delivered0) <= Undelivered(handled, delivered)
      ensures pongReceived <==> pong0 || Pongs(handled0) < Pongs(handled)
      ensures m.phase.Up? ==>
          Undelivered(handled0, delivered0) == Undelivered(handled, delivered) && unencoded0 == unencoded
      ensures m.phase == if tooBig then Down(MessageTooBig)
                         else if Undelivered(handled0, delivered0) < Undelivered(handled, delivered) then
                           Down(MessageDecodeError)
                         else if unencoded0 < unencoded then Down(MessageEncodeError) else Up
    {
    }

    lemma HeardSame(handled0: seq<Frame>, delivered0: seq<Frame>, unencoded0: nat, pong0: bool, m0: Machine)
      requires m == m0 && !tooBig
      requires handled0 <= handled && delivered0 <= delivered && unencoded0 <= unencoded
      requires Pongs(handled0) <= Pongs(handled) && Undelivered(handled0, delivered0) <= Undelivered(handled, delivered)
      requires pongReceived <==> pong0 || Pongs(handled0) < Pongs(handled)
      requires m0.phase == if Undelivered(handled0, delivered0) < Undelivered(handled, delivered) then
                             Down(MessageDecodeError)
                           else if unencoded0 < unencoded then Down(MessageEncodeError) else Up
      ensures HeardSince(handled0, delivered0, unencoded0, pong0)
    {
    }

    lemma HeardTooBig(handled0: seq<Frame>, delivered0: seq<Frame>, unencoded0: nat, pong0: bool)
      requires m.phase == Down(MessageTooBig) && tooBig
      requires handled0 <= handled && delivered0 <= delivered && unencoded0 <= unencoded
      requires Pongs(handled0) <= Pongs(handled) && Undelivered(handled0, delivered0) <= Undelivered(handled, delivered)
      requires pongReceived <==> pong0 || Pongs(handled0) < Pongs(handled)
      ensures HeardSince(handled0, delivered0, unencoded0, pong0)
    {
    }

    lemma HeardMore(f: Frame, handled1: seq<Frame>, delivered1: seq<Frame>, unencoded1: nat, pong1: bool,
                    handled0: seq<Frame>, delivered0: seq<Frame>, unencoded0: nat, pong0: bool)
      requires handled0 <= handled1 <= handled && delivered0 <= delivered1 <= delivered
      requires unencoded0 == unencoded1 <= unencoded && !tooBig
      requires Pongs(handled0) <= Pongs(handled1) && (pong1 <==> pong0 || Pongs(handled0) < Pongs(handled1))
      requires Undelivered(handled0, delivered0) == Undelivered(handled1, delivered1)
      requires pongReceived == (f.kind == PONG || pong1)
      requires Pongs(handled) == Pongs(handled1) + if f.kind == PONG then 1 else 0
      requires Undelivered(handled, delivered) ==
               Undelivered(handled1, delivered1) + if Undecodable(decodes, f) then 1 else 0
      requires m.phase == if Undecodable(decodes, f) then Down(MessageDecodeError)
                          else if unencoded > unencoded1 then Down(MessageEncodeError) else Up
      ensures HeardSince(handled0, delivered0, unencoded0, pong0)
    {
    }

    /** NAME_client_stop. Nothing is called any more, except that a call that was deferred
        before is still due. */
    method Stop()
      requires Valid()
      modifies this`keepAliveRunning, this`reconnectRunning, this`m, this`steps, stcp`link
      ensures m.phase.Idle? && trace == old(trace) && steps == old(steps) + [ClientMachine.Stop] && InStep()
      ensures stcp.link == Closed && !keepAliveRunning && !reconnectRunning
      ensures deferred == if old(m).phase.Down? then 1 else 0
    {
      hide Parse, Run, Legal;
      stcp.link := Closed;
      reconnectRunning := false;
      keepAliveRunning := false;
      Extend(steps, ClientMachine.Stop);
      steps, m := steps + [ClientMachine.Stop], m.After(ClientMachine.Stop);
    }
  }
}
