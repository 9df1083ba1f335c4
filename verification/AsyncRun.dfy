/** Runs of the async client. */
module AsyncRun {
  import opened Messages
  import opened ClientMachine
  import opened AsyncClient

  /** What the event loop can call, and the application from outside the callbacks. */
  datatype Event =
    | ReconnectTimeout
    | KeepAliveTimeout
    | StcpConnected(ok: bool)
    | StcpDisconnected
    | StcpInput(arriving: nat)
    | DeferredCall
    | OnSend(message: Message)
    | OnStop

  /** Every run from start to stop: the event loop makes the calls that are due, in any
      order, and the application sends whenever it likes. At most one call is deferred,
      exactly while a lost connection has not been reported, and the steps taken are steps
      of the machine. Nothing is read behind the header of a frame that is too large. The
      run ends when the client is stopped; then no timer runs and the stream is closed. */
  method Run(client: AsyncClient, events: seq<Event>) returns (stopped: bool)
    requires client.Valid() && client.InputOk()
    requires forall e :: e in events && e.OnSend? ==> Encodable(e.message)
    modifies client, client.input, client.input.data, client.encoded, client.stcp
    ensures old(client.steps) <= client.steps && client.InStep()
    ensures !stopped ==> client.Valid() && client.InputOk() && OnStop !in events
    ensures !stopped ==> client.deferred == if client.m.phase.Down? then 1 else 0
    ensures stopped ==> client.m.phase.Idle? && client.deferred <= 1
    ensures stopped ==> client.stcp.link == Closed && !client.keepAliveRunning && !client.reconnectRunning
  {
    hide *;
    stopped := false;
    for n := 0 to |events|
      invariant client.Valid() && client.InputOk() && old(client.steps) <= client.steps && OnStop !in events[..n]
    {
      client.Facts();
      client.InputFacts();
      assert events[..n + 1] == events[..n] + [events[n]];
      match events[n] {
        case ReconnectTimeout =>
          if client.reconnectRunning {
            client.OnReconnectTimeout();
          }
        case KeepAliveTimeout =>
          if client.keepAliveRunning {
            client.OnKeepAliveTimeout();
          }
        case StcpConnected(ok) =>
          if client.stcp.link == Connecting {
            client.OnStcpConnected(ok);
          }
        case StcpDisconnected =>
          if client.stcp.link != Connecting {
            client.OnStcpDisconnected();
          }
        case StcpInput(arriving) =>
          client.stcp.arriving := arriving;
          if client.stcp.link == Open && client.input.size + client.input.left <= client.input.cap {
            client.OnStcpInput();
          }
        case DeferredCall =>
          if client.deferred > 0 {
            client.OnDisconnected();
          }
        case OnSend(message) =>
          client.Send(message);
        case OnStop =>
          client.Stop();
          return true;
      }
    }
    client.Facts();
    assert events[..|events|] == events;
  }
}
