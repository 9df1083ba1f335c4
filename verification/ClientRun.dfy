/** Runs of the Linux client. */
module ClientRun {
  import opened Messages
  import opened ClientMachine
  import opened LinuxClient

  /** What can happen to a client: an event on any descriptor, a call by the application
      from outside the callbacks, or something in another part of the process. */
  datatype Event =
    | OnDescriptor(fd: nat, arriving: nat)
    | OnStart
    | OnSend(message: Message)
    | OnStop
    | OnElsewhere

  /** No number of a closed timer has stayed behind and none has led to a misreport, all
      closes were of the client's own descriptors, and no timer was forgotten. */
  ghost predicate Clean(client: LinuxClient)
    reads client`m, client`keepAliveTimerFd, client`misreports, client`extra, client`unnamed
  {
    && !Stale(client.m.phase, client.keepAliveTimerFd) && client.misreports == client.extra == 0
    && client.unnamed.leaked == {}
  }

  lemma CleanIff(client: LinuxClient)
    ensures Clean(client) <==>
      && !Stale(client.m.phase, client.keepAliveTimerFd) && client.misreports == client.extra == 0
      && client.unnamed.leaked == {}
    ensures Stale(client.m.phase, client.keepAliveTimerFd) <==>
        (client.m.phase.Trying? || client.m.phase.Stuck?) && client.keepAliveTimerFd != -1
  {
  }

  lemma SameBooks(client: LinuxClient, books: Books)
    ensures client.OnBooks() == books <==>
      client.misreports == books.misreports && client.extra == books.extra && client.unnamed == books.unnamed
  {
  }

  /** Every run: whatever events happen in whatever order, and whatever the kernel and
      the application and other parts of the process do, the client is in one of its states,
      with the descriptors of that state open; a lost connection is reported before process
      returns; and the steps taken are steps of the machine. As long as keep-alive timers
      can be registered and armed, the client stays clean. It is started only at rest, and
      sends only while connected or not yet reported as disconnected. */
  method Run(client: LinuxClient, events: seq<Event>)
    requires client.Valid() && client.InputOk()
    requires forall e :: e in events && e.OnSend? ==> Encodable(e.message)
    modifies client, client.input, client.input.data, client.encoded
    modifies client.k`st, client.k`stalls, client.k`calls, client.k`arriving
    ensures client.Valid() && client.InputOk()
    ensures events != [] && events[|events| - 1].OnDescriptor? ==>
        !client.m.phase.Down? || !client.MayOccur(events[|events| - 1].fd)
    ensures old(client.steps) <= client.steps && Grown(old(client.log), client.log)
    ensures client.k.steady && old(Clean(client)) ==> Clean(client)
  {
    hide *;
    GrownSame(client.log);
    for n := 0 to |events|
      invariant client.Valid() && client.InputOk()
      invariant old(client.steps) <= client.steps && Grown(old(client.log), client.log)
      invariant n > 0 && events[n - 1].OnDescriptor? ==> !client.m.phase.Down? || !client.MayOccur(events[n - 1].fd)
      invariant client.k.steady && old(Clean(client)) ==> Clean(client)
    {
      client.Facts();
      client.WiredFacts();
      client.Connected();
      client.RestingIffAtRest();
      ghost var log1 := client.log;
      GrownSame(log1);
      CleanIff(client);
      SameBooks(client, client.OnBooks());
      match events[n] {
        case OnDescriptor(fd, arriving) =>
          if client.MayOccur(fd) {
            ghost var phase, books := client.m.phase, client.OnBooks();
            ghost var keepAlive, reconnect := client.keepAliveTimerFd, client.reconnectTimerFd;
            ghost var mid := client.Process(fd, arriving);
            NothingBooked(phase, keepAlive, reconnect, books, client.OnBooks());
            SameBooks(client, books);
          }
        case OnStart =>
          if client.Resting() {
            client.Start();
          }
        case OnSend(message) =>
          if client.serverFd >= 0 || client.pendingDisconnect {
            client.SocketIffConnected();
            client.Send(message);
          }
        case OnStop =>
          client.Stop();
        case OnElsewhere =>
          client.Elsewhere();
      }
      GrownTrans(old(client.log), log1, client.log);
      client.Connected();
      CleanIff(client);
    }
  }

  /** A client that reconnects finds in its buffer what the last connection left there: it
      may read from the new one exactly unless that is the header of a frame too large. */
  method Reconnect(client: LinuxClient)
    requires client.Valid() && client.InputOk() && client.m.phase.Trying? && client.k.obliging
    modifies client`serverFd, client`keepAliveTimerFd, client`reconnectTimerFd, client`pendingDisconnect
    modifies client`disconnectReason, client`pongReceived, client`trace, client`m, client`steps, client`conn
    modifies client`log, client.k`st, client.k`stalls, client.k`calls, client.encoded
    ensures client.Valid() && client.InputOk() && client.Engaged()
    ensures client.m.phase.Up? ==> (client.MayOccur(client.serverFd) <==> !old(client.tooBig))
  {
    hide *;
    client.ProcessReconnectTimer();
    client.MayReadIff();
  }
}
