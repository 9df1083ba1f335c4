/** What the invariants of the server and the clients mean to their users: descriptors,
    bytes, callbacks, broadcasts, and frames from end to end. */
module Guarantees {
  import opened Header
  import opened Framing
  import opened Messages
  import opened Input
  import opened Clients
  import opened Output
  import opened Slots
  import opened ServerState
  import opened Server
  import LC = LinuxClient
  import AC = AsyncClient
  import M = ClientMachine
  import K = Kernel

  // ----- the server, between calls -----

  /** A connected client uses its socket and its timer, a pending one its timer. */
  ghost predicate UsedBy(s: State, fd: int, i: nat)
    requires s.Sizes() && i < |s.slots|
  {
    match s.lists.home[i]
    case Free => false
    case Connected => fd == s.slots[i].fd || fd == s.slots[i].timer
    case Pending => fd == s.slots[i].timer
  }

  /** Once the server is started, the listener is in use for ever. */
  predicate UsedByListener(s: State, fd: int) {
    s.listener != NONE && fd == s.listener
  }

  lemma UsersOwn(s: State, fd: int, i: nat)
    requires s.Inv() && s.closing == NONE && i < |s.slots| && UsedBy(s, fd, i)
    ensures fd in s.owner && (s.owner[fd] == SocketOf(i) || s.owner[fd] == TimerOf(i))
  {
    hide Parse, EncodeAll, Lists.Ok, State.ConnOk;
    assert s.SlotOk(i);
  }

  lemma OwnersUse(s: State, fd: int)
    requires s.Inv() && s.closing == NONE && fd in s.owner
    ensures match s.owner[fd]
            case ListenerOf => UsedByListener(s, fd)
            case SocketOf(i) => i < |s.slots| && UsedBy(s, fd, i)
            case TimerOf(i) => i < |s.slots| && UsedBy(s, fd, i)
  {
    hide Parse, EncodeAll, Lists.Ok, State.ConnOk, State.SlotOk;
    assert s.RoleOk(fd);
    assert s.k.Ok();
  }

  lemma OpenAreOwned(s: State, fd: int)
    requires s.Inv()
    ensures s.k.strays == 0 && (fd in s.k.open <==> fd in s.owner) && (fd in s.k.epoll <==> fd in s.owner)
  {
    hide Lists.Ok, State.ConnOk, State.SlotOk, State.RoleOk;
  }

  /** In every state between calls, exactly the listener of a server that was started and the
      descriptors of the clients are open, and exactly those are in the epoll set. No
      descriptor has two uses, and none was ever closed twice. */
  lemma DescriptorsInUse(s: State, fd: int)
    requires s.Inv() && s.closing == NONE
    ensures s.Sizes() && s.k.strays == 0 && (fd in s.k.open <==> fd in s.k.epoll)
    ensures fd in s.k.open <==> UsedByListener(s, fd) || (exists i :: 0 <= i < |s.slots| && UsedBy(s, fd, i))
    ensures UsedByListener(s, fd) ==> forall i :: 0 <= i < |s.slots| ==> !UsedBy(s, fd, i)
    ensures UsedByListener(s, fd) ==>
        fd in s.k.open && s.k.open[fd] == K.Listener && fd in s.k.epoll && s.k.epoll[fd] == K.In
    ensures forall i, j :: 0 <= i < |s.slots| && 0 <= j < |s.slots| && UsedBy(s, fd, i) && UsedBy(s, fd, j) ==> i == j
  {
    hide *;
    InvSizes(s);
    OpenAreOwned(s, fd);
    forall i | 0 <= i < |s.slots| && UsedBy(s, fd, i)
      ensures fd in s.owner && (s.owner[fd] == SocketOf(i) || s.owner[fd] == TimerOf(i))
    {
      UsersOwn(s, fd, i);
    }
    if UsedByListener(s, fd) {
      ListenerRole(s, fd);
    }
    if fd in s.owner {
      OwnersUse(s, fd);
    }
  }

  /** What a server in memory adds to the state it holds. */
  lemma ServerFacts(server: Server)
    requires server.Valid() && server.Idle()
    ensures server.s.Inv() && server.k.st == server.s.k && server.s.cap == server.cap
    ensures server.s.decodes == server.decodes
    ensures server.s.writing == NONE && server.s.busy == NONE && server.s.closing == NONE && server.s.Sizes()
    ensures server.s.answering == NONE
    ensures server.s.listener != NONE ==> server.listenerFd == server.s.listener
  {
    hide State.SlotOk, State.ConnOk, State.DescriptorsOk, Lists.Ok, ClientLists.Valid, Pool;
    hide Server.SlotsMatch, Server.OutputsMatch, Server.InputsMatch;
    if server.s.listener != NONE {
      ListenerRole(server.s, server.s.listener);
    }
  }

  /** The same of the kernel and the server in memory; the listener of a server that was
      started is open and registered. */
  lemma OpenDescriptors(server: Server, fd: int)
    requires server.Valid() && server.Idle()
    ensures server.s.Sizes() && server.k.st.strays == 0
    ensures var s, st := server.s, server.k.st;
      && (fd in st.open <==> fd in st.epoll)
      && (fd in st.open <==>
            (s.listener != NONE && fd == server.listenerFd) || (exists i :: 0 <= i < |s.slots| && UsedBy(s, fd, i)))
      && (s.listener != NONE && fd == server.listenerFd ==>
            fd in st.open && st.open[fd] == K.Listener && fd in st.epoll && st.epoll[fd] == K.In)
  {
    hide *;
    ServerFacts(server);
    DescriptorsInUse(server.s, fd);
    assert UsedByListener(server.s, fd) <==> server.s.listener != NONE && fd == server.listenerFd by {
      ListenerIs(server.s, fd);
    }
  }

  lemma ListenerIs(s: State, fd: int)
    ensures UsedByListener(s, fd) <==> s.listener != NONE && fd == s.listener
  {
  }

  lemma ListenerRole(s: State, fd: int)
    requires s.Inv() && UsedByListener(s, fd)
    ensures fd in s.owner && s.owner[fd] == ListenerOf
    ensures fd in s.k.open && s.k.open[fd] == K.Listener && fd in s.k.epoll && s.k.epoll[fd] == K.In
  {
    hide State.SlotOk, State.ConnOk, Lists.Ok;
    assert s.RoleOk(fd);
  }

  /** In every state between calls, the items of a slot's output queue that have not been freed
      are those of its chain while the slot is connected, and none otherwise. Every item ever
      allocated for the slot is one of these or was freed, once, exactly as long as no drain
      failed after it had freed items and nothing was put on a chain that had been freed. */
  lemma ItemsReleased(server: Server, c: Client)
    requires server.Valid() && server.Idle() && c in server.clients
    ensures c.slot < |server.s.lists.home|
    ensures c.output.live == if server.s.lists.home[c.slot] == Connected then c.output.items else []
    ensures var q := c.output;
      && ((forall x :: x in q.created ==> multiset(q.released)[x] + multiset(q.live)[x] == 1) <==>
            q.again == [] && q.leaked == [])
      && ((forall x :: multiset(q.released)[x] <= 1) <==> q.again == [])
      && ((forall x :: x in q.created ==> x in q.released || x in q.live) <==> q.leaked == [])
  {
    hide *;
    server.LedgerOf(c);
    var q := c.output;
    FreedOnceIff(q.created, q.released, q.live, q.again, q.leaked);
  }

  lemma ConnectedFacts(s: State, i: nat)
    requires s.Inv() && i < |s.slots| && s.lists.home[i] == Connected && s.writing == NONE && s.busy == NONE
    ensures var a := s.slots[i];
      && a.conn < |s.sent| == |s.handled| == |s.k.conns|
      && a.fd in s.k.open && s.k.open[a.fd] == K.Stream(a.conn)
      && a.fd in s.k.epoll && s.k.epoll[a.fd] == (if a.queued == [] then K.In else K.InOut)
      && s.k.conns[a.conn].sent + a.queued == EncodeAll(s.sent[a.conn])
      && Parse(s.k.conns[a.conn].received, s.cap) == Parsed(s.handled[a.conn], a.input, false)
  {
    hide Parse, EncodeAll, Lists.Ok, State.ConnOk, State.DescriptorsOk;
    assert s.SlotOk(i);
    var a := s.slots[i];
    assert s.k.conns[a.conn].sent + a.queued + [] == s.k.conns[a.conn].sent + a.queued;
  }

  lemma ClientFacts(server: Server, i: nat)
    requires server.Valid() && server.Idle() && i < |server.clients|
    ensures i < |server.s.slots| == |server.s.lists.home| && server.s.cap == server.cap
    ensures server.s.decodes == server.decodes
    ensures var c, a := server.clients[i], server.s.slots[i];
      && c.clientFd == a.fd && c.keepAliveTimerFd == a.timer && c.trace == a.trace
      && (server.s.lists.home[i] != Free ==> c.output.Valid() && c.output.queued == a.queued)
      && (server.s.lists.home[i] == Connected ==> c.input.Awaiting() && c.input.Prefix() == a.input)
      && c.input.cap == server.cap
  {
    hide State.Inv, OutputQueue.Valid, Input.Awaiting, ClientLists.Valid;
    assert server.WiredClient(server.clients[i], i);
    assert server.s.lists.home[i] != Free ==> server.OutputMatches(server.s.slots, i);
  }

  /** Nothing that was given to client_write is lost, duplicated or reordered: the bytes
      the socket took, and behind them those of the queued items, are the frames written
      since the client was accepted. The queue is a proper chain, and the server waits
      for writability exactly while it is not empty. */
  lemma BytesConserved(server: Server, i: nat)
    requires server.Valid() && server.Idle() && i < |server.clients| == |server.s.lists.home|
    requires server.s.lists.home[i] == Connected
    ensures i < |server.s.slots| && server.s.slots[i].conn < |server.s.sent| == |server.k.st.conns|
    ensures var c, conn, st := server.clients[i], server.s.slots[i].conn, server.k.st;
      && c.clientFd in st.open && st.open[c.clientFd] == K.Stream(conn)
      && st.conns[conn].sent + Unwritten(c.output.items) == EncodeAll(server.s.sent[conn])
      && c.output.Linked()
      && c.clientFd in st.epoll && (st.epoll[c.clientFd] == K.InOut <==> c.output.head != null)
  {
    hide *;
    ServerFacts(server);
    ClientFacts(server, i);
    ConnectedFacts(server.s, i);
    QueueFacts(server.clients[i].output);
  }

  lemma QueueFacts(q: OutputQueue)
    requires q.Valid()
    ensures q.Linked() && q.queued == Unwritten(q.items) && (q.head == null <==> q.queued == [])
  {
  }

  /** In every state between calls, on every connection there ever was: each frame that has come
      completely has been dealt with, in order, but for a last one that was rejected; none was
      taken that is not acceptable; every ping taken was answered by exactly one pong; and the
      application was given exactly the user messages, in order. For a client that is connected
      there is no exception. */
  lemma AllDealtWith(s: State, c: nat)
    requires s.Inv() && s.answering == NONE && s.busy == NONE && c < |s.sent|
    ensures |s.sent| == |s.complete| == |s.handled| == |s.delivered| == |s.k.conns| && |s.slots| == |s.lists.home|
    ensures Parse(s.k.conns[c].received, s.cap).frames == s.complete[c]
    ensures s.handled[c] <= s.complete[c] && |s.complete[c]| <= |s.handled[c]| + 1
    ensures forall f :: f in s.handled[c] ==> s.Acceptable(f)
    ensures s.delivered[c] == OfKind(CLIENT_TO_SERVER_USER, s.handled[c])
    ensures |OfKind(PONG, s.sent[c])| == |OfKind(PING, s.handled[c])|
    ensures forall i :: 0 <= i < |s.slots| && s.lists.home[i] == Connected && s.slots[i].conn == c ==>
        s.handled[c] == s.complete[c]
  {
    hide Parse, EncodeAll, Lists.Ok, State.DescriptorsOk, OfKind, State.Acceptable;
    assert s.ConnOk(c);
    forall i | 0 <= i < |s.slots| && s.lists.home[i] == Connected && s.slots[i].conn == c
      ensures s.handled[c] == s.complete[c]
    {
      assert s.SlotOk(i);
    }
  }

  /** Reassembly is in step with the stream: the frames handled are those a pure parser
      finds in all bytes received on the connection, and the client's slice of the buffer
      holds the unparsed rest, with room for the read that completes it. */
  lemma Reassembled(server: Server, i: nat)
    requires server.Valid() && server.Idle() && i < |server.clients| == |server.s.lists.home|
    requires server.s.lists.home[i] == Connected
    ensures i < |server.s.slots| && server.s.slots[i].conn < |server.s.handled| == |server.k.st.conns|
    ensures var p, conn := server.clients[i].input, server.s.slots[i].conn;
      && p.Awaiting()
      && Parse(server.k.st.conns[conn].received, server.cap) == Parsed(server.s.handled[conn], p.Prefix(), false)
  {
    hide *;
    ServerFacts(server);
    ClientFacts(server, i);
    ConnectedFacts(server.s, i);
  }

  // ----- broadcasts -----

  /** Slot i is still connected, and frame f is behind all the frames written to it in s. */
  ghost predicate FrameBehind(s: State, t: State, f: Frame, i: nat) {
    && i < |s.slots| && i < |t.slots| == |t.lists.home| && t.lists.home[i] == Connected
    && (var c := s.slots[i].conn;
        c < |s.sent| && c < |t.k.conns| && t.k.conns[c].sent + t.slots[i].queued == EncodeAll(s.sent[c]) + Encode(f))
  }

  /** A broadcast reaches every client that was connected when it began, once: the frame
      is behind everything sent to the client before, or the client is to be disconnected.
      Other connections get nothing. */
  lemma BroadcastReaches(s: State, t: State, f: Frame, i: nat)
    requires s.Inv() && t.Inv() && t.writing == NONE && t.busy == NONE
    requires BroadcastTo(s, t, f, |s.lists.connected|) && i < |s.slots|
    ensures i < |t.slots| == |s.slots| && t.slots[i].conn == s.slots[i].conn
    ensures s.lists.home[i] == Connected ==> t.lists.home[i] == Pending || FrameBehind(s, t, f, i)
    ensures s.lists.home[i] == Pending ==> s.slots[i].conn < |s.sent| && SentSame(s, t, s.slots[i].conn)
  {
    hide *;
    BroadcastFacts(s, t, f, i);
    EvolvedHome(s, t, i);
    if s.lists.home[i] == Connected {
      EncodeAllSnoc(s.sent[s.slots[i].conn], f);
      if t.lists.home[i] == Connected {
        ConnectedFacts(t, i);
        InvSizes(t);
        MakeFrameBehind(s, t, f, i);
      }
    }
  }

  lemma MakeFrameBehind(s: State, t: State, f: Frame, i: nat)
    requires i < |s.slots| && i < |t.slots| == |t.lists.home| && t.lists.home[i] == Connected
    requires s.slots[i].conn < |s.sent|
    requires s.slots[i].conn < |t.k.conns|
    requires t.k.conns[s.slots[i].conn].sent + t.slots[i].queued == EncodeAll(s.sent[s.slots[i].conn]) + Encode(f)
    ensures FrameBehind(s, t, f, i)
  {
  }

  lemma BroadcastFacts(s: State, t: State, f: Frame, i: nat)
    requires s.Inv() && t.Inv() && BroadcastTo(s, t, f, |s.lists.connected|) && i < |s.slots|
    ensures Evolved(s, t) && s.Sizes() && t.Sizes() && i < |t.slots| == |s.slots|
    ensures s.lists.home[i] != Free ==> s.slots[i].conn < |s.sent| == |t.sent|
    ensures s.lists.home[i] == Connected ==>
        t.lists.home[i] in {Connected, Pending} && t.sent[s.slots[i].conn] == s.sent[s.slots[i].conn] + [f]
    ensures s.lists.home[i] == Pending ==> SentSame(s, t, s.slots[i].conn)
  {
    hide Parse, EncodeAll, Encode, State.ConnOk, State.DescriptorsOk, State.ConnectedOk, Lists.Ok;
    var all := s.lists.connected;
    assert all[..|all|] == all;
    assert SameOrLost(s.lists.home[i], t.lists.home[i]);
    if s.lists.home[i] != Free {
      StreamOf(s, i);
    }
    if s.lists.home[i] == Connected {
      InvSizes(s);
      Listed(s, i);
      assert SentOneMore(s, t, s.slots[i].conn, f);
    }
    if s.lists.home[i] == Pending {
      forall j | 0 <= j < |s.slots| && j in all ensures s.slots[j].conn != s.slots[i].conn {
        ConnectedMember(s, j);
      }
    }
  }

  // ----- one event -----

  /** What the dispatch of an event does to a slot, before the pending are destroyed. */
  ghost predicate DispatchedSlot(h: Home, h': Home, a: Slot, b: Slot, conns: nat) {
    match h
    case Free =>
      (h' == Free && b.trace == a.trace) || (h' != Free && b.trace == a.trace + [ClientConnected] && b.conn == conns)
    case Connected => h' != Free && b.trace == a.trace && b.conn == a.conn && SameOrClosed(a.fd, b.fd)
    case Pending => h' == Pending && b.trace == a.trace && b.conn == a.conn
  }

  lemma DispatchFacts(s: State, mid: State, fd: int, listener: int, j: nat)
    requires s.Inv() && mid.Sizes() && Dispatched(s, mid, fd, listener) && j < |s.slots| == |mid.slots|
    ensures DispatchedSlot(s.lists.home[j], mid.lists.home[j], s.slots[j], mid.slots[j], |s.sent|)
  {
    hide State.SlotOk, State.ConnOk, State.DescriptorsOk, State.ConnsDistinct;
    if fd == listener {
      if OneClient(s, mid) && j != s.lists.free[0] {
        assert SameClient(s.slots[j], mid.slots[j]) && SameOrLost(s.lists.home[j], mid.lists.home[j]);
      }
    } else if !(Unmatched(s, fd, s.lists.connected) && mid == s) {
      var i :| 0 <= i < |s.slots| && ByClient(s, mid, fd, i);
      ServedSlot(s, mid, fd, i, j);
    }
  }

  lemma ServedSlot(s: State, mid: State, fd: int, i: nat, j: nat)
    requires s.Sizes() && mid.Sizes() && i < |s.slots| && ByClient(s, mid, fd, i) && j < |s.slots| == |mid.slots|
    ensures DispatchedSlot(s.lists.home[j], mid.lists.home[j], s.slots[j], mid.slots[j], |s.sent|)
  {
    hide Lists.Ok;
    if s.slots[i].fd == fd && Served(s, mid, i) {
      assert SameOrLost(s.lists.home[j], mid.lists.home[j]);
      assert j != i ==> SameClient(s.slots[j], mid.slots[j]);
    }
  }

  /** What one call of process does to a slot: nobody is left pending, whoever was is
      announced as disconnected, and so is whoever is lost in the call; a slot whose set-up
      failed is not announced at all. */
  ghost predicate ProcessedSlot(h: Home, h': Home, a: Slot, b: Slot) {
    match h
    case Free =>
      || (h' == Free && (b.trace == a.trace || b.trace == a.trace + [ClientConnected, ClientDisconnected]))
      || (h' == Connected && b.trace == a.trace + [ClientConnected])
    case Connected =>
      || (h' == Connected && b.trace == a.trace && b.conn == a.conn)
      || (h' == Free && b.trace == a.trace + [ClientDisconnected])
    case Pending => h' == Free && b.trace == a.trace + [ClientDisconnected]
  }

  lemma CallbacksOfProcess(s: State, mid: State, t: State, fd: int, listener: int, j: nat)
    requires s.Inv() && t.Inv() && Dispatched(s, mid, fd, listener) && Cleared(mid, t) && t.lists.pending == []
    requires j < |s.slots| == |t.slots|
    ensures ProcessedSlot(s.lists.home[j], t.lists.home[j], s.slots[j], t.slots[j])
    ensures Alternates(t.slots[j].trace) && (Live(t.slots[j].trace) <==> t.lists.home[j] == Connected)
  {
    hide State.ConnOk, State.DescriptorsOk, State.ConnsDistinct, State.ConnectedOk, Dispatched;
    NonePending(t, j);
    DispatchFacts(s, mid, fd, listener, j);
    assert KeptOrCleared(mid.lists.home[j], t.lists.home[j], mid.slots[j], t.slots[j]);
    TraceFacts(t, j);
    var a := s.slots[j].trace;
    assert (a + [ClientConnected]) + [ClientDisconnected] == a + [ClientConnected, ClientDisconnected];
  }

  lemma NonePending(t: State, j: nat)
    requires t.Inv() && t.lists.pending == [] && j < |t.slots|
    ensures t.lists.home[j] != Pending
  {
  }

  lemma TraceFacts(t: State, j: nat)
    requires t.Inv() && j < |t.slots| && t.lists.home[j] != Pending
    ensures Alternates(t.slots[j].trace) && (Live(t.slots[j].trace) <==> t.lists.home[j] != Free)
  {
    assert t.SlotOk(j);
  }

  /** An event on another descriptor does not change what a client has sent so far: not
      its unfinished frame, nor the frames handled or the bytes received for it. */
  lemma OthersUntouched(s: State, mid: State, t: State, fd: int, listener: int, j: nat)
    requires s.Inv() && t.Inv() && Dispatched(s, mid, fd, listener) && Cleared(mid, t) && t.lists.pending == []
    requires j < |s.slots| == |t.slots| && s.lists.home[j] == Connected == t.lists.home[j] && s.slots[j].fd != fd
    ensures s.slots[j].conn == t.slots[j].conn < |s.sent| && SameInput(s, t, j)
  {
    hide State.ConnOk, State.DescriptorsOk, State.ConnectedOk, Lists.Ok, Dispatched, DispatchedSlot, KeptOrCleared;
    StreamOf(s, j);
    InputAfterDispatch(s, mid, fd, listener, j);
    InputAfterClearing(mid, t, j);
  }

  /** The reassembly state of a client is the same in both states. */
  ghost predicate SameInput(s: State, t: State, j: nat) {
    && j < |s.slots| && j < |t.slots| && t.slots[j].conn == s.slots[j].conn && t.slots[j].input == s.slots[j].input
    && (var c := s.slots[j].conn;
        && c < |s.complete| && c < |t.complete| && c < |s.k.conns| && c < |t.k.conns|
        && c < |s.handled| && c < |t.handled| && t.complete[c] == s.complete[c] && t.handled[c] == s.handled[c]
        && t.k.conns[c].received == s.k.conns[c].received)
  }

  lemma InputAfterDispatch(s: State, mid: State, fd: int, listener: int, j: nat)
    requires s.Inv() && mid.Sizes() && Dispatched(s, mid, fd, listener) && j < |s.slots| == |mid.slots|
    requires s.lists.home[j] == Connected && s.slots[j].fd != fd && s.slots[j].conn < |s.sent|
    ensures SameInput(s, mid, j) && mid.lists.home[j] != Free
  {
    DispatchFacts(s, mid, fd, listener, j);
    hide State.SlotOk, State.ConnOk, State.DescriptorsOk, Lists.Ok, NoClient, OneClient, ByClient, SameInput;
    hide State.ConnsDistinct;
    if fd == listener && NoClient(s, mid) {
      InputAfterNoClient(s, mid, j);
    } else if fd == listener {
      InputAfterOneClient(s, mid, j);
    } else if !(Unmatched(s, fd, s.lists.connected) && mid == s) {
      var i :| 0 <= i < |s.slots| && ByClient(s, mid, fd, i);
      InputAfterService(s, mid, fd, i, j);
    } else {
      InputSame(s, j);
    }
  }

  lemma InputSame(s: State, j: nat)
    requires s.Sizes() && j < |s.slots| && s.slots[j].conn < |s.sent|
    ensures SameInput(s, s, j)
  {
  }

  lemma InputAfterNoClient(s: State, mid: State, j: nat)
    requires NoClient(s, mid) && j < |s.slots| && s.lists.home[j] == Connected && s.slots[j].conn < |s.sent|
    ensures SameInput(s, mid, j)
  {
    assert SameConn(s, mid, s.slots[j].conn);
  }

  lemma InputAfterOneClient(s: State, mid: State, j: nat)
    requires OneClient(s, mid) && j < |s.slots| && s.lists.home[j] == Connected && s.slots[j].conn < |s.sent|
    ensures SameInput(s, mid, j)
  {
    assert SameClient(s.slots[j], mid.slots[j]);
    assert s.sent[s.slots[j].conn] <= mid.sent[s.slots[j].conn];
  }

  lemma InputAfterService(s: State, mid: State, fd: int, i: nat, j: nat)
    requires s.Inv() && mid.Sizes() && i < |s.slots| && ByClient(s, mid, fd, i)
    requires j < |s.slots| == |mid.slots| && s.lists.home[j] == Connected && s.slots[j].fd != fd
    requires s.slots[j].conn < |s.sent|
    ensures SameInput(s, mid, j)
  {
    hide State.SlotOk, State.ConnOk, State.DescriptorsOk, Lists.Ok;
    if s.slots[i].fd == fd && Served(s, mid, i) {
      assert SameClient(s.slots[j], mid.slots[j]);
      assert s.slots[i].conn != s.slots[j].conn;
    }
  }

  lemma InputAfterClearing(mid: State, t: State, j: nat)
    requires Cleared(mid, t) && j < |mid.slots| && mid.lists.home[j] != Free && t.lists.home[j] == Connected
    requires mid.slots[j].conn < |mid.sent|
    ensures SameInput(mid, t, j)
  {
    assert KeptOrCleared(mid.lists.home[j], t.lists.home[j], mid.slots[j], t.slots[j]);
  }

  // ----- runs of the server -----

  /** What was written to, sent on, received on, handled from and delivered from a connection
      only grows. */
  ghost predicate Grows(s: State, t: State, c: nat) {
    && c < |s.sent| && c < |t.sent| && c < |s.complete| && c < |t.complete| && c < |s.k.conns| && c < |t.k.conns|
    && c < |s.handled| && c < |t.handled| && c < |s.delivered| && c < |t.delivered|
    && s.sent[c] <= t.sent[c] && s.complete[c] <= t.complete[c] && s.handled[c] <= t.handled[c]
    && s.delivered[c] <= t.delivered[c]
    && s.k.conns[c].sent <= t.k.conns[c].sent && s.k.conns[c].received <= t.k.conns[c].received
  }

  /** A client that is connected in t was accepted after s, or it was connected in s, by the
      same socket; and unless an event was for that socket, its unfinished frame and what
      was handled and received for it are the same. */
  ghost predicate KeptSlot(s: State, t: State, j: nat, fds: set<int>)
    requires s.Sizes() && t.Sizes() && j < |s.slots| == |t.slots|
  {
    var a, b := s.slots[j], t.slots[j];
    t.lists.home[j] == Connected ==>
      || b.conn >= |s.sent|
      || (s.lists.home[j] == Connected && b.conn == a.conn && b.fd == a.fd && (a.fd !in fds ==> SameInput(s, t, j)))
  }

  /** From s to t a part of a run with events on the descriptors `fds` has passed. */
  ghost predicate History(s: State, t: State, fds: set<int>) {
    && s.Sizes() && t.Sizes() && |s.slots| == |t.slots| && |s.sent| <= |t.sent| && s.cap == t.cap
    && s.decodes == t.decodes
    && t.listener == s.listener
    && (forall c :: 0 <= c < |s.sent| ==> Grows(s, t, c))
    && (forall j :: 0 <= j < |s.slots| ==> s.slots[j].trace <= t.slots[j].trace && KeptSlot(s, t, j, fds))
  }

  lemma HistorySame(s: State)
    requires s.Inv()
    ensures History(s, s, {})
  {
    hide State.SlotOk, State.ConnOk, State.DescriptorsOk, Lists.Ok;
    forall j | 0 <= j < |s.slots| ensures KeptSlot(s, s, j, {}) {
      if s.lists.home[j] == Connected {
        StreamOf(s, j);
      }
    }
  }

  lemma HistoryTrans(s: State, t: State, u: State, fds: set<int>, more: set<int>)
    requires History(s, t, fds) && History(t, u, more)
    ensures History(s, u, fds + more)
  {
    hide KeptSlot;
    forall c | 0 <= c < |s.sent| ensures Grows(s, u, c) {
      assert Grows(s, t, c) && Grows(t, u, c);
    }
    forall j | 0 <= j < |s.slots| ensures s.slots[j].trace <= u.slots[j].trace && KeptSlot(s, u, j, fds + more) {
      assert s.slots[j].trace <= t.slots[j].trace && t.slots[j].trace <= u.slots[j].trace;
      KeptTrans(s, t, u, j, fds, more);
    }
  }

  lemma KeptTrans(s: State, t: State, u: State, j: nat, fds: set<int>, more: set<int>)
    requires s.Sizes() && t.Sizes() && u.Sizes() && j < |s.slots| == |t.slots| == |u.slots| && |s.sent| <= |t.sent|
    requires KeptSlot(s, t, j, fds) && KeptSlot(t, u, j, more)
    ensures KeptSlot(s, u, j, fds + more)
  {
  }

  lemma EvolvedHistory(s: State, t: State)
    requires s.Inv() && t.Inv() && Evolved(s, t)
    ensures History(s, t, {})
  {
    hide State.SlotOk, State.ConnOk, State.DescriptorsOk, Lists.Ok;
    forall c | 0 <= c < |s.sent| ensures Grows(s, t, c) {
      assert s.sent[c] <= t.sent[c];
    }
    forall j | 0 <= j < |s.slots| ensures s.slots[j].trace <= t.slots[j].trace && KeptSlot(s, t, j, {}) {
      assert SameClient(s.slots[j], t.slots[j]) && SameOrLost(s.lists.home[j], t.lists.home[j]);
      if t.lists.home[j] == Connected {
        StreamOf(s, j);
        Status(t, j);
      }
    }
  }

  lemma ProcessHistory(s: State, mid: State, t: State, fd: int, listener: int)
    requires s.Inv() && t.Inv() && Dispatched(s, mid, fd, listener) && Cleared(mid, t) && t.lists.pending == []
    ensures History(s, t, {fd})
  {
    hide State.SlotOk, State.ConnOk, State.DescriptorsOk, State.ConnsDistinct, Lists.Ok, Dispatched, SameInput;
    hide KeptSlot;
    DispatchSizes(s, mid, fd, listener);
    forall c | 0 <= c < |s.sent| ensures Grows(s, t, c) {
      GrowsByProcess(s, mid, t, fd, listener, c);
    }
    forall j | 0 <= j < |s.slots| ensures s.slots[j].trace <= t.slots[j].trace && KeptSlot(s, t, j, {fd}) {
      KeptByProcess(s, mid, t, fd, listener, j);
    }
  }

  lemma DispatchSizes(s: State, mid: State, fd: int, listener: int)
    requires s.Inv() && Dispatched(s, mid, fd, listener)
    ensures mid.Sizes() && |mid.slots| == |s.slots| && |s.sent| <= |mid.sent| && mid.cap == s.cap
    ensures mid.decodes == s.decodes
    ensures mid.listener == s.listener
  {
    hide State.SlotOk, State.ConnOk, State.DescriptorsOk, State.ConnsDistinct, Lists.Ok, ByClient;
    if fd != listener && !(Unmatched(s, fd, s.lists.connected) && mid == s) {
      var i :| 0 <= i < |s.slots| && ByClient(s, mid, fd, i);
      ByClientSizes(s, mid, fd, i);
    }
  }

  lemma ByClientSizes(s: State, mid: State, fd: int, i: nat)
    requires s.Inv() && i < |s.slots| && ByClient(s, mid, fd, i)
    ensures mid.Sizes() && |mid.slots| == |s.slots| && |s.sent| <= |mid.sent| && mid.cap == s.cap
    ensures mid.decodes == s.decodes
    ensures mid.listener == s.listener
  {
    hide State.SlotOk, State.ConnOk, State.DescriptorsOk, State.ConnsDistinct, Lists.Ok, Lists.Moved;
    Listed(s, i);
    s.lists.MovedOk(IndexOf(s.lists.connected, i));
  }

  lemma GrowsByProcess(s: State, mid: State, t: State, fd: int, listener: int, c: nat)
    requires s.Inv() && mid.Sizes() && Dispatched(s, mid, fd, listener) && Cleared(mid, t) && c < |s.sent| <= |mid.sent|
    ensures Grows(s, t, c)
  {
    hide State.SlotOk, State.ConnOk, State.DescriptorsOk, State.ConnsDistinct, Lists.Ok, ByClient, Cleared;
    ClearedGrows(mid, t, c);
    if fd == listener {
      if OneClient(s, mid) {
        assert s.sent[c] <= mid.sent[c];
      } else {
        assert SameConn(s, mid, c);
      }
    } else if !(Unmatched(s, fd, s.lists.connected) && mid == s) {
      var i :| 0 <= i < |s.slots| && ByClient(s, mid, fd, i);
      ByClientGrows(s, mid, fd, i, c);
    }
  }

  lemma ClearedGrows(mid: State, t: State, c: nat)
    requires Cleared(mid, t) && c < |mid.sent|
    ensures Grows(mid, t, c)
  {
    assert mid.sent[c] <= t.sent[c];
  }

  lemma ByClientGrows(s: State, mid: State, fd: int, i: nat, c: nat)
    requires s.Inv() && mid.Sizes() && i < |s.slots| && ByClient(s, mid, fd, i) && c < |s.sent|
    ensures Grows(s, mid, c)
  {
    hide State.SlotOk, State.ConnOk, State.DescriptorsOk, State.ConnsDistinct, Lists.Ok, Lists.Moved;
    Listed(s, i);
    if s.slots[i].fd == fd && Served(s, mid, i) {
      assert s.sent[c] <= mid.sent[c];
    }
  }

  lemma KeptByProcess(s: State, mid: State, t: State, fd: int, listener: int, j: nat)
    requires s.Inv() && t.Inv() && mid.Sizes() && Dispatched(s, mid, fd, listener) && Cleared(mid, t)
    requires t.lists.pending == [] && j < |s.slots| == |mid.slots| == |t.slots| && |s.sent| <= |mid.sent|
    ensures s.slots[j].trace <= t.slots[j].trace && KeptSlot(s, t, j, {fd})
  {
    hide State.ConnOk, State.DescriptorsOk, State.ConnsDistinct, State.SlotOk, Lists.Ok, Dispatched, SameInput;
    CallbacksOfProcess(s, mid, t, fd, listener, j);
    DispatchFacts(s, mid, fd, listener, j);
    assert KeptOrCleared(mid.lists.home[j], t.lists.home[j], mid.slots[j], t.slots[j]);
    if t.lists.home[j] == Connected && s.lists.home[j] == Connected {
      StreamOf(s, j);
      Status(t, j);
      if s.slots[j].fd != fd {
        OthersUntouched(s, mid, t, fd, listener, j);
      }
    }
  }

  // ----- from end to end -----

  /** The network delivers to one end of a connection a prefix of what was sent at the
      other end, in order and unchanged. */
  predicate Delivers(sent: seq<byte>, received: seq<byte>) {
    received <= sent
  }

  lemma ServerConn(s: State, c: nat)
    requires s.Inv() && c < |s.sent|
    ensures |s.sent| == |s.complete| == |s.handled| == |s.delivered| == |s.k.conns|
    ensures s.handled[c] <= s.complete[c] && s.delivered[c] == OfKind(CLIENT_TO_SERVER_USER, s.handled[c])
    ensures s.k.conns[c].sent <= EncodeAll(s.sent[c])
    ensures Parse(s.k.conns[c].received, s.cap).frames == s.complete[c]
    ensures forall f :: f in s.sent[c] ==> |f.payload| < SIZE_LIMIT
  {
    hide Parse, EncodeAll, Lists.Ok, State.SlotOk, State.DescriptorsOk, OfKind;
    assert s.ConnOk(c);
  }

  lemma ClientConn(log: LC.Log, k: K.State, cap: nat, decodes: seq<byte> -> bool, d: nat)
    requires log.Ok(k, cap, decodes) && d < |log.handled|
    ensures |log.attempted| == |log.handled| == |log.delivered| == |log.carried| == |k.conns|
    ensures log.delivered[d] == ToApplication(decodes, log.handled[d])
    ensures k.conns[d].sent <= EncodeAll(log.attempted[d])
    ensures Parse(log.carried[d] + k.conns[d].received, cap).frames == log.handled[d]
    ensures forall f :: f in log.attempted[d] ==> |f.payload| < SIZE_LIMIT
  {
    hide Parse, EncodeAll;
    assert log.ConnOk(k, cap, decodes, d);
  }

  lemma LinuxFacts(client: LC.LinuxClient)
    requires client.Valid()
    ensures client.log.Ok(client.k.st, client.input.cap, client.decodes)
  {
    hide Parse, EncodeAll, M.Legal, M.Run, LC.Holds;
  }

  lemma InOrder(frames: seq<Frame>, sent: seq<byte>, received: seq<byte>, cap: nat)
    requires sent <= EncodeAll(frames) && Delivers(sent, received)
    requires forall f :: f in frames ==> |f.payload| < SIZE_LIMIT
    ensures Parse(received, cap).frames <= frames
  {
    hide Parse, EncodeAll;
    DeliveredArePrefix(frames, sent, received, cap);
  }

  /** Server to client: on a connection made with an empty reassembly buffer, the client
      handles a prefix of the frames that the server was given for it, and its application
      gets a prefix of the messages among them that it can decode, in any state the two can
      be in, for any part of the stream that has arrived. */
  lemma ToClientInOrder(s: State, c: nat, log: LC.Log, k: K.State, cap: nat, decodes: seq<byte> -> bool, d: nat)
    requires s.Inv() && c < |s.sent| == |s.k.conns|
    requires log.Ok(k, cap, decodes) && d < |log.handled| == |log.carried| == |k.conns|
    requires log.carried[d] == [] && Delivers(s.k.conns[c].sent, k.conns[d].received)
    ensures log.handled[d] <= s.sent[c]
    ensures d < |log.delivered| && log.delivered[d] <= ToApplication(decodes, s.sent[c])
  {
    hide *;
    ServerConn(s, c);
    ClientConn(log, k, cap, decodes, d);
    assert log.carried[d] + k.conns[d].received == k.conns[d].received;
    InOrder(s.sent[c], s.k.conns[c].sent, k.conns[d].received, cap);
    ToApplicationPrefix(decodes, log.handled[d], s.sent[c]);
  }

  /** Client to server: the server handles a prefix of the user messages and pings that the
      client attempted to write on the connection, and its application gets a prefix of the
      user messages. */
  lemma ToServerInOrder(log: LC.Log, k: K.State, cap: nat, decodes: seq<byte> -> bool, d: nat, s: State, c: nat)
    requires s.Inv() && c < |s.complete| == |s.sent| == |s.k.conns|
    requires log.Ok(k, cap, decodes) && d < |log.handled| == |log.attempted| == |k.conns|
    requires Delivers(k.conns[d].sent, s.k.conns[c].received)
    ensures s.complete[c] <= log.attempted[d] && c < |s.handled| && s.handled[c] <= log.attempted[d]
    ensures c < |s.delivered| && s.delivered[c] <= OfKind(CLIENT_TO_SERVER_USER, log.attempted[d])
  {
    hide *;
    ServerConn(s, c);
    ClientConn(log, k, cap, decodes, d);
    InOrder(log.attempted[d], k.conns[d].sent, s.k.conns[c].received, s.cap);
    OfKindPrefix(CLIENT_TO_SERVER_USER, s.handled[c], log.attempted[d]);
  }

  /** And nothing is withheld: once the bytes of the first n frames have arrived, these have
      been handled, provided the client's buffer can hold each of them. */
  lemma ArrivedAreHandled(s: State, c: nat, log: LC.Log, k: K.State, cap: nat, decodes: seq<byte> -> bool,
                          d: nat, n: nat)
    requires s.Inv() && c < |s.sent| && n <= |s.sent[c]|
    requires log.Ok(k, cap, decodes) && d < |log.handled| == |log.carried| == |k.conns| && log.carried[d] == []
    requires EncodeAll(s.sent[c][..n]) <= k.conns[d].received && forall f :: f in s.sent[c][..n] ==> Fits(f, cap)
    ensures s.sent[c][..n] <= log.handled[d]
    ensures d < |log.delivered| && ToApplication(decodes, s.sent[c][..n]) <= log.delivered[d]
  {
    hide *;
    ClientConn(log, k, cap, decodes, d);
    assert log.carried[d] + k.conns[d].received == k.conns[d].received;
    ArrivedAreDelivered(s.sent[c], k.conns[d].received, cap, n);
    ToApplicationPrefix(decodes, s.sent[c][..n], log.handled[d]);
  }

  /** In particular, when nothing is queued for a connected client and all that was sent has
      arrived, the client has handled every frame. */
  lemma AllDelivered(s: State, i: nat, log: LC.Log, k: K.State, cap: nat, decodes: seq<byte> -> bool, d: nat)
    requires s.Inv() && i < |s.slots| == |s.lists.home| && s.writing == NONE && s.busy == NONE
    requires s.lists.home[i] == Connected && s.slots[i].queued == [] && s.slots[i].conn < |s.sent| == |s.k.conns|
    requires log.Ok(k, cap, decodes) && d < |log.handled| == |log.carried| == |k.conns| && log.carried[d] == []
    requires k.conns[d].received == s.k.conns[s.slots[i].conn].sent
    requires forall f :: f in s.sent[s.slots[i].conn] ==> Fits(f, cap)
    ensures log.handled[d] == s.sent[s.slots[i].conn]
    ensures d < |log.delivered| && log.delivered[d] == ToApplication(decodes, s.sent[s.slots[i].conn])
  {
    hide *;
    var c := s.slots[i].conn;
    var n := |s.sent[c]|;
    ConnectedFacts(s, i);
    ServerConn(s, c);
    assert s.k.conns[c].sent + [] == s.k.conns[c].sent;
    assert s.sent[c][..n] == s.sent[c];
    AllAsDelivered(s.k.conns[c].sent, k.conns[d].received);
    ArrivedAreHandled(s, c, log, k, cap, decodes, d, n);
    ToClientInOrder(s, c, log, k, cap, decodes, d);
    ClientConn(log, k, cap, decodes, d);
  }

  lemma AllAsDelivered(sent: seq<byte>, received: seq<byte>)
    requires received == sent
    ensures Delivers(sent, received)
  {
  }

  /** Both directions between a server and a Linux client in memory, up to the applications. */
  lemma LinuxInOrder(server: Server, c: nat, client: LC.LinuxClient, d: nat)
    requires server.Valid() && server.Idle() && c < |server.s.sent| == |server.s.complete| == |server.k.st.conns|
    requires client.Valid()
    requires d < |client.log.handled| == |client.log.attempted| == |client.log.carried| == |client.k.st.conns|
    ensures client.log.carried[d] == [] && Delivers(server.k.st.conns[c].sent, client.k.st.conns[d].received) ==>
        && client.log.handled[d] <= server.s.sent[c]
        && d < |client.log.delivered| && client.log.delivered[d] <= ToApplication(client.decodes, server.s.sent[c])
    ensures Delivers(client.k.st.conns[d].sent, server.k.st.conns[c].received) ==>
        && c < |server.s.handled| == |server.s.delivered| && server.s.handled[c] <= client.log.attempted[d]
        && server.s.delivered[c] <= OfKind(CLIENT_TO_SERVER_USER, client.log.attempted[d])
  {
    hide *;
    ServerFacts(server);
    ServerConn(server.s, c);
    LinuxFacts(client);
    if client.log.carried[d] == [] && Delivers(server.k.st.conns[c].sent, client.k.st.conns[d].received) {
      ToClientInOrder(server.s, c, client.log, client.k.st, client.input.cap, client.decodes, d);
    }
    if Delivers(client.k.st.conns[d].sent, server.k.st.conns[c].received) {
      ToServerInOrder(client.log, client.k.st, client.input.cap, client.decodes, d, server.s, c);
    }
  }

  lemma AsyncConn(client: AC.AsyncClient)
    requires client.Valid()
    ensures Parse(client.carried + client.stcp.received, client.input.cap).frames == client.handled
    ensures client.delivered == ToApplication(client.decodes, client.handled)
    ensures client.stcp.written <= EncodeAll(client.attempted)
    ensures forall f :: f in client.attempted ==> |f.payload| < SIZE_LIMIT
  {
    hide Parse, EncodeAll, M.Legal, M.Run, ToApplication;
  }

  /** Both directions between a server and an async client in memory. */
  lemma AsyncInOrder(server: Server, c: nat, client: AC.AsyncClient)
    requires server.Valid() && server.Idle() && c < |server.s.sent| == |server.s.complete| == |server.k.st.conns|
    requires client.Valid()
    ensures client.carried == [] && Delivers(server.k.st.conns[c].sent, client.stcp.received) ==>
        client.handled <= server.s.sent[c] && client.delivered <= ToApplication(client.decodes, server.s.sent[c])
    ensures Delivers(client.stcp.written, server.k.st.conns[c].received) ==>
        && c < |server.s.handled| == |server.s.delivered| && server.s.handled[c] <= client.attempted
        && server.s.delivered[c] <= OfKind(CLIENT_TO_SERVER_USER, client.attempted)
  {
    hide *;
    ServerFacts(server);
    ServerConn(server.s, c);
    AsyncConn(client);
    if client.carried == [] && Delivers(server.k.st.conns[c].sent, client.stcp.received) {
      assert client.carried + client.stcp.received == client.stcp.received;
      InOrder(server.s.sent[c], server.k.st.conns[c].sent, client.stcp.received, client.input.cap);
      ToApplicationPrefix(client.decodes, client.handled, server.s.sent[c]);
    }
    if Delivers(client.stcp.written, server.k.st.conns[c].received) {
      InOrder(client.attempted, client.stcp.written, server.k.st.conns[c].received, server.cap);
      OfKindPrefix(CLIENT_TO_SERVER_USER, server.s.handled[c], client.attempted);
    }
  }

  // ----- the clients -----

  /** Between calls the Linux client is in one of four states, told apart by its fields: at
      rest, connected, to be reported as disconnected, or waiting to reconnect. What it has
      open is what its fields name, and the reconnect timers that it has forgotten, on which
      events are ignored. Its fields name exactly what it has open when it has forgotten none
      and no number of a closed timer is left that its reconnect timer has not got. */
  lemma ClientStates(client: LC.LinuxClient)
    requires client.Valid()
    ensures var s, t, r, st := client.serverFd, client.keepAliveTimerFd, client.reconnectTimerFd, client.k.st;
      var pending, leaked := client.pendingDisconnect, client.unnamed.leaked;
      var own := set fd | fd in st.open && !st.open[fd].Foreign?;
      && (client.m.phase.Idle? || client.m.phase.Stuck? <==> s == -1 && r == -1 && !pending)
      && (client.m.phase.Up? <==> s != -1)
      && (client.m.phase.Down? <==> pending)
      && (client.m.phase.Trying? <==> r != -1)
      && (s != -1 ==> t != -1 && r == -1 && !pending)
      && (pending ==> s == -1 && t != -1 && r == -1)
      && (r != -1 ==> s == -1 && !pending)
      && (s == -1 && !pending ==> (t != -1 <==> LC.Stale(client.m.phase, t)))
      && (own == {s, t, r} - {-1} <==>
            (forall fd :: fd !in leaked) && (!LC.Stale(client.m.phase, t) || t == r))
      && (forall fd :: fd in leaked ==> fd in own && LC.HandlerOf(fd, s, t, r) == LC.Nobody)
      && own <= st.epoll.Keys && st.strays == client.extra
  {
    hide Parse, EncodeAll, M.Legal, M.Run, M.Misreports, LC.Log.Ok;
    var s, t, r, st := client.serverFd, client.keepAliveTimerFd, client.reconnectTimerFd, client.k.st;
    var own := set fd | fd in st.open && !st.open[fd].Foreign?;
    var named := {s, t, r} - {-1};
    assert forall fd :: fd in own ==> fd in st.open && fd in st.epoll.Keys;
    forall fd | fd in client.unnamed.leaked ensures fd in own && LC.HandlerOf(fd, s, t, r) == LC.Nobody {
      assert fd in st.open;
    }
    if LC.Stale(client.m.phase, t) && t != r {
      assert t in named && t !in own;
    } else if fd :| fd in client.unnamed.leaked {
      assert fd in own && fd !in named;
    } else {
      assert forall fd :: fd in own <==> fd in named;
      assert own == named;
    }
  }

  /** The Linux client's callbacks are those that its events call for, each disconnection
      with the first reason raised on its connection, exactly as long as it was not misled
      into a misreport; and exactly then on_connected and on_disconnected take turns. */
  lemma LinuxCallbacks(client: LC.LinuxClient)
    requires client.Valid()
    ensures client.trace == M.Expected(client.steps) <==> client.misreports == 0
    ensures M.Alternates(client.trace) <==> client.misreports == 0
  {
    hide Parse, EncodeAll, LC.Log.Ok, LC.Holds;
    M.TraceIsExpected(client.steps);
    M.CallbacksAlternate(client.steps);
  }

  /** The async client's callbacks are always those that its events call for. */
  lemma AsyncCallbacks(client: AC.AsyncClient)
    requires client.Valid()
    ensures client.trace == M.Expected(client.steps) && M.Alternates(client.trace)
    ensures client.deferred <= 1 && (client.deferred == 1 <==> client.m.phase.Down?)
  {
    hide Parse;
    M.TraceIsExpected(client.steps);
    M.CallbacksAlternate(client.steps);
    client.Facts();
  }

  /** The next read of a connected Linux client stays in its buffer exactly when no frame
      that is too large has started on the connection, or on the one before it that left
      its header in the buffer. */
  lemma NextReadFits(client: LC.LinuxClient)
    requires client.Valid() && client.InputOk() && client.m.phase.Up?
    ensures client.conn < |client.k.st.conns| == |client.log.carried|
    ensures var stream := client.log.carried[client.conn] + client.k.st.conns[client.conn].received;
      client.input.size + client.input.left <= client.input.cap <==> !Parse(stream, client.input.cap).tooBig
  {
    hide *;
    client.CurrentFacts();
    client.InputFacts();
  }

  /** The same of the async client. */
  lemma AsyncNextReadFits(client: AC.AsyncClient)
    requires client.Valid() && client.InputOk()
    ensures client.input.size + client.input.left <= client.input.cap <==>
        !Parse(client.carried + client.stcp.received, client.input.cap).tooBig
  {
    hide Parse, M.Legal, M.Run;
    client.InputFacts();
  }
}
