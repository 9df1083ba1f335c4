/** The state of the server as plain values: what the slots hold, what the kernel
    has, and the log of every connection. Each operation of the server is a function
    on this state, and this module proves that each keeps the invariant. */
module ServerState {
  import opened Header
  import opened Framing
  import opened Clients
  import opened Slots
  import K = Kernel

  /** A slot: its descriptors, the connection it serves, the bytes queued for it, the
      bytes of its unfinished frame, and the callbacks it was announced with. */
  datatype Slot = Slot(fd: int, timer: int, conn: nat, queued: seq<byte>, input: seq<byte>, trace: seq<Notice>)

  /** What the server uses a descriptor for. */
  datatype Role = ListenerOf | SocketOf(slot: nat) | TimerOf(slot: nat)

  const NONE := -1

  /** One call of client_write, or one by which the application disconnects a client. */
  datatype Deed = Write(slot: nat, frame: Frame) | Dismiss(slot: nat)

  /** on_client_connected and on_client_disconnected alternate, in that order. */
  ghost predicate Alternates(trace: seq<Notice>) {
    forall k :: 0 <= k < |trace| ==> trace[k] == if k % 2 == 0 then ClientConnected else ClientDisconnected
  }

  predicate Live(trace: seq<Notice>) {
    |trace| % 2 == 1
  }

  datatype State = State(
    lists: Lists,
    slots: seq<Slot>,
    k: K.State,
    owner: map<int, Role>,
    /** per connection: the frames given to client_write, those that were read completely,
        those that handle_message has dealt with, and those given to the application */
    sent: seq<seq<Frame>>,
    complete: seq<seq<Frame>>,
    handled: seq<seq<Frame>>,
    delivered: seq<seq<Frame>>,
    /** all calls of client_write and of disconnect, in order */
    log: seq<Deed>,
    /** the size of an input buffer, and what the application's protocol can decode */
    cap: nat,
    decodes: seq<byte> -> bool,
    /** the slot being read, closed or written, if any, and what is still to be written */
    busy: int, closing: int, writing: int, owed: seq<byte>,
    /** the connection whose ping has not been answered yet, if any */
    answering: int,
    /** the listener, once the server is started */
    listener: int)
  {
    ghost predicate Sizes() {
      && |slots| == |lists.home|
      && |sent| == |complete| == |handled| == |delivered| == |k.conns|
      && NONE <= answering < |sent|
    }

    /** A descriptor is open and registered for exactly one purpose. */
    ghost predicate RoleOk(fd: int)
      requires fd in owner && fd in k.open && fd in k.epoll && |slots| == |lists.home|
    {
      match owner[fd]
      case ListenerOf => fd == listener && k.open[fd] == K.Listener && k.epoll[fd] == K.In
      case SocketOf(i) => i < |slots| && lists.home[i] == Connected && slots[i].fd == fd
      case TimerOf(i) => i < |slots| && lists.home[i] != Free && i != closing && slots[i].timer == fd
    }

    ghost predicate DescriptorsOk()
      requires Sizes()
    {
      && k.Ok() && k.strays == 0
      && owner.Keys == k.open.Keys == k.epoll.Keys
      && (listener != NONE ==> listener in owner && owner[listener] == ListenerOf)
      && forall fd :: fd in owner ==> RoleOk(fd)
    }

    /** A connected or pending client has a timer, until it is being destroyed. */
    ghost predicate HasTimer(i: nat)
      requires Sizes() && i < |slots|
    {
      lists.home[i] == Connected || (lists.home[i] == Pending && i != closing)
    }

    ghost predicate TimerOk(i: nat)
      requires i < |slots|
    {
      var fd := slots[i].timer;
      && fd in owner && owner[fd] == TimerOf(i)
      && fd in k.open && k.open[fd] == K.Timer && fd in k.epoll && k.epoll[fd] == K.In
    }

    /** Connected: both descriptors are open; writability is asked for exactly when
        bytes are queued; the bytes sent and queued are the frames written; the
        bytes received are the frames complete and the unfinished frame. */
    ghost predicate ConnectedOk(i: nat)
      requires Sizes() && i < |slots|
    {
      var s := slots[i];
      && s.fd in owner && owner[s.fd] == SocketOf(i)
      && s.conn < |k.conns| && s.fd in k.open && k.open[s.fd] == K.Stream(s.conn)
      && s.fd in k.epoll && k.epoll[s.fd] == (if s.queued == [] then K.In else K.InOut)
      && TimerOk(i)
      && k.conns[s.conn].sent + s.queued + (if i == writing then owed else []) == EncodeAll(sent[s.conn])
      && (i != busy ==> Parse(k.conns[s.conn].received, cap) == Parsed(complete[s.conn], s.input, false))
      && (i != busy ==> handled[s.conn] == complete[s.conn])
      && Alternates(s.trace) && Live(s.trace)
    }

    ghost predicate SlotOk(i: nat)
      requires Sizes() && i < |slots|
    {
      match lists.home[i]
      case Free => Alternates(slots[i].trace) && !Live(slots[i].trace)
      case Connected => ConnectedOk(i)
      case Pending =>
        && slots[i].fd == -1 && slots[i].conn < |k.conns| && Alternates(slots[i].trace)
        && (i != closing ==> TimerOk(i) && Live(slots[i].trace))
    }

    /** What holds of a connection for ever, also once it is closed. */
    ghost predicate ConnOk(c: nat)
      requires Sizes() && c < |sent|
    {
      && k.conns[c].sent <= EncodeAll(sent[c])
      && Parse(k.conns[c].received, cap).frames == complete[c]
      && (forall f :: f in sent[c] ==> |f.payload| < SIZE_LIMIT)
      && DealtWith(c)
    }

    /** The server takes pings, and user messages that can be decoded. */
    predicate Acceptable(f: Frame) {
      f.kind == PING || (f.kind == CLIENT_TO_SERVER_USER && decodes(f.payload))
    }

    /** Every complete frame has been dealt with, but for one that may be about to be or was
        rejected. Each ping is answered by one pong, and no other pongs are written; the user
        messages are given to the application, in order. */
    ghost predicate DealtWith(c: nat)
      requires Sizes() && c < |sent|
    {
      && handled[c] <= complete[c] && |complete[c]| <= |handled[c]| + 1
      && (forall f :: f in handled[c] ==> Acceptable(f))
      && delivered[c] == OfKind(CLIENT_TO_SERVER_USER, handled[c])
      && |OfKind(PING, handled[c])| == |OfKind(PONG, sent[c])| + if c == answering then 1 else 0
    }

    ghost predicate ConnsDistinct()
      requires Sizes()
    {
      forall i, j :: 0 <= i < j < |slots| && lists.home[i] != Free && lists.home[j] != Free ==>
        slots[i].conn != slots[j].conn
    }

    ghost predicate Inv() {
      && Sizes() && lists.Ok()
      && DescriptorsOk()
      && (forall i :: 0 <= i < |slots| ==> SlotOk(i))
      && (forall c :: 0 <= c < |sent| ==> ConnOk(c))
      && ConnsDistinct()
    }
  }

  /** A slot is as good as before if nothing it depends on has changed. */
  lemma SlotFrame(s: State, t: State, i: nat)
    requires s.Sizes() && t.Sizes() && i < |s.slots| == |t.slots| && s.SlotOk(i)
    requires s.lists.home[i] == t.lists.home[i] && s.slots[i] == t.slots[i] && s.cap == t.cap && s.decodes == t.decodes
    requires (i == s.busy) == (i == t.busy) && (i == s.closing) == (i == t.closing)
    requires i == s.writing == t.writing ==> s.owed == t.owed
    requires (i == s.writing) == (i == t.writing)
    requires s.lists.home[i] == Connected ==> SameFd(s, t, s.slots[i].fd)
    requires s.HasTimer(i) ==> SameFd(s, t, s.slots[i].timer)
    requires s.lists.home[i] != Free && s.slots[i].conn < |s.sent| ==> SameConn(s, t, s.slots[i].conn)
    ensures t.SlotOk(i)
  {
  }

  ghost predicate SameFd(s: State, t: State, fd: int) {
    && (fd in s.owner ==> fd in t.owner && t.owner[fd] == s.owner[fd])
    && (fd in s.k.open ==> fd in t.k.open && t.k.open[fd] == s.k.open[fd])
    && (fd in s.k.epoll ==> fd in t.k.epoll && t.k.epoll[fd] == s.k.epoll[fd])
  }

  ghost predicate SameConn(s: State, t: State, c: nat)
    requires s.Sizes() && t.Sizes() && c < |s.sent|
  {
    && c < |t.sent| && s.sent[c] == t.sent[c] && s.complete[c] == t.complete[c] && s.k.conns[c] == t.k.conns[c]
    && s.handled[c] == t.handled[c] && s.delivered[c] == t.delivered[c] && (c == s.answering <==> c == t.answering)
  }

  // ----- losing a connection -----

  ghost predicate IsConnected(s: State, i: nat) {
    s.Sizes() && s.lists.Ok() && i < |s.slots| && s.lists.home[i] == Connected
  }

  lemma InvSizes(s: State)
    requires s.Inv()
    ensures s.Sizes() && s.lists.Ok() && |s.slots| == |s.lists.home| && |s.sent| == |s.complete| == |s.k.conns|
    ensures forall i :: 0 <= i < |s.slots| && s.lists.home[i] == Connected ==> IsConnected(s, i)
  {
  }

  lemma Status(s: State, i: nat)
    requires s.Inv() && i < |s.slots|
    ensures s.lists.home[i] == Connected ==> IsConnected(s, i) && s.slots[i].fd >= 0 && i in s.lists.connected
    ensures s.lists.home[i] == Pending ==> s.slots[i].fd == -1
  {
    assert s.SlotOk(i);
  }

  lemma OpenWhenConnected(s: State, i: nat)
    requires s.Inv() && i < |s.slots| && s.lists.home[i] != Free
    ensures s.lists.home[i] == Connected <==> s.slots[i].fd in s.k.open
    ensures s.lists.home[i] == Connected || s.lists.home[i] == Pending
  {
    assert s.SlotOk(i);
  }

  lemma Listed(s: State, i: nat)
    requires IsConnected(s, i)
    ensures i in s.lists.connected
  {
  }

  /** client_pending_disconnect for a connected client. */
  ghost function Lost(s: State, i: nat): State
    requires IsConnected(s, i)
  {
    Listed(s, i);
    var fd := s.slots[i].fd;
    s.(lists := s.lists.Moved(IndexOf(s.lists.connected, i)), k := s.k.Deleted(fd).Closed(fd), owner := s.owner - {fd},
       slots := s.slots[i := s.slots[i].(fd := -1, queued := [])])
  }

  /** Slot i is lost if it is connected; a negative i stands for no slot. */
  ghost predicate LostIfConnected(s: State, t: State, i: int) {
    if i >= 0 && IsConnected(s, i) then t == Lost(s, i) else t == s
  }

  /** The descriptors of a connected client are no other client's. */
  lemma Apart(s: State, i: nat, j: nat)
    requires s.Sizes() && i < |s.slots| && j < |s.slots| && i != j
    requires s.lists.home[i] == Connected && s.SlotOk(i) && s.SlotOk(j)
    ensures s.slots[i].fd != s.slots[i].timer
    ensures s.HasTimer(j) ==> s.slots[j].timer != s.slots[i].fd && s.slots[j].timer != s.slots[i].timer
    ensures s.lists.home[j] == Connected ==> s.slots[j].fd != s.slots[i].fd && s.slots[j].fd != s.slots[i].timer
  {
  }

  lemma LostInv(s: State, i: nat)
    requires s.Inv() && IsConnected(s, i)
    ensures Lost(s, i).Inv()
  {
    hide State.SlotOk, State.ConnOk, State.DescriptorsOk, Lists.Ok;
    var t := Lost(s, i);
    Listed(s, i);
    s.lists.MovedOk(IndexOf(s.lists.connected, i));
    LostDescriptors(s, i);
    forall j | 0 <= j < |t.slots| ensures t.SlotOk(j) {
      LostSlot(s, i, j);
    }
    forall c | 0 <= c < |t.sent| ensures t.ConnOk(c) {
      assert s.ConnOk(c);
      SameConnOk(s, t, c);
    }
  }

  lemma SameConnOk(s: State, t: State, c: nat)
    requires s.Sizes() && t.Sizes() && c < |s.sent| && s.ConnOk(c) && SameConn(s, t, c) && s.cap == t.cap
    requires s.decodes == t.decodes
    ensures t.ConnOk(c)
  {
  }

  lemma LostDescriptors(s: State, i: nat)
    requires IsConnected(s, i) && s.DescriptorsOk() && s.SlotOk(i)
    ensures Lost(s, i).DescriptorsOk()
  {
    hide Lists.Ok;
    var t := Lost(s, i);
    Listed(s, i);
    forall fd | fd in t.owner ensures t.RoleOk(fd) {
      assert s.RoleOk(fd);
    }
  }

  lemma LostSlot(s: State, i: nat, j: nat)
    requires IsConnected(s, i) && j < |s.slots| && s.SlotOk(i) && s.SlotOk(j)
    ensures Lost(s, i).SlotOk(j)
  {
    hide Lists.Ok;
    var t := Lost(s, i);
    Listed(s, i);
    if j != i {
      hide State.SlotOk;
      Apart(s, i, j);
      SlotFrame(s, t, j);
    }
  }

  // ----- steps that concern one slot and its connection only -----

  /** From s to t, only slot i has changed, but not its descriptors, and only its
      connection. */
  ghost predicate Touches(s: State, t: State, i: nat)
    requires s.Sizes() && i < |s.slots| && s.lists.home[i] != Free
  {
    var a := s.slots[i];
    && t.Sizes() && t.lists == s.lists && t.owner == s.owner && t.cap == s.cap && t.decodes == s.decodes
    && t.closing == s.closing
    && t.listener == s.listener && t.k.open == s.k.open && t.k.strays == s.k.strays && |t.sent| == |s.sent|
    && t.slots == s.slots[i := a.(queued := t.slots[i].queued, input := t.slots[i].input)]
    && (t.k.epoll == s.k.epoll || (s.lists.home[i] == Connected && a.fd in s.k.epoll && a.fd in t.k.epoll
                                   && t.k.epoll == s.k.epoll[a.fd := t.k.epoll[a.fd]]))
    && (forall c :: 0 <= c < |s.sent| && c != a.conn ==> SameConn(s, t, c))
    && (s.writing == i || s.writing == NONE) && (t.writing == i || t.writing == NONE)
    && (t.busy == s.busy || ((s.busy == i || s.busy == NONE) && (t.busy == i || t.busy == NONE)))
  }

  lemma TouchInv(s: State, t: State, i: nat)
    requires s.Inv() && i < |s.slots| && s.lists.home[i] != Free
    requires Touches(s, t, i)
    requires t.SlotOk(i) && (s.slots[i].conn < |t.sent| ==> t.ConnOk(s.slots[i].conn))
    ensures t.Inv()
  {
    hide State.SlotOk, State.ConnOk, Lists.Ok, State.DescriptorsOk;
    assert s.SlotOk(i);
    TouchDescriptors(s, t, i);
    forall j | 0 <= j < |t.slots| ensures t.SlotOk(j) {
      if j != i {
        assert s.SlotOk(j);
        TouchOther(s, t, i, j);
      }
    }
    forall c | 0 <= c < |t.sent| ensures t.ConnOk(c) {
      if c != s.slots[i].conn {
        assert s.ConnOk(c);
        SameConnOk(s, t, c);
      }
    }
  }

  lemma TouchDescriptors(s: State, t: State, i: nat)
    requires s.Sizes() && i < |s.slots| && s.lists.home[i] != Free
    requires s.DescriptorsOk() && s.SlotOk(i) && Touches(s, t, i)
    ensures t.DescriptorsOk()
  {
    hide State.SlotOk;
    forall fd | fd in t.owner ensures t.RoleOk(fd) {
      assert s.RoleOk(fd);
      if s.lists.home[i] == Connected && fd == s.slots[i].fd {
        SocketOwned(s, i);
      }
    }
  }

  lemma SocketOwned(s: State, i: nat)
    requires s.Sizes() && i < |s.slots| && s.lists.home[i] == Connected && s.SlotOk(i)
    ensures s.slots[i].fd in s.owner && s.owner[s.slots[i].fd] == SocketOf(i)
  {
  }

  lemma TouchOther(s: State, t: State, i: nat, j: nat)
    requires s.Sizes() && i < |s.slots| && s.lists.home[i] != Free && j < |s.slots| && j != i
    requires s.SlotOk(i) && s.SlotOk(j) && Touches(s, t, i) && s.ConnsDistinct()
    ensures t.SlotOk(j)
  {
    hide State.SlotOk;
    if s.lists.home[i] == Connected {
      Apart(s, i, j);
    }
    SlotFrame(s, t, j);
  }

  /** A frame is handed to client_write. */
  function Logged(s: State, i: nat, f: Frame): State
    requires s.Sizes() && i < |s.slots| && s.slots[i].conn < |s.sent|
  {
    var c := s.slots[i].conn;
    s.(sent := s.sent[c := s.sent[c] + [f]], log := s.log + [Write(i, f)], writing := i, owed := Encode(f),
       answering := if f.kind == PONG then NONE else s.answering)
  }

  /** The kernel takes the first bytes that are owed. */
  function Taken(s: State, i: nat, n: nat): State
    requires s.Sizes() && i < |s.slots| && n <= |s.owed|
  {
    s.(k := s.k.Sent(s.slots[i].fd, s.owed[..n]), owed := s.owed[n..])
  }

  /** The rest is queued, and a first item makes the server wait for writability. */
  function Kept(s: State, i: nat): State
    requires s.Sizes() && i < |s.slots|
  {
    var a := s.slots[i];
    s.(slots := s.slots[i := a.(queued := a.queued + s.owed)],
       k := if a.queued == [] then s.k.Modified(a.fd, K.InOut) else s.k,
       writing := NONE, owed := [])
  }

  function Settled(s: State): State {
    s.(writing := NONE, owed := [])
  }

  /** The queue is drained down to `rest`. */
  function Drained(s: State, i: nat, written: seq<byte>, rest: seq<byte>): State
    requires s.Sizes() && i < |s.slots|
  {
    var a := s.slots[i];
    var k := s.k.Sent(a.fd, written);
    s.(slots := s.slots[i := a.(queued := rest)],
       k := if rest == [] then k.Modified(a.fd, K.In) else k)
  }

  /** Bytes are read that complete `frames`. */
  function Received(s: State, i: nat, chunk: seq<byte>, frames: seq<Frame>): State
    requires s.Sizes() && i < |s.slots| && s.slots[i].conn < |s.sent|
  {
    var a := s.slots[i];
    s.(k := s.k.Received(a.fd, chunk), complete := s.complete[a.conn := s.complete[a.conn] + frames])
  }

  function Reading(s: State, i: nat): State {
    s.(busy := i)
  }

  /** A ping is taken, and owed a pong. */
  function Pinged(s: State, i: nat, f: Frame): State
    requires s.Sizes() && i < |s.slots| && s.slots[i].conn < |s.sent|
  {
    var c := s.slots[i].conn;
    s.(handled := s.handled[c := s.handled[c] + [f]], answering := c)
  }

  /** A user message is given to the application. */
  function Told(s: State, i: nat, f: Frame): State
    requires s.Sizes() && i < |s.slots| && s.slots[i].conn < |s.sent|
  {
    var c := s.slots[i].conn;
    s.(handled := s.handled[c := s.handled[c] + [f]], delivered := s.delivered[c := s.delivered[c] + [f]])
  }

  /** Frame f from slot i is complete, and about to be dealt with. */
  ghost predicate Due(s: State, i: nat, f: Frame) {
    && s.Sizes() && i < |s.slots| && s.slots[i].conn < |s.sent|
    && s.complete[s.slots[i].conn] == s.handled[s.slots[i].conn] + [f]
  }

  /** Every complete frame from slot i has been dealt with. */
  ghost predicate UpToDate(s: State, i: nat) {
    && s.Sizes() && i < |s.slots| && s.slots[i].conn < |s.sent|
    && s.complete[s.slots[i].conn] == s.handled[s.slots[i].conn]
  }

  /** Reading stops with `input` as the unfinished frame. */
  function Read(s: State, i: nat, input: seq<byte>): State
    requires s.Sizes() && i < |s.slots|
  {
    s.(busy := NONE, slots := s.slots[i := s.slots[i].(input := input)])
  }

  lemma LoggedInv(s: State, i: nat, f: Frame)
    requires s.Inv() && i < |s.slots| && s.lists.home[i] != Free && s.writing == NONE
    requires |f.payload| < SIZE_LIMIT && (f.kind == PONG ==> s.answering == s.slots[i].conn)
    ensures s.slots[i].conn < |s.sent| && Logged(s, i, f).Inv()
  {
    hide Parse, EncodeAll, Encode, Lists.Ok, State.DescriptorsOk, State.DealtWith, OfKind;
    assert s.SlotOk(i);
    var c, t := s.slots[i].conn, Logged(s, i, f);
    assert s.ConnOk(c);
    EncodeAllSnoc(s.sent[c], f);
    LoggedDealtWith(s, i, f);
    assert s.slots[i := s.slots[i]] == s.slots;
    TouchInv(s, t, i);
  }

  lemma LoggedDealtWith(s: State, i: nat, f: Frame)
    requires s.Sizes() && i < |s.slots| && s.slots[i].conn < |s.sent| && s.DealtWith(s.slots[i].conn)
    requires f.kind == PONG ==> s.answering == s.slots[i].conn
    ensures Logged(s, i, f).Sizes() && Logged(s, i, f).DealtWith(s.slots[i].conn)
  {
    hide OfKind;
    OfKindSnoc(PONG, s.sent[s.slots[i].conn], f);
  }

  lemma TakenInv(s: State, i: nat, n: nat)
    requires s.Inv() && i < |s.slots| && s.lists.home[i] == Connected && s.writing == i && n <= |s.owed|
    requires s.slots[i].queued == []
    ensures Taken(s, i, n).Inv()
  {
    hide Parse, EncodeAll, Lists.Ok, State.DescriptorsOk;
    assert s.SlotOk(i);
    var c, t := s.slots[i].conn, Taken(s, i, n);
    assert s.ConnOk(c);
    assert s.owed == s.owed[..n] + s.owed[n..];
    assert s.slots[i := s.slots[i]] == s.slots;
    TouchInv(s, t, i);
  }

  lemma KeptInv(s: State, i: nat)
    requires s.Inv() && i < |s.slots| && s.lists.home[i] != Free && s.writing == i && s.owed != []
    ensures Kept(s, i).Inv()
  {
    hide Parse, EncodeAll, Lists.Ok;
    assert s.SlotOk(i);
    var a, t := s.slots[i], Kept(s, i);
    assert s.ConnOk(a.conn);
    assert a.queued + s.owed != [] && (a.queued + s.owed) + [] == a.queued + s.owed;
    TouchInv(s, t, i);
  }

  lemma SettledInv(s: State, i: nat)
    requires s.Inv() && i < |s.slots| && s.lists.home[i] != Free && (s.writing == i || s.writing == NONE)
    requires s.writing == i && s.lists.home[i] == Connected ==> s.owed == []
    ensures Settled(s).Inv()
  {
    hide Parse, EncodeAll, Lists.Ok, State.DescriptorsOk;
    assert s.SlotOk(i);
    assert s.ConnOk(s.slots[i].conn);
    assert s.slots[i := s.slots[i]] == s.slots;
    TouchInv(s, Settled(s), i);
  }

  lemma DrainedInv(s: State, i: nat, written: seq<byte>, rest: seq<byte>)
    requires s.Inv() && i < |s.slots| && s.lists.home[i] == Connected && s.writing == NONE
    requires s.slots[i].queued == written + rest
    ensures Drained(s, i, written, rest).Inv()
  {
    hide Parse, EncodeAll, Lists.Ok, State.DescriptorsOk;
    assert s.SlotOk(i);
    var a, t := s.slots[i], Drained(s, i, written, rest);
    assert s.ConnOk(a.conn);
    assert (s.k.conns[a.conn].sent + written) + rest == s.k.conns[a.conn].sent + a.queued;
    TouchInv(s, t, i);
  }

  lemma ReceivedInv(s: State, i: nat, chunk: seq<byte>, frames: seq<Frame>, before: seq<byte>)
    requires s.Inv() && i < |s.slots| && s.lists.home[i] == Connected && s.writing == NONE && s.busy == i
    requires ParsedTo(s, i, before) && Parse(before + chunk, s.cap).frames == frames && |frames| <= 1 && UpToDate(s, i)
    ensures Received(s, i, chunk, frames).Inv()
    ensures var p := Parse(before + chunk, s.cap); !p.tooBig ==> ParsedTo(Received(s, i, chunk, frames), i, p.rest)
  {
    hide Parse, EncodeAll, Lists.Ok, State.DescriptorsOk;
    assert s.SlotOk(i);
    var a, t := s.slots[i], Received(s, i, chunk, frames);
    assert s.ConnOk(a.conn);
    assert s.slots[i := s.slots[i]] == s.slots;
    ParseAppend(s.k.conns[a.conn].received, chunk, s.cap);
    TouchInv(s, t, i);
  }

  lemma PingedInv(s: State, i: nat, f: Frame)
    requires s.Inv() && i < |s.slots| && s.lists.home[i] != Free && s.writing == NONE && s.busy == i
    requires Due(s, i, f) && f.kind == PING && s.answering == NONE
    ensures Pinged(s, i, f).Inv() && UpToDate(Pinged(s, i, f), i)
  {
    hide Parse, EncodeAll, Lists.Ok, State.DescriptorsOk, OfKind;
    assert s.SlotOk(i);
    var c, t := s.slots[i].conn, Pinged(s, i, f);
    assert s.ConnOk(c);
    KindsDiffer();
    OfKindSnoc(PING, s.handled[c], f);
    OfKindSnoc(CLIENT_TO_SERVER_USER, s.handled[c], f);
    assert s.slots[i := s.slots[i]] == s.slots;
    TouchInv(s, t, i);
  }

  lemma ToldInv(s: State, i: nat, f: Frame)
    requires s.Inv() && i < |s.slots| && s.lists.home[i] != Free && s.writing == NONE && s.busy == i
    requires Due(s, i, f) && f.kind == CLIENT_TO_SERVER_USER && s.decodes(f.payload)
    ensures Told(s, i, f).Inv() && UpToDate(Told(s, i, f), i)
  {
    hide Parse, EncodeAll, Lists.Ok, State.DescriptorsOk, OfKind;
    assert s.SlotOk(i);
    var c, t := s.slots[i].conn, Told(s, i, f);
    assert s.ConnOk(c);
    KindsDiffer();
    OfKindSnoc(PING, s.handled[c], f);
    OfKindSnoc(CLIENT_TO_SERVER_USER, s.handled[c], f);
    assert s.slots[i := s.slots[i]] == s.slots;
    TouchInv(s, t, i);
  }

  lemma ReadingInv(s: State, i: nat)
    requires s.Inv() && i < |s.slots| && s.lists.home[i] != Free && s.writing == NONE && s.busy == NONE
    ensures Reading(s, i).Inv()
  {
    hide Parse, EncodeAll, Lists.Ok, State.DescriptorsOk;
    assert s.SlotOk(i);
    assert s.ConnOk(s.slots[i].conn);
    assert s.slots[i := s.slots[i]] == s.slots;
    TouchInv(s, Reading(s, i), i);
  }

  lemma ReadInv(s: State, i: nat, input: seq<byte>)
    requires s.Inv() && i < |s.slots| && s.lists.home[i] != Free && s.writing == NONE && s.busy == i
    requires s.lists.home[i] == Connected ==> ParsedTo(s, i, input) && UpToDate(s, i)
    ensures Read(s, i, input).Inv()
  {
    hide Parse, EncodeAll, Lists.Ok, State.DescriptorsOk;
    assert s.SlotOk(i);
    assert s.ConnOk(s.slots[i].conn);
    TouchInv(s, Read(s, i, input), i);
  }

  /** A drain that failed leaves the head of the queue behind after the client was
      lost; nothing is ever sent from it. */
  function Dangling(s: State, i: nat, left: seq<byte>): State
    requires s.Sizes() && i < |s.slots|
  {
    s.(slots := s.slots[i := s.slots[i].(queued := left)])
  }

  lemma DanglingInv(s: State, i: nat, left: seq<byte>)
    requires s.Inv() && i < |s.slots| && s.lists.home[i] == Pending && s.writing == NONE
    ensures Dangling(s, i, left).Inv()
  {
    hide Parse, EncodeAll, Lists.Ok, State.DescriptorsOk;
    assert s.SlotOk(i);
    assert s.ConnOk(s.slots[i].conn);
    TouchInv(s, Dangling(s, i, left), i);
  }

  /** The queue was drained down to `left` when a write failed. */
  ghost function DrainFailed(s: State, i: nat, written: seq<byte>, left: seq<byte>): State
    requires s.Sizes() && i < |s.slots| && IsConnected(Drained(s, i, written, left), i)
  {
    Dangling(Lost(Drained(s, i, written, left), i), i, left)
  }

  /** What was queued for client i in s has been sent in t. */
  ghost predicate CaughtUp(s: State, t: State, i: nat) {
    && s.Sizes() && i < |s.slots| && s.slots[i].conn < |s.k.conns| <= |t.k.conns|
    && |t.k.conns[s.slots[i].conn].sent| >= |s.k.conns[s.slots[i].conn].sent| + |s.slots[i].queued|
  }

  lemma DrainCatchesUp(s: State, i: nat, written: seq<byte>)
    requires IsConnected(s, i) && s.Inv() && s.slots[i].queued == written
    ensures CaughtUp(s, Drained(s, i, written, []), i)
  {
    assert s.SlotOk(i);
  }

  // ----- accepting a connection -----

  /** A new connection is accepted, given the first free slot, and announced. */
  ghost function Joined(s: State, fd: int, timer: int): State
    requires s.Sizes() && s.lists.Ok() && s.lists.free != []
  {
    var i := s.lists.free[0];
    s.(lists := s.lists.Allocated(),
       k := s.k.Accepted(fd).Opened(timer, K.Timer).Registered(timer, K.In).Registered(fd, K.In),
       owner := s.owner[fd := SocketOf(i)][timer := TimerOf(i)],
       slots := s.slots[i := Slot(fd, timer, |s.k.conns|, [], [], s.slots[i].trace + [ClientConnected])],
       sent := s.sent + [[]], complete := s.complete + [[]],
       handled := s.handled + [[]], delivered := s.delivered + [[]])
  }

  lemma FreeAt(s: State, pos: nat)
    requires s.Sizes() && s.lists.Ok() && pos < |s.lists.free|
    ensures var i := s.lists.free[pos]; i < |s.slots| && s.lists.home[i] == Free
  {
  }

  ghost predicate Unused(s: State, fd: int) {
    fd >= 0 && fd !in s.k.open && fd !in s.k.epoll && fd !in s.owner
  }

  lemma JoinedInv(s: State, fd: int, timer: int)
    requires s.Inv() && s.lists.free != [] && s.writing == NONE && s.busy == NONE && s.closing == NONE
    requires Unused(s, fd) && Unused(s, timer) && fd != timer
    ensures Joined(s, fd, timer).Inv()
  {
    hide Parse, EncodeAll, Lists.Ok, State.SlotOk, State.ConnOk, State.DescriptorsOk;
    var i, t := s.lists.free[0], Joined(s, fd, timer);
    FreeAt(s, 0);
    s.lists.AllocatedOk();
    assert s.SlotOk(i);
    JoinedDescriptors(s, fd, timer);
    forall j | 0 <= j < |t.slots| ensures t.SlotOk(j) {
      assert s.SlotOk(j);
      JoinedSlot(s, fd, timer, j);
    }
    forall c | 0 <= c < |t.sent| ensures t.ConnOk(c) {
      if c < |s.sent| {
        assert s.ConnOk(c);
        SameConnOk(s, t, c);
      } else {
        NewConnOk(t, c);
      }
    }
    JoinedConns(s, fd, timer);
  }

  lemma NewConnOk(t: State, c: nat)
    requires t.Sizes() && c < |t.sent| && t.sent[c] == t.complete[c] == t.handled[c] == t.delivered[c] == []
    requires t.answering != c
    requires t.k.conns[c] == K.Bytes([], [])
    ensures t.ConnOk(c)
  {
  }

  lemma JoinedDescriptors(s: State, fd: int, timer: int)
    requires s.Sizes() && s.lists.Ok() && s.lists.free != [] && s.DescriptorsOk() && s.closing == NONE
    requires Unused(s, fd) && Unused(s, timer) && fd != timer
    ensures Joined(s, fd, timer).DescriptorsOk()
  {
    hide Lists.Ok;
    FreeAt(s, 0);
    var t := Joined(s, fd, timer);
    forall x | x in t.owner ensures t.RoleOk(x) {
      if x != fd && x != timer {
        assert s.RoleOk(x);
      }
    }
  }

  lemma JoinedSlot(s: State, fd: int, timer: int, j: nat)
    requires s.Sizes() && s.lists.Ok() && s.lists.free != [] && j < |s.slots| && s.SlotOk(j)
    requires s.writing == NONE && s.busy == NONE && s.closing == NONE
    requires Unused(s, fd) && Unused(s, timer) && fd != timer
    ensures Joined(s, fd, timer).SlotOk(j)
  {
    FreeAt(s, 0);
    hide Lists.Ok, State.SlotOk;
    var t := Joined(s, fd, timer);
    if j != s.lists.free[0] {
      SlotFrame(s, t, j);
    } else {
      JoinedNewSlot(s, fd, timer);
    }
  }

  lemma JoinedNewSlot(s: State, fd: int, timer: int)
    requires s.Sizes() && s.lists.Ok() && s.lists.free != [] && s.lists.free[0] < |s.slots| && s.SlotOk(s.lists.free[0])
    requires s.writing == NONE && s.busy == NONE && s.closing == NONE
    requires Unused(s, fd) && Unused(s, timer) && fd != timer
    ensures Joined(s, fd, timer).Sizes() && Joined(s, fd, timer).SlotOk(s.lists.free[0])
  {
    hide *;
    JoinedFields(s, fd, timer);
    JoinedKernel(s.k, fd, timer);
    JoinedOwner(s.owner, fd, timer, s.lists.free[0]);
    JoinedTrace(s, s.lists.free[0]);
    NothingSent(s.cap);
    NewClientOk(Joined(s, fd, timer), s.lists.free[0], fd, timer);
  }

  lemma JoinedFields(s: State, fd: int, timer: int)
    requires s.Sizes() && s.lists.Ok() && s.lists.free != [] && s.lists.free[0] < |s.slots|
    ensures var i, t := s.lists.free[0], Joined(s, fd, timer);
      && t.Sizes() && |t.slots| == |s.slots| && s.lists.home[i] == Free && t.lists.home[i] == Connected
      && t.slots[i] == Slot(fd, timer, |s.k.conns|, [], [], s.slots[i].trace + [ClientConnected])
      && t.k == s.k.Accepted(fd).Opened(timer, K.Timer).Registered(timer, K.In).Registered(fd, K.In)
      && t.owner == s.owner[fd := SocketOf(i)][timer := TimerOf(i)]
      && |t.sent| == |t.complete| == |t.handled| == |s.k.conns| + 1
      && t.sent[|s.k.conns|] == t.complete[|s.k.conns|] == t.handled[|s.k.conns|] == []
      && t.cap == s.cap && t.decodes == s.decodes && t.writing == s.writing && t.busy == s.busy
      && t.closing == s.closing
  {
    hide Lists.Ok;
    FreeAt(s, 0);
  }

  lemma JoinedKernel(k: K.State, fd: int, timer: int)
    requires fd != timer
    ensures var t := k.Accepted(fd).Opened(timer, K.Timer).Registered(timer, K.In).Registered(fd, K.In);
      && fd in t.open && t.open[fd] == K.Stream(|k.conns|) && timer in t.open && t.open[timer] == K.Timer
      && fd in t.epoll && t.epoll[fd] == K.In && timer in t.epoll && t.epoll[timer] == K.In
      && |t.conns| == |k.conns| + 1 && t.conns[|k.conns|] == K.Bytes([], [])
  {
  }

  lemma JoinedOwner(owner: map<int, Role>, fd: int, timer: int, i: nat)
    requires fd != timer
    ensures var t := owner[fd := SocketOf(i)][timer := TimerOf(i)];
      fd in t && t[fd] == SocketOf(i) && timer in t && t[timer] == TimerOf(i)
  {
  }

  lemma JoinedTrace(s: State, i: nat)
    requires s.Sizes() && i < |s.slots| && s.lists.home[i] == Free && s.SlotOk(i)
    ensures Alternates(s.slots[i].trace + [ClientConnected]) && Live(s.slots[i].trace + [ClientConnected])
  {
  }

  lemma NothingSent(cap: nat)
    ensures EncodeAll([]) == [] + [] + [] == [] && Parse([], cap) == Parsed([], [], false)
  {
  }

  lemma NewClientOk(t: State, i: nat, fd: int, timer: int)
    requires t.Sizes() && i < |t.slots| && t.lists.home[i] == Connected && |t.k.conns| > 0
    requires t.slots[i].fd == fd && t.slots[i].timer == timer && t.slots[i].conn == |t.k.conns| - 1
    requires t.slots[i].queued == t.slots[i].input == []
    requires fd in t.k.open && t.k.open[fd] == K.Stream(|t.k.conns| - 1)
    requires timer in t.k.open && t.k.open[timer] == K.Timer
    requires fd in t.k.epoll && t.k.epoll[fd] == K.In && timer in t.k.epoll && t.k.epoll[timer] == K.In
    requires fd in t.owner && t.owner[fd] == SocketOf(i) && timer in t.owner && t.owner[timer] == TimerOf(i)
    requires t.k.conns[|t.k.conns| - 1] == K.Bytes([], [])
    requires t.sent[|t.k.conns| - 1] == t.complete[|t.k.conns| - 1] == t.handled[|t.k.conns| - 1] == []
    requires EncodeAll([]) == [] && Parse([], t.cap) == Parsed([], [], false)
    requires t.writing == t.busy == NONE
    requires Alternates(t.slots[i].trace) && Live(t.slots[i].trace)
    ensures t.SlotOk(i)
  {
    hide EncodeAll, Parse, Alternates;
    assert t.ConnectedOk(i);
  }

  lemma JoinedConns(s: State, fd: int, timer: int)
    requires s.Inv() && s.lists.free != []
    ensures Joined(s, fd, timer).ConnsDistinct()
  {
    hide Lists.Ok, State.ConnectedOk;
    FreeAt(s, 0);
    var i, t := s.lists.free[0], Joined(s, fd, timer);
    forall j | 0 <= j < |s.slots| && j != i && t.lists.home[j] != Free ensures t.slots[j].conn < |s.k.conns| {
      assert s.SlotOk(j);
      ConnInRange(s, j);
    }
  }

  lemma ConnInRange(s: State, j: nat)
    requires s.Sizes() && j < |s.slots| && s.SlotOk(j) && s.lists.home[j] != Free
    ensures s.slots[j].conn < |s.sent|
  {
  }

  /** A new connection is accepted and closed again: there was no free slot, or
      setting one up failed and it was freed. */
  ghost function Refused(s: State): State
    requires s.Sizes()
  {
    s.(k := s.k.(conns := s.k.conns + [K.Bytes([], [])]), sent := s.sent + [[]], complete := s.complete + [[]],
       handled := s.handled + [[]], delivered := s.delivered + [[]])
  }

  lemma RefusedInv(s: State)
    requires s.Inv()
    ensures Refused(s).Inv()
  {
    hide Parse, EncodeAll, Lists.Ok, State.SlotOk, State.ConnOk, State.DescriptorsOk;
    var t := Refused(s);
    RefusedDescriptors(s);
    forall j | 0 <= j < |t.slots| ensures t.SlotOk(j) {
      assert s.SlotOk(j);
      SlotFrame(s, t, j);
    }
    forall c | 0 <= c < |t.sent| ensures t.ConnOk(c) {
      if c < |s.sent| {
        assert s.ConnOk(c);
        SameConnOk(s, t, c);
      } else {
        NewConnOk(t, c);
      }
    }
  }

  lemma RefusedDescriptors(s: State)
    requires s.Sizes() && s.DescriptorsOk()
    ensures Refused(s).DescriptorsOk()
  {
    var t := Refused(s);
    forall x | x in t.owner ensures t.RoleOk(x) {
      assert s.RoleOk(x);
    }
  }

  /** The first free slot was taken, given values, and freed again. */
  ghost function Bounced(s: State, a: Slot): State
    requires s.Sizes() && s.lists.Ok() && s.lists.free != []
  {
    s.lists.AllocatedOk();
    s.(lists := s.lists.Allocated().FreedConnected(0), slots := s.slots[s.lists.free[0] := a])
  }

  lemma BouncedInv(s: State, a: Slot)
    requires s.Inv() && s.lists.free != [] && a.trace == s.slots[s.lists.free[0]].trace
    ensures Bounced(s, a).Inv()
  {
    hide Parse, EncodeAll, Lists.Ok, State.ConnOk, State.SlotOk, State.DescriptorsOk;
    FreeAt(s, 0);
    var i, t := s.lists.free[0], Bounced(s, a);
    s.lists.AllocatedOk();
    s.lists.Allocated().FreedConnectedOk(0);
    assert t.lists.home == s.lists.home;
    BouncedDescriptors(s, a);
    forall j | 0 <= j < |t.slots| ensures t.SlotOk(j) {
      assert s.SlotOk(j);
      if j == i {
        FreeSlotOk(s, t, i);
      } else {
        SlotFrame(s, t, j);
      }
    }
    forall c | 0 <= c < |t.sent| ensures t.ConnOk(c) {
      assert s.ConnOk(c);
      SameConnOk(s, t, c);
    }
  }

  lemma FreeSlotOk(s: State, t: State, i: nat)
    requires s.Sizes() && t.Sizes() && i < |s.slots| && i < |t.slots| && s.SlotOk(i)
    requires s.lists.home[i] == Free == t.lists.home[i] && s.slots[i].trace == t.slots[i].trace
    ensures t.SlotOk(i)
  {
  }

  lemma BouncedDescriptors(s: State, a: Slot)
    requires s.Sizes() && s.lists.Ok() && s.lists.free != [] && s.DescriptorsOk()
    requires Bounced(s, a).lists.home == s.lists.home
    ensures Bounced(s, a).DescriptorsOk()
  {
    hide Lists.Ok;
    FreeAt(s, 0);
    var t := Bounced(s, a);
    forall x | x in t.owner ensures t.RoleOk(x) {
      assert s.RoleOk(x);
    }
  }

  // ----- destroying a pending client -----

  /** The timer of the first pending client is closed. */
  function TimerClosed(s: State): State
    requires s.Sizes() && s.lists.pending != [] && s.lists.pending[0] < |s.slots|
  {
    var i := s.lists.pending[0];
    var fd := s.slots[i].timer;
    s.(k := s.k.Deleted(fd).Closed(fd), owner := s.owner - {fd},
       slots := s.slots[i := s.slots[i].(timer := -1)], closing := i)
  }

  /** It is announced as disconnected. */
  function Gone(s: State): State
    requires s.Sizes() && s.lists.pending != [] && s.lists.pending[0] < |s.slots|
  {
    var i := s.lists.pending[0];
    s.(slots := s.slots[i := s.slots[i].(trace := s.slots[i].trace + [ClientDisconnected])])
  }

  /** Its slot is freed. */
  ghost function Destroyed(s: State): State
    requires s.Sizes() && s.lists.Ok() && s.lists.pending != [] && s.lists.pending[0] < |s.slots|
  {
    s.(lists := s.lists.FreedPending(), closing := NONE)
  }

  lemma PendingAt(s: State, pos: nat)
    requires s.Sizes() && s.lists.Ok() && pos < |s.lists.pending|
    ensures var i := s.lists.pending[pos]; i < |s.slots| && s.lists.home[i] == Pending
  {
  }

  lemma TimerClosedInv(s: State)
    requires s.Inv() && s.lists.pending != [] && s.closing == NONE
    ensures s.lists.pending[0] < |s.slots| && TimerClosed(s).Inv()
  {
    hide Parse, EncodeAll, Lists.Ok, State.ConnOk, State.SlotOk, State.DescriptorsOk;
    PendingAt(s, 0);
    var i, t := s.lists.pending[0], TimerClosed(s);
    assert s.SlotOk(i);
    TimerClosedDescriptors(s);
    forall j | 0 <= j < |t.slots| ensures t.SlotOk(j) {
      assert s.SlotOk(j);
      TimerClosedSlot(s, j);
    }
    forall c | 0 <= c < |t.sent| ensures t.ConnOk(c) {
      assert s.ConnOk(c);
      SameConnOk(s, t, c);
    }
  }

  lemma TimerClosedDescriptors(s: State)
    requires s.Sizes() && s.lists.Ok() && s.lists.pending != [] && s.closing == NONE && s.DescriptorsOk()
    requires s.lists.pending[0] < |s.slots| && s.SlotOk(s.lists.pending[0])
    ensures TimerClosed(s).DescriptorsOk()
  {
    hide Lists.Ok;
    PendingAt(s, 0);
    var t := TimerClosed(s);
    forall x | x in t.owner ensures t.RoleOk(x) {
      assert s.RoleOk(x);
    }
  }

  lemma TimerClosedSlot(s: State, j: nat)
    requires s.Sizes() && s.lists.Ok() && s.lists.pending != [] && s.closing == NONE && j < |s.slots|
    requires s.lists.pending[0] < |s.slots| && s.SlotOk(s.lists.pending[0]) && s.SlotOk(j)
    ensures TimerClosed(s).SlotOk(j)
  {
    hide Lists.Ok;
    PendingAt(s, 0);
    var i, t := s.lists.pending[0], TimerClosed(s);
    if j != i {
      TimerApart(s, i, j);
      hide State.SlotOk;
      SlotFrame(s, t, j);
    }
  }

  lemma TimerApart(s: State, i: nat, j: nat)
    requires s.Sizes() && i < |s.slots| && j < |s.slots| && i != j && s.closing == NONE
    requires s.lists.home[i] == Pending && s.SlotOk(i) && s.SlotOk(j)
    ensures s.HasTimer(j) ==> s.slots[j].timer != s.slots[i].timer
    ensures s.lists.home[j] == Connected ==> s.slots[j].fd != s.slots[i].timer
  {
  }

  lemma GoneInv(s: State)
    requires s.Inv() && s.lists.pending != [] && s.closing == s.lists.pending[0]
    requires s.lists.pending[0] < |s.slots| && Live(s.slots[s.lists.pending[0]].trace)
    ensures Gone(s).Inv() && !Live(Gone(s).slots[s.lists.pending[0]].trace)
  {
    hide Parse, EncodeAll, Lists.Ok, State.ConnOk, State.SlotOk, State.DescriptorsOk;
    PendingAt(s, 0);
    var i, t := s.lists.pending[0], Gone(s);
    GoneDescriptors(s);
    forall j | 0 <= j < |t.slots| ensures t.SlotOk(j) {
      assert s.SlotOk(j);
      if j == i {
        GoneSlot(s, t, i);
      } else {
        SlotFrame(s, t, j);
      }
    }
    forall c | 0 <= c < |t.sent| ensures t.ConnOk(c) {
      assert s.ConnOk(c);
      SameConnOk(s, t, c);
    }
  }

  lemma GoneSlot(s: State, t: State, i: nat)
    requires s.Sizes() && t.Sizes() && i < |s.slots| == |t.slots| && s.SlotOk(i) && s.lists.home[i] == Pending
    requires t.lists == s.lists && t.closing == s.closing == i && |t.k.conns| == |s.k.conns|
    requires t.slots[i] == s.slots[i].(trace := s.slots[i].trace + [ClientDisconnected]) && Live(s.slots[i].trace)
    ensures t.SlotOk(i)
  {
  }

  lemma GoneDescriptors(s: State)
    requires s.Sizes() && s.lists.pending != [] && s.lists.pending[0] < |s.slots| && s.DescriptorsOk()
    ensures Gone(s).DescriptorsOk()
  {
    var t := Gone(s);
    forall x | x in t.owner ensures t.RoleOk(x) {
      assert s.RoleOk(x);
    }
  }

  lemma DestroyedInv(s: State)
    requires s.Inv() && s.lists.pending != [] && s.closing == s.lists.pending[0] && s.writing == NONE && s.busy == NONE
    requires s.lists.pending[0] < |s.slots| && !Live(s.slots[s.lists.pending[0]].trace)
    ensures Destroyed(s).Inv()
  {
    hide Parse, EncodeAll, Lists.Ok, State.ConnOk, State.SlotOk, State.DescriptorsOk;
    PendingAt(s, 0);
    var i, t := s.lists.pending[0], Destroyed(s);
    s.lists.FreedPendingOk();
    DestroyedDescriptors(s);
    forall j | 0 <= j < |t.slots| ensures t.SlotOk(j) {
      assert s.SlotOk(j);
      if j == i {
        DestroyedSlot(s);
      } else {
        SlotFrame(s, t, j);
      }
    }
    forall c | 0 <= c < |t.sent| ensures t.ConnOk(c) {
      assert s.ConnOk(c);
      SameConnOk(s, t, c);
    }
  }

  lemma DestroyedDescriptors(s: State)
    requires s.Sizes() && s.lists.Ok() && s.lists.pending != [] && s.DescriptorsOk()
    requires s.lists.pending[0] < |s.slots| && s.closing == s.lists.pending[0]
    ensures Destroyed(s).DescriptorsOk()
  {
    hide Lists.Ok;
    PendingAt(s, 0);
    var t := Destroyed(s);
    forall x | x in t.owner ensures t.RoleOk(x) {
      assert s.RoleOk(x);
    }
  }

  lemma DestroyedSlot(s: State)
    requires s.Sizes() && s.lists.Ok() && s.lists.pending != []
    requires s.lists.pending[0] < |s.slots| && s.SlotOk(s.lists.pending[0])
    requires !Live(s.slots[s.lists.pending[0]].trace)
    ensures Destroyed(s).SlotOk(s.lists.pending[0])
  {
    hide Lists.Ok;
    PendingAt(s, 0);
  }

  // ----- what one client_write may do -----

  /** Nothing but slot i's connection has been written to, and perhaps lost. */
  ghost predicate Undisturbed(s: State, t: State, i: nat) {
    && s.Sizes() && t.Sizes() && i < |s.slots| == |t.slots| && |t.sent| == |s.sent| && s.slots[i].conn < |s.sent|
    && t.cap == s.cap && t.decodes == s.decodes && t.complete == s.complete && t.handled == s.handled
    && t.delivered == s.delivered && t.busy == s.busy && t.closing == s.closing
    && t.listener == s.listener
    && (forall j :: 0 <= j < |s.slots| && j != i ==> t.slots[j] == s.slots[j])
    && SameClient(s.slots[i], t.slots[i])
    && (forall c :: 0 <= c < |s.sent| ==> t.k.conns[c].received == s.k.conns[c].received)
    && (forall c :: 0 <= c < |s.sent| ==> s.k.conns[c].sent <= t.k.conns[c].sent)
    && (forall c :: 0 <= c < |s.sent| && c != s.slots[i].conn ==> t.k.conns[c] == s.k.conns[c])
    && (t.lists == s.lists || (IsConnected(s, i) && t.lists == AfterLoss(s.lists, i)))
  }

  ghost function AfterLoss(l: Lists, i: nat): Lists
    requires l.Ok()
  {
    if i in l.connected then l.Moved(IndexOf(l.connected, i)) else l
  }

  /** One more frame was given to client_write for slot i. */
  ghost predicate Wrote(s: State, t: State, i: nat, f: Frame) {
    && Undisturbed(s, t, i)
    && t.sent == s.sent[s.slots[i].conn := s.sent[s.slots[i].conn] + [f]]
    && t.log == s.log + [Write(i, f)]
    && t.answering == if f.kind == PONG then NONE else s.answering
  }

  lemma WroteLogged(s: State, i: nat, f: Frame)
    requires s.Sizes() && i < |s.slots| && s.slots[i].conn < |s.sent|
    ensures Wrote(s, Logged(s, i, f), i, f)
  {
  }

  lemma WroteMore(s: State, t: State, i: nat, f: Frame, n: nat)
    requires Wrote(s, t, i, f) && n <= |t.owed| && t.lists == s.lists && t.Inv() && t.lists.home[i] == Connected
    ensures Wrote(s, Taken(t, i, n), i, f)
  {
    hide Lists.Ok, State.ConnOk, IsConnected;
    assert t.SlotOk(i);
  }

  lemma WroteKept(s: State, t: State, i: nat, f: Frame)
    requires Wrote(s, t, i, f) && t.lists == s.lists
    ensures Wrote(s, Kept(t, i), i, f)
  {
    hide Lists.Ok, IsConnected;
  }

  lemma WroteSettled(s: State, t: State, i: nat, f: Frame)
    requires Wrote(s, t, i, f)
    ensures Wrote(s, Settled(t), i, f)
  {
    hide Lists.Ok, IsConnected, AfterLoss;
  }

  lemma WroteLost(s: State, t: State, i: nat, f: Frame)
    requires Wrote(s, t, i, f) && t.lists == s.lists && IsConnected(t, i)
    ensures Wrote(s, Lost(t, i), i, f)
  {
    hide Lists.Ok;
    Listed(t, i);
    t.lists.MovedOk(IndexOf(t.lists.connected, i));
  }

  // ----- what the application may cause in a callback -----

  /** From s to t, frames were written and connections lost; nothing was read,
      accepted or destroyed. */
  ghost predicate Evolved(s: State, t: State) {
    && s.Sizes() && t.Sizes() && |s.slots| == |t.slots| && |t.sent| == |s.sent|
    && t.cap == s.cap && t.decodes == s.decodes && t.complete == s.complete && t.handled == s.handled
    && t.delivered == s.delivered && t.busy == s.busy && t.closing == s.closing && s.log <= t.log
    && t.listener == s.listener && t.answering == s.answering
    && (forall i :: 0 <= i < |s.slots| ==>
          SameClient(s.slots[i], t.slots[i]) && SameOrLost(s.lists.home[i], t.lists.home[i]))
    && (forall c :: 0 <= c < |s.sent| ==>
          && s.sent[c] <= t.sent[c] && s.k.conns[c].sent <= t.k.conns[c].sent
          && t.k.conns[c].received == s.k.conns[c].received)
  }

  ghost predicate SameClient(a: Slot, b: Slot) {
    b == a.(fd := b.fd, queued := b.queued) && SameOrClosed(a.fd, b.fd)
  }

  ghost predicate SameOrClosed(fd: int, fd': int) {
    fd' == fd || fd' == -1
  }

  ghost predicate SameOrLost(h: Home, h': Home) {
    h' == h || (h == Connected && h' == Pending)
  }

  lemma EvolvedSame(s: State)
    requires s.Sizes()
    ensures Evolved(s, s)
  {
  }

  lemma EvolvedTrans(s: State, t: State, u: State)
    requires Evolved(s, t) && Evolved(t, u)
    ensures Evolved(s, u)
  {
  }

  lemma EvolvedWrote(s: State, t: State, i: nat, f: Frame)
    requires Wrote(s, t, i, f) && f.kind != PONG
    ensures Evolved(s, t)
  {
    hide Lists.Ok;
    if t.lists != s.lists {
      Listed(s, i);
    }
  }

  lemma EvolvedLost(s: State, i: nat)
    requires IsConnected(s, i)
    ensures Lost(s, i).Sizes() ==> Evolved(s, Lost(s, i))
  {
    hide Lists.Ok;
    Listed(s, i);
  }

  lemma EvolvedDrained(s: State, i: nat, written: seq<byte>, rest: seq<byte>)
    requires s.Sizes() && i < |s.slots|
    ensures Evolved(s, Drained(s, i, written, rest))
  {
  }

  lemma EvolvedDangling(s: State, i: nat, left: seq<byte>)
    requires s.Sizes() && i < |s.slots|
    ensures Evolved(s, Dangling(s, i, left))
  {
  }

  /** The application has disconnected client i, if it was connected. */
  function Noted(s: State, i: nat): State {
    s.(log := s.log + [Dismiss(i)])
  }

  lemma NotedInv(s: State, i: nat)
    requires s.Inv()
    ensures Noted(s, i).Inv() && Noted(s, i).Sizes() && Evolved(s, Noted(s, i)) && Dismissed(s, Noted(s, i), i)
    ensures OnlyDismissed(s, Noted(s, i))
  {
    hide Parse, EncodeAll, Lists.Ok;
    var t := Noted(s, i);
    forall j | 0 <= j < |t.slots| ensures t.SlotOk(j) {
      assert s.SlotOk(j);
    }
    forall c | 0 <= c < |t.sent| ensures t.ConnOk(c) {
      assert s.ConnOk(c);
    }
    forall fd | fd in t.owner ensures t.RoleOk(fd) {
      assert s.RoleOk(fd);
    }
    assert t.log[|s.log|..] == [Dismiss(i)];
  }

  // ----- broadcasting -----

  function Writes(slots: seq<nat>, f: Frame): (w: seq<Deed>)
    ensures |w| == |slots| && forall j :: 0 <= j < |w| ==> w[j] == Write(slots[j], f)
  {
    seq(|slots|, j requires 0 <= j < |slots| => Write(slots[j], f))
  }

  /** Frame f was given to client_write for exactly the first n of the clients that
      were connected in s, once each and in list order. */
  ghost predicate BroadcastTo(s: State, t: State, f: Frame, n: nat)
    requires s.Inv()
  {
    && n <= |s.lists.connected| && Evolved(s, t)
    && t.log == s.log + Writes(s.lists.connected[..n], f)
    && (forall i :: 0 <= i < |s.slots| && i in s.lists.connected[..n] ==> SentOneMore(s, t, s.slots[i].conn, f))
    && (forall c :: 0 <= c < |s.sent| && !Serves(s, s.lists.connected[..n], c) ==> SentSame(s, t, c))
  }

  /** One of the slots serves connection c. */
  ghost predicate Serves(s: State, slots: seq<nat>, c: nat) {
    exists i :: 0 <= i < |s.slots| && i in slots && s.slots[i].conn == c
  }

  ghost predicate SentOneMore(s: State, t: State, c: nat, f: Frame) {
    c < |s.sent| && c < |t.sent| && t.sent[c] == s.sent[c] + [f]
  }

  ghost predicate SentSame(s: State, t: State, c: nat) {
    c < |s.sent| && c < |t.sent| && t.sent[c] == s.sent[c]
  }

  lemma BroadcastNone(s: State, f: Frame)
    requires s.Inv()
    ensures BroadcastTo(s, s, f, 0)
  {
    InvSizes(s);
    EvolvedSame(s);
    assert s.log + Writes(s.lists.connected[..0], f) == s.log;
  }

  lemma ConnectedAt(s: State, n: nat)
    requires s.Inv() && n < |s.lists.connected|
    ensures var i := s.lists.connected[n];
      IsConnected(s, i) && i !in s.lists.connected[..n] && s.slots[i].conn < |s.sent|
  {
    var i := s.lists.connected[n];
    assert s.lists.home[i] == Connected;
    assert s.SlotOk(i);
  }

  lemma BroadcastStep(s: State, t: State, u: State, f: Frame, n: nat)
    requires s.Inv() && n < |s.lists.connected| && BroadcastTo(s, t, f, n)
    requires Wrote(t, u, s.lists.connected[n], f) && f.kind != PONG
    ensures BroadcastTo(s, u, f, n + 1)
  {
    hide Lists.Ok, State.SlotOk, State.ConnOk, State.DescriptorsOk;
    var i, now, next := s.lists.connected[n], s.lists.connected[..n], s.lists.connected[..n + 1];
    ConnectedAt(s, n);
    EvolvedWrote(t, u, i, f);
    EvolvedTrans(s, t, u);
    assert next == now + [i];
    assert s.log + Writes(next, f) == (s.log + Writes(now, f)) + [Write(i, f)];
    forall j | 0 <= j < |s.slots| && j in next ensures SentOneMore(s, u, s.slots[j].conn, f) {
      BroadcastOther(s, t, u, f, n, j);
    }
    forall c | 0 <= c < |s.sent| && !Serves(s, next, c)
      ensures SentSame(s, u, c)
    {
      assert SameClient(s.slots[i], t.slots[i]);
      assert i in next;
      assert SentSame(s, t, c);
    }
  }

  lemma BroadcastOther(s: State, t: State, u: State, f: Frame, n: nat, j: nat)
    requires s.Inv() && n < |s.lists.connected| && BroadcastTo(s, t, f, n) && j < |s.slots|
    requires Wrote(t, u, s.lists.connected[n], f) && j in s.lists.connected[..n + 1]
    ensures SentOneMore(s, u, s.slots[j].conn, f)
  {
    hide Lists.Ok, State.SlotOk, State.ConnOk, State.DescriptorsOk;
    var i, now := s.lists.connected[n], s.lists.connected[..n];
    ConnectedAt(s, n);
    ConnectedMember(s, j);
    assert s.lists.connected[..n + 1] == now + [i];
    assert SameClient(s.slots[i], t.slots[i]);
    if j == i {
      forall k | 0 <= k < |s.slots| && k in now ensures s.slots[k].conn != s.slots[i].conn {
        ConnectedMember(s, k);
      }
      assert SentSame(s, t, s.slots[i].conn);
    } else {
      assert SentOneMore(s, t, s.slots[j].conn, f);
    }
  }

  lemma ConnectedMember(s: State, j: nat)
    requires s.Inv() && j in s.lists.connected
    ensures IsConnected(s, j)
  {
    var n :| 0 <= n < |s.lists.connected| && s.lists.connected[n] == j;
    ConnectedAt(s, n);
  }

  /** How far a walk along the connected list has come: `before` is what is left of
      the clients already visited, and the others are all still there. */
  lemma WalkOn(t: State, u: State, before: seq<nat>, i: nat, rest: seq<nat>, f: Frame)
    requires t.lists.Ok() && Wrote(t, u, i, f) && t.lists.connected == before + [i] + rest
    ensures u.lists.connected == (if u.lists == t.lists then before + [i] else before) + rest
  {
    DropAt(t.lists, before, i, rest);
  }

  lemma LiveIsServed(s: State, i: nat)
    requires s.Inv() && i < |s.slots|
    ensures i < |s.lists.home| && (Live(s.slots[i].trace) ==> s.lists.home[i] != Free)
    ensures s.lists.home[i] != Free && i != s.closing ==> Live(s.slots[i].trace)
  {
    assert s.SlotOk(i);
  }

  lemma EvolvedHome(s: State, t: State, i: nat)
    requires Evolved(s, t) && i < |s.slots|
    ensures i < |s.lists.home| && i < |t.lists.home| && (s.lists.home[i] == Free <==> t.lists.home[i] == Free)
    ensures t.slots[i].conn == s.slots[i].conn && t.slots[i].timer == s.slots[i].timer
    ensures t.slots[i].trace == s.slots[i].trace
    ensures |t.slots| == |s.slots| && t.busy == s.busy && t.closing == s.closing && t.complete == s.complete
    ensures t.handled == s.handled && t.answering == s.answering
    ensures t.cap == s.cap && t.decodes == s.decodes
    ensures |t.k.conns| == |s.k.conns| == |s.sent|
    ensures s.slots[i].conn < |s.sent| ==>
        t.k.conns[s.slots[i].conn].received == s.k.conns[s.slots[i].conn].received
  {
    assert SameClient(s.slots[i], t.slots[i]) && SameOrLost(s.lists.home[i], t.lists.home[i]);
  }

  lemma WroteToPending(s: State, t: State, i: nat, f: Frame)
    requires Wrote(s, t, i, f) && s.lists.home[i] != Connected
    ensures t.lists == s.lists
  {
  }

  // ----- what reading from one client may do -----

  /** From s to t, bytes were read from slot i only, and the application reacted. The
      unfinished frames, the frames complete and the bytes received of all other
      clients are untouched. */
  ghost predicate Served(s: State, t: State, i: nat) {
    && s.Sizes() && t.Sizes() && i < |s.slots| == |t.slots| && |t.sent| == |s.sent| && s.slots[i].conn < |s.sent|
    && t.cap == s.cap && t.decodes == s.decodes && t.closing == s.closing && s.log <= t.log && t.listener == s.listener
    && (forall j :: 0 <= j < |s.slots| && j != i ==> SameClient(s.slots[j], t.slots[j]))
    && SameClient(s.slots[i].(input := t.slots[i].input), t.slots[i])
    && (forall j :: 0 <= j < |s.slots| ==> SameOrLost(s.lists.home[j], t.lists.home[j]))
    && (forall c :: 0 <= c < |s.sent| ==> s.sent[c] <= t.sent[c] && s.k.conns[c].sent <= t.k.conns[c].sent)
    && (forall c :: 0 <= c < |s.sent| && c != s.slots[i].conn ==>
          && t.complete[c] == s.complete[c] && t.k.conns[c].received == s.k.conns[c].received
          && t.handled[c] == s.handled[c] && t.delivered[c] == s.delivered[c])
    && t.answering == s.answering
    && s.complete[s.slots[i].conn] <= t.complete[s.slots[i].conn]
    && s.handled[s.slots[i].conn] <= t.handled[s.slots[i].conn]
    && s.delivered[s.slots[i].conn] <= t.delivered[s.slots[i].conn]
    && s.k.conns[s.slots[i].conn].received <= t.k.conns[s.slots[i].conn].received
  }

  lemma ServedEvolved(s: State, t: State, i: nat)
    requires Evolved(s, t) && i < |s.slots| && s.slots[i].conn < |s.sent|
    ensures Served(s, t, i)
  {
    assert SameClient(s.slots[i], t.slots[i]);
  }

  lemma ServedTrans(s: State, t: State, u: State, i: nat)
    requires Served(s, t, i) && Served(t, u, i)
    ensures Served(s, u, i)
  {
  }

  lemma ServedReceived(s: State, i: nat, chunk: seq<byte>, frames: seq<Frame>)
    requires s.Sizes() && i < |s.slots| && s.slots[i].conn < |s.sent|
    requires s.slots[i].fd in s.k.open ==> s.k.open[s.slots[i].fd] == K.Stream(s.slots[i].conn)
    ensures Served(s, Received(s, i, chunk, frames), i)
  {
  }

  lemma ServedReading(s: State, i: nat)
    requires s.Sizes() && i < |s.slots| && s.slots[i].conn < |s.sent|
    ensures var t := Reading(s, i); Took(s, t, i, 0) && Spared(s, t, i)
  {
  }

  lemma ServedRead(s: State, i: nat, input: seq<byte>)
    requires s.Sizes() && i < |s.slots| && s.slots[i].conn < |s.sent|
    ensures var t := Read(s, i, input); Took(s, t, i, 0) && Spared(s, t, i)
  {
  }

  /** n bytes were taken from the connection of slot i. */
  ghost predicate Took(s: State, t: State, i: nat, n: int) {
    && Served(s, t, i)
    && |t.k.conns[s.slots[i].conn].received| == |s.k.conns[s.slots[i].conn].received| + n
  }

  /** The application has disconnected client i. */
  ghost predicate Dismissed(s: State, t: State, i: nat) {
    s.log <= t.log && Dismiss(i) in t.log[|s.log|..]
  }

  lemma DismissedLater(s: State, t: State, u: State, i: nat)
    requires s.log <= t.log <= u.log && (Dismissed(s, t, i) || Dismissed(t, u, i))
    ensures Dismissed(s, u, i)
  {
    assert u.log[|s.log|..] == t.log[|s.log|..] + u.log[|t.log|..];
  }

  /** Connected clients stay connected, unless the application has disconnected them. */
  ghost predicate OnlyDismissed(s: State, t: State) {
    && |s.lists.home| == |t.lists.home| && s.log <= t.log
    && forall i :: 0 <= i < |s.lists.home| && s.lists.home[i] == Connected ==>
         t.lists.home[i] == Connected || Dismissed(s, t, i)
  }

  lemma OnlyDismissedSame(s: State, t: State)
    requires t.lists.home == s.lists.home && s.log <= t.log
    ensures OnlyDismissed(s, t)
  {
  }

  lemma OnlyDismissedTrans(s: State, t: State, u: State)
    requires OnlyDismissed(s, t) && OnlyDismissed(t, u)
    ensures OnlyDismissed(s, u)
  {
    forall i | 0 <= i < |s.lists.home| && s.lists.home[i] == Connected
      ensures u.lists.home[i] == Connected || Dismissed(s, u, i)
    {
      if u.lists.home[i] != Connected {
        DismissedLater(s, t, u, i);
      }
    }
  }

  /** A frame has come from slot i that the server does not take. */
  ghost predicate Rejecting(s: State, i: nat) {
    && s.Sizes() && i < |s.slots| && s.slots[i].conn < |s.sent|
    && exists f :: f in s.complete[s.slots[i].conn] && !s.Acceptable(f)
  }

  /** The keep-alive timer of a client was started n times, for three seconds. */
  function Restarts(timer: int, n: nat): seq<K.Call> {
    seq(n, _ => K.Arm(timer, 3))
  }

  /** The pings taken on connection c. */
  function Pings(s: State, c: nat): nat
    requires c < |s.handled|
  {
    |OfKind(PING, s.handled[c])|
  }

  /** From s to t the keep-alive timer of client i was restarted once for every ping taken
      from it, which are all the calls that were made. */
  ghost predicate Restarted(s: State, t: State, i: nat, calls: seq<K.Call>, calls': seq<K.Call>) {
    && Served(s, t, i)
    && var c := s.slots[i].conn;
       Pings(s, c) <= Pings(t, c) && calls' == calls + Restarts(s.slots[i].timer, Pings(t, c) - Pings(s, c))
  }

  lemma RestartedTrans(s: State, t: State, u: State, i: nat, calls: seq<K.Call>, calls': seq<K.Call>,
                       calls'': seq<K.Call>)
    requires Restarted(s, t, i, calls, calls') && Restarted(t, u, i, calls', calls'')
    ensures Restarted(s, u, i, calls, calls'')
  {
    hide OfKind;
    ServedTrans(s, t, u, i);
    assert SameClient(s.slots[i].(input := t.slots[i].input), t.slots[i]);
    var c, timer := s.slots[i].conn, s.slots[i].timer;
    var n, m := Pings(t, c) - Pings(s, c), Pings(u, c) - Pings(t, c);
    assert Restarts(timer, n) + Restarts(timer, m) == Restarts(timer, n + m);
  }

  /** No ping was taken. */
  lemma NotRestarted(s: State, t: State, i: nat, calls: seq<K.Call>)
    requires Served(s, t, i) && t.handled == s.handled
    ensures Restarted(s, t, i, calls, calls)
  {
    assert calls + Restarts(s.slots[i].timer, 0) == calls;
  }

  lemma RestartedUser(s: State, t: State, i: nat, f: Frame, calls: seq<K.Call>)
    requires s.Sizes() && i < |s.slots| && s.slots[i].conn < |s.sent| && Evolved(Told(s, i, f), t)
    requires f.kind == CLIENT_TO_SERVER_USER
    ensures Restarted(s, t, i, calls, calls)
  {
    hide OfKind;
    TookUser(s, t, i, f);
    KindsDiffer();
    OfKindSnoc(PING, s.handled[s.slots[i].conn], f);
    assert calls + Restarts(s.slots[i].timer, 0) == calls;
  }

  lemma RestartedPing(s: State, t: State, i: nat, f: Frame, calls: seq<K.Call>)
    requires s.Sizes() && i < |s.slots| && s.slots[i].conn < |s.sent| && s.answering == NONE
    requires Wrote(Pinged(s, i, f), t, i, Frame(PONG, [])) && f.kind == PING
    ensures Restarted(s, t, i, calls, calls + [K.Arm(s.slots[i].timer, 3)])
  {
    hide OfKind;
    TookPing(s, t, i, f);
    OfKindSnoc(PING, s.handled[s.slots[i].conn], f);
    assert Restarts(s.slots[i].timer, 1) == [K.Arm(s.slots[i].timer, 3)];
  }

  /** The header of a frame that is too large has been received. */
  ghost predicate Overlong(s: State, i: nat) {
    && s.Sizes() && i < |s.slots| && s.slots[i].conn < |s.sent|
    && Parse(s.k.conns[s.slots[i].conn].received, s.cap).tooBig
  }

  /** Slot i was not disconnected, unless for what was received or by the application. */
  ghost predicate Spared(s: State, t: State, i: nat) {
    && Served(s, t, i)
    && (s.lists.home[i] == Connected ==>
          t.lists.home[i] == Connected || Dismissed(s, t, i) || Overlong(t, i) || Rejecting(t, i))
  }

  lemma TookServed(s: State, t: State, i: nat, n: int)
    requires Took(s, t, i, n)
    ensures Served(s, t, i)
  {
  }

  lemma TookNothing(s: State, t: State, i: nat, n: int)
    requires Took(s, t, i, n)
    ensures Took(t, t, i, 0)
  {
    assert SameClient(s.slots[i].(input := t.slots[i].input), t.slots[i]);
  }

  lemma TookTrans(s: State, t: State, u: State, i: nat, n: int, m: int)
    requires Took(s, t, i, n) && Took(t, u, i, m)
    ensures Took(s, u, i, n + m)
  {
    ServedTrans(s, t, u, i);
  }

  lemma TookEvolved(s: State, t: State, i: nat)
    requires Evolved(s, t) && i < |s.slots| && s.slots[i].conn < |s.sent|
    ensures Took(s, t, i, 0)
  {
    ServedEvolved(s, t, i);
  }

  /** A ping was taken and answered. */
  lemma TookPing(s: State, t: State, i: nat, f: Frame)
    requires s.Sizes() && i < |s.slots| && s.slots[i].conn < |s.sent| && s.answering == NONE
    requires Wrote(Pinged(s, i, f), t, i, Frame(PONG, []))
    ensures Took(s, t, i, 0)
  {
    hide Lists.Ok;
    if t.lists != s.lists {
      Listed(Pinged(s, i, f), i);
    }
  }

  /** A user message was taken and given to the application, which has reacted. */
  lemma TookUser(s: State, t: State, i: nat, f: Frame)
    requires s.Sizes() && i < |s.slots| && s.slots[i].conn < |s.sent| && Evolved(Told(s, i, f), t)
    ensures Took(s, t, i, 0)
  {
    assert SameClient(s.slots[i], t.slots[i]);
  }

  lemma TookReceived(s: State, i: nat, chunk: seq<byte>, frames: seq<Frame>, before: seq<byte>)
    requires ParsedTo(s, i, before) && s.slots[i].fd in s.k.open && s.k.open[s.slots[i].fd] == K.Stream(s.slots[i].conn)
    ensures var t := Received(s, i, chunk, frames);
      && Took(s, t, i, |chunk|)
      && (Parse(before + chunk, s.cap).tooBig ==> Overlong(t, i))
  {
    hide Parse;
    ServedReceived(s, i, chunk, frames);
    ParseAppend(s.k.conns[s.slots[i].conn].received, chunk, s.cap);
  }

  lemma OverlongLater(s: State, t: State, i: nat)
    requires Overlong(s, i) && Served(s, t, i)
    ensures Overlong(t, i)
  {
    hide Parse;
    var a, b := s.k.conns[s.slots[i].conn].received, t.k.conns[s.slots[i].conn].received;
    assert SameClient(s.slots[i].(input := t.slots[i].input), t.slots[i]);
    assert a + b[|a|..] == b;
    ParseAppend(a, b[|a|..], s.cap);
  }

  lemma RejectingLater(s: State, t: State, i: nat)
    requires Rejecting(s, i) && Served(s, t, i)
    ensures Rejecting(t, i)
  {
    assert SameClient(s.slots[i].(input := t.slots[i].input), t.slots[i]);
    var f :| f in s.complete[s.slots[i].conn] && !s.Acceptable(f);
    assert f in t.complete[s.slots[i].conn] && !t.Acceptable(f);
  }

  lemma SparedTrans(s: State, t: State, u: State, i: nat)
    requires Spared(s, t, i) && Spared(t, u, i)
    ensures Spared(s, u, i)
  {
    hide Overlong, Rejecting, Dismissed;
    ServedTrans(s, t, u, i);
    ReasonsLater(s, t, u, i);
  }

  lemma ReasonsLater(s: State, t: State, u: State, i: nat)
    requires Served(s, t, i) && Served(t, u, i)
    ensures Dismissed(s, t, i) || Dismissed(t, u, i) ==> Dismissed(s, u, i)
    ensures Overlong(t, i) ==> Overlong(u, i)
    ensures Rejecting(t, i) ==> Rejecting(u, i)
  {
    hide Overlong, Rejecting;
    if Dismissed(s, t, i) || Dismissed(t, u, i) {
      DismissedLater(s, t, u, i);
    }
    if Overlong(t, i) {
      OverlongLater(t, u, i);
    }
    if Rejecting(t, i) {
      RejectingLater(t, u, i);
    }
  }

  /** Nothing is asked of a disconnection for which there is a reason. */
  lemma SparedIf(s: State, t: State, u: State, i: nat)
    requires Served(s, t, i) && Served(t, u, i)
    requires Overlong(t, i) || Rejecting(t, i) || Dismissed(t, u, i)
             || (i < |u.lists.home| && u.lists.home[i] == Connected)
             || (i < |s.lists.home| && s.lists.home[i] != Connected)
    ensures Spared(s, u, i)
  {
    hide Overlong, Rejecting, Dismissed;
    ServedTrans(s, t, u, i);
    ReasonsLater(s, t, u, i);
  }

  lemma StreamOf(s: State, i: nat)
    requires s.Inv() && i < |s.slots| && s.lists.home[i] != Free
    ensures s.slots[i].conn < |s.sent|
    ensures s.lists.home[i] == Connected ==>
        s.slots[i].fd in s.k.open && s.k.open[s.slots[i].fd] == K.Stream(s.slots[i].conn)
    ensures s.lists.home[i] != Connected ==> s.slots[i].fd !in s.k.open
  {
    assert s.SlotOk(i);
  }

  /** The frames handed to handle_message on the slot's connection are exactly those in
      the bytes received on it, and `rest` is what is left of them. */
  ghost predicate ParsedTo(s: State, i: nat, rest: seq<byte>) {
    && s.Sizes() && i < |s.slots| && s.slots[i].conn < |s.sent|
    && Parse(s.k.conns[s.slots[i].conn].received, s.cap) == Parsed(s.complete[s.slots[i].conn], rest, false)
  }

  lemma ParsedReading(s: State, i: nat, rest: seq<byte>)
    requires ParsedTo(s, i, rest)
    ensures ParsedTo(Reading(s, i), i, rest)
  {
  }

  lemma ParsedWhenIdle(s: State, i: nat)
    requires s.Inv() && i < |s.slots| && s.lists.home[i] == Connected && i != s.busy
    ensures ParsedTo(s, i, s.slots[i].input) && UpToDate(s, i)
  {
    assert s.SlotOk(i);
  }

  lemma RefusedKernel(k: K.State, fd: int)
    requires fd !in k.open
    ensures k.Accepted(fd).Closed(fd) == k.(conns := k.conns + [K.Bytes([], [])])
  {
    assert k.open[fd := K.Stream(|k.conns|)] - {fd} == k.open;
  }

  lemma UnusedNow(s: State, fd: int)
    requires s.Inv() && fd >= 0 && fd !in s.k.open && fd !in s.k.epoll
    ensures Unused(s, fd)
  {
  }

  lemma FirstFree(s: State)
    requires s.Inv() && s.lists.free != []
    ensures s.lists.free[0] < |s.slots| == |s.lists.home| && s.lists.home[s.lists.free[0]] == Free
    ensures s.lists.Allocated().Ok() && s.lists.Allocated().connected == [s.lists.free[0]] + s.lists.connected
    ensures s.lists.Allocated().home == s.lists.home[s.lists.free[0] := Connected]
    ensures s.lists.Allocated().FreedConnected(0).home == s.lists.home
  {
    hide State.SlotOk, State.ConnOk, State.DescriptorsOk, Holds, Chained, BackChained, Distinct, NextWithout;
    hide PrevWithout;
    FreeAt(s, 0);
    s.lists.AllocatedOk();
    s.lists.Allocated().FreedConnectedOk(0);
    assert s.lists.Allocated().FreedConnected(0).home == s.lists.home;
  }

  // ----- what the listener may bring -----

  /** No client was added: at most a connection came and went. */
  ghost predicate NoClient(s: State, t: State) {
    && s.Sizes() && t.Sizes() && |t.slots| == |s.slots| && |s.sent| <= |t.sent| <= |s.sent| + 1 && t.cap == s.cap
    && t.decodes == s.decodes
    && t.lists.home == s.lists.home && t.lists.connected == s.lists.connected && t.lists.pending == s.lists.pending
    && t.k.open == s.k.open && t.k.epoll == s.k.epoll && t.k.strays == s.k.strays && t.listener == s.listener
    && t.answering == s.answering
    && (forall j :: 0 <= j < |s.slots| ==>
          t.slots[j].trace == s.slots[j].trace && (s.lists.home[j] != Free ==> t.slots[j] == s.slots[j]))
    && (forall c :: 0 <= c < |s.sent| ==> SameConn(s, t, c))
  }

  /** The first free slot was given a new connection and announced, and the application
      reacted; nothing was read from anyone. */
  ghost predicate OneClient(s: State, t: State) {
    && s.Sizes() && t.Sizes() && |t.slots| == |s.slots| && |t.sent| == |s.sent| + 1 && t.cap == s.cap
    && t.decodes == s.decodes
    && t.listener == s.listener && t.answering == s.answering && s.lists.free != [] && s.lists.free[0] < |s.slots|
    && (var i := s.lists.free[0];
        && s.lists.home[i] == Free && t.lists.home[i] != Free
        && t.slots[i].trace == s.slots[i].trace + [ClientConnected] && t.slots[i].conn == |s.sent|
        && (forall j :: 0 <= j < |s.slots| && j != i ==>
              SameClient(s.slots[j], t.slots[j]) && SameOrLost(s.lists.home[j], t.lists.home[j])))
    && (forall c :: 0 <= c < |s.sent| ==>
          && s.sent[c] <= t.sent[c] && s.k.conns[c].sent <= t.k.conns[c].sent && t.complete[c] == s.complete[c]
          && t.handled[c] == s.handled[c]
          && t.delivered[c] == s.delivered[c] && t.k.conns[c].received == s.k.conns[c].received)
  }

  /** The same, with the descriptors that the client was given. */
  ghost predicate Newcomer(s: State, t: State, fd: int, timer: int) {
    && OneClient(s, t) && t.slots[s.lists.free[0]].timer == timer
    && SameOrClosed(fd, t.slots[s.lists.free[0]].fd)
  }

  lemma RefusedIsNoClient(s: State)
    requires s.Sizes()
    ensures NoClient(s, s) && NoClient(s, Refused(s))
  {
  }

  lemma BouncedIsNoClient(s: State, a: Slot)
    requires s.Inv() && s.lists.free != [] && s.lists.free[0] < |s.slots| && a.trace == s.slots[s.lists.free[0]].trace
    ensures NoClient(s, Refused(Bounced(s, a)))
  {
    hide State.SlotOk, State.ConnOk, State.DescriptorsOk, Lists.Ok;
    FreeAt(s, 0);
    FirstFree(s);
    var l := s.lists.Allocated();
    assert Drop(l.connected, 0) == s.lists.connected;
    l.FreedConnectedOk(0);
  }

  lemma JoinedIsOneClient(s: State, fd: int, timer: int, t: State)
    requires s.Inv() && s.lists.free != [] && Evolved(Joined(s, fd, timer), t)
    ensures Newcomer(s, t, fd, timer)
  {
    hide State.SlotOk, State.ConnOk, State.DescriptorsOk, Lists.Ok;
    FreeAt(s, 0);
    FirstFree(s);
    var u, i := Joined(s, fd, timer), s.lists.free[0];
    assert SameClient(u.slots[i], t.slots[i]) && SameOrLost(u.lists.home[i], t.lists.home[i]);
    forall j | 0 <= j < |s.slots| && j != i
      ensures SameClient(s.slots[j], t.slots[j]) && SameOrLost(s.lists.home[j], t.lists.home[j])
    {
      assert SameClient(u.slots[j], t.slots[j]) && SameOrLost(u.lists.home[j], t.lists.home[j]);
    }
  }

  // ----- what destroying the pending clients does -----

  ghost predicate SameConnection(a: Slot, b: Slot) {
    b.conn == a.conn && b.trace == a.trace && b.input == a.input && SameOrClosed(a.fd, b.fd)
  }

  /** What became of a slot: a pending one may have been announced as disconnected,
      once, and freed; a connected one is still connected. */
  ghost predicate KeptOrCleared(h: Home, h': Home, a: Slot, b: Slot) {
    match h
    case Free => h' == Free && b.trace == a.trace
    case Connected => h' == Connected && SameConnection(a, b)
    case Pending => (h' == Pending && SameConnection(a, b)) || (h' == Free && b.trace == a.trace + [ClientDisconnected])
  }

  /** From s to t some pending clients were destroyed, and the application wrote frames. */
  ghost predicate Cleared(s: State, t: State) {
    && s.Sizes() && t.Sizes() && |t.slots| == |s.slots| && |t.sent| == |s.sent| && t.cap == s.cap
    && t.decodes == s.decodes
    && t.complete == s.complete && t.handled == s.handled && t.delivered == s.delivered
    && t.listener == s.listener && t.answering == s.answering
    && (forall i :: 0 <= i < |s.slots| ==> KeptOrCleared(s.lists.home[i], t.lists.home[i], s.slots[i], t.slots[i]))
    && (forall c :: 0 <= c < |s.sent| ==>
          && s.sent[c] <= t.sent[c] && s.k.conns[c].sent <= t.k.conns[c].sent
          && t.k.conns[c].received == s.k.conns[c].received)
  }

  lemma ClearedSame(s: State)
    requires s.Sizes()
    ensures Cleared(s, s)
  {
  }

  lemma ClearedTimer(s: State, t: State)
    requires Cleared(s, t) && t.lists.pending != [] && t.lists.pending[0] < |t.slots|
    ensures Cleared(s, TimerClosed(t))
  {
    var u := TimerClosed(t);
    forall i | 0 <= i < |s.slots| ensures KeptOrCleared(s.lists.home[i], u.lists.home[i], s.slots[i], u.slots[i]) {
      assert KeptOrCleared(s.lists.home[i], t.lists.home[i], s.slots[i], t.slots[i]);
    }
  }

  lemma ClearedCallback(s: State, t: State, u: State)
    requires Cleared(s, t) && Evolved(t, u) && u.lists == t.lists
    ensures Cleared(s, u)
  {
    forall i | 0 <= i < |s.slots| ensures KeptOrCleared(s.lists.home[i], u.lists.home[i], s.slots[i], u.slots[i]) {
      assert KeptOrCleared(s.lists.home[i], t.lists.home[i], s.slots[i], t.slots[i]);
      assert SameClient(t.slots[i], u.slots[i]);
    }
  }

  lemma ClearedDestroyed(s: State, t: State)
    requires Cleared(s, t) && t.Inv() && t.lists.pending != []
    ensures t.lists.pending[0] < |t.slots| && Gone(t).Sizes() && Gone(t).lists.Ok() && Cleared(s, Destroyed(Gone(t)))
  {
    hide Lists.Ok, State.SlotOk, State.ConnOk, State.DescriptorsOk;
    PendingAt(t, 0);
    var u := Destroyed(Gone(t));
    forall i | 0 <= i < |s.slots| ensures KeptOrCleared(s.lists.home[i], u.lists.home[i], s.slots[i], u.slots[i]) {
      assert KeptOrCleared(s.lists.home[i], t.lists.home[i], s.slots[i], t.slots[i]);
    }
  }

  // ----- one event -----

  /** What an event on a socket was like: whether there was something to read or room to write,
      how many bytes have not been read, on what descriptors a write had to wait, the calls
      made before and after, and whether all system calls succeed. */
  datatype How = How(readable: bool, writable: bool, left: nat, waited: set<int>,
                     before: seq<K.Call>, after: seq<K.Call>, good: bool)

  /** An event on the socket of client i, which is connected in s: if there is room, what was
      queued is sent or has to wait; if there is something to read, it is all read; each ping
      taken restarts the timer; and if the client is lost, there is a reason for it. */
  ghost predicate Attended(s: State, t: State, i: nat, h: How) {
    && Restarted(s, t, i, h.before, h.after)
    && (h.good ==> Spared(s, t, i))
    && (!h.readable ==> Evolved(s, t)) && (!h.readable && !h.writable ==> t == s)
    && (IsConnected(t, i) ==>
          && (h.readable ==> h.left == 0)
          && (h.writable ==> CaughtUp(s, t, i) || s.slots[i].fd in h.waited))
  }

  /** The first half of such an event. */
  ghost predicate WrittenOut(s: State, t: State, i: nat, waited: set<int>, calm: bool) {
    && Evolved(s, t) && i < |s.slots|
    && (t.lists.home[i] == Connected ==> CaughtUp(s, t, i) || s.slots[i].fd in waited)
    && (calm && s.lists.home[i] == Connected ==> t.lists.home[i] == Connected)
  }

  lemma NothingToWrite(s: State, i: nat, calls: seq<K.Call>)
    requires s.Sizes() && i < |s.slots| && s.slots[i].conn < |s.sent|
    ensures Restarted(s, s, i, calls, calls) && Spared(s, s, i) && Evolved(s, s)
  {
    hide CaughtUp, IsConnected;
    EvolvedSame(s);
    ServedEvolved(s, s, i);
    NotRestarted(s, s, i, calls);
  }

  lemma NothingAttended(s: State, i: nat, h: How)
    requires Restarted(s, s, i, h.before, h.after) && Spared(s, s, i) && Evolved(s, s) && !h.readable && !h.writable
    ensures Attended(s, s, i, h)
  {
  }

  lemma ConnectedAtHome(s: State, i: nat)
    requires IsConnected(s, i)
    ensures i < |s.lists.home| && s.lists.home[i] == Connected
  {
  }

  lemma WritingAttended(s: State, t: State, i: nat, h: How)
    requires s.Sizes() && i < |s.slots| && s.slots[i].conn < |s.sent| && WrittenOut(s, t, i, h.waited, h.good)
    requires h.writable && !h.readable && h.before == h.after
    ensures Attended(s, t, i, h)
  {
    hide CaughtUp, IsConnected;
    ServedEvolved(s, t, i);
    NotRestarted(s, t, i, h.before);
    if IsConnected(t, i) {
      ConnectedAtHome(t, i);
    }
  }

  /** Reading behind the first half, from u to t. */
  lemma ReadingAttended(s: State, u: State, t: State, i: nat, h: How, waited: set<int>)
    requires s.Sizes() && i < |s.slots| && s.slots[i].conn < |s.sent| && h.readable
    requires if h.writable then WrittenOut(s, u, i, waited, h.good) && waited <= h.waited else u == s
    requires Restarted(u, t, i, h.before, h.after) && (h.good ==> Spared(u, t, i))
    requires IsConnected(t, i) ==> h.left == 0
    ensures Attended(s, t, i, h)
  {
    hide Restarted, Overlong, Rejecting, Dismissed, Lists.Ok, CaughtUp;
    EvolvedSame(s);
    ServedEvolved(s, u, i);
    NotRestarted(s, u, i, h.before);
    RestartedTrans(s, u, t, i, h.before, h.before, h.after);
    RestartedIsServed(u, t, i, h.before, h.after);
    ServedTrans(s, u, t, i);
    if h.good {
      SparedTrans(s, u, t, i);
    }
    if IsConnected(t, i) && h.writable {
      StillConnected(u, t, i);
      if CaughtUp(s, u, i) {
        CaughtUpLater(s, u, t, i);
      }
    }
  }

  lemma RestartedIsServed(s: State, t: State, i: nat, calls: seq<K.Call>, calls': seq<K.Call>)
    requires Restarted(s, t, i, calls, calls')
    ensures Served(s, t, i)
  {
  }

  lemma StillConnected(s: State, t: State, i: nat)
    requires Served(s, t, i) && IsConnected(t, i)
    ensures s.lists.home[i] == Connected
  {
    assert SameOrLost(s.lists.home[i], t.lists.home[i]);
  }

  lemma CaughtUpLater(s: State, t: State, u: State, i: nat)
    requires CaughtUp(s, t, i) && Served(t, u, i) && |s.sent| == |t.sent|
    ensures CaughtUp(s, u, i)
  {
  }

  /** The event is for whichever connected client has the socket; without one no calls are
      made. */
  ghost predicate AttendedBy(s: State, t: State, fd: int, h: How) {
    && (forall i :: 0 <= i < |s.slots| && IsConnected(s, i) && s.slots[i].fd == fd ==> Attended(s, t, i, h))
    && ((forall i :: 0 <= i < |s.slots| && IsConnected(s, i) ==> s.slots[i].fd != fd) ==> h.after == h.before)
  }

  /** No client on the list uses the descriptor. */
  ghost predicate Unmatched(s: State, fd: int, list: seq<nat>) {
    forall j :: 0 <= j < |list| ==> list[j] < |s.slots| && s.slots[list[j]].fd != fd && s.slots[list[j]].timer != fd
  }

  /** What an event on descriptor fd does, before the pending clients are destroyed: the
      listener may bring a client, a socket serves its own client, a timer loses its
      client, and any other descriptor does nothing. */
  ghost predicate Dispatched(s: State, t: State, fd: int, listener: int) {
    || (fd == listener && (NoClient(s, t) || OneClient(s, t)))
    || (fd != listener && exists i :: 0 <= i < |s.slots| && ByClient(s, t, fd, i))
    || (fd != listener && Unmatched(s, fd, s.lists.connected) && t == s)
  }

  ghost predicate ByClient(s: State, t: State, fd: int, i: nat) {
    IsConnected(s, i) && ((s.slots[i].fd == fd && Served(s, t, i)) || (s.slots[i].timer == fd && t == Lost(s, i)))
  }

  lemma AttendedBySocket(s: State, t: State, fd: int, h: How, i: nat)
    requires s.Inv() && IsConnected(s, i) && s.slots[i].fd == fd && Attended(s, t, i, h)
    ensures AttendedBy(s, t, fd, h)
  {
    hide Parse, EncodeAll, Lists.Ok, State.ConnOk, State.DescriptorsOk, Attended;
    assert s.SlotOk(i);
    forall j | 0 <= j < |s.slots| && IsConnected(s, j) && s.slots[j].fd == fd ensures j == i {
      assert s.SlotOk(j);
    }
  }

  lemma AttendedByTimer(s: State, t: State, fd: int, h: How, i: nat)
    requires s.Inv() && IsConnected(s, i) && s.slots[i].timer == fd && h.after == h.before
    ensures AttendedBy(s, t, fd, h)
  {
    hide Parse, EncodeAll, Lists.Ok, State.ConnOk, State.DescriptorsOk, Attended;
    assert s.SlotOk(i);
    forall j | 0 <= j < |s.slots| && IsConnected(s, j) ensures s.slots[j].fd != fd {
      assert s.SlotOk(j);
    }
  }

  lemma AttendedByNone(s: State, fd: int, h: How)
    requires Unmatched(s, fd, s.lists.connected) && h.after == h.before
    ensures AttendedBy(s, s, fd, h)
  {
    forall i | 0 <= i < |s.slots| && IsConnected(s, i) ensures s.slots[i].fd != fd {
      Listed(s, i);
    }
  }

  /** What the listener brought: perhaps a connection that was closed again; or a client, whose
      socket was made ready and whose timer was started. */
  ghost predicate Greeted(s: State, t: State, before: seq<K.Call>, after: seq<K.Call>) {
    NoClient(s, t) || exists fd, timer :: Newcomer(s, t, fd, timer) && Prepared(before, after, fd, timer)
  }

  ghost predicate Prepared(before: seq<K.Call>, after: seq<K.Call>, fd: int, timer: int) {
    after == before + [K.NonBlocking(fd)] + [K.NoDelay(fd)] + [K.Arm(timer, 3)]
  }

  lemma GreetedBy(s: State, t: State, before: seq<K.Call>, after: seq<K.Call>, fd: int, timer: int)
    requires Newcomer(s, t, fd, timer) && Prepared(before, after, fd, timer)
    ensures Greeted(s, t, before, after) && OneClient(s, t) && |t.sent| == |s.sent| + 1
  {
  }

  lemma GreetedNobody(s: State, t: State, before: seq<K.Call>, after: seq<K.Call>)
    requires NoClient(s, t)
    ensures Greeted(s, t, before, after)
  {
  }

  lemma AttendedByLater(s: State, t: State, fd: int, h: How, waited: set<int>)
    requires AttendedBy(s, t, fd, h) && h.waited <= waited
    ensures AttendedBy(s, t, fd, h.(waited := waited))
  {
    hide Restarted, Spared, Evolved, CaughtUp, IsConnected;
    forall i | 0 <= i < |s.slots| && IsConnected(s, i) && s.slots[i].fd == fd
      ensures Attended(s, t, i, h.(waited := waited))
    {
      assert Attended(s, t, i, h);
    }
  }

  lemma DispatchedListener(s: State, t: State, fd: int, listener: int)
    requires Dispatched(s, t, fd, listener)
    ensures t.listener == s.listener
  {
    hide Lists.Ok;
    if fd != listener && t != s {
      var i :| 0 <= i < |s.slots| && ByClient(s, t, fd, i);
    }
  }

  lemma ClearedListener(s: State, t: State)
    requires Cleared(s, t)
    ensures t.listener == s.listener
  {
  }

  lemma DispatchedTo(s: State, t: State, fd: int, listener: int, i: nat)
    requires fd != listener && ByClient(s, t, fd, i)
    ensures Dispatched(s, t, fd, listener)
  {
  }

  lemma DispatchedToNone(s: State, fd: int, listener: int)
    requires fd != listener && Unmatched(s, fd, s.lists.connected)
    ensures Dispatched(s, s, fd, listener)
  {
  }

  lemma UnmatchedMore(s: State, fd: int, list: seq<nat>, n: nat)
    requires n < |list| && Unmatched(s, fd, list[..n]) && list[n] < |s.slots|
    requires s.slots[list[n]].fd != fd && s.slots[list[n]].timer != fd
    ensures Unmatched(s, fd, list[..n + 1])
  {
    assert list[..n + 1] == list[..n] + [list[n]];
  }

  // ----- the initial state, and the listener -----

  ghost function Initial(slots: seq<Slot>, cap: nat, decodes: seq<byte> -> bool): State {
    State(AllFree(|slots|), slots, K.State(map[], map[], [], 0), map[], [], [], [], [], [], cap, decodes,
      NONE, NONE, NONE, [], NONE, NONE)
  }

  lemma InitialInv(slots: seq<Slot>, cap: nat, decodes: seq<byte> -> bool)
    requires forall i :: 0 <= i < |slots| ==> slots[i].trace == []
    ensures Initial(slots, cap, decodes).Inv()
  {
    hide Lists.Ok;
    AllFreeOk(|slots|);
  }

  /** The listener is opened. */
  function Listening(s: State, fd: int): State {
    s.(k := s.k.Opened(fd, K.Listener).Registered(fd, K.In), owner := s.owner[fd := ListenerOf],
       listener := fd)
  }

  lemma ListeningInv(s: State, fd: int)
    requires s.Inv() && Unused(s, fd) && s.listener == NONE
    ensures Listening(s, fd).Inv()
  {
    hide Parse, EncodeAll, Lists.Ok, State.SlotOk, State.ConnOk, State.DescriptorsOk;
    var t := Listening(s, fd);
    ListeningDescriptors(s, fd);
    forall j | 0 <= j < |t.slots| ensures t.SlotOk(j) {
      assert s.SlotOk(j);
      SlotFrame(s, t, j);
    }
    forall c | 0 <= c < |t.sent| ensures t.ConnOk(c) {
      assert s.ConnOk(c);
      SameConnOk(s, t, c);
    }
  }

  lemma ListeningDescriptors(s: State, fd: int)
    requires s.Sizes() && s.DescriptorsOk() && Unused(s, fd) && s.listener == NONE
    ensures Listening(s, fd).DescriptorsOk()
  {
    var t := Listening(s, fd);
    forall x | x in t.owner ensures t.RoleOk(x) {
      if x != fd {
        assert s.RoleOk(x);
      }
    }
  }
}
