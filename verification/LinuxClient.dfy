/** messi/c_source/templates/linux/client.c: a client on epoll, with its socket and two
    timers. Every method is proved to take steps of ClientMachine. */
module LinuxClient {
  import opened Header
  import opened Framing
  import opened Messages
  import opened Input
  import opened ClientMachine
  import K = Kernel

  /** Per connection: the frames the client tried to write, those that handle_message has dealt
      with, those given to the application, and what the reassembly buffer held when it was
      made. And the number of messages that could not be encoded while connected. */
  datatype Log = Log(attempted: seq<seq<Frame>>, handled: seq<seq<Frame>>, delivered: seq<seq<Frame>>,
                     carried: seq<seq<byte>>, unencoded: nat)
  {
    ghost predicate Sizes(k: K.State) {
      |attempted| == |handled| == |delivered| == |carried| == |k.conns|
    }

    /** Holds of a connection for ever: what was sent is part of what was attempted, the
        frames handled are those in the bytes carried over and received, and the application
        was given its messages among them. */
    ghost predicate ConnOk(k: K.State, cap: nat, decodes: seq<byte> -> bool, c: nat)
      requires Sizes(k) && c < |k.conns|
    {
      && k.conns[c].sent <= EncodeAll(attempted[c])
      && Parse(carried[c] + k.conns[c].received, cap).frames == handled[c]
      && delivered[c] == ToApplication(decodes, handled[c])
      && forall f :: f in attempted[c] ==> |f.payload| < SIZE_LIMIT
    }

    ghost predicate Ok(k: K.State, cap: nat, decodes: seq<byte> -> bool) {
      Sizes(k) && forall c :: 0 <= c < |k.conns| ==> ConnOk(k, cap, decodes, c)
    }

    lemma SizesOk(k: K.State, cap: nat, decodes: seq<byte> -> bool)
      requires Ok(k, cap, decodes)
      ensures |attempted| == |handled| == |delivered| == |carried| == |k.conns|
    {
    }

    function Attempted(c: nat, f: Frame): Log
      requires c < |attempted|
    {
      this.(attempted := attempted[c := attempted[c] + [f]])
    }

    /** handle_message has dealt with a frame, and the application was given one. */
    function Passed(c: nat, f: Frame): Log
      requires c < |handled|
    {
      this.(handled := handled[c := handled[c] + [f]])
    }

    function Given(c: nat, f: Frame): Log
      requires c < |delivered|
    {
      this.(delivered := delivered[c := delivered[c] + [f]])
    }

    /** What the log is to be once frame f has been dealt with. */
    function With(decodes: seq<byte> -> bool, c: nat, f: Frame): Log
      requires c < |handled| == |delivered|
    {
      if ForApplication(decodes, f) then Passed(c, f).Given(c, f) else Passed(c, f)
    }

    /** The same for the frames that a read has completed. */
    function WithAll(decodes: seq<byte> -> bool, c: nat, fs: seq<Frame>): Log
      requires c < |handled| == |delivered|
    {
      if |fs| == 1 then With(decodes, c, fs[0]) else this
    }

    /** The pongs handled on a connection, and the messages that could not be decoded. */
    function Pongs(c: nat): nat
      requires c < |handled|
    {
      |OfKind(PONG, handled[c])|
    }

    function Undelivered(c: nat): int
      requires c < |handled| && c < |delivered|
    {
      |OfKind(SERVER_TO_CLIENT_USER, handled[c])| - |delivered[c]|
    }

    function Unencoded(): Log {
      this.(unencoded := unencoded + 1)
    }

    /** A connection made while `rest` was in the reassembly buffer. */
    function Made(rest: seq<byte>): Log {
      Log(attempted + [[]], handled + [[]], delivered + [[]], carried + [rest], unencoded)
    }
  }

  /** The open descriptors that the client does not name: reconnect timers whose number it
      has lost, and whatever belongs to other parts of the process. */
  datatype Unnamed = Unnamed(leaked: set<int>, others: set<int>)
  {
    /** These and `named` are all that is open; the client's own are registered for input. */
    ghost predicate Beside(named: set<int>, k: K.State) {
      && k.epoll.Keys <= k.open.Keys && leaked !! named
      && (forall fd :: fd in k.open <==> fd in named || fd in leaked || fd in others)
      && (forall fd :: fd in k.open ==> fd >= 0 && (fd in others <==> k.open[fd].Foreign?))
      && (forall fd :: fd in k.open && fd !in others ==> fd in k.epoll && k.epoll[fd] == K.In)
      && (forall fd :: fd in leaked ==> fd in k.open && k.open[fd] == K.Timer)
    }
  }

  /** The descriptors of the client in each of its states. */
  function Named(phase: Life, server: int, keepAlive: int, reconnect: int): set<int> {
    match phase
    case Idle | Stuck => {}
    case Trying => {reconnect}
    case Up => {server, keepAlive}
    case Down(_) => {keepAlive}
  }

  /** The three descriptors, and what the kernel has open and registered. While not
      connected, keepAlive may be the number of a timer that was closed; the kernel may
      have given that number to the reconnect timer or to another part of the process. */
  ghost predicate Holds(phase: Life, server: int, keepAlive: int, reconnect: int, conn: nat, u: Unnamed, k: K.State) {
    && u.Beside(Named(phase, server, keepAlive, reconnect), k)
    && match phase
       case Idle => server == keepAlive == reconnect == -1
       case Stuck => server == reconnect == -1 && keepAlive >= -1 && keepAlive !in u.leaked
       case Trying => server == -1 && keepAlive >= -1 && keepAlive !in u.leaked
                      && reconnect >= 0 && k.open[reconnect] == K.Timer
       case Up => server != keepAlive && reconnect == -1 && conn < |k.conns|
                  && k.open[server] == K.Stream(conn) && k.open[keepAlive] == K.Timer
       case Down(_) => server == reconnect == -1 && k.open[keepAlive] == K.Timer
  }

  /** Between two attempts to connect, before the timer for the next one is created. */
  ghost predicate Between(server: int, keepAlive: int, u: Unnamed, k: K.State) {
    server == -1 && keepAlive >= -1 && keepAlive !in u.leaked && u.Beside({}, k)
  }

  // ----- what the steps do to the kernel and to the log -----

  lemma LostHolds(phase: Life, server: int, keepAlive: int, reconnect: int, conn: nat, u: Unnamed, k: K.State,
                  r: Reason)
    requires Holds(phase, server, keepAlive, reconnect, conn, u, k) && phase.Up?
    ensures var k' := k.Deleted(server).Closed(server);
      Holds(Down(r), -1, keepAlive, -1, conn, u, k') && k'.conns == k.conns && k'.strays == k.strays
  {
  }

  lemma HeldFds(phase: Life, server: int, keepAlive: int, reconnect: int, conn: nat, u: Unnamed, k: K.State)
    requires Holds(phase, server, keepAlive, reconnect, conn, u, k) && (phase.Up? || phase.Down?)
    ensures reconnect == -1 && (phase.Up? <==> server in k.open)
    ensures phase.Up? ==> k.open[server] == K.Stream(conn) && conn < |k.conns|
  {
  }

  lemma SentHolds(phase: Life, server: int, keepAlive: int, conn: nat, u: Unnamed, k: K.State, data: seq<byte>)
    requires Holds(phase, server, keepAlive, -1, conn, u, k) && phase.Up?
    ensures Holds(phase, server, keepAlive, -1, conn, u, k.Sent(server, data))
    ensures Holds(phase, server, keepAlive, -1, conn, u, k.Received(server, data))
    ensures k.Sent(server, data).strays == k.Received(server, data).strays == k.strays
  {
  }

  /** The number of a closed timer has stayed behind in keepAlive. */
  predicate Stale(phase: Life, keepAlive: int) {
    (phase.Trying? || phase.Stuck?) && keepAlive != -1
  }

  /** What is left beside the client's descriptors when a stale number is closed: another
      part of the process loses the descriptor that has it. */
  function AfterClosing(phase: Life, keepAlive: int, u: Unnamed): Unnamed {
    if Stale(phase, keepAlive) then u.(others := u.others - {keepAlive}) else u
  }

  /** The same when an event on a stale number ends in a report: the reconnect timer that is
      running is forgotten, unless it has that number. */
  function AfterMisreport(phase: Life, keepAlive: int, reconnect: int, u: Unnamed): Unnamed {
    if phase.Trying? && keepAlive != reconnect then Unnamed(u.leaked + {reconnect}, u.others - {keepAlive})
    else AfterClosing(phase, keepAlive, u)
  }

  /** What stop closes: everything the client names, and once more than that, possibly
      another's descriptor, if the number of a closed timer stayed behind. */
  lemma StoppedHolds(phase: Life, server: int, keepAlive: int, reconnect: int, conn: nat, u: Unnamed, k: K.State)
    requires Holds(phase, server, keepAlive, reconnect, conn, u, k)
    ensures var k0 := if phase.Down? then k else k.Deleted(server).Closed(server);
      var k1 := k0.Deleted(keepAlive).Closed(keepAlive);
      var k2 := if reconnect == -1 then k1 else k1.Deleted(reconnect).Closed(reconnect);
      && Holds(Idle, -1, -1, -1, conn, AfterClosing(phase, keepAlive, u), k2)
      && k2.conns == k.conns && k2.strays == k.strays + Extra(phase, keepAlive)
      && (phase.Down? ==> server == -1)
  {
  }

  function Extra(phase: Life, keepAlive: int): nat {
    if Stale(phase, keepAlive) then 1 else 0
  }

  lemma MadeHolds(k: K.State, u: Unnamed, fd: int, timer: int)
    requires Between(-1, -1, u, k) && fd >= 0 && timer >= 0 && fd != timer && fd !in k.open && timer !in k.open
    ensures var k' := k.Accepted(fd).Registered(fd, K.In).Opened(timer, K.Timer).Registered(timer, K.In);
      Holds(Up, fd, timer, -1, |k.conns|, u, k') && k'.conns == k.conns + [K.Bytes([], [])] && k'.strays == k.strays
  {
  }

  lemma Undone<V>(m: map<int, V>, x: int, v: V)
    requires x !in m
    ensures m[x := v] - {x} == m == m - {x}
  {
  }

  lemma SameConns(log: Log, k: K.State, k': K.State, cap: nat, decodes: seq<byte> -> bool)
    requires log.Ok(k, cap, decodes) && k'.conns == k.conns
    ensures log.Ok(k', cap, decodes)
  {
    hide Parse, EncodeAll;
    forall c | 0 <= c < |k'.conns| ensures log.ConnOk(k', cap, decodes, c) {
      assert log.ConnOk(k, cap, decodes, c);
    }
  }

  /** Log `b` continues log `a`. */
  ghost predicate Grown(a: Log, b: Log) {
    && |a.attempted| <= |b.attempted| && |a.handled| <= |b.handled| && |a.delivered| <= |b.delivered|
    && a.carried <= b.carried && a.unencoded <= b.unencoded
    && (forall c :: 0 <= c < |a.attempted| ==> a.attempted[c] <= b.attempted[c])
    && (forall c :: 0 <= c < |a.handled| ==> a.handled[c] <= b.handled[c])
    && (forall c :: 0 <= c < |a.delivered| ==> a.delivered[c] <= b.delivered[c])
  }

  lemma GrownTrans(a: Log, b: Log, c: Log)
    requires Grown(a, b) && Grown(b, c)
    ensures Grown(a, c)
  {
  }

  lemma GrownSame(a: Log)
    ensures Grown(a, a)
  {
  }

  lemma GrownBy(a: Log, c: nat, f: Frame, rest: seq<byte>)
    ensures c < |a.handled| ==> Grown(a, a.Passed(c, f))
    ensures c < |a.delivered| ==> Grown(a, a.Given(c, f))
    ensures c < |a.attempted| ==> Grown(a, a.Attempted(c, f))
    ensures Grown(a, a.Made(rest)) && Grown(a, a.Unencoded())
  {
  }

  /** A frame is attempted, and the kernel takes the first n bytes of it. */
  lemma AttemptedOk(log: Log, k: K.State, cap: nat, decodes: seq<byte> -> bool, server: int, c: nat, f: Frame, n: nat)
    requires log.Ok(k, cap, decodes) && server in k.open && c < |k.conns| && k.open[server] == K.Stream(c)
    requires k.conns[c].sent == EncodeAll(log.attempted[c]) && |f.payload| < SIZE_LIMIT && n <= |Encode(f)|
    ensures var log', k' := log.Attempted(c, f), k.Sent(server, Encode(f)[..n]);
      && log'.Ok(k', cap, decodes)
      && k'.conns[c].received == k.conns[c].received
      && (n == |Encode(f)| ==> k'.conns[c].sent == EncodeAll(log'.attempted[c]))
  {
    hide Parse, EncodeAll, Encode, ToApplication;
    var log', k' := log.Attempted(c, f), k.Sent(server, Encode(f)[..n]);
    EncodeAllSnoc(log.attempted[c], f);
    assert n == |Encode(f)| ==> Encode(f)[..n] == Encode(f);
    forall d | 0 <= d < |k'.conns| ensures log'.ConnOk(k', cap, decodes, d) {
      assert log.ConnOk(k, cap, decodes, d);
      if d == c {
        assert EncodeAll(log.attempted[c]) + Encode(f)[..n] <= EncodeAll(log.attempted[c]) + Encode(f);
      }
    }
  }

  /** Bytes are received that complete the frames `p.frames`, at most one; the log is in order
      again once that has been dealt with. */
  lemma HandledOk(log: Log, k: K.State, cap: nat, decodes: seq<byte> -> bool, server: int, c: nat, rest: seq<byte>,
                  chunk: seq<byte>, p: Parsed)
    requires log.Ok(k, cap, decodes) && server in k.open && c < |k.conns| && k.open[server] == K.Stream(c)
    requires Parse(log.carried[c] + k.conns[c].received, cap) == Parsed(log.handled[c], rest, false)
    requires Parse(rest + chunk, cap) == p && |p.frames| <= 1
    ensures var log', k' := log.WithAll(decodes, c, p.frames), k.Received(server, chunk);
      && log'.Ok(k', cap, decodes)
      && k'.conns[c].sent == k.conns[c].sent
      && Parse(log'.carried[c] + k'.conns[c].received, cap) == Parsed(log'.handled[c], p.rest, p.tooBig)
  {
    hide Parse, EncodeAll, ToApplication;
    var log', k' := log.WithAll(decodes, c, p.frames), k.Received(server, chunk);
    var before := log.carried[c] + k.conns[c].received;
    ParseAppend(before, chunk, cap);
    assert log'.carried[c] + k'.conns[c].received == before + chunk;
    assert log.ConnOk(k, cap, decodes, c);
    if |p.frames| == 1 {
      ToApplicationSnoc(decodes, log.handled[c], p.frames[0]);
    }
    assert log'.handled[c] == log.handled[c] + p.frames;
    forall d | 0 <= d < |k'.conns| ensures log'.ConnOk(k', cap, decodes, d) {
      assert log.ConnOk(k, cap, decodes, d);
    }
  }

  /** A connection is made with `rest` in the reassembly buffer. */
  lemma MadeOk(log: Log, k: K.State, k': K.State, cap: nat, decodes: seq<byte> -> bool, rest: seq<byte>)
    requires log.Ok(k, cap, decodes) && k'.conns == k.conns + [K.Bytes([], [])] && Parse(rest, cap).frames == []
    ensures log.Made(rest).Ok(k', cap, decodes)
  {
    hide Parse;
    var log' := log.Made(rest);
    forall c | 0 <= c < |k'.conns| ensures log'.ConnOk(k', cap, decodes, c) {
      if c < |k.conns| {
        assert log.ConnOk(k, cap, decodes, c);
      } else {
        assert rest + [] == rest;
      }
    }
  }

  lemma MadeFacts(log: Log, c: nat, rest: seq<byte>)
    requires |log.attempted| == |log.handled| == |log.delivered| == |log.carried| == c
    ensures var l := log.Made(rest);
      && |l.attempted| == |l.handled| == |l.delivered| == |l.carried| == c + 1
      && EncodeAll(l.attempted[c]) == [] && l.handled[c] == [] && l.carried[c] + [] == rest
  {
    assert rest + [] == rest;
  }

  lemma ReportedHolds(phase: Life, server: int, keepAlive: int, reconnect: int, conn: nat, u: Unnamed, k: K.State)
    requires Holds(phase, server, keepAlive, reconnect, conn, u, k) && (phase.Down? || Stale(phase, keepAlive))
    ensures var k' := k.Deleted(keepAlive).Closed(keepAlive);
      && Between(-1, -1, AfterMisreport(phase, keepAlive, reconnect, u), k') && k'.conns == k.conns
      && k'.strays == k.strays + MisreportExtra(phase, keepAlive, reconnect)
  {
  }

  /** Whether the report after an event on keepAlive closes a number that is not the client's. */
  function MisreportExtra(phase: Life, keepAlive: int, reconnect: int): nat {
    if phase.Stuck? || (phase.Trying? && keepAlive != reconnect) then 1 else 0
  }

  lemma NothingOpen(k: K.State, timer: int)
    requires timer >= 0 && timer !in k.open
    ensures k.Opened(timer, K.Timer).Closed(timer) == k
  {
    assert k.open[timer := K.Timer] - {timer} == k.open;
  }

  lemma TimerHolds(k: K.State, k': K.State, keepAlive: int, u: Unnamed, timer: int, conn: nat)
    requires Between(-1, keepAlive, u, k)
    requires if timer >= 0 then timer !in k.open && k' == k.Opened(timer, K.Timer).Registered(timer, K.In)
             else timer == -1 && k' == k
    ensures Holds(if timer >= 0 then Trying else Stuck, -1, keepAlive, timer, conn, u, k')
    ensures k'.conns == k.conns && k'.strays == k.strays
  {
  }

  function Foreign(k: K.State): set<int> {
    set fd | fd in k.open && k.open[fd].Foreign?
  }

  lemma HeldKeys(phase: Life, server: int, keepAlive: int, reconnect: int, conn: nat, u: Unnamed, k: K.State)
    requires Holds(phase, server, keepAlive, reconnect, conn, u, k)
    ensures k.epoll.Keys <= k.open.Keys && forall fd :: fd in k.open ==> fd >= 0
  {
  }

  lemma ElsewhereHolds(phase: Life, server: int, keepAlive: int, reconnect: int, conn: nat, u: Unnamed,
                       k: K.State, k': K.State)
    requires Holds(phase, server, keepAlive, reconnect, conn, u, k) && k.SameOwn(k')
    ensures Holds(phase, server, keepAlive, reconnect, conn, u.(others := Foreign(k')), k')
    ensures k'.conns == k.conns && k'.strays == k.strays && u.(others := Foreign(k')).leaked == u.leaked
  {
  }

  /** How a number comes to be stale: an attempt to connect gets socket `fd` and `timer`,
      which cannot be registered, and closes both. */
  function GivenUp(k: K.State, fd: int, timer: int): K.State {
    k.Accepted(fd).Registered(fd, K.In).Opened(timer, K.Timer).Closed(timer).Deleted(fd).Closed(fd)
  }

  lemma GivenUpIs(k: K.State, fd: int, timer: int)
    requires fd != timer && timer >= 0 && fd !in k.open && timer !in k.open && fd !in k.epoll
    ensures GivenUp(k, fd, timer) == k.(conns := k.conns + [K.Bytes([], [])])
  {
    var k1 := k.Accepted(fd).Registered(fd, K.In);
    NothingOpen(k1, timer);
    Undone(k.open, fd, K.Stream(|k.conns|));
    Undone(k.epoll, fd, K.In);
  }

  lemma BetweenFacts(server: int, keepAlive: int, u: Unnamed, k: K.State, timer: int)
    requires Between(server, keepAlive, u, k) && timer >= 0 && timer !in k.open
    ensures Between(-1, timer, u, k) && k.epoll.Keys <= k.open.Keys
    ensures forall conns :: Between(server, keepAlive, u, k.(conns := conns))
  {
  }

  lemma OpenedFacts(k: K.State, fd: int, timer: int)
    requires fd != timer && timer !in k.open
    ensures var k1 := k.Opened(fd, K.Timer).Registered(fd, K.In);
      timer !in k1.open && k1.Opened(timer, K.Foreign).strays == k.strays
    ensures k.Opened(timer, K.Timer).Registered(timer, K.In).strays == k.strays
  {
  }

  /** Another part of the process gets the number. */
  lemma TakenHolds(phase: Life, keepAlive: int, reconnect: int, conn: nat, u: Unnamed, k: K.State, fd: int)
    requires Holds(phase, -1, keepAlive, reconnect, conn, u, k) && phase.Trying? && fd >= 0 && fd !in k.open
    ensures Holds(phase, -1, keepAlive, reconnect, conn, u.(others := u.others + {fd}), k.Opened(fd, K.Foreign))
  {
  }

  /** From any state between two attempts to connect, the reconnect timer can get the number
      of the socket and another part of the process that of the keep-alive timer, as they do
      when the lowest unused number is taken; or the reconnect timer can get the latter. So
      both kinds of misled client exist, in each of which ReportedHolds says what is lost. */
  lemma StaleNumberTaken(k: K.State, u: Unnamed, fd: int, timer: int, conn: nat)
    requires Between(-1, -1, u, k) && fd >= 0 && timer >= 0 && fd != timer && fd !in k.open && timer !in k.open
    ensures var k0 := GivenUp(k, fd, timer);
      var k1 := k0.Opened(fd, K.Timer).Registered(fd, K.In).Opened(timer, K.Foreign);
      var k2 := k0.Opened(timer, K.Timer).Registered(timer, K.In);
      && Between(-1, timer, u, k0) && k0.strays == k1.strays == k2.strays == k.strays
      && Holds(Trying, -1, timer, fd, conn, u.(others := u.others + {timer}), k1)
      && Holds(Trying, -1, timer, timer, conn, u, k2)
  {
    hide *;
    BetweenFacts(-1, -1, u, k, timer);
    GivenUpIs(k, fd, timer);
    var k0 := GivenUp(k, fd, timer);
    var k1 := k0.Opened(fd, K.Timer).Registered(fd, K.In);
    BetweenFacts(-1, -1, u, k0, timer);
    TimerHolds(k0, k1, timer, u, fd, conn);
    OpenedFacts(k0, fd, timer);
    TakenHolds(Trying, timer, fd, conn, u, k1, timer);
    TimerHolds(k0, k0.Opened(timer, K.Timer).Registered(timer, K.In), timer, u, timer, conn);
  }

  // ----- what becomes of a connection -----

  /** A connected client has sent messages: whether one could not be encoded, and whether a write
      was cut short, tells whether and why the connection is given up. */
  predicate SentOr(phase: Life, unencoded: bool, cut: bool) {
    if unencoded then phase == Down(MessageEncodeError)
    else if cut then phase == Down(ConnectionClosed)
    else phase.Up?
  }

  /** A connected client has read from connection c, from log0 to log. A pong was received
      exactly if one is among the frames handled. The connection is given up for the header of
      a frame that is too large, a message that could not be decoded, or one of its own that
      could not be encoded, and for nothing else but a read that failed or a write that was cut
      short. */
  ghost predicate Heard(c: nat, log0: Log, log: Log, pong0: bool, pong: bool, cut0: nat, cut: nat,
                        phase: Life, tooBig: bool, calm: bool)
  {
    && c < |log0.handled| == |log.handled| && c < |log0.delivered| == |log.delivered|
    && cut0 <= cut && log0.unencoded <= log.unencoded
    && log0.Pongs(c) <= log.Pongs(c) && log0.Undelivered(c) <= log.Undelivered(c)
    && (pong <==> pong0 || log0.Pongs(c) < log.Pongs(c))
    && if tooBig then phase == Down(MessageTooBig)
       else if log0.Undelivered(c) < log.Undelivered(c) then phase == Down(MessageDecodeError)
       else if log0.unencoded < log.unencoded then phase == Down(MessageEncodeError)
       else if phase.Up? then cut == cut0
       else phase == Down(ConnectionClosed) && (calm ==> cut0 < cut)
  }

  lemma HeardNothing(c: nat, log: Log, pong: bool, cut: nat, calm: bool)
    requires c < |log.handled| == |log.delivered|
    ensures Heard(c, log, log, pong, pong, cut, cut, Up, false, calm)
  {
  }

  /** First from log0 to log1, then on to log2. */
  lemma HeardThen(c: nat, log0: Log, log1: Log, log2: Log, pong0: bool, pong1: bool, pong2: bool,
                  cut0: nat, cut1: nat, cut2: nat, phase: Life, tooBig: bool, calm: bool)
    requires Heard(c, log0, log1, pong0, pong1, cut0, cut1, Up, false, calm)
    requires Heard(c, log1, log2, pong1, pong2, cut1, cut2, phase, tooBig, calm)
    ensures Heard(c, log0, log2, pong0, pong2, cut0, cut2, phase, tooBig, calm)
  {
  }

  /** A frame was handled: from log0 to With(f), and then perhaps messages were sent. */
  lemma HeardFrame(c: nat, log0: Log, log: Log, decodes: seq<byte> -> bool, f: Frame, pong0: bool, pong: bool,
                   cut0: nat, cut: nat, phase: Life, calm: bool)
    requires c < |log0.handled| == |log0.delivered| && pong == (f.kind == PONG || pong0) && cut0 <= cut
    requires var l := log0.With(decodes, c, f);
      && log.handled == l.handled && log.delivered == l.delivered && l.unencoded <= log.unencoded
      && if Undecodable(decodes, f) then phase == Down(MessageDecodeError)
         else SentOr(phase, log.unencoded > l.unencoded, cut > cut0)
    ensures Heard(c, log0, log, pong0, pong, cut0, cut, phase, false, calm)
  {
    hide OfKind;
    KindsDiffer();
    OfKindSnoc(PONG, log0.handled[c], f);
    OfKindSnoc(SERVER_TO_CLIENT_USER, log0.handled[c], f);
  }

  /** What an expired keep-alive timer leads to on a connected client: which of the calls has
      succeeded, whether a pong was received, and whether the write of the ping was cut short,
      tells whether and why the connection is given up. */
  ghost predicate Kept(timer: int, before: seq<K.Call>, after: seq<K.Call>, pong: bool, cut: bool, phase: Life) {
    || (after == before && !cut && phase == Down(GeneralError))
    || (after == before + [K.ReadTimer(timer)] && !cut
        && phase == Down(if pong then GeneralError else KeepAliveTimeout))
    || (after == before + [K.ReadTimer(timer)] + [K.Arm(timer, 2)] && pong
        && phase == if cut then Down(GeneralError) else Up)
  }

  /** The same when no call has failed. */
  ghost predicate KeptWell(timer: int, before: seq<K.Call>, after: seq<K.Call>, pong: bool) {
    after == before + [K.ReadTimer(timer)] + if pong then [K.Arm(timer, 2)] else []
  }

  /** A connection was made on descriptor fd. */
  ghost predicate Opened(before: seq<K.Call>, after: seq<K.Call>, fd: int, timer: int) {
    after == before + [K.Connect(fd)] + [K.NonBlocking(fd)] + [K.Arm(timer, 2)]
  }

  // ----- what one event may come to -----

  ghost predicate LostFrom(m: Machine, trace: seq<Notice>) {
    !m.phase.Up? && |m.trace| == |trace| + 1 && trace <= m.trace && m.trace[|trace|].OnDisconnected?
  }

  /** From m0 to m: nothing is left to be reported; a client at rest stays at rest; a
      connection is made only when the reconnect timer expires, and it or an earlier one
      is reported as lost at most once. A misled client reports a connection as lost that
      it did not have. */
  ghost predicate Outcome(m0: Machine, m: Machine, reconnecting: bool, misled: bool) {
    && !m.phase.Down?
    && match m0.phase
       case Idle => m == m0
       case Stuck => if misled then LostFrom(m, m0.trace) else m == m0
       case Trying =>
         if misled then LostFrom(m, m0.trace)
         else if !reconnecting then m == m0
         else if m.phase.Up? then m.trace == m0.trace + [OnConnected]
         else m.trace == m0.trace || LostFrom(m, m0.trace + [OnConnected])
       case Up => if m.phase.Up? then m.trace == m0.trace else LostFrom(m, m0.trace)
       case Down(r) => !m.phase.Up? && m.trace == m0.trace + [OnDisconnected(r)]
  }

  /** From m0 to m1, before a lost connection is reported. */
  ghost predicate Came(m0: Machine, m1: Machine, reconnecting: bool, misled: bool) {
    var engaged := m1.phase.Up? || m1.phase.Down?;
    match m0.phase
    case Idle => m1 == m0 && !misled
    case Stuck => m1 == m0
    case Trying =>
      if misled || !reconnecting then m1 == m0
      else m1.trace == m0.trace + (if engaged then [OnConnected] else [])
    case Up => engaged && m1.trace == m0.trace && !misled
    case Down(_) => m1 == m0 && !misled
  }

  /** From m1 to m: a lost connection is reported, with its reason, and so is one that a misled
      client did not have. */
  ghost predicate Reported(m1: Machine, m: Machine, misled: bool) {
    if m1.phase.Down? then m.trace == m1.trace + [OnDisconnected(m1.phase.reason)] && !m.phase.Up? && !m.phase.Down?
    else if misled then LostFrom(m, m1.trace) && !m.phase.Down?
    else m == m1
  }

  /** The reconnect timer has expired: a connection is made on a descriptor of its own and
      announced, with a fresh pong; or else the timer is started anew, unless the kernel has
      none, or cannot start one. */
  ghost predicate Attempted(m0: Machine, m1: Machine, before: seq<K.Call>, after: seq<K.Call>, pong: bool,
                            steady: bool, obliging: bool)
  {
    if m1.phase.Up? || m1.phase.Down? then
      m1.trace == m0.trace + [OnConnected] && pong && exists fd, timer :: Opened(before, after, fd, timer)
    else
      && !obliging && m1.trace == m0.trace && (m1.phase.Stuck? || m1.phase.Trying?)
      && (m1.phase.Trying? && steady ==>
            |after| > |before| && exists timer :: after[|after| - 1] == K.Arm(timer, 1))
  }

  /** m1 is the state before a lost connection is reported, with reason r if `pending`. */
  lemma OutcomeFacts(m0: Machine, m1: Machine, m: Machine, reconnecting: bool, misled: bool, pending: bool, r: Reason)
    requires Came(m0, m1, reconnecting, misled) && (misled ==> pending)
    requires pending && !misled ==> m1.phase == Down(r)
    requires misled ==> m0.phase.Trying? || m0.phase.Stuck?
    requires m1.phase.Down? ==> pending
    requires if pending then m.trace == m1.trace + [OnDisconnected(r)] && !m.phase.Up? && !m.phase.Down? else m == m1
    ensures Outcome(m0, m, reconnecting, misled) && Reported(m1, m, misled)
  {
  }

  /** The misreports since the last start, the closes of numbers that are not the client's, and
      what is open beside what it names. */
  datatype Books = Books(misreports: nat, extra: nat, unnamed: Unnamed)

  /** What an event does to them. Exactly a misled client makes a misreport, closes what has the
      stale number, and loses its reconnect timer unless that is it. */
  ghost predicate Booked(phase: Life, keepAlive: int, reconnect: int, misled: bool, a: Books, b: Books) {
    var forgotten := misled && phase.Trying? && keepAlive != reconnect;
    && b.misreports == a.misreports + (if misled then 1 else 0)
    && b.unnamed.leaked == a.unnamed.leaked + (if forgotten then {reconnect} else {})
    && b.unnamed.others == a.unnamed.others - (if misled then {keepAlive} else {})
    && b.extra == a.extra + if misled && keepAlive != reconnect then 1 else 0
  }

  lemma NothingBooked(phase: Life, keepAlive: int, reconnect: int, a: Books, b: Books)
    ensures Booked(phase, keepAlive, reconnect, false, a, a)
    ensures Booked(phase, keepAlive, reconnect, false, a, b) ==> b == a
  {
  }

  /** What an event may change of a client: its place in the machine, its log, whether a pong was
      received, how many writes were cut short and which calls made, whether the header of a
      frame too large is in the buffer, and how many bytes have not been read. */
  datatype Snapshot = Snapshot(m: Machine, log: Log, pong: bool, cut: nat, calls: seq<K.Call>, tooBig: bool, left: nat)

  /** What the kernel promises for the time being. */
  datatype Mood = Mood(calm: bool, steady: bool, obliging: bool)

  /** What an event on descriptor fd comes to, from a to b, before a lost connection is
      reported; `conn` is the connection. */
  ghost predicate Dealt(handler: Handler, fd: int, conn: nat, a: Snapshot, b: Snapshot, mood: Mood) {
    match handler
    case Socket =>
      && Heard(conn, a.log, b.log, a.pong, b.pong, a.cut, b.cut, b.m.phase, b.tooBig, mood.calm)
      && (b.m.phase.Up? ==> b.left == 0)
    case KeepAlive =>
      a.m.phase.Up? ==>
        && Kept(fd, a.calls, b.calls, a.pong, b.cut > a.cut, b.m.phase)
        && (mood.obliging ==> KeptWell(fd, a.calls, b.calls, a.pong))
        && b.pong == (a.pong && !b.m.phase.Up?) && conn < |a.log.attempted|
        && b.log == if |b.calls| == |a.calls| + 2 then a.log.Attempted(conn, Frame(PING, [])) else a.log
    case Reconnect => Attempted(a.m, b.m, a.calls, b.calls, b.pong, mood.steady, mood.obliging)
    case Nobody => b.m == a.m && b.log == a.log && b.calls == a.calls && b.pong == a.pong
  }

  /** How far connect_to_server came. */
  datatype Attempt = NoSocket | SocketUnusable | NoTimer | TimerUnusable | Made

  /** Who handles an event on a descriptor, in the order in which process asks. */
  datatype Handler = Socket | KeepAlive | Reconnect | Nobody

  function HandlerOf(fd: int, server: int, keepAlive: int, reconnect: int): Handler {
    if fd == server then Socket
    else if fd == keepAlive then KeepAlive
    else if fd == reconnect then Reconnect
    else Nobody
  }

  class LinuxClient {
    const k: K.Kernel
    const input: Input
    const encoded: array<byte>

    /** The payloads that the application's protocol can decode. */
    const decodes: seq<byte> -> bool

    var serverFd: int
    var keepAliveTimerFd: int
    var reconnectTimerFd: int
    var pendingDisconnect: bool
    var disconnectReason: Reason
    var pongReceived: bool
    var trace: seq<Notice>

    ghost var steps: seq<Step>
    ghost var m: Machine
    ghost var conn: nat
    ghost var log: Log

    /** The misreports since the last start, and the closes of numbers that were not open or
        belonged to another part of the process. */
    ghost var misreports: nat
    ghost var extra: nat

    /** What is open beside the descriptors that the client names. */
    ghost var unnamed: Unnamed

    /** What the reassembly buffer holds of an unfinished frame, and whether that is the
        header of a frame too large for it. */
    ghost var unparsed: seq<byte>
    ghost var tooBig: bool

    ghost predicate Wired() {
      input.InBuffer() && encoded.Length >= HEADER_SIZE && encoded != input.data
    }

    ghost predicate Flags()
      reads this`pendingDisconnect, this`disconnectReason, this`trace, this`steps, this`m, this`misreports
    {
      pendingDisconnect == m.phase.Down? && (m.phase.Down? ==> disconnectReason == m.phase.reason) && InStep()
    }

    /** The steps taken are a run of the machine, and the callbacks are the machine's. */
    ghost predicate InStep()
      reads this`trace, this`steps, this`m, this`misreports
    {
      trace == m.trace && Legal(steps) && Run(steps) == m && misreports == Misreports(steps)
    }

    /** The current connection: every frame attempted was sent completely, and what has
        been received is handled up to the unfinished frame. */
    ghost predicate Current()
      reads this`conn, this`log, this`unparsed, this`tooBig, k`st
    {
      && conn < |k.st.conns| && log.Sizes(k.st)
      && k.st.conns[conn].sent == EncodeAll(log.attempted[conn])
      && Parse(log.carried[conn] + k.st.conns[conn].received, input.cap) == Parsed(log.handled[conn], unparsed, tooBig)
    }

    /** Valid, but for the connection, which a write that was cut short has spoiled. */
    ghost predicate Sound()
      reads this`serverFd, this`keepAliveTimerFd, this`reconnectTimerFd, this`pendingDisconnect, this`disconnectReason
      reads this`trace, this`steps, this`m, this`misreports, this`extra, this`unnamed, this`conn, this`log, k`st
    {
      && Wired() && Flags() && log.Ok(k.st, input.cap, decodes) && k.st.strays == extra
      && Holds(m.phase, serverFd, keepAliveTimerFd, reconnectTimerFd, conn, unnamed, k.st)
    }

    ghost predicate Valid()
      reads this`serverFd, this`keepAliveTimerFd, this`reconnectTimerFd, this`pendingDisconnect, this`disconnectReason
      reads this`trace, this`steps, this`m, this`misreports, this`extra, this`unnamed, this`conn, this`log
      reads this`unparsed
      reads this`tooBig, k`st
    {
      Sound() && (m.phase.Up? ==> Current())
    }

    /** The reassembly buffer holds the unfinished frame. */
    ghost predicate InputOk()
      reads this`unparsed, this`tooBig, input, input.data
    {
      input.Keeps(unparsed, tooBig)
    }

    /** NAME_client_init. */
    constructor (k: K.Kernel, inputSize: nat, messageSize: nat, decodes: seq<byte> -> bool)
      requires inputSize >= HEADER_SIZE && messageSize >= HEADER_SIZE
      requires k.st == K.State(map[], map[], [], 0)
      ensures Valid() && InputOk() && this.k == k && m == Machine(Idle, []) && steps == [] && !tooBig
      ensures this.decodes == decodes && log == Log([], [], [], [], 0) && misreports == extra == 0
      ensures keepAliveTimerFd == -1
      ensures unnamed == Unnamed({}, {})
      ensures input.cap == inputSize && encoded.Length == messageSize && fresh(input) && fresh(input.data)
      ensures fresh(encoded)
    {
      var buf := new byte[inputSize];
      this.k, this.decodes, encoded := k, decodes, new byte[messageSize];
      input := new Input(0, buf, 0, inputSize);
      serverFd, keepAliveTimerFd, reconnectTimerFd := -1, -1, -1;
      pendingDisconnect, disconnectReason, pongReceived, trace := false, MessageEncodeError, false, [];
      steps, m, conn, log, unparsed, tooBig := [], Machine(Idle, []), 0, Log([], [], [], [], 0), [], false;
      misreports, extra, unnamed := 0, 0, Unnamed({}, {});
      new;
      input.Reset();
      input.AwaitingIsUnparsed();
    }

    /** Neither connected nor waiting for anything. */
    predicate Resting()
      reads this`serverFd, this`reconnectTimerFd, this`pendingDisconnect
    {
      serverFd == reconnectTimerFd == -1 && !pendingDisconnect
    }

    lemma RestingIffAtRest()
      requires Valid()
      ensures Resting() <==> m.phase.Idle? || m.phase.Stuck?
      ensures m.phase.Idle? ==> keepAliveTimerFd == -1
    {
      hide Parse, EncodeAll, Run, Legal, Log.Ok;
    }

    lemma SocketIffConnected()
      requires Valid()
      ensures serverFd >= 0 <==> m.phase.Up?
    {
      hide Parse, EncodeAll, Run, Legal, Log.Ok;
    }

    lemma Facts()
      requires Valid()
      ensures Sound() && Wired() && Flags() && trace == m.trace && pendingDisconnect == m.phase.Down?
      ensures m.phase.Down? ==> disconnectReason == m.phase.reason
      ensures m.phase.Up? ==> conn < |log.attempted| && conn < |log.handled| == |log.delivered|
    {
      hide Parse, EncodeAll, Run, Legal, Log.Ok;
    }

    // ----- giving up a connection -----

    /** close_fd. */
    method CloseFd(fd: int)
      modifies k`st
      ensures k.st == old(k.st).Deleted(fd).Closed(fd)
    {
      k.EpollDel(fd);
      k.Close(fd);
    }

    /** pending_disconnect. */
    method PendingDisconnect(reason: Reason)
      modifies this`serverFd, this`pendingDisconnect, this`disconnectReason, k`st
      ensures pendingDisconnect
      ensures if old(pendingDisconnect) then
          serverFd == old(serverFd) && disconnectReason == old(disconnectReason) && k.st == old(k.st)
        else
          serverFd == -1 && disconnectReason == reason && k.st == old(k.st).Deleted(old(serverFd)).Closed(old(serverFd))
    {
      if pendingDisconnect {
        return;
      }
      disconnectReason := reason;
      CloseFd(serverFd);
      serverFd := -1;
      pendingDisconnect := true;
    }

    /** Connected, or waiting for the disconnection to be reported. */
    ghost predicate Engaged()
      reads this`m
    {
      m.phase.Up? || m.phase.Down?
    }

    lemma Connected()
      ensures Engaged() <==> m.phase.Up? || m.phase.Down?
    {
    }

    /** An event on the number in keepAliveTimerFd would not be one of the client's timer for
        it, which was closed. */
    ghost predicate Misled()
      reads this`m, this`keepAliveTimerFd
    {
      Stale(m.phase, keepAliveTimerFd)
    }

    /** A misled client is about to report the loss of a connection that it does not have. */
    ghost predicate Misreporting()
      reads this`serverFd, this`keepAliveTimerFd, this`reconnectTimerFd, this`pendingDisconnect, this`disconnectReason
      reads this`trace, this`steps, this`m, this`misreports, this`extra, this`unnamed, this`conn, this`log, k`st
    {
      && Wired() && InStep() && log.Ok(k.st, input.cap, decodes) && k.st.strays == extra && Misled()
      && pendingDisconnect
      && Holds(m.phase, serverFd, keepAliveTimerFd, reconnectTimerFd, conn, unnamed, k.st)
    }

    lemma MisledFacts()
      requires Sound() && Misled()
      ensures !Engaged() && (m.phase.Trying? || m.phase.Stuck?) && keepAliveTimerFd >= 0 && serverFd == -1
      ensures serverFd !in k.st.open && !pendingDisconnect && k.st.Deleted(-1).Closed(-1) == k.st
    {
      hide Run, Legal, Log.Ok;
      assert k.st.epoll - {-1} == k.st.epoll;
    }

    /** A reason to give up the connection; the first one is the one reported. */
    method Lose(reason: Reason)
      requires Sound() && (Engaged() || Misled())
      modifies this`serverFd, this`pendingDisconnect, this`disconnectReason, this`m, this`steps, k`st
      ensures trace == old(trace) && old(steps) <= steps && (old(m).phase.Down? ==> m == old(m))
      ensures old(Engaged()) ==> Valid() && Engaged() && steps == old(steps) + [Raise(reason)]
      ensures old(Engaged()) ==> m.phase.Down? && m.phase == if old(m).phase.Up? then Down(reason) else old(m).phase
      ensures !old(Engaged()) ==> Misreporting() && m == old(m) && !Engaged()
      ensures m.phase.Up? ==> serverFd == old(serverFd)
    {
      hide *;
      SoundFacts();
      Connected();
      if Misled() {
        MisledFacts();
      }
      PendingDisconnect(reason);
      if old(Engaged()) {
        RecordLoss(reason, old(serverFd), old(k.st), old(disconnectReason));
      } else {
        MakeMisreporting();
      }
    }

    lemma MakeMisreporting()
      requires Wired() && InStep() && log.Ok(k.st, input.cap, decodes) && k.st.strays == extra && Misled()
      requires pendingDisconnect
      requires Holds(m.phase, serverFd, keepAliveTimerFd, reconnectTimerFd, conn, unnamed, k.st)
      ensures Misreporting()
    {
    }

    ghost method RecordLoss(reason: Reason, server0: int, k0: K.State, reason0: Reason)
      requires Wired() && InStep() && log.Ok(k0, input.cap, decodes) && k0.strays == extra && Engaged()
      requires pendingDisconnect
      requires Holds(m.phase, server0, keepAliveTimerFd, reconnectTimerFd, conn, unnamed, k0)
      requires m.phase.Down? ==> reason0 == m.phase.reason
      requires if m.phase.Down? then serverFd == server0 && k.st == k0 && disconnectReason == reason0
               else serverFd == -1 && k.st == k0.Deleted(server0).Closed(server0) && disconnectReason == reason
      modifies this`m, this`steps
      ensures Valid() && Engaged() && steps == old(steps) + [Raise(reason)] && trace == old(trace)
      ensures m.phase.Down? && m.phase == if old(m).phase.Up? then Down(reason) else old(m).phase
      ensures old(m).phase.Down? ==> m == old(m)
    {
      hide Run, Legal, Holds, Log.Ok, Misreports;
      if m.phase.Up? {
        LostHolds(m.phase, server0, keepAliveTimerFd, reconnectTimerFd, conn, unnamed, k0, reason);
        HeldFds(m.phase, server0, keepAliveTimerFd, reconnectTimerFd, conn, unnamed, k0);
      }
      SameConns(log, k0, k.st, input.cap, decodes);
      Extend(steps, Raise(reason));
      steps, m := steps + [Raise(reason)], m.After(Raise(reason));
    }

    // ----- sending -----

    /** A write that has to take the whole frame, or the connection is given up. */
    method WriteOrLose(bytes: array<byte>, n: nat, ghost f: Frame, reason: Reason) returns (all: bool)
      requires Valid() && (Engaged() || Misled())
      requires n <= bytes.Length && bytes[..n] == Encode(f) && |f.payload| < SIZE_LIMIT
      modifies this`serverFd, this`pendingDisconnect, this`disconnectReason, this`m, this`steps, this`log, k`st
      modifies k`stalls
      ensures old(m).phase.Up? ==> conn < |old(log).attempted|
      ensures log == if old(m).phase.Up? then old(log).Attempted(conn, f) else old(log)
      ensures trace == old(trace) && old(steps) <= steps && log.handled == old(log).handled
      ensures log.delivered == old(log).delivered && Grown(old(log), log)
      ensures old(Engaged()) ==> Valid() && Engaged()
      ensures old(Engaged()) ==>
          if all then m == old(m) && m.phase.Up?
          else m.phase == (if old(m).phase.Up? then Down(reason) else old(m).phase)
      ensures old(m).phase.Down? ==> m == old(m)
      ensures !old(Engaged()) ==> !all && Misreporting() && m == old(m) && !Engaged()
      ensures k.stalls.cut == if all then old(k.stalls.cut) else old(k.stalls.cut) + 1
      ensures m.phase.Up? ==> serverFd == old(serverFd)
    {
      hide *;
      Facts();
      SoundFacts();
      Connected();
      if Engaged() {
        HeldFds(m.phase, serverFd, keepAliveTimerFd, reconnectTimerFd, conn, unnamed, k.st);
      } else {
        MisledFacts();
      }
      if m.phase.Up? {
        CurrentFacts();
      }
      GrownSame(log);
      SomeBytes(f);
      var r := k.Write(serverFd, bytes[..n]);
      all := r.Count? && r.n == n;
      if m.phase.Up? {
        RecordAttempt(f, if r.Count? then r.n else 0, all, old(k.st));
      }
      if !all {
        Lose(reason);
      }
    }

    lemma SomeBytes(f: Frame)
      ensures Encode(f) != []
    {
    }

    /** n bytes of frame f were written. */
    ghost method RecordAttempt(f: Frame, n: nat, all: bool, k0: K.State)
      requires Wired() && Flags() && log.Ok(k0, input.cap, decodes) && k0.strays == extra && m.phase.Up?
      requires Holds(m.phase, serverFd, keepAliveTimerFd, reconnectTimerFd, conn, unnamed, k0)
      requires conn < |k0.conns| == |log.attempted| == |log.handled| == |log.delivered| == |log.carried|
      requires k0.conns[conn].sent == EncodeAll(log.attempted[conn])
      requires var stream := log.carried[conn] + k0.conns[conn].received;
        Parse(stream, input.cap) == Parsed(log.handled[conn], unparsed, tooBig)
      requires n <= |Encode(f)| && |f.payload| < SIZE_LIMIT && all == (n == |Encode(f)|)
      requires k.st == if n == 0 then k0 else k0.Sent(serverFd, Encode(f)[..n])
      modifies this`log
      ensures log == old(log).Attempted(conn, f) && Sound() && (all ==> Valid())
      ensures log.handled == old(log).handled && log.delivered == old(log).delivered && Grown(old(log), log)
    {
      hide *;
      HeldFds(m.phase, serverFd, keepAliveTimerFd, reconnectTimerFd, conn, unnamed, k0);
      K.SentNothing(k0, serverFd);
      assert Encode(f)[..0] == [];
      AttemptedOk(log, k0, input.cap, decodes, serverFd, conn, f, n);
      SentHolds(m.phase, serverFd, keepAliveTimerFd, conn, unnamed, k0, Encode(f)[..n]);
      GrownBy(log, conn, f, []);
      AttemptedFacts(log, conn, f);
      log := log.Attempted(conn, f);
      log.SizesOk(k.st, input.cap, decodes);
      MakeSound();
      if all {
        MakeCurrent();
        MakeValid();
      }
    }

    lemma AttemptedFacts(log0: Log, c: nat, f: Frame)
      requires c < |log0.attempted|
      ensures var l := log0.Attempted(c, f);
        && l.handled == log0.handled && l.delivered == log0.delivered && |l.attempted| == |log0.attempted|
        && l.carried == log0.carried && l.unencoded == log0.unencoded
    {
    }

    lemma MakeSound()
      requires Wired() && Flags() && log.Ok(k.st, input.cap, decodes) && k.st.strays == extra
      requires Holds(m.phase, serverFd, keepAliveTimerFd, reconnectTimerFd, conn, unnamed, k.st)
      ensures Sound()
    {
    }

    /** NAME_client_send, while connected or not yet reported as disconnected. The connection is
        given up exactly if the message cannot be encoded or is not written completely. */
    method Send(msg: Message)
      requires Valid() && Engaged() && Encodable(msg)
      modifies this`serverFd, this`pendingDisconnect, this`disconnectReason, this`m, this`steps, this`log, k`st
      modifies k`stalls, encoded
      ensures Valid() && Engaged() && trace == old(trace) && old(steps) <= steps
      ensures old(m).phase.Up? ==> conn < |old(log).attempted|
      ensures log.handled == old(log).handled && log.delivered == old(log).delivered && Grown(old(log), log)
      ensures old(m).phase.Down? ==> m == old(m) && log == old(log) && old(k.stalls.cut) <= k.stalls.cut
      ensures old(m).phase.Up? && !Sendable(msg, encoded.Length) ==>
          m.phase == Down(MessageEncodeError) && log == old(log).Unencoded() && k.stalls == old(k.stalls)
      ensures old(m).phase.Up? && Sendable(msg, encoded.Length) ==>
          && log == old(log).Attempted(conn, UserFrame(CLIENT_TO_SERVER_USER, msg))
          && log.unencoded == old(log).unencoded
          && if k.stalls.cut == old(k.stalls.cut) then m == old(m) else m.phase == Down(ConnectionClosed)
      ensures old(k.stalls.cut) <= k.stalls.cut
      ensures m.phase.Up? ==> serverFd == old(serverFd)
    {
      hide *;
      Facts();
      WiredFacts();
      GrownSame(log);
      EncodableSize(CLIENT_TO_SERVER_USER, msg);
      var size := EncodeInto(encoded, CLIENT_TO_SERVER_USER, msg);
      if size < 0 {
        CountUnencoded();
        SoundNow();
        Lose(MessageEncodeError);
        return;
      }
      var all := WriteOrLose(encoded, size, UserFrame(CLIENT_TO_SERVER_USER, msg), ConnectionClosed);
      if old(m).phase.Up? {
        AttemptedFacts(old(log), conn, UserFrame(CLIENT_TO_SERVER_USER, msg));
      }
    }

    ghost method CountUnencoded()
      requires Valid() && Engaged()
      modifies this`log
      ensures Valid() && Engaged() && log == if m.phase.Up? then old(log).Unencoded() else old(log)
      ensures Grown(old(log), log) && log.handled == old(log).handled && log.delivered == old(log).delivered
    {
      hide Parse, EncodeAll, Run, Legal, Misreports, Holds, ToApplication;
      GrownSame(log);
      GrownBy(log, 0, Frame(0, []), []);
      if m.phase.Up? {
        log := log.Unencoded();
        forall c | 0 <= c < |k.st.conns| ensures log.ConnOk(k.st, input.cap, decodes, c) {
          assert old(log).ConnOk(k.st, input.cap, decodes, c);
        }
      }
    }

    /** What the application sends in a callback. */
    method Application() returns (script: seq<Message>)
      ensures forall msg :: msg in script ==> Encodable(msg)
    {
      script := *;
      if exists msg :: msg in script && !Encodable(msg) {
        script := [];
      }
    }

    /** From the state in which it is compared with, frames were attempted and the
        connection perhaps lost, for the reason that applies; nothing was received. */
    ghost predicate SentSince(m0: Machine, steps0: seq<Step>, log0: Log, cut0: nat)
      reads this`trace, this`steps, this`m, this`log, k`stalls
    {
      && steps0 <= steps && trace == m0.trace && Engaged() && (m0.phase.Down? ==> m == m0)
      && log.handled == log0.handled && log.delivered == log0.delivered && Grown(log0, log)
      && cut0 <= k.stalls.cut && (m0.phase.Up? ==> SentOr(m.phase, log.unencoded > log0.unencoded, k.stalls.cut > cut0))
    }

    method RunScript()
      requires Valid() && Engaged()
      modifies this`serverFd, this`pendingDisconnect, this`disconnectReason, this`m, this`steps, this`log, k`st
      modifies k`stalls, encoded
      ensures Valid() && SentSince(old(m), old(steps), old(log), old(k.stalls.cut))
      ensures m.phase.Up? ==> serverFd == old(serverFd)
    {
      hide *;
      Facts();
      NothingSince();
      var script := Application();
      for n := 0 to |script|
        invariant Valid() && SentSince(old(m), old(steps), old(log), old(k.stalls.cut))
        invariant m.phase.Up? ==> serverFd == old(serverFd)
      {
        SentFacts(old(m), old(steps), old(log), old(k.stalls.cut));
        Facts();
        ghost var m1, log1, cut1 := m, log, k.stalls.cut;
        Send(script[n]);
        Facts();
        UnencodedIs(log1);
        GrownTrans(old(log), log1, log);
        SentMore(m1.phase, old(log).unencoded, log1.unencoded, old(k.stalls.cut), cut1, old(m).phase.Up?);
        MakeSentSince(old(m), old(steps), old(log), old(k.stalls.cut));
      }
    }

    lemma UnencodedIs(log1: Log)
      ensures log == log1.Unencoded() ==> log.unencoded == log1.unencoded + 1
    {
    }

    /** One more message was sent. */
    lemma SentMore(phase1: Life, n0: nat, n1: nat, cut0: nat, cut1: nat, up: bool)
      requires up ==> SentOr(phase1, n1 > n0, cut1 > cut0)
      requires n0 <= n1 && cut0 <= cut1 <= k.stalls.cut && (phase1.Up? || phase1.Down?)
      requires phase1.Down? ==> m.phase == phase1 && log.unencoded == n1
      requires phase1.Up? ==>
        || (m.phase == Down(MessageEncodeError) && log.unencoded == n1 + 1)
        || (log.unencoded == n1
            && if k.stalls.cut == cut1 then m.phase == phase1 else m.phase == Down(ConnectionClosed))
      ensures up ==> SentOr(m.phase, log.unencoded > n0, k.stalls.cut > cut0)
    {
    }

    lemma NothingSince()
      requires Engaged() && trace == m.trace
      ensures SentSince(m, steps, log, k.stalls.cut)
    {
    }

    lemma MakeSentSince(m0: Machine, steps0: seq<Step>, log0: Log, cut0: nat)
      requires steps0 <= steps && trace == m0.trace && Engaged() && (m0.phase.Down? ==> m == m0)
      requires log.handled == log0.handled && log.delivered == log0.delivered && Grown(log0, log)
      requires cut0 <= k.stalls.cut
      requires m0.phase.Up? ==> SentOr(m.phase, log.unencoded > log0.unencoded, k.stalls.cut > cut0)
      ensures SentSince(m0, steps0, log0, cut0)
    {
    }

    // ----- receiving -----

    /** Valid, once the log is `l`. */
    ghost predicate ValidWith(l: Log)
      reads this`serverFd, this`keepAliveTimerFd, this`reconnectTimerFd, this`pendingDisconnect, this`disconnectReason
      reads this`trace, this`steps, this`m, this`misreports, this`extra, this`unnamed, this`conn, this`unparsed
      reads this`tooBig, k`st
    {
      && Wired() && Flags() && l.Ok(k.st, input.cap, decodes) && k.st.strays == extra
      && Holds(m.phase, serverFd, keepAliveTimerFd, reconnectTimerFd, conn, unnamed, k.st)
      && (m.phase.Up? ==> CurrentWith(l))
    }

    ghost predicate CurrentWith(l: Log)
      reads this`conn, this`unparsed, this`tooBig, k`st
    {
      && conn < |k.st.conns| && l.Sizes(k.st)
      && k.st.conns[conn].sent == EncodeAll(l.attempted[conn])
      && Parse(l.carried[conn] + k.st.conns[conn].received, input.cap) == Parsed(l.handled[conn], unparsed, tooBig)
    }

    lemma ValidNow()
      ensures ValidWith(log) <==> Valid()
    {
    }

    /** A connected client has received frame f, which is still to be dealt with. */
    ghost predicate Due(f: Frame)
      reads this`serverFd, this`keepAliveTimerFd, this`reconnectTimerFd, this`pendingDisconnect, this`disconnectReason
      reads this`trace, this`steps, this`m, this`misreports, this`extra, this`unnamed, this`conn, this`log
      reads this`unparsed, this`tooBig, k`st
    {
      && conn < |log.handled| == |log.delivered| && ValidWith(log.With(decodes, conn, f)) && m.phase.Up?
      && trace == m.trace
    }

    lemma DueFacts(f: Frame)
      requires Due(f)
      ensures conn < |log.handled| == |log.delivered| && ValidWith(log.With(decodes, conn, f)) && m.phase.Up?
      ensures Engaged()
      ensures trace == m.trace
      ensures Grown(log, log.Passed(conn, f)) && Grown(log, log.With(decodes, conn, f))
      ensures var l := log.Passed(conn, f);
        && conn < |l.handled| == |l.delivered|
        && log.With(decodes, conn, f) == if ForApplication(decodes, f) then l.Given(conn, f) else l
    {
      hide ValidWith;
    }

    /** The message handler of the application. */
    method OnMessage(f: Frame)
      requires conn < |log.delivered| && ValidWith(log.Given(conn, f)) && Engaged()
      modifies this`serverFd, this`pendingDisconnect, this`disconnectReason, this`m, this`steps, this`log, k`st
      modifies k`stalls, encoded
      ensures Valid() && conn < |old(log).delivered|
      ensures SentSince(old(m), old(steps), old(log).Given(conn, f), old(k.stalls.cut))
    {
      hide *;
      log := log.Given(conn, f);
      ValidNow();
      RunScript();
    }

    /** handle_message_user: the message is given to the application, if it can be decoded. */
    method HandleMessageUser(f: Frame)
      requires conn < |log.delivered| && m.phase.Up? && trace == m.trace
      requires ValidWith(if decodes(f.payload) then log.Given(conn, f) else log)
      modifies this`serverFd, this`pendingDisconnect, this`disconnectReason, this`m, this`steps, this`log, k`st
      modifies k`stalls, encoded
      ensures Valid() && conn < |old(log).delivered| && old(steps) <= steps && trace == old(trace) && Engaged()
      ensures if decodes(f.payload) then SentSince(old(m), old(steps), old(log).Given(conn, f), old(k.stalls.cut))
              else m.phase == Down(MessageDecodeError) && log == old(log) && k.stalls == old(k.stalls)
    {
      hide *;
      Connected();
      if !decodes(f.payload) {
        ValidNow();
        SoundNow();
        Lose(MessageDecodeError);
        return;
      }
      OnMessage(f);
      SentFacts(old(m), old(steps), old(log).Given(conn, f), old(k.stalls.cut));
    }

    lemma SoundNow()
      requires Valid()
      ensures Sound()
    {
    }

    /** handle_message: user messages are given to the application, a pong is noted, and
        everything else is ignored. */
    method HandleMessage(f: Frame)
      requires Due(f)
      modifies this`serverFd, this`pendingDisconnect, this`disconnectReason, this`m, this`steps, this`log, k`st
      modifies k`stalls, encoded
      modifies this`pongReceived
      ensures Valid() && Engaged() && trace == old(trace) && old(steps) <= steps && Grown(old(log), log)
      ensures conn < |old(log).handled| == |old(log).delivered|
      ensures var l := old(log).With(decodes, conn, f);
        && log.handled == l.handled && log.delivered == l.delivered
        && Heard(conn, old(log), log, old(pongReceived), pongReceived, old(k.stalls.cut), k.stalls.cut,
                 m.phase, false, k.calm)
      ensures pongReceived == (f.kind == PONG || old(pongReceived))
      ensures f.kind != SERVER_TO_CLIENT_USER ==> m == old(m)
    {
      hide *;
      DueFacts(f);
      KindsDiffer();
      ghost var l := log.With(decodes, conn, f);
      KindFacts(f);
      log := log.Passed(conn, f);
      if f.kind == SERVER_TO_CLIENT_USER {
        HandleMessageUser(f);
        if decodes(f.payload) {
          SentFacts(old(m), old(steps), l, old(k.stalls.cut));
          GrownTrans(old(log), l, log);
        }
      } else {
        ValidNow();
        UpFacts();
        if f.kind == PONG {
          pongReceived := true;
        }
      }
      UnencodedWith(old(log), f);
      HeardFrame(conn, old(log), log, decodes, f, old(pongReceived), pongReceived, old(k.stalls.cut), k.stalls.cut,
                 m.phase, k.calm);
    }

    lemma UpFacts()
      requires m.phase.Up?
      ensures SentOr(m.phase, false, false)
    {
    }

    lemma KindFacts(f: Frame)
      ensures ForApplication(decodes, f) <==> f.kind == SERVER_TO_CLIENT_USER && decodes(f.payload)
      ensures Undecodable(decodes, f) <==> f.kind == SERVER_TO_CLIENT_USER && !decodes(f.payload)
    {
    }

    lemma UnencodedWith(log0: Log, f: Frame)
      requires conn < |log0.handled| == |log0.delivered|
      ensures log0.With(decodes, conn, f).unencoded == log0.unencoded
      ensures log0.Passed(conn, f).unencoded == log0.unencoded
    {
    }

    lemma InputFacts()
      requires InputOk()
      ensures input.InBuffer() && input.size <= input.cap && input.Prefix() == unparsed
      ensures !tooBig ==> input.Awaiting()
      ensures input.size + input.left <= input.cap <==> !tooBig
    {
    }

    lemma ProgressFacts(p: Progress)
      requires input.InBuffer() && input.size <= input.cap
      requires p.Partial? ==> input.Awaiting()
      requires p.Complete? ==> Parse(input.Prefix(), input.cap) == Parsed([p.frame], [], false)
      requires p.TooBig? ==> Parse(input.Prefix(), input.cap) == Parsed([], input.Prefix(), true)
      ensures var q := Parse(input.Prefix(), input.cap); q.frames == FramesOf(p) && q.tooBig == p.TooBig?
      ensures Parse(input.Prefix(), input.cap).rest == if p.Complete? then [] else input.Prefix()
    {
      hide Parse, Input.Awaiting;
      if p.Partial? {
        input.AwaitingIsUnparsed();
      }
    }

    lemma StillInputOk()
      requires input.InBuffer() && input.Awaiting() && input.Prefix() == unparsed && !tooBig
      ensures InputOk()
    {
      input.AwaitingIsUnparsed();
    }

    lemma MakeInputOk(p: Progress)
      requires input.InBuffer() && input.size <= input.cap && !p.Complete? && (p.Partial? ==> input.Awaiting())
      requires var q := Parse(input.Prefix(), input.cap); q == Parsed(FramesOf(p), unparsed, tooBig)
      requires tooBig == p.TooBig? && unparsed == input.Prefix() && (tooBig ==> input.size + input.left > input.cap)
      ensures InputOk()
    {
    }

    lemma CurrentFacts()
      requires Valid() && m.phase.Up?
      ensures conn < |k.st.conns| == |log.attempted| == |log.handled| == |log.delivered| == |log.carried|
      ensures k.st.conns[conn].sent == EncodeAll(log.attempted[conn])
      ensures var stream := log.carried[conn] + k.st.conns[conn].received;
        Parse(stream, input.cap) == Parsed(log.handled[conn], unparsed, tooBig)
    {
      hide Parse, EncodeAll, Run, Legal, Log.Ok, Holds;
    }

    lemma MakeCurrent()
      requires log.Ok(k.st, input.cap, decodes) && conn < |log.handled|
      requires |log.attempted| == |log.handled| == |log.delivered| == |log.carried| == |k.st.conns|
      requires k.st.conns[conn].sent == EncodeAll(log.attempted[conn])
      requires var stream := log.carried[conn] + k.st.conns[conn].received;
        Parse(stream, input.cap) == Parsed(log.handled[conn], unparsed, tooBig)
      ensures Current()
    {
      hide Parse, EncodeAll;
    }

    lemma SoundFacts()
      requires Sound()
      ensures Wired() && Flags() && log.Ok(k.st, input.cap, decodes) && k.st.strays == extra
      ensures Holds(m.phase, serverFd, keepAliveTimerFd, reconnectTimerFd, conn, unnamed, k.st)
      ensures keepAliveTimerFd >= -1
      ensures InStep() && trace == m.trace && pendingDisconnect == m.phase.Down?
      ensures m.phase.Down? ==> disconnectReason == m.phase.reason
    {
      hide Run, Legal, Log.Ok;
    }

    lemma MakeValid()
      requires Wired() && Flags() && log.Ok(k.st, input.cap, decodes) && k.st.strays == extra
      requires m.phase.Up? ==> Current()
      requires Holds(m.phase, serverFd, keepAliveTimerFd, reconnectTimerFd, conn, unnamed, k.st)
      ensures Valid()
    {
    }

    lemma WiredFacts()
      requires Wired()
      ensures input.InBuffer() && HEADER_SIZE <= encoded.Length && encoded != input.data
    {
    }

    lemma WithFacts(log0: Log, c: nat, fs: seq<Frame>)
      requires c < |log0.handled| == |log0.delivered|
      ensures var l := log0.WithAll(decodes, c, fs);
        && l.attempted == log0.attempted && |l.handled| == |log0.handled| && l.carried == log0.carried
        && |l.delivered| == |log0.delivered|
      ensures fs == [] ==> log0.WithAll(decodes, c, fs) == log0
      ensures |fs| == 1 ==> log0.WithAll(decodes, c, fs) == log0.With(decodes, c, fs[0])
    {
    }

    ghost function FramesOf(p: Progress): seq<Frame> {
      if p.Complete? then [p.frame] else []
    }

    lemma FramesOfIs(p: Progress)
      ensures FramesOf(p) == if p.Complete? then [p.frame] else []
    {
    }

    /** One read in the loop of process_socket. A frame that it completes is still to be dealt
        with. */
    method ReadSome() returns (r: K.Io, p: Progress)
      requires Valid() && Engaged() && InputOk() && !tooBig
      modifies input, input.data, this`unparsed, this`tooBig, k`st, k`arriving
      ensures r.Count? ==> m.phase.Up? && conn < |log.handled| && k.arriving < old(k.arriving)
      ensures r.Count? && p.Complete? ==> Due(p.frame) && unparsed == []
      ensures !r.Count? || !p.Complete? ==> Valid() && InputOk()
      ensures r.Count? ==> tooBig == p.TooBig?
      ensures !r.Count? ==> k.st == old(k.st) && k.arriving == old(k.arriving) && !tooBig
      ensures r.Again? ==> k.arriving == 0
      ensures k.calm && m.phase.Up? ==> !r.Failed?
    {
      hide *;
      Facts();
      InputFacts();
      Connected();
      SoundFacts();
      WiredFacts();
      HeldFds(m.phase, serverFd, keepAliveTimerFd, reconnectTimerFd, conn, unnamed, k.st);
      if m.phase.Up? {
        CurrentFacts();
      }
      ghost var chunk;
      r, p, chunk := input.Receive(k, serverFd);
      if r.Count? {
        ghost var q := Parse(input.Prefix(), input.cap);
        ProgressFacts(p);
        FramesOfIs(p);
        HandledOk(log, old(k.st), input.cap, decodes, serverFd, conn, unparsed, chunk, q);
        SentHolds(m.phase, serverFd, keepAliveTimerFd, conn, unnamed, old(k.st), chunk);
        unparsed, tooBig := q.rest, q.tooBig;
        WithFacts(log, conn, q.frames);
        ghost var l := log.WithAll(decodes, conn, q.frames);
        l.SizesOk(k.st, input.cap, decodes);
        MakeValidWith(l);
        if p.Complete? {
          MakeDue(p.frame);
        } else {
          ValidNow();
          MakeInputOk(p);
        }
      } else {
        StillInputOk();
      }
    }

    lemma MakeValidWith(l: Log)
      requires l.Ok(k.st, input.cap, decodes) && conn < |l.handled|
      requires |l.attempted| == |l.handled| == |l.delivered| == |l.carried| == |k.st.conns|
      requires k.st.conns[conn].sent == EncodeAll(l.attempted[conn])
      requires var stream := l.carried[conn] + k.st.conns[conn].received;
        Parse(stream, input.cap) == Parsed(l.handled[conn], unparsed, tooBig)
      requires Wired() && Flags() && k.st.strays == extra
      requires Holds(m.phase, serverFd, keepAliveTimerFd, reconnectTimerFd, conn, unnamed, k.st)
      ensures ValidWith(l)
    {
      hide Parse, EncodeAll, Run, Legal, Holds;
    }

    lemma MakeDue(f: Frame)
      requires conn < |log.handled| == |log.delivered| && ValidWith(log.With(decodes, conn, f)) && m.phase.Up?
      requires trace == m.trace
      ensures Due(f)
    {
    }

    /** One round of the loop of process_socket; `go` says whether it goes on. */
    method ReadRound() returns (go: bool)
      requires Valid() && Engaged() && InputOk() && !tooBig
      modifies input, input.data, encoded, this`serverFd, this`pendingDisconnect, this`disconnectReason
      modifies this`pongReceived
      modifies this`m, this`steps, this`log, this`unparsed, this`tooBig, k`st, k`stalls, k`arriving
      ensures Valid() && Engaged() && InputOk()
      ensures trace == old(trace) && old(steps) <= steps && Grown(old(log), log)
      ensures k.arriving <= old(k.arriving) && (go ==> !tooBig && k.arriving < old(k.arriving))
      ensures !go ==> m.phase.Down? || k.arriving == 0
      ensures old(m).phase.Down? ==>
          m == old(m) && log == old(log) && pongReceived == old(pongReceived) && k.stalls == old(k.stalls) && !tooBig
      ensures old(m).phase.Up? ==> HeardSince(old(log), old(pongReceived), old(k.stalls.cut))
    {
      hide *;
      Facts();
      GrownSame(log);
      Connected();
      if m.phase.Up? {
        HeardNothing(conn, log, pongReceived, k.stalls.cut, k.calm);
      }
      var r, p := ReadSome();
      if r.Count? && p.Complete? {
        HandleMessage(p.frame);
        Facts();
        FreshInput();
        HeardIs(old(log), old(pongReceived), old(k.stalls.cut));
        return true;
      }
      Facts();
      if r.Failed? {
        Lose(ConnectionClosed);
      } else if r.Count? && p.TooBig? {
        Lose(MessageTooBig);
      }
      Connected();
      go := r.Count? && !p.TooBig?;
      if old(m).phase.Up? {
        NothingHandled(r.Failed?);
      }
    }

    /** The client has read from its connection since the log was log0. */
    ghost predicate HeardSince(log0: Log, pong0: bool, cut0: nat)
      reads this`conn, this`log, this`pongReceived, this`m, this`tooBig, k`stalls, k`calm
    {
      Heard(conn, log0, log, pong0, pongReceived, cut0, k.stalls.cut, m.phase, tooBig, k.calm)
    }

    lemma HeardIs(log0: Log, pong0: bool, cut0: nat)
      ensures HeardSince(log0, pong0, cut0) <==>
              Heard(conn, log0, log, pong0, pongReceived, cut0, k.stalls.cut, m.phase, tooBig, k.calm)
    {
    }

    /** No frame was completed; the read may have failed. */
    lemma NothingHandled(failed: bool)
      requires Heard(conn, log, log, pongReceived, pongReceived, k.stalls.cut, k.stalls.cut, Up, false, k.calm)
      requires if tooBig then m.phase == Down(MessageTooBig)
               else if failed then m.phase == Down(ConnectionClosed) && !k.calm else m.phase.Up?
      ensures HeardSince(log, pongReceived, k.stalls.cut)
    {
    }

    method FreshInput()
      requires Wired() && unparsed == [] && !tooBig
      modifies input
      ensures InputOk()
    {
      input.Reset();
      input.AwaitingIsUnparsed();
    }

    lemma SentFacts(m0: Machine, steps0: seq<Step>, log0: Log, cut0: nat)
      requires SentSince(m0, steps0, log0, cut0)
      ensures steps0 <= steps && trace == m0.trace && Engaged() && (m0.phase.Down? ==> m == m0)
      ensures log.handled == log0.handled && log.delivered == log0.delivered && Grown(log0, log)
      ensures cut0 <= k.stalls.cut && log0.unencoded <= log.unencoded
      ensures m0.phase.Up? ==> SentOr(m.phase, log.unencoded > log0.unencoded, k.stalls.cut > cut0)
    {
    }

    /** process_socket: all that has arrived is read and dealt with, unless the connection is
        given up; Heard tells why, and whether a pong was received. */
    method ProcessSocket()
      requires Valid() && m.phase.Up? && InputOk() && !tooBig
      modifies input, input.data, encoded, this`serverFd, this`pendingDisconnect, this`disconnectReason
      modifies this`pongReceived
      modifies this`m, this`steps, this`log, this`unparsed, this`tooBig, k`st, k`stalls, k`arriving
      ensures Valid() && Engaged() && InputOk() && (m.phase.Down? || k.arriving == 0)
      ensures trace == old(trace) && old(steps) <= steps && Grown(old(log), log)
      ensures HeardSince(old(log), old(pongReceived), old(k.stalls.cut))
    {
      hide *;
      Facts();
      GrownSame(log);
      Connected();
      HeardNothing(conn, log, pongReceived, k.stalls.cut, k.calm);
      HeardIs(log, pongReceived, k.stalls.cut);
      var go := true;
      while go
        invariant Valid() && Engaged() && InputOk()
        invariant trace == old(trace) && old(steps) <= steps && Grown(old(log), log)
        invariant HeardSince(old(log), old(pongReceived), old(k.stalls.cut))
        invariant go ==> !tooBig
        invariant !go ==> m.phase.Down? || k.arriving == 0
        decreases k.arriving, go
      {
        ghost var m1, log1, pong1, cut1 := m, log, pongReceived, k.stalls.cut;
        HeardIs(old(log), old(pongReceived), old(k.stalls.cut));
        Connected();
        go := ReadRound();
        GrownTrans(old(log), log1, log);
        HeardIs(log1, pong1, cut1);
        HeardIs(old(log), old(pongReceived), old(k.stalls.cut));
        if m1.phase.Up? {
          HeardThen(conn, old(log), log1, log, old(pongReceived), pong1, pongReceived, old(k.stalls.cut), cut1,
                    k.stalls.cut, m.phase, tooBig, k.calm);
        }
      }
    }

    // ----- keeping alive -----

    /** process_keep_alive_timer. On a misled client every path ends in a misreport. */
    method ProcessKeepAliveTimer()
      requires Valid() && (Engaged() || Misled())
      modifies this`serverFd, this`pendingDisconnect, this`disconnectReason, this`pongReceived, this`m, this`steps
      modifies this`log, k`st, k`stalls, k`calls
      ensures trace == old(trace) && old(steps) <= steps && Grown(old(log), log)
      ensures old(Engaged()) ==> Valid() && Engaged()
      ensures old(m).phase.Down? ==> m == old(m) && log == old(log)
      ensures old(m).phase.Up? ==> conn < |old(log).attempted|
      ensures old(m).phase.Up? ==> Kept(keepAliveTimerFd, old(k.calls), k.calls, old(pongReceived),
                                        k.stalls.cut > old(k.stalls.cut), m.phase)
      ensures old(m).phase.Up? && k.obliging ==>
          KeptWell(keepAliveTimerFd, old(k.calls), k.calls, old(pongReceived))
      ensures old(m).phase.Up? ==>
          log == if |k.calls| == |old(k.calls)| + 2 then old(log).Attempted(conn, Frame(PING, [])) else old(log)
      ensures pongReceived == (old(pongReceived) && !m.phase.Up?)
      ensures !old(Engaged()) ==> Misreporting() && m == old(m) && log == old(log) && !Engaged()
    {
      hide *;
      Facts();
      Connected();
      GrownSame(log);
      NoPayload(PING);
      if Misled() {
        MisledFacts();
      } else {
        TimerOpen();
      }
      var timer := keepAliveTimerFd;
      var ok := k.Do(K.ReadTimer(timer));
      if !ok {
        Lose(GeneralError);
      } else if !pongReceived {
        assert k.calls == old(k.calls) + [K.ReadTimer(timer)] + [];
        Lose(KeepAliveTimeout);
      } else {
        ok := k.Do(K.Arm(timer, 2));
        if ok {
          ok := SendPing();
          if ok {
            pongReceived := false;
          }
        } else {
          Lose(GeneralError);
        }
      }
      Connected();
      KeptFacts(timer, old(k.calls), k.calls, old(pongReceived), k.stalls.cut > old(k.stalls.cut), m.phase);
    }

    lemma TimerOpen()
      requires Valid() && Engaged()
      ensures keepAliveTimerFd in k.st.open
    {
      hide Run, Legal, Log.Ok, Parse, EncodeAll;
    }

    lemma KeptFacts(timer: int, before: seq<K.Call>, after: seq<K.Call>, pong: bool, cut: bool, phase: Life)
      ensures Kept(timer, before, after, pong, cut, phase) <==>
        || (after == before && !cut && phase == Down(GeneralError))
        || (after == before + [K.ReadTimer(timer)] && !cut
            && phase == Down(if pong then GeneralError else KeepAliveTimeout))
        || (after == before + [K.ReadTimer(timer)] + [K.Arm(timer, 2)] && pong
            && phase == if cut then Down(GeneralError) else Up)
      ensures KeptWell(timer, before, after, pong) <==>
        after == before + [K.ReadTimer(timer)] + if pong then [K.Arm(timer, 2)] else []
    {
    }

    /** The ping is written; if not completely, the connection is given up. */
    method SendPing() returns (all: bool)
      requires Valid() && (Engaged() || Misled())
      modifies this`serverFd, this`pendingDisconnect, this`disconnectReason, this`m, this`steps, this`log, k`st
      modifies k`stalls
      ensures old(m).phase.Up? ==> conn < |old(log).attempted|
      ensures log == if old(m).phase.Up? then old(log).Attempted(conn, Frame(PING, [])) else old(log)
      ensures trace == old(trace) && old(steps) <= steps && Grown(old(log), log)
      ensures old(Engaged()) ==> Valid() && Engaged()
      ensures old(Engaged()) ==>
          if all then m == old(m) && m.phase.Up?
          else m.phase == (if old(m).phase.Up? then Down(GeneralError) else old(m).phase)
      ensures old(m).phase.Down? ==> m == old(m)
      ensures !old(Engaged()) ==> !all && Misreporting() && m == old(m) && !Engaged()
      ensures k.stalls.cut == if all then old(k.stalls.cut) else old(k.stalls.cut) + 1
    {
      hide *;
      NoPayload(PING);
      var header := new byte[HEADER_SIZE];
      Create(header, PING, 0);
      PingBytes(header);
      all := WriteOrLose(header, HEADER_SIZE, Frame(PING, []), GeneralError);
    }

    lemma NoPayload(kind: byte)
      ensures HEADER_SIZE > 0 && |Frame(kind, []).payload| < SIZE_LIMIT
    {
    }

    lemma PingBytes(header: array<byte>)
      requires header.Length == HEADER_SIZE && header[..HEADER_SIZE] == [PING] + SizeBytes(0)
      ensures header[..HEADER_SIZE] == Encode(Frame(PING, []))
    {
      assert [PING] + SizeBytes(0) + [] == [PING] + SizeBytes(0);
    }

    // ----- connecting -----

    /** Between two attempts to connect. */
    ghost predicate Waiting()
      reads this`serverFd, this`keepAliveTimerFd, this`pendingDisconnect, this`disconnectReason
      reads this`trace, this`steps, this`m, this`misreports, this`extra, this`unnamed, this`log, k`st
    {
      && Wired() && Flags() && log.Ok(k.st, input.cap, decodes) && k.st.strays == extra && m.phase.Trying?
      && Between(serverFd, keepAliveTimerFd, unnamed, k.st)
    }

    /** Registers and arms the new keep-alive timer, or closes it. */
    method ArmKeepAliveTimer() returns (ok: bool, ghost how: Attempt)
      requires keepAliveTimerFd in k.st.open && k.st.open[keepAliveTimerFd] == K.Timer
      requires keepAliveTimerFd !in k.st.epoll
      requires keepAliveTimerFd >= 0
      modifies k`st, k`calls
      ensures how == if ok then Made else TimerUnusable
      ensures k.st == if ok then old(k.st).Registered(keepAliveTimerFd, K.In) else old(k.st).Closed(keepAliveTimerFd)
      ensures k.steady || k.obliging ==> ok
      ensures ok ==> k.calls == old(k.calls) + [K.Arm(keepAliveTimerFd, 2)]
      ensures old(k.calls) <= k.calls
    {
      Undone(k.st.epoll, keepAliveTimerFd, K.In);
      ok := k.EpollAdd(keepAliveTimerFd);
      if ok {
        ok := k.Do(K.Arm(keepAliveTimerFd, 2));
        if !ok {
          k.EpollDel(keepAliveTimerFd);
        }
      }
      how := if ok then Made else TimerUnusable;
      if !ok {
        k.Close(keepAliveTimerFd);
      }
    }

    /** The system calls of connect_to_server. When registering or arming the keep-alive
        timer fails, its number stays behind although it is closed; and what stayed behind
        before is overwritten only once a timer has been asked for. */
    method OpenConnection() returns (fd: int, ghost how: Attempt)
      requires keepAliveTimerFd >= -1
      modifies this`keepAliveTimerFd, k`st, k`calls
      ensures fd == -1 <==> how != Made
      ensures how == NoSocket || how == SocketUnusable ==> keepAliveTimerFd == old(keepAliveTimerFd)
      ensures how == NoTimer ==> keepAliveTimerFd == -1
      ensures how == TimerUnusable ==> keepAliveTimerFd >= 0 && keepAliveTimerFd !in k.st.open && !k.steady
      ensures k.obliging ==> how == Made
      ensures how == NoSocket ==> k.st == old(k.st)
      ensures how in {SocketUnusable, NoTimer, TimerUnusable} ==>
          k.st == old(k.st).(conns := old(k.st.conns) + [K.Bytes([], [])])
      ensures how == Made ==> fd >= 0 && fd !in old(k.st.open) && fd != keepAliveTimerFd
      ensures how == Made ==> keepAliveTimerFd >= 0 && keepAliveTimerFd !in old(k.st.open)
      ensures how == Made ==>
          k.st == old(k.st).Accepted(fd).Registered(fd, K.In)
                           .Opened(keepAliveTimerFd, K.Timer).Registered(keepAliveTimerFd, K.In)
      ensures how == Made ==> Opened(old(k.calls), k.calls, fd, keepAliveTimerFd)
      ensures old(k.calls) <= k.calls
    {
      fd := k.OpenStream();
      if fd == -1 {
        how := NoSocket;
        return;
      }
      Undone(old(k.st).open, fd, k.st.open[fd]);
      Undone(old(k.st).epoll, fd, K.In);
      var ok := k.Do(K.Connect(fd));
      if ok {
        ok := k.Do(K.NonBlocking(fd));
      }
      if ok {
        ok := k.EpollAdd(fd);
      }
      if !ok {
        how := SocketUnusable;
        assert k.st.epoll == old(k.st).epoll;
        k.Close(fd);
        fd := -1;
        return;
      }
      keepAliveTimerFd := k.Open(K.Timer);
      ok := keepAliveTimerFd != -1;
      how := NoTimer;
      if ok {
        Undone(old(k.st).open[fd := K.Stream(|old(k.st).conns|)], keepAliveTimerFd, K.Timer);
        Undone(old(k.st).epoll[fd := K.In], keepAliveTimerFd, K.In);
        ok, how := ArmKeepAliveTimer();
      }
      if !ok {
        assert k.st.open == old(k.st).open[fd := K.Stream(|old(k.st).conns|)];
        assert k.st.epoll == old(k.st).epoll[fd := K.In];
        k.EpollDel(fd);
        k.Close(fd);
        fd := -1;
      }
    }

    lemma WaitingFacts()
      requires Waiting()
      ensures Wired() && Flags() && log.Ok(k.st, input.cap, decodes) && m.phase.Trying? && trace == m.trace
      ensures !Engaged()
      ensures Between(serverFd, keepAliveTimerFd, unnamed, k.st) && k.st.strays == extra
      ensures serverFd == -1 && keepAliveTimerFd >= -1 && keepAliveTimerFd !in unnamed.leaked
      ensures unnamed.Beside({}, k.st) && forall fd :: fd in unnamed.leaked ==> fd in k.st.open && fd >= 0
    {
    }

    /** The connection has been made: it is recorded and announced. */
    method Announce(fd: int, ghost k0: K.State)
      requires Wired() && Flags() && InputOk() && m.phase.Trying? && log.Ok(k0, input.cap, decodes)
      requires serverFd == reconnectTimerFd == -1
      requires Between(-1, -1, unnamed, k0) && k0.strays == extra
      requires fd >= 0 && keepAliveTimerFd >= 0 && fd != keepAliveTimerFd
      requires fd !in k0.open && keepAliveTimerFd !in k0.open
      requires k.st == k0.Accepted(fd).Registered(fd, K.In)
                         .Opened(keepAliveTimerFd, K.Timer).Registered(keepAliveTimerFd, K.In)
      modifies this`serverFd, this`pongReceived, this`trace, this`m, this`steps, this`conn, this`log
      ensures Valid() && m.phase.Up? && trace == old(trace) + [OnConnected] && steps == old(steps) + [Connect]
      ensures pongReceived && Grown(old(log), log) && serverFd == fd
    {
      hide *;
      UnparsedFacts();
      MadeHolds(k0, unnamed, fd, keepAliveTimerFd);
      MadeOk(log, k0, k.st, input.cap, decodes, unparsed);
      GrownBy(log, 0, Frame(0, []), unparsed);
      log.SizesOk(k0, input.cap, decodes);
      MadeFacts(log, |k0.conns|, unparsed);
      serverFd := fd;
      pongReceived := true;
      conn, log := |k0.conns|, log.Made(unparsed);
      MakeCurrent();
      RecordConnected();
      MakeValid();
    }

    /** on_connected. */
    method RecordConnected()
      requires Flags() && m.phase.Trying?
      modifies this`trace, this`m, this`steps
      ensures Flags() && m.phase.Up? && trace == old(trace) + [OnConnected] && steps == old(steps) + [Connect]
    {
      hide Run, Legal, Misreports;
      Extend(steps, Connect);
      trace := trace + [OnConnected];
      steps, m := steps + [Connect], m.After(Connect);
    }

    lemma UnparsedFacts()
      requires InputOk()
      ensures Parse(unparsed, input.cap) == Parsed([], unparsed, tooBig) && Parse(unparsed, input.cap).frames == []
    {
    }

    /** A failed attempt may have left a connection behind that carried nothing. */
    ghost method Abandon(k0: K.State)
      requires Wired() && Flags() && m.phase.Trying? && log.Ok(k0, input.cap, decodes)
      requires Between(serverFd, keepAliveTimerFd, unnamed, k0) && k0.strays == extra
      requires k.st == k0 || k.st == k0.(conns := k0.conns + [K.Bytes([], [])])
      modifies this`log
      ensures Waiting() && Grown(old(log), log)
    {
      hide Parse, EncodeAll, Run, Legal, Log.Ok, Grown;
      GrownSame(log);
      if k.st != k0 {
        GrownBy(log, 0, Frame(0, []), []);
        ShortInput();
        MadeOk(log, k0, k.st, input.cap, decodes, []);
        log := log.Made([]);
      }
    }

    lemma ShortInput()
      ensures Parse([], input.cap) == Parsed([], [], false)
    {
    }

    /** connect_to_server. */
    method ConnectToServer() returns (ok: bool, ghost fd: int)
      requires Waiting() && InputOk() && reconnectTimerFd == -1
      modifies this`serverFd, this`keepAliveTimerFd, this`pendingDisconnect, this`disconnectReason, this`pongReceived
      modifies this`trace, this`m, this`steps, this`conn, this`log, k`st, k`stalls, k`calls, encoded
      ensures ok ==> Valid() && Engaged() && trace == old(trace) + [OnConnected] && pongReceived
      ensures !ok ==> Waiting() && m == old(m) && steps == old(steps)
      ensures !ok && k.steady && old(keepAliveTimerFd) == -1 ==> keepAliveTimerFd == -1
      ensures old(steps) <= steps && Grown(old(log), log) && InputOk() && (k.obliging ==> ok)
      ensures ok ==> Opened(old(k.calls), k.calls, fd, keepAliveTimerFd) && (m.phase.Up? ==> serverFd == fd)
      ensures old(k.calls) <= k.calls
    {
      hide *;
      WaitingFacts();
      ghost var how;
      var server;
      server, how := OpenConnection();
      ok, fd := server != -1, server;
      if ok {
        MakeBetween(-1, -1, old(k.st));
        Announce(server, old(k.st));
        Connected();
        ghost var m1, steps1, log1, cut1 := m, steps, log, k.stalls.cut;
        RunScript();
        SentFacts(m1, steps1, log1, cut1);
        Facts();
        GrownTrans(old(log), log1, log);
      } else {
        AttemptFacts(how);
        MakeBetween(serverFd, keepAliveTimerFd, old(k.st));
        Abandon(old(k.st));
      }
    }

    lemma MakeBetween(server: int, keepAlive: int, k0: K.State)
      requires unnamed.Beside({}, k0) && server == -1 && keepAlive >= -1
      requires keepAlive >= 0 ==> keepAlive !in unnamed.leaked
      ensures Between(server, keepAlive, unnamed, k0)
    {
    }

    lemma AttemptFacts(how: Attempt)
      ensures how in {SocketUnusable, NoTimer, TimerUnusable} <==> how != NoSocket && how != Made
    {
    }

    /** start_reconnect_timer. Without a timer there is no further attempt; nor is there when the
        timer cannot be armed, but then it stays. */
    method StartReconnectTimer() returns (ok: bool)
      requires Waiting()
      modifies this`reconnectTimerFd, this`m, this`steps, k`st, k`calls
      ensures Valid() && trace == old(trace) && !Engaged() && (ok ==> m.phase.Trying?)
      ensures k.obliging || (k.steady && m.phase.Trying?) ==> ok
      ensures k.calls == old(k.calls) + if ok then [K.Arm(reconnectTimerFd, 1)] else []
      ensures if reconnectTimerFd >= 0 then m == old(m) && steps == old(steps)
              else m.phase.Stuck? && m.trace == old(m).trace && steps == old(steps) + [GiveUp]
    {
      hide *;
      WaitingFacts();
      assert k.calls + [] == k.calls;
      ok := false;
      reconnectTimerFd := k.Open(K.Timer);
      if reconnectTimerFd != -1 {
        K.OpenedIsOpen(old(k.st), reconnectTimerFd, K.Timer);
        K.RegisteredIsOpen(k.st, reconnectTimerFd);
        ok := k.EpollAdd(reconnectTimerFd);
        if ok {
          ok := k.Do(K.Arm(reconnectTimerFd, 1));
        } else {
          NothingOpen(old(k.st), reconnectTimerFd);
          k.Close(reconnectTimerFd);
          reconnectTimerFd := -1;
        }
      }
      TimerHolds(old(k.st), k.st, keepAliveTimerFd, unnamed, reconnectTimerFd, conn);
      SameConns(log, old(k.st), k.st, input.cap, decodes);
      EndAttempt();
    }

    ghost method EndAttempt()
      requires Wired() && Flags() && m.phase.Trying? && log.Ok(k.st, input.cap, decodes) && k.st.strays == extra
      requires var phase := if reconnectTimerFd >= 0 then Trying else Stuck;
        Holds(phase, serverFd, keepAliveTimerFd, reconnectTimerFd, conn, unnamed, k.st)
      modifies this`m, this`steps
      ensures Valid() && !Engaged()
      ensures if reconnectTimerFd >= 0 then m == old(m) && steps == old(steps)
              else m.phase.Stuck? && m.trace == old(m).trace && steps == old(steps) + [GiveUp]
    {
      hide Run, Legal, Holds, Log.Ok, Misreports;
      if reconnectTimerFd < 0 {
        Extend(steps, GiveUp);
        steps, m := steps + [GiveUp], m.After(GiveUp);
      }
    }

    // ----- the public operations -----

    /** disconnect; its reason is never reported. */
    method Disconnect()
      modifies this`serverFd, this`keepAliveTimerFd, this`pendingDisconnect, this`disconnectReason, k`st
      ensures !pendingDisconnect && keepAliveTimerFd == -1
      ensures if old(pendingDisconnect) then
          && serverFd == old(serverFd) && disconnectReason == old(disconnectReason)
          && k.st == old(k.st).Deleted(old(keepAliveTimerFd)).Closed(old(keepAliveTimerFd))
        else serverFd == -1 && k.st == old(k.st).Deleted(old(serverFd)).Closed(old(serverFd))
                                         .Deleted(old(keepAliveTimerFd)).Closed(old(keepAliveTimerFd))
    {
      PendingDisconnect(MessageEncodeError);
      CloseFd(keepAliveTimerFd);
      keepAliveTimerFd := -1;
      pendingDisconnect := false;
    }

    /** The application calls start; the record of callbacks starts afresh. */
    method Begin()
      requires Valid() && (m.phase.Idle? || m.phase.Stuck?)
      modifies this`trace, this`m, this`steps, this`misreports
      ensures Waiting() && trace == [] && steps == old(steps) + [ClientMachine.Start] && misreports == 0
      ensures reconnectTimerFd == -1
    {
      hide Parse, EncodeAll, Run, Legal, Misreports, Log.Ok;
      Extend(steps, ClientMachine.Start);
      trace, misreports := [], 0;
      steps, m := steps + [ClientMachine.Start], m.After(ClientMachine.Start);
    }

    /** How an attempt to connect may end: connected, with a fresh pong, and announced; or waiting
        for the next attempt, or stuck without a timer for it. */
    ghost predicate Tried(trace0: seq<Notice>, before: seq<K.Call>)
      reads this`trace, this`m, this`keepAliveTimerFd, this`reconnectTimerFd, this`serverFd, this`pongReceived
      reads k`calls, k`steady
    {
      if Engaged() then
        && trace == trace0 + [OnConnected] && pongReceived
        && exists fd :: Opened(before, k.calls, fd, keepAliveTimerFd) && (m.phase.Up? ==> fd == serverFd)
      else
        && trace == trace0 && (m.phase.Stuck? || m.phase.Trying?)
        && (m.phase.Trying? && k.steady ==>
              |k.calls| > |before| && k.calls[|k.calls| - 1] == K.Arm(reconnectTimerFd, 1))
    }

    lemma TriedConnected(trace0: seq<Notice>, before: seq<K.Call>, fd: int)
      requires Engaged() && trace == trace0 + [OnConnected] && pongReceived
      requires Opened(before, k.calls, fd, keepAliveTimerFd) && (m.phase.Up? ==> fd == serverFd)
      ensures Tried(trace0, before)
    {
    }

    lemma TriedInVain(trace0: seq<Notice>, before: seq<K.Call>, calls: seq<K.Call>, ok: bool)
      requires !Engaged() && trace == trace0 && (m.phase.Stuck? || m.phase.Trying?)
      requires before <= calls && k.calls == calls + if ok then [K.Arm(reconnectTimerFd, 1)] else []
      requires m.phase.Trying? && k.steady ==> ok
      ensures Tried(trace0, before)
    {
    }

    /** An attempt to connect, and the timer for the next one if it fails. */
    method TryToConnect()
      requires Waiting() && InputOk() && reconnectTimerFd == -1
      modifies this`serverFd, this`keepAliveTimerFd, this`reconnectTimerFd, this`pendingDisconnect
      modifies this`disconnectReason, k`calls
      modifies this`pongReceived, this`trace, this`m, this`steps, this`conn, this`log, k`st, k`stalls, encoded
      ensures Valid() && InputOk() && old(steps) <= steps && Grown(old(log), log)
      ensures Tried(old(trace), old(k.calls)) && (k.obliging ==> Engaged())
      ensures k.steady && old(keepAliveTimerFd) == -1 ==> Engaged() || keepAliveTimerFd == -1
    {
      hide *;
      WaitingFacts();
      ghost var fd;
      var ok;
      ok, fd := ConnectToServer();
      if ok {
        TriedConnected(old(trace), old(k.calls), fd);
      } else {
        WaitingFacts();
        ghost var calls := k.calls;
        ok := StartReconnectTimer();
        TimerPhase();
        TriedInVain(old(trace), old(k.calls), calls, ok);
      }
    }

    lemma TimerPhase()
      requires Valid() && !Engaged()
      ensures reconnectTimerFd >= 0 <==> m.phase.Trying?
    {
      hide Run, Legal, Log.Ok, Parse, EncodeAll;
    }

    /** NAME_client_start. */
    method Start()
      requires Valid() && InputOk() && (m.phase.Idle? || m.phase.Stuck?)
      modifies this`serverFd, this`keepAliveTimerFd, this`reconnectTimerFd, this`pendingDisconnect
      modifies this`disconnectReason, this`misreports, k`calls
      modifies this`pongReceived, this`trace, this`m, this`steps, this`conn, this`log, k`st, k`stalls, encoded
      ensures Valid() && InputOk() && old(steps) <= steps && Grown(old(log), log) && misreports == 0
      ensures Tried([], old(k.calls)) && (k.obliging ==> Engaged())
      ensures k.steady && old(keepAliveTimerFd) == -1 ==> Engaged() || keepAliveTimerFd == -1
    {
      hide *;
      Begin();
      TryToConnect();
    }

    /** process_reconnect_timer. */
    method ProcessReconnectTimer()
      requires Valid() && InputOk() && m.phase.Trying?
      modifies this`serverFd, this`keepAliveTimerFd, this`reconnectTimerFd, this`pendingDisconnect
      modifies this`disconnectReason, k`calls
      modifies this`pongReceived, this`trace, this`m, this`steps, this`conn, this`log, k`st, k`stalls, encoded
      ensures Valid() && InputOk() && old(steps) <= steps && Grown(old(log), log)
      ensures Tried(old(trace), old(k.calls)) && (k.obliging ==> Engaged())
      ensures k.steady && old(keepAliveTimerFd) == -1 ==> Engaged() || keepAliveTimerFd == -1
    {
      hide *;
      EndWait();
      TryToConnect();
    }

    method EndWait()
      requires Valid() && m.phase.Trying?
      modifies this`reconnectTimerFd, k`st
      ensures Waiting() && reconnectTimerFd == -1
    {
      hide Parse, EncodeAll, Run, Legal, Misreports, Log.Ok;
      CloseFd(reconnectTimerFd);
      reconnectTimerFd := -1;
      SameConns(log, old(k.st), k.st, input.cap, decodes);
    }

    /** The end of process: a lost connection is reported, and the next attempt prepared. A
        misled client closes what has the stale number, and forgets a reconnect timer that has
        not. */
    method ReportDisconnect()
      requires (Valid() && m.phase.Down?) || Misreporting()
      modifies this`serverFd, this`keepAliveTimerFd, this`reconnectTimerFd, this`pendingDisconnect
      modifies this`disconnectReason, this`misreports, this`extra, this`unnamed, k`calls
      modifies this`trace, this`m, this`steps, k`st
      ensures Valid() && old(steps) <= steps && trace == old(trace) + [OnDisconnected(old(disconnectReason))]
      ensures !Engaged() && keepAliveTimerFd == -1 && (k.obliging ==> m.phase.Trying?)
      ensures misreports == old(misreports) + if old(m).phase.Down? then 0 else 1
      ensures extra == old(extra) + MisreportExtra(old(m).phase, old(keepAliveTimerFd), old(reconnectTimerFd))
      ensures unnamed ==
          AfterMisreport(old(m).phase, old(keepAliveTimerFd), old(reconnectTimerFd), old(unnamed))
      ensures old(k.calls) <= k.calls
      ensures k.steady && m.phase.Trying? ==> k.calls == old(k.calls) + [K.Arm(reconnectTimerFd, 1)]
    {
      hide *;
      Report();
      var ok := StartReconnectTimer();
    }

    method Report()
      requires (Valid() && m.phase.Down?) || Misreporting()
      modifies this`serverFd, this`keepAliveTimerFd, this`pendingDisconnect, this`disconnectReason
      modifies this`trace, this`m, this`steps, this`misreports, this`extra, this`unnamed, k`st
      ensures Waiting() && old(steps) <= steps && trace == old(trace) + [OnDisconnected(old(disconnectReason))]
      ensures keepAliveTimerFd == -1 && misreports == old(misreports) + if old(m).phase.Down? then 0 else 1
      ensures extra == old(extra) + MisreportExtra(old(m).phase, old(keepAliveTimerFd), old(reconnectTimerFd))
      ensures unnamed ==
          AfterMisreport(old(m).phase, old(keepAliveTimerFd), old(reconnectTimerFd), old(unnamed))
    {
      hide *;
      ReportFacts();
      ReportedHolds(m.phase, serverFd, keepAliveTimerFd, reconnectTimerFd, conn, unnamed, k.st);
      extra := extra + MisreportExtra(m.phase, keepAliveTimerFd, reconnectTimerFd);
      unnamed := AfterMisreport(m.phase, keepAliveTimerFd, reconnectTimerFd, unnamed);
      Disconnect();
      SameConns(log, old(k.st), k.st, input.cap, decodes);
      RecordReport(disconnectReason);
      MakeWaiting();
    }

    lemma ReportFacts()
      requires (Valid() && m.phase.Down?) || Misreporting()
      ensures Wired() && InStep() && log.Ok(k.st, input.cap, decodes) && k.st.strays == extra && pendingDisconnect
      ensures serverFd == -1 && Holds(m.phase, serverFd, keepAliveTimerFd, reconnectTimerFd, conn, unnamed, k.st)
      ensures m.phase.Down? || Stale(m.phase, keepAliveTimerFd)
      ensures m.phase.Down? || m.phase.Trying? || m.phase.Stuck?
      ensures m.phase.Down? ==> m.phase.reason == disconnectReason
    {
      hide Run, Legal, Misreports, Log.Ok, Unnamed.Beside;
    }

    lemma MakeWaiting()
      requires Wired() && Flags() && log.Ok(k.st, input.cap, decodes) && k.st.strays == extra && m.phase.Trying?
      requires Between(serverFd, keepAliveTimerFd, unnamed, k.st)
      ensures Waiting()
    {
    }

    /** on_disconnected. */
    method RecordReport(reason: Reason)
      requires InStep() && !pendingDisconnect && (m.phase.Down? || m.phase.Trying? || m.phase.Stuck?)
      requires m.phase.Down? ==> m.phase.reason == reason
      modifies this`trace, this`m, this`steps, this`misreports
      ensures Flags() && m.phase.Trying? && old(steps) <= steps && trace == old(trace) + [OnDisconnected(reason)]
      ensures misreports == old(misreports) + if old(m).phase.Down? then 0 else 1
    {
      hide Run, Legal, Misreports;
      ghost var step := if m.phase.Down? then ClientMachine.Report else Misreport(reason);
      Extend(steps, step);
      trace := trace + [OnDisconnected(reason)];
      misreports := misreports + if m.phase.Down? then 0 else 1;
      steps, m := steps + [step], m.After(step);
    }

    /** NAME_client_stop, in any state. Of the client's descriptors only reconnect timers that
        it has lost stay open. It closes a number that is not the client's exactly when that of
        a closed timer has stayed behind, and then another's descriptor that has it. */
    method Stop()
      requires Valid()
      modifies this`serverFd, this`keepAliveTimerFd, this`reconnectTimerFd, this`pendingDisconnect
      modifies this`disconnectReason, this`extra, this`unnamed
      modifies this`m, this`steps, k`st
      ensures Valid() && m.phase.Idle? && steps == old(steps) + [ClientMachine.Stop] && trace == old(trace)
      ensures k.st.open.Keys == unnamed.leaked + unnamed.others && k.st.conns == old(k.st.conns)
      ensures serverFd == keepAliveTimerFd == reconnectTimerFd == -1
      ensures var stale := Stale(old(m).phase, old(keepAliveTimerFd));
        && unnamed.leaked == old(unnamed).leaked
        && unnamed.others == old(unnamed).others - (if stale then {old(keepAliveTimerFd)} else {})
        && k.st.strays == old(k.st).strays + (if stale then 1 else 0)
        && extra == old(extra) + if stale then 1 else 0
    {
      hide *;
      Facts();
      SoundFacts();
      Disconnect();
      if reconnectTimerFd != -1 {
        CloseFd(reconnectTimerFd);
        reconnectTimerFd := -1;
      }
      StoppedHolds(old(m).phase, old(serverFd), old(keepAliveTimerFd), old(reconnectTimerFd), conn, unnamed,
        old(k.st));
      unnamed := AfterClosing(old(m).phase, old(keepAliveTimerFd), unnamed);
      RecordStop(old(k.st), Extra(old(m).phase, old(keepAliveTimerFd)));
      ClosingIs(old(m).phase, old(keepAliveTimerFd), old(unnamed));
      IdleFds();
    }

    lemma ClosingIs(phase: Life, keepAlive: int, u: Unnamed)
      ensures var stale := Stale(phase, keepAlive);
        && Extra(phase, keepAlive) == (if stale then 1 else 0)
        && AfterClosing(phase, keepAlive, u).leaked == u.leaked
        && AfterClosing(phase, keepAlive, u).others == u.others - if stale then {keepAlive} else {}
    {
    }

    lemma IdleFds()
      requires Valid() && m.phase.Idle?
      ensures k.st.open.Keys == unnamed.leaked + unnamed.others
    {
      hide Run, Legal, Log.Ok;
      assert forall fd :: fd in k.st.open <==> fd in unnamed.leaked + unnamed.others;
    }

    ghost method RecordStop(k0: K.State, more: nat)
      requires Wired() && InStep() && log.Ok(k0, input.cap, decodes)
      requires serverFd == keepAliveTimerFd == reconnectTimerFd == -1 && !pendingDisconnect
      requires Holds(Idle, -1, -1, -1, conn, unnamed, k.st) && k0.strays == extra
      requires k.st.conns == k0.conns && k.st.strays == k0.strays + more
      modifies this`m, this`steps, this`extra
      ensures Valid() && m.phase.Idle? && steps == old(steps) + [ClientMachine.Stop] && extra == old(extra) + more
    {
      hide Run, Legal, Misreports, Log.Ok, Unnamed.Beside;
      SameConns(log, k0, k.st, input.cap, decodes);
      Extend(steps, ClientMachine.Stop);
      steps, m, extra := steps + [ClientMachine.Stop], m.After(ClientMachine.Stop), extra + more;
    }

    ghost function Now(): Snapshot
      reads this`m, this`log, this`pongReceived, this`tooBig, k`stalls, k`calls, k`arriving
    {
      Snapshot(m, log, pongReceived, k.stalls.cut, k.calls, tooBig, k.arriving)
    }

    ghost function KernelMood(): Mood
      reads k`calm, k`steady, k`obliging
    {
      Mood(k.calm, k.steady, k.obliging)
    }

    lemma NowIs()
      ensures Now() == Snapshot(m, log, pongReceived, k.stalls.cut, k.calls, tooBig, k.arriving)
      ensures KernelMood() == Mood(k.calm, k.steady, k.obliging)
    {
    }

    /** The dispatch of an event on descriptor fd, before a lost connection is reported. */
    method Dispatch(fd: int)
      requires Valid() && InputOk() && MayOccur(fd)
      modifies this`serverFd, this`keepAliveTimerFd, this`reconnectTimerFd, this`pendingDisconnect
      modifies this`disconnectReason, this`pongReceived, this`trace, this`m, this`steps, this`conn, this`log
      modifies this`unparsed, this`tooBig, input, input.data, encoded, k`st, k`stalls, k`calls, k`arriving
      ensures old(steps) <= steps && Grown(old(log), log) && InputOk()
      ensures var handler := HandlerOf(fd, old(serverFd), old(keepAliveTimerFd), old(reconnectTimerFd));
        var misled := Stale(old(m).phase, old(keepAliveTimerFd)) && fd == old(keepAliveTimerFd);
        && Came(old(m), m, fd == old(reconnectTimerFd), misled)
        && (if misled then Misreporting() && keepAliveTimerFd == old(keepAliveTimerFd)
                           && reconnectTimerFd == old(reconnectTimerFd) && trace == m.trace
            else Valid())
        && Dealt(handler, fd, conn, old(Now()), Now(), KernelMood())
        && (handler == Socket && m.phase.Up? ==> k.arriving == 0)
        && (handler == Nobody ==> m == old(m) && log == old(log) && k.st == old(k.st))
      ensures k.steady && !Stale(old(m).phase, old(keepAliveTimerFd)) && !Engaged() ==>
          !Stale(m.phase, keepAliveTimerFd)
    {
      hide *;
      MayOccurFacts(fd);
      Facts();
      Connected();
      InputFacts();
      DispatchFacts(fd);
      StaleFacts(m.phase, keepAliveTimerFd);
      GrownSame(log);
      NowIs();
      if fd == serverFd {
        ProcessSocket();
        HeardIs(old(log), old(pongReceived), old(k.stalls.cut));
        SocketDealt(fd, old(Now()));
      } else if fd == keepAliveTimerFd {
        ProcessKeepAliveTimer();
        TimerDealt(fd, old(Now()));
      } else if fd == reconnectTimerFd {
        ProcessReconnectTimer();
        TriedFacts(old(trace), old(k.calls));
        Facts();
        ReconnectDealt(fd, old(Now()), old(trace));
      } else {
        NobodyDealt(fd, old(Now()));
      }
      Connected();
      if Stale(old(m).phase, old(keepAliveTimerFd)) && fd == old(keepAliveTimerFd) {
        MisreportingFacts();
      } else {
        Facts();
      }
      StaleFacts(m.phase, keepAliveTimerFd);
      CameFacts(old(m), fd == old(reconnectTimerFd), Stale(old(m).phase, old(keepAliveTimerFd))
                                                     && fd == old(keepAliveTimerFd));
    }

    lemma SocketDealt(fd: int, a: Snapshot)
      requires Heard(conn, a.log, log, a.pong, pongReceived, a.cut, k.stalls.cut, m.phase, tooBig, k.calm)
      requires m.phase.Up? ==> k.arriving == 0
      ensures Dealt(Socket, fd, conn, a, Now(), KernelMood())
    {
      hide Heard;
    }

    lemma TimerDealt(fd: int, a: Snapshot)
      requires a.m.phase.Up? ==>
        && Kept(fd, a.calls, k.calls, a.pong, k.stalls.cut > a.cut, m.phase)
        && (k.obliging ==> KeptWell(fd, a.calls, k.calls, a.pong))
        && pongReceived == (a.pong && !m.phase.Up?) && conn < |a.log.attempted|
        && log == if |k.calls| == |a.calls| + 2 then a.log.Attempted(conn, Frame(PING, [])) else a.log
      ensures Dealt(KeepAlive, fd, conn, a, Now(), KernelMood())
    {
      hide Kept, KeptWell, Log.Attempted;
    }

    lemma ReconnectDealt(fd: int, a: Snapshot, trace0: seq<Notice>)
      requires Tried(trace0, a.calls) && trace == m.trace && trace0 == a.m.trace && (k.obliging ==> Engaged())
      ensures Dealt(Reconnect, fd, conn, a, Now(), KernelMood())
    {
      TriedIsAttempted(a.m, trace0, a.calls);
    }

    lemma NobodyDealt(fd: int, a: Snapshot)
      requires a.m == m && a.log == log && a.calls == k.calls && a.pong == pongReceived
      ensures Dealt(Nobody, fd, conn, a, Now(), KernelMood())
    {
    }

    lemma CameFacts(m0: Machine, reconnecting: bool, misled: bool)
      requires match m0.phase
        case Idle => m == m0 && !misled
        case Stuck => m == m0
        case Trying =>
          if misled || !reconnecting then m == m0
          else m.trace == m0.trace + (if Engaged() then [OnConnected] else [])
        case Up => Engaged() && m.trace == m0.trace && !misled
        case Down(_) => m == m0 && !misled
      ensures Came(m0, m, reconnecting, misled)
    {
    }

    lemma TriedFacts(trace0: seq<Notice>, before: seq<K.Call>)
      requires Tried(trace0, before)
      ensures trace == trace0 + (if Engaged() then [OnConnected] else [])
    {
    }

    /** NAME_client_process, for an event on any descriptor fd; `arriving` bounds what can be
        read before a read would have to wait. `mid` is what the dispatch comes to, before a
        lost connection is reported. A callback out of turn is made exactly when the event is on
        the number of a closed timer that stayed behind, whatever has that number now. Only then
        is another's descriptor closed or a reconnect timer lost. */
    method Process(fd: int, arriving: nat) returns (ghost mid: Snapshot)
      requires Valid() && InputOk() && MayOccur(fd)
      modifies this, input, input.data, encoded, k`st, k`stalls, k`calls, k`arriving
      ensures Valid() && InputOk() && !m.phase.Down?
      ensures old(steps) <= steps && Grown(old(log), log)
      ensures var misled := Stale(old(m).phase, old(keepAliveTimerFd)) && fd == old(keepAliveTimerFd);
        && Outcome(old(m), m, fd == old(reconnectTimerFd), misled)
        && Reported(mid.m, m, misled)
        && Booked(old(m).phase, old(keepAliveTimerFd), old(reconnectTimerFd), misled, old(OnBooks()), OnBooks())
        && (if mid.m.phase.Down? || misled then
              && mid.calls <= k.calls
              && (k.steady && m.phase.Trying? ==> k.calls == mid.calls + [K.Arm(reconnectTimerFd, 1)])
            else k.calls == mid.calls)
      ensures k.steady && !Stale(old(m).phase, old(keepAliveTimerFd)) ==> !Stale(m.phase, keepAliveTimerFd)
      ensures fd == old(serverFd) && m.phase.Up? ==> k.arriving == 0
      ensures mid.log == log && mid.pong == pongReceived && mid.cut == k.stalls.cut && mid.tooBig == tooBig
      ensures var handler := HandlerOf(fd, old(serverFd), old(keepAliveTimerFd), old(reconnectTimerFd));
        && Dealt(handler, fd, conn, old(Now()), mid, KernelMood())
        && (handler == Nobody && !old(m).phase.Down? ==> k.st == old(k.st))
    {
      hide *;
      NowIs();
      k.arriving := arriving;
      NowIs();
      ghost var start := Now();
      mid := ProcessNow(fd);
      DealtFrom(HandlerOf(fd, old(serverFd), old(keepAliveTimerFd), old(reconnectTimerFd)), fd, start, old(Now()), mid);
    }

    method ProcessNow(fd: int) returns (ghost mid: Snapshot)
      requires Valid() && InputOk() && MayOccur(fd)
      modifies this, input, input.data, encoded, k`st, k`stalls, k`calls, k`arriving
      ensures Valid() && InputOk() && !m.phase.Down?
      ensures old(steps) <= steps && Grown(old(log), log)
      ensures var misled := Stale(old(m).phase, old(keepAliveTimerFd)) && fd == old(keepAliveTimerFd);
        && Outcome(old(m), m, fd == old(reconnectTimerFd), misled)
        && Reported(mid.m, m, misled)
        && Booked(old(m).phase, old(keepAliveTimerFd), old(reconnectTimerFd), misled, old(OnBooks()), OnBooks())
        && (if mid.m.phase.Down? || misled then
              && mid.calls <= k.calls
              && (k.steady && m.phase.Trying? ==> k.calls == mid.calls + [K.Arm(reconnectTimerFd, 1)])
            else k.calls == mid.calls)
      ensures k.steady && !Stale(old(m).phase, old(keepAliveTimerFd)) ==> !Stale(m.phase, keepAliveTimerFd)
      ensures fd == old(serverFd) && m.phase.Up? ==> k.arriving == 0
      ensures mid.log == log && mid.pong == pongReceived && mid.cut == k.stalls.cut && mid.tooBig == tooBig
      ensures var handler := HandlerOf(fd, old(serverFd), old(keepAliveTimerFd), old(reconnectTimerFd));
        && Dealt(handler, fd, conn, old(Now()), mid, KernelMood())
        && (handler == Nobody && !old(m).phase.Down? ==> k.st == old(k.st))
    {
      hide *;
      MayOccurFacts(fd);
      DispatchFacts(fd);
      Facts();
      ghost var keepAlive, reconnect := keepAliveTimerFd, reconnectTimerFd;
      ghost var misled := Stale(m.phase, keepAlive) && fd == keepAlive;
      Dispatch(fd);
      mid := Now();
      NowIs();
      CamePhases(old(m), m, fd == reconnect, misled);
      Connected();
      ghost var books, keepAlive', reconnect' := OnBooks(), keepAliveTimerFd, reconnectTimerFd;
      ReportIfPending(old(m), fd == reconnect, misled);
      if !misled {
        NothingBooked(mid.m.phase, keepAlive', reconnect', books, OnBooks());
        NothingBooked(old(m).phase, keepAlive, reconnect, books, OnBooks());
      }
      StaleFacts(old(m).phase, keepAlive);
      StaleFacts(m.phase, keepAliveTimerFd);
      StaleFacts(mid.m.phase, keepAlive);
    }

    /** How many bytes were there to be read before does not matter. */
    lemma DealtFrom(handler: Handler, fd: int, a: Snapshot, a': Snapshot, b: Snapshot)
      requires Dealt(handler, fd, conn, a, b, KernelMood()) && a' == a.(left := a'.left)
      ensures Dealt(handler, fd, conn, a', b, KernelMood())
    {
      hide Heard, Kept, KeptWell, Attempted, Log.Attempted;
    }

    /** The end of process. */
    method ReportIfPending(ghost m0: Machine, ghost reconnecting: bool, ghost misled: bool)
      requires if misled then Misreporting() else Valid()
      requires Came(m0, m, reconnecting, misled)
      modifies this`serverFd, this`keepAliveTimerFd, this`reconnectTimerFd, this`pendingDisconnect
      modifies this`disconnectReason, this`misreports, this`extra, this`unnamed, k`calls
      modifies this`trace, this`m, this`steps, k`st
      ensures Valid() && old(steps) <= steps && !m.phase.Down?
      ensures Outcome(m0, m, reconnecting, misled) && Reported(old(m), m, misled)
      ensures Booked(old(m).phase, old(keepAliveTimerFd), old(reconnectTimerFd), misled, old(OnBooks()), OnBooks())
      ensures if old(m).phase.Down? || misled then
          && keepAliveTimerFd == -1 && !m.phase.Up? && old(k.calls) <= k.calls
          && (k.steady && m.phase.Trying? ==> k.calls == old(k.calls) + [K.Arm(reconnectTimerFd, 1)])
        else m == old(m) && k.calls == old(k.calls) && keepAliveTimerFd == old(keepAliveTimerFd) && k.st == old(k.st)
    {
      hide *;
      if misled {
        MisreportingFacts();
      } else {
        Facts();
      }
      ghost var reason := disconnectReason;
      CamePhases(m0, m, reconnecting, misled);
      if pendingDisconnect {
        MisreportBooked(m.phase, keepAliveTimerFd, reconnectTimerFd, misled);
        ReportDisconnect();
        IsBooked(old(m).phase, old(keepAliveTimerFd), old(reconnectTimerFd), misled, old(OnBooks()));
        Facts();
        Connected();
      } else {
        NothingBooked(m.phase, keepAliveTimerFd, reconnectTimerFd, OnBooks(), OnBooks());
      }
      OutcomeFacts(m0, old(m), m, reconnecting, misled, old(pendingDisconnect), reason);
    }

    lemma CamePhases(m0: Machine, m1: Machine, reconnecting: bool, misled: bool)
      requires Came(m0, m1, reconnecting, misled)
      ensures misled ==> (m0.phase.Trying? || m0.phase.Stuck?) && m1 == m0
    {
    }

    lemma TriedIsAttempted(m0: Machine, trace0: seq<Notice>, before: seq<K.Call>)
      requires Tried(trace0, before) && trace == m.trace && trace0 == m0.trace && (k.obliging ==> Engaged())
      ensures Attempted(m0, m, before, k.calls, pongReceived, k.steady, k.obliging)
    {
      if Engaged() {
        var fd :| Opened(before, k.calls, fd, keepAliveTimerFd) && (m.phase.Up? ==> fd == serverFd);
      } else if m.phase.Trying? && k.steady {
        assert k.calls[|k.calls| - 1] == K.Arm(reconnectTimerFd, 1);
      }
    }

    ghost function OnBooks(): Books
      reads this`misreports, this`extra, this`unnamed
    {
      Books(misreports, extra, unnamed)
    }

    /** The books are kept as ReportDisconnect says. */
    lemma IsBooked(phase: Life, keepAlive: int, reconnect: int, misled: bool, a: Books)
      requires if misled then Stale(phase, keepAlive) && (phase.Stuck? ==> reconnect == -1) else phase.Down?
      requires misreports == a.misreports + if phase.Down? then 0 else 1
      requires extra == a.extra + MisreportExtra(phase, keepAlive, reconnect)
      requires unnamed == AfterMisreport(phase, keepAlive, reconnect, a.unnamed)
      ensures Booked(phase, keepAlive, reconnect, misled, a, OnBooks())
    {
    }

    lemma MisreportBooked(phase: Life, keepAlive: int, reconnect: int, misled: bool)
      requires if misled then Stale(phase, keepAlive) && (phase.Stuck? ==> reconnect == -1) else phase.Down?
      ensures OnBooks() == Books(misreports, extra, unnamed) && (phase.Down? <==> !misled)
    {
    }

    lemma StaleFacts(phase: Life, keepAlive: int)
      ensures Stale(phase, keepAlive) <==> (phase.Trying? || phase.Stuck?) && keepAlive != -1
    {
    }

    lemma MisreportingFacts()
      requires Misreporting()
      ensures pendingDisconnect && Stale(m.phase, keepAliveTimerFd) && trace == m.trace
      ensures m.phase.Stuck? ==> reconnectTimerFd == -1
    {
      hide Run, Legal, Log.Ok;
    }

    /** An event that this model can go on with: the next read must stay in the buffer. */
    predicate MayOccur(fd: int)
      reads this`serverFd, input`size, input`left
    {
      fd >= 0 && (fd == serverFd ==> input.size + input.left <= input.cap)
    }

    lemma MayOccurFacts(fd: int)
      requires MayOccur(fd)
      ensures fd >= 0 && (fd == serverFd ==> input.size + input.left <= input.cap)
    {
    }

    lemma MayReadIff()
      requires Valid() && InputOk()
      ensures m.phase.Up? ==> (MayOccur(serverFd) <==> !tooBig)
    {
      hide Parse, EncodeAll, Run, Legal, Log.Ok;
    }

    /** Who is asked first. */
    lemma DispatchFacts(fd: int)
      requires Valid() && fd >= 0
      ensures fd == serverFd ==> m.phase.Up? && fd != keepAliveTimerFd
      ensures fd == keepAliveTimerFd ==> Engaged() || Misled()
      ensures fd == reconnectTimerFd ==> m.phase.Trying? && fd != serverFd
      ensures fd == reconnectTimerFd && fd == keepAliveTimerFd ==> Misled()
      ensures Misled() <==> Stale(m.phase, keepAliveTimerFd)
      ensures Misled() ==> !Engaged() && (m.phase.Trying? || m.phase.Stuck?)
      ensures HandlerOf(fd, serverFd, keepAliveTimerFd, reconnectTimerFd) ==
          if fd == serverFd then Socket else if fd == keepAliveTimerFd then KeepAlive
          else if fd == reconnectTimerFd then Reconnect else Nobody
      ensures pendingDisconnect == m.phase.Down?
    {
      hide Parse, EncodeAll, Run, Legal, Misreports, Log.Ok;
    }

    /** What other parts of the process do with their own descriptors in the meantime. */
    method Elsewhere()
      requires Valid()
      modifies k`st, this`unnamed
      ensures Valid() && unnamed.leaked == old(unnamed).leaked && old(k.st).SameOwn(k.st)
    {
      hide *;
      Facts();
      SoundFacts();
      if m.phase.Up? {
        CurrentFacts();
      }
      HeldKeys(m.phase, serverFd, keepAliveTimerFd, reconnectTimerFd, conn, unnamed, k.st);
      k.Elsewhere();
      ElsewhereHolds(m.phase, serverFd, keepAliveTimerFd, reconnectTimerFd, conn, unnamed, old(k.st), k.st);
      SameConns(log, old(k.st), k.st, input.cap, decodes);
      unnamed := unnamed.(others := Foreign(k.st));
      if m.phase.Up? {
        MakeCurrent();
      }
      MakeValid();
    }
  }
}
