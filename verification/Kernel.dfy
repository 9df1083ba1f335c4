/** The operating system as the templates see it: descriptors, epoll registrations
    and byte streams. What a call may return is arbitrary within its contract. */
module Kernel {
  import opened Header

  datatype Interest = In | InOut

  /** What an open descriptor refers to. Connections are numbered in the order in
      which they were established, so that a reused descriptor number does not
      confuse two connections. A foreign descriptor belongs to another part of the process. */
  datatype Desc = Listener | Stream(conn: nat) | Timer | Foreign

  /** The bytes a connection has accepted from the process and delivered to it. */
  datatype Bytes = Bytes(sent: seq<byte>, received: seq<byte>)

  datatype State = State(open: map<int, Desc>, epoll: map<int, Interest>, conns: seq<Bytes>, strays: nat)
  {
    /** `strays` counts closes of numbers that were not open, or belonged to another part of
        the process; closing -1 does nothing. */
    ghost predicate Ok() {
      && (forall fd :: fd in open ==> fd >= 0 && (open[fd].Stream? ==> open[fd].conn < |conns|))
      && (forall fd, fd' :: fd in open && fd' in open && open[fd].Stream? && open[fd] == open[fd'] ==> fd == fd')
    }

    function Closed(fd: int): State {
      if fd in open then this.(open := open - {fd}, strays := strays + if open[fd].Foreign? then 1 else 0)
      else if fd >= 0 then this.(strays := strays + 1)
      else this
    }

    function Deleted(fd: int): State {
      this.(epoll := epoll - {fd})
    }

    function Registered(fd: int, interest: Interest): State {
      this.(epoll := epoll[fd := interest])
    }

    /** EPOLL_CTL_MOD, which fails on a descriptor that is not registered. */
    function Modified(fd: int, interest: Interest): State {
      if fd in epoll then Registered(fd, interest) else this
    }

    function Opened(fd: int, d: Desc): State {
      this.(open := open[fd := d])
    }

    function Accepted(fd: int): State {
      this.(open := open[fd := Stream(|conns|)], conns := conns + [Bytes([], [])])
    }

    /** `after` differs only in the descriptors of other parts of the process. */
    predicate SameOwn(after: State) {
      && conns == after.conns && strays == after.strays && after.epoll.Keys <= after.open.Keys
      && (forall fd :: fd in open && !open[fd].Foreign? ==> fd in after.open && after.open[fd] == open[fd])
      && (forall fd :: fd in after.open && !after.open[fd].Foreign? ==> fd in open && after.open[fd] == open[fd])
      && (forall fd :: fd in after.open ==> fd >= 0)
      && (forall fd :: fd in epoll && fd in open && !open[fd].Foreign? ==>
            fd in after.epoll && after.epoll[fd] == epoll[fd])
      && (forall fd :: fd in after.epoll && fd in open && !open[fd].Foreign? ==> fd in epoll)
    }

    function Sent(fd: int, data: seq<byte>): State {
      if fd in open && open[fd].Stream? && open[fd].conn < |conns| then
        var c := open[fd].conn;
        this.(conns := conns[c := conns[c].(sent := conns[c].sent + data)])
      else this
    }

    function Received(fd: int, data: seq<byte>): State {
      if fd in open && open[fd].Stream? && open[fd].conn < |conns| then
        var c := open[fd].conn;
        this.(conns := conns[c := conns[c].(received := conns[c].received + data)])
      else this
    }
  }

  /** The result of a read or a write: a positive count, -1 with EAGAIN, or anything
      else (end of file, zero, another error). */
  datatype Io = Count(n: nat) | Again | Failed

  /** The descriptors on which a write had to wait, and the number of writes that did not take
      all the bytes that they were given. */
  datatype Stalls = Stalls(waited: set<int>, cut: nat)

  const NoStalls := Stalls({}, 0)

  /** A system call of which only the outcome matters. */
  datatype Call =
    | Arm(fd: int, seconds: nat)
    | ReadTimer(fd: int)
    | Connect(fd: int)
    | NonBlocking(fd: int)
    | NoDelay(fd: int)
    | ReuseAddress(fd: int)
    | Bind(fd: int)
    | Listen(fd: int)

  class Kernel {
    var st: State

    /** The number of bytes that will be delivered before a read has to wait. */
    var arriving: nat

    /** While set, reads and writes on open connections do not fail hard. */
    var calm: bool

    /** The writes that were not complete, since this was last cleared. */
    var stalls: Stalls

    /** The system calls on single descriptors that have succeeded, in order. */
    var calls: seq<Call>

    /** While set, registering and arming an open timer does not fail. */
    var steady: bool

    /** While set, no system call other than a read or a write fails. */
    var obliging: bool

    constructor ()
      ensures st == State(map[], map[], [], 0) && !calm
    {
      st := State(map[], map[], [], 0);
      arriving, calm, stalls, calls, steady, obliging := 0, false, NoStalls, [], false, false;
    }

    method Write(fd: int, data: seq<byte>) returns (r: Io)
      requires data != []
      modifies this`st, this`stalls
      ensures r.Count? ==> 0 < r.n <= |data|
      ensures fd !in old(st).open ==> r.Failed?
      ensures calm && fd in old(st).open ==> !r.Failed?
      ensures st == if r.Count? then old(st).Sent(fd, data[..r.n]) else old(st)
      ensures stalls.waited == if r.Again? then old(stalls.waited) + {fd} else old(stalls.waited)
      ensures stalls.cut == if r == Count(|data|) then old(stalls.cut) else old(stalls.cut) + 1
    {
      var n: int, wait: bool := *, *;
      if fd !in st.open {
        r := Failed;
      } else if 0 < n <= |data| {
        r := Count(n);
        st := st.Sent(fd, data[..n]);
      } else if calm || wait {
        r := Again;
      } else {
        r := Failed;
      }
      stalls := Stalls(if r.Again? then stalls.waited + {fd} else stalls.waited,
                       if r == Count(|data|) then stalls.cut else stalls.cut + 1);
    }

    /** Reads into buf[at..at + max]. A read has to wait only when nothing is left. */
    method Read(fd: int, buf: array<byte>, at: nat, max: nat) returns (r: Io, ghost data: seq<byte>)
      requires max > 0 && at + max <= buf.Length
      modifies this`st, this`arriving, buf
      ensures r.Count? ==> 0 < r.n <= max && |data| == r.n && arriving == old(arriving) - r.n
      ensures r.Count? ==> buf[..] == old(buf[..at]) + data + old(buf[at + r.n..])
      ensures r.Count? ==> st == old(st).Received(fd, data)
      ensures !r.Count? ==> buf[..] == old(buf[..]) && st == old(st) && arriving == old(arriving)
      ensures r.Again? ==> arriving == 0
      ensures fd !in old(st).open ==> r.Failed?
      ensures calm && fd in old(st).open ==> !r.Failed?
    {
      var bytes: seq<byte> := *;
      data := [];
      if fd !in st.open {
        r := Failed;
        return;
      }
      if arriving == 0 || |bytes| == 0 || |bytes| > max || |bytes| > arriving {
        var wait: bool := *;
        if arriving == 0 && (calm || wait) {
          r := Again;
          return;
        } else if !calm {
          r := Failed;
          return;
        }
        bytes := [0];
      }
      r, data := Count(|bytes|), bytes;
      forall i | 0 <= i < |bytes| {
        buf[at + i] := bytes[i];
      }
      st, arriving := st.Received(fd, bytes), arriving - |bytes|;
    }

    /** socket or timerfd_create: -1, or a descriptor number that is not in use. */
    method Open(d: Desc) returns (fd: int)
      requires !d.Stream?
      modifies this`st
      ensures fd == -1 ==> st == old(st)
      ensures fd != -1 ==> fd >= 0 && fd !in old(st).open && fd !in old(st).epoll && st == old(st).Opened(fd, d)
      ensures obliging ==> fd != -1
    {
      fd := *;
      if obliging {
        UnusedNumber(st.open.Keys + st.epoll.Keys);
        fd :| fd >= 0 && fd !in st.open.Keys + st.epoll.Keys;
      }
      if fd < 0 || fd in st.open || fd in st.epoll {
        fd := -1;
      } else {
        st := st.Opened(fd, d);
      }
    }

    /** accept, or socket for a connection: -1, or a descriptor for a new connection. */
    method OpenStream() returns (fd: int)
      modifies this`st
      ensures fd == -1 ==> st == old(st)
      ensures fd != -1 ==> fd >= 0 && fd !in old(st).open && fd !in old(st).epoll && st == old(st).Accepted(fd)
      ensures obliging ==> fd != -1
    {
      fd := *;
      if obliging {
        UnusedNumber(st.open.Keys + st.epoll.Keys);
        fd :| fd >= 0 && fd !in st.open.Keys + st.epoll.Keys;
      }
      if fd < 0 || fd in st.open || fd in st.epoll {
        fd := -1;
      } else {
        st := st.Accepted(fd);
      }
    }

    method Close(fd: int)
      modifies this`st
      ensures st == old(st).Closed(fd)
    {
      st := st.Closed(fd);
    }

    method EpollAdd(fd: int) returns (ok: bool)
      modifies this`st
      ensures st == if ok then old(st).Registered(fd, In) else old(st)
      ensures ok ==> fd in st.open
      ensures steady && fd in old(st).open && old(st).open[fd].Timer? ==> ok
      ensures obliging && fd in old(st).open ==> ok
    {
      ok := *;
      ok := fd in st.open && (ok || obliging || (steady && st.open[fd].Timer?));
      if ok {
        st := st.Registered(fd, In);
      }
    }

    method EpollMod(fd: int, interest: Interest)
      modifies this`st
      ensures st == old(st).Modified(fd, interest)
    {
      st := st.Modified(fd, interest);
    }

    method EpollDel(fd: int)
      modifies this`st
      ensures st == old(st).Deleted(fd)
    {
      st := st.Deleted(fd);
    }

    /** Any other system call on a descriptor: timerfd_settime, reading an expired timer,
        fcntl, setsockopt, connect, bind, listen. */
    method Do(call: Call) returns (ok: bool)
      modifies this`calls
      ensures calls == if ok then old(calls) + [call] else old(calls)
      ensures ok ==> call.fd in st.open
      ensures steady && call.Arm? && call.fd in st.open && st.open[call.fd].Timer? ==> ok
      ensures obliging && call.fd in st.open ==> ok
    {
      ok := *;
      ok := call.fd in st.open && (ok || obliging || (steady && call.Arm? && st.open[call.fd].Timer?));
      if ok {
        calls := calls + [call];
      }
    }

    /** Other parts of the process open, register and close descriptors of their own. */
    method Elsewhere()
      requires st.epoll.Keys <= st.open.Keys && forall fd :: fd in st.open ==> fd >= 0
      modifies this`st
      ensures old(st).SameOwn(st)
    {
      var after: State := *;
      if st.SameOwn(after) {
        st := after;
      }
    }
  }

  lemma OpenedIsOpen(st: State, fd: int, d: Desc)
    ensures fd in st.Opened(fd, d).open
  {
  }

  lemma RegisteredIsOpen(st: State, fd: int)
    ensures st.Registered(fd, In).open == st.open
  {
  }

  /** The descriptor numbers never run out. */
  lemma UnusedNumber(used: set<int>)
    ensures exists fd :: fd >= 0 && fd !in used
  {
    var bound := AboveAll(used);
    assert bound >= 0 && bound !in used;
  }

  lemma {:induction false} AboveAll(used: set<int>) returns (bound: nat)
    ensures forall fd :: fd in used ==> fd < bound
  {
    if forall fd: int :: fd !in used {
      bound := 0;
    } else {
      var fd: int :| fd in used;
      var rest := AboveAll(used - {fd});
      bound := if fd < rest then rest else fd + 1;
      forall x: int | x in used ensures x < bound {
        assert x == fd || x in used - {fd};
      }
    }
  }

  lemma SentNothing(st: State, fd: int)
    ensures st.Sent(fd, []) == st
  {
    if fd in st.open && st.open[fd].Stream? && st.open[fd].conn < |st.conns| {
      var b := st.conns[st.open[fd].conn];
      assert b.sent + [] == b.sent;
      assert st.conns[st.open[fd].conn := b] == st.conns;
    }
  }

  lemma SentOpen(st: State, fd: int, data: seq<byte>)
    ensures st.Sent(fd, data).open == st.open
  {
  }

  lemma SentTwice(st: State, fd: int, a: seq<byte>, b: seq<byte>)
    ensures st.Sent(fd, a).Sent(fd, b) == st.Sent(fd, a + b)
  {
    if fd in st.open && st.open[fd].Stream? && st.open[fd].conn < |st.conns| {
      var c := st.open[fd].conn;
      assert (st.conns[c].sent + a) + b == st.conns[c].sent + (a + b);
      var x := st.conns[c].(sent := st.conns[c].sent + a);
      var y := st.conns[c].(sent := st.conns[c].sent + (a + b));
      assert st.conns[c := x][c := y] == st.conns[c := y];
    }
  }
}
