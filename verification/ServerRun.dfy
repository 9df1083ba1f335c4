/** Runs of the server. */
module ServerRun {
  import opened Guarantees
  import opened Server
  import opened ServerState

  /** What can happen to a server: an event on a descriptor, or a call by the application
      from outside the callbacks. */
  datatype Event =
    | OnDescriptor(fd: int, readable: bool, writable: bool, arriving: nat)
    | OnCall(action: Action)

  /** The descriptors that the events are for. */
  function Descriptors(events: seq<Event>): set<int> {
    set e | e in events && e.OnDescriptor? :: e.fd
  }

  lemma OneMore(events: seq<Event>, n: nat)
    requires n < |events|
    ensures Descriptors(events[..n + 1]) ==
            Descriptors(events[..n]) + if events[n].OnDescriptor? then {events[n].fd} else {}
  {
    assert events[..n + 1] == events[..n] + [events[n]];
  }

  /** What an event does to the state of the server. */
  ghost predicate Step(server: Server, e: Event, s: State, t: State) {
    match e
    case OnDescriptor(fd, _, _, _) =>
      exists mid, listener :: Dispatched(s, mid, fd, listener) && Cleared(mid, t) && t.lists.pending == []
                              && (s.listener != NONE ==> listener == s.listener)
    case OnCall(a) => s.Inv() && server.Wired() && server.Acted(a, s, t, null)
  }

  lemma DescriptorStep(server: Server, e: Event, s: State, mid: State, t: State, listener: int)
    requires e.OnDescriptor? && Dispatched(s, mid, e.fd, listener) && Cleared(mid, t) && t.lists.pending == []
    requires s.listener != NONE ==> listener == s.listener
    ensures Step(server, e, s, t)
  {
  }

  lemma CallStep(server: Server, e: Event, s: State, t: State)
    requires e.OnCall? && s.Inv() && server.Wired() && server.Acted(e.action, s, t, null)
    ensures Step(server, e, s, t)
  {
  }

  /** Every run: whatever events happen in whatever order, and whatever the kernel and
      the application do, the invariant holds after each of them, and after each event
      on a descriptor no client is left pending. A server that was started keeps its
      listener. Each event takes a step, from one of `states` to the next. The callbacks of every slot, and what was
      written, handled and received on every connection, only grow; and a client that stays
      connected keeps its unfinished frame as long as no event is for its socket. */
  method Run(server: Server, events: seq<Event>) returns (ghost states: seq<State>)
    requires server.Valid() && server.Idle()
    requires forall e :: e in events && e.OnCall? ==> Fine(e.action)
    modifies server, server.data, server.k, server.lists, server.clients, server.inputs, server.outputs
    modifies server.items, server.encoded
    ensures server.Valid() && server.Idle()
    ensures events != [] && events[|events| - 1].OnDescriptor? ==> server.s.lists.pending == []
    ensures History(old(server.s), server.s, Descriptors(events))
    ensures server.listenerFd == old(server.listenerFd) && server.s.listener == old(server.s).listener
    ensures server.Listens()
    ensures |states| == |events| + 1 && states[0] == old(server.s) && states[|events|] == server.s
    ensures forall n :: 0 <= n < |events| ==> Step(server, events[n], states[n], states[n + 1])
  {
    hide *;
    ServerFacts(server);
    HistorySame(server.s);
    NoDescriptors(events);
    states := [server.s];
    for n := 0 to |events|
      invariant server.Valid() && server.Idle() && fresh(server.items - old(server.items))
      invariant n > 0 && events[n - 1].OnDescriptor? ==> server.s.lists.pending == []
      invariant server.listenerFd == old(server.listenerFd)
      invariant |states| == n + 1 && states[0] == old(server.s) && states[n] == server.s
      invariant forall j :: 0 <= j < n ==> Step(server, events[j], states[j], states[j + 1])
      invariant History(old(server.s), server.s, Descriptors(events[..n]))
    {
      ghost var t := server.s;
      ServerFacts(server);
      OneMore(events, n);
      match events[n] {
        case OnDescriptor(fd, readable, writable, arriving) =>
          ghost var listener := server.listenerFd;
          ghost var mid := server.Process(fd, readable, writable, arriving);
          ServerFacts(server);
          ProcessHistory(t, mid, server.s, fd, listener);
          HistoryTrans(old(server.s), t, server.s, Descriptors(events[..n]), {fd});
          DescriptorStep(server, events[n], t, mid, server.s, listener);
        case OnCall(a) =>
          server.IdleFacts();
          server.NoCurrent();
          server.Perform(a);
          server.EvolvedIdle(t, server.s);
          server.NowIdle();
          ServerFacts(server);
          EvolvedHistory(t, server.s);
          HistoryTrans(old(server.s), t, server.s, Descriptors(events[..n]), {});
          CallStep(server, events[n], t, server.s);
      }
      states := states + [server.s];
    }
    assert events[..|events|] == events;
    HistoryListener(old(server.s), server.s, Descriptors(events));
    server.ListensWhenValid();
  }

  lemma HistoryListener(s: State, t: State, fds: set<int>)
    requires History(s, t, fds)
    ensures t.listener == s.listener
  {
  }

  lemma NoDescriptors(events: seq<Event>)
    ensures Descriptors(events[..0]) == {}
  {
  }
}
