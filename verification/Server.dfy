/** messi/c_source/templates/linux/server.c in memory: client slots on intrusive
    lists, output queues, and one input buffer cut into slices. Each method is proved
    against a step of ServerState. */
module Server {
  import opened Header
  import opened Framing
  import opened Messages
  import opened Input
  import opened Output
  import opened Clients
  import opened Slots
  import opened ServerState
  import K = Kernel

  /** What the application may do in a callback; a negative slot stands for NULL. */
  datatype Action =
    | DoSend(slot: nat, message: Message)
    | DoReply(message: Message)
    | DoBroadcast(message: Message)
    | DoDisconnect(target: int)

  predicate Fine(a: Action) {
    !a.DoDisconnect? ==> Encodable(a.message)
  }

  class Server {
    const k: K.Kernel
    const clients: seq<Client>
    const lists: ClientLists
    const data: array<byte>
    const encoded: array<byte>

    /** The payloads that the application's protocol can decode. */
    const decodes: seq<byte> -> bool

    var listenerFd: int
    var current: Client?

    ghost const cap: nat
    ghost const outputs: set<OutputQueue>
    ghost const inputs: set<Input>
    ghost var s: State

    /** Every output item allocated so far. */
    ghost var items: set<Item>

    /** The slot whose output queue is being drained, if any. */
    ghost var draining: int

    /** How the objects that make up the server hang together; this never changes. */
    ghost predicate Wired() {
      && Pool(clients) && lists.slots == clients
      && encoded.Length >= HEADER_SIZE && encoded != data
      && forall i :: 0 <= i < |clients| ==> WiredClient(clients[i], i)
    }

    ghost predicate WiredClient(c: Client, i: nat) {
      WiredTo(c, i, data, cap, outputs, inputs)
    }

    ghost predicate SlotsMatch(slots: seq<Slot>)
      reads clients`clientFd, clients`keepAliveTimerFd, clients`trace
    {
      && |slots| == |clients|
      && forall i :: 0 <= i < |clients| ==> var c := clients[i];
        c.clientFd == slots[i].fd && c.keepAliveTimerFd == slots[i].timer && c.trace == slots[i].trace
    }

    ghost predicate OutputMatches(slots: seq<Slot>, i: nat)
      requires i < |clients| == |slots| && clients[i].output in outputs
      reads this`items, outputs, items
    {
      var q := clients[i].output;
      (forall x :: x in q.items ==> x in items && x.owner == q) && q.Valid() && q.queued == slots[i].queued
    }

    ghost predicate OutputsMatch(home: seq<Home>, slots: seq<Slot>)
      requires Wired() && |slots| == |home| == |clients|
      reads this`draining, this`items, outputs, items
    {
      forall i :: 0 <= i < |clients| && home[i] != Free && i != draining ==> OutputMatches(slots, i)
    }

    /** A connected client's items are on its queue; other clients have none that are not freed. */
    ghost predicate LedgersMatch(home: seq<Home>)
      requires Wired() && |home| == |clients|
      reads this`draining, outputs
    {
      forall i :: 0 <= i < |clients| ==> LedgerMatches(home, i)
    }

    ghost predicate LedgerMatches(home: seq<Home>, i: nat)
      requires i < |clients| == |home| && clients[i].output in outputs
      reads this`draining, outputs
    {
      var q := clients[i].output;
      && q.Ledger()
      && if home[i] == Connected then q.Held() && (i != draining ==> q.live == q.items) else q.live == []
    }

    ghost predicate InputsMatch(home: seq<Home>, slots: seq<Slot>, busy: int)
      requires Wired() && |slots| == |home| == |clients|
      reads inputs, data
    {
      forall i :: 0 <= i < |clients| && home[i] == Connected && i != busy ==> var p := clients[i].input;
        p.Awaiting() && p.Prefix() == slots[i].input
    }

    ghost predicate ListenerMatches(owner: map<int, Role>)
      reads this`listenerFd
    {
      forall fd :: fd in owner && owner[fd] == ListenerOf ==> fd == listenerFd
    }

    /** The memory of the server holds what the state says. */
    ghost predicate Coupled(slots: seq<Slot>, home: seq<Home>, busy: int, owner: map<int, Role>)
      reads this`draining, this`items, this`listenerFd, outputs, items, inputs, data
      reads clients`clientFd, clients`keepAliveTimerFd, clients`trace
    {
      && Wired() && |slots| == |home| == |clients|
      && SlotsMatch(slots) && OutputsMatch(home, slots) && InputsMatch(home, slots, busy) && ListenerMatches(owner)
      && LedgersMatch(home)
    }

    ghost predicate Valid()
      reads this, k`st, lists, clients, outputs, inputs, items, data
    {
      && Wired() && lists.Valid() && lists.view == s.lists && k.st == s.k && s.Inv() && s.cap == cap
      && s.decodes == decodes
      && Coupled(s.slots, s.lists.home, s.busy, s.owner)
    }

    /** NAME_server_init: `clientsMax` slots share one input buffer, cut into slices of
        `inputSize` bytes. */
    constructor (k: K.Kernel, clientsMax: nat, inputSize: nat, messageSize: nat, decodes: seq<byte> -> bool)
      requires clientsMax >= 1 && inputSize >= HEADER_SIZE && messageSize >= HEADER_SIZE
      requires k.st == K.State(map[], map[], [], 0)
      ensures Valid() && Idle() && this.k == k && |clients| == clientsMax && cap == inputSize
      ensures encoded.Length == messageSize && this.decodes == decodes
      ensures s.lists == AllFree(clientsMax) && s.sent == [] && s.log == []
      ensures fresh(lists) && fresh(clients) && fresh(data) && fresh(encoded) && fresh(inputs) && fresh(outputs)
      ensures items == {}
    {
      hide *;
      var buf := new byte[clientsMax * inputSize];
      var cs;
      ghost var outs, ins;
      cs, outs, ins := MakeClients(buf, clientsMax, inputSize);
      this.k, clients, data, encoded := k, cs, buf, new byte[messageSize];
      this.decodes := decodes;
      lists := new ClientLists(cs);
      current, draining := null, -1;
      cap, outputs, inputs, items := inputSize, outs, ins, {};
      s := Initial(Snapshot(cs), inputSize, decodes);
      new;
      MakeWired();
      InitialInv(Snapshot(clients), inputSize, decodes);
      InitialCoupled();
      InitialFacts(Snapshot(clients), inputSize, decodes);
      Close();
      NowIdle();
    }

    lemma MakeWired()
      requires Pool(clients) && lists.slots == clients && encoded.Length >= HEADER_SIZE && encoded != data
      requires forall i :: 0 <= i < |clients| ==> WiredTo(clients[i], i, data, cap, outputs, inputs)
      ensures Wired()
    {
    }

    lemma InitialFacts(slots: seq<Slot>, size: nat, decoder: seq<byte> -> bool)
      ensures var t := Initial(slots, size, decoder);
        && t.lists == AllFree(|slots|) && t.sent == [] && t.log == [] && t.cap == size && t.decodes == decoder
        && t.k == K.State(map[], map[], [], 0) && t.writing == t.busy == t.closing == t.answering == NONE
    {
    }

    lemma InitialCoupled()
      requires Wired() && lists.Valid() && lists.view == AllFree(|clients|)
      requires s == Initial(Snapshot(clients), cap, decodes)
      requires forall i :: 0 <= i < |clients| ==> clients[i].output.live == [] && clients[i].output.Ledger()
      ensures |s.slots| == |clients| && Coupled(s.slots, s.lists.home, s.busy, s.owner)
    {
      hide Lists.Ok, ClientLists.Valid, OutputMatches, Input.Awaiting, OutputQueue.Ledger;
    }

    static ghost function Snapshot(cs: seq<Client>): (slots: seq<Slot>)
      reads cs
      ensures |slots| == |cs|
      ensures forall i :: 0 <= i < |cs| ==>
          slots[i] == Slot(cs[i].clientFd, cs[i].keepAliveTimerFd, 0, [], [], cs[i].trace)
    {
      seq(|cs|, i requires 0 <= i < |cs| reads cs =>
        Slot(cs[i].clientFd, cs[i].keepAliveTimerFd, 0, [], [], cs[i].trace))
    }

    /** The pool of clients, each with its slice of the buffer. */
    static method MakeClients(buf: array<byte>, n: nat, size: nat)
      returns (cs: seq<Client>, ghost outs: set<OutputQueue>, ghost ins: set<Input>)
      requires buf.Length == n * size && size >= HEADER_SIZE
      ensures |cs| == n && Pool(cs) && fresh(cs) && fresh(outs) && fresh(ins)
      ensures forall i :: 0 <= i < n ==> cs[i].trace == [] && WiredTo(cs[i], i, buf, size, outs, ins)
      ensures forall i :: 0 <= i < n ==> cs[i].output.live == [] && cs[i].output.Ledger()
    {
      hide OutputQueue.Ledger;
      cs, outs, ins := [], {}, {};
      for i := 0 to n
        invariant |cs| == i && Pool(cs) && fresh(cs) && fresh(outs) && fresh(ins)
        invariant forall j :: 0 <= j < i ==> cs[j].trace == [] && WiredTo(cs[j], j, buf, size, outs, ins)
        invariant forall j :: 0 <= j < i ==> cs[j].output.live == [] && cs[j].output.Ledger()
      {
        assert (i + 1) * size <= n * size;
        var input := new Input(i, buf, i * size, size);
        var output := new OutputQueue(i);
        var c := new Client(i, input, output);
        cs, outs, ins := cs + [c], outs + {output}, ins + {input};
      }
    }

    static ghost predicate WiredTo(c: Client, i: nat, buf: array<byte>, size: nat, outs: set<OutputQueue>,
                                   ins: set<Input>)
    {
      && c.output in outs && c.output.slot == i
      && c.input in ins && c.input.slot == i
      && c.input.data == buf && c.input.base == i * size && c.input.cap == size && c.input.InBuffer()
    }

    // ----- opening and closing the invariant -----

    lemma Open()
      requires Valid()
      ensures Wired() && lists.Valid() && lists.view == s.lists && lists.slots == clients && k.st == s.k && s.Inv()
      ensures |clients| == |s.slots| == |s.lists.home| && s.Sizes() && encoded != data && s.cap == cap
      ensures s.decodes == decodes
      ensures Coupled(s.slots, s.lists.home, s.busy, s.owner)
    {
    }

    lemma Close()
      requires lists.Valid() && lists.view == s.lists && k.st == s.k && s.Inv() && s.cap == cap && s.decodes == decodes
      requires Coupled(s.slots, s.lists.home, s.busy, s.owner)
      ensures Valid()
    {
    }

    lemma SlotOf(c: Client)
      requires Valid() && c in clients
      ensures c.slot < |clients| == |s.slots| == |s.lists.home| && clients[c.slot] == c
      ensures c.clientFd == s.slots[c.slot].fd && c.keepAliveTimerFd == s.slots[c.slot].timer
      ensures c.trace == s.slots[c.slot].trace
    {
    }

    lemma OutputAt(c: Client)
      requires Valid() && c in clients && s.lists.home[c.slot] != Free && c.slot != draining
      ensures c.output.Valid() && c.output.queued == s.slots[c.slot].queued
      ensures forall x :: x in c.output.items ==> x in items
      ensures c.output.head == null <==> c.output.queued == []
    {
      assert OutputMatches(s.slots, c.slot);
    }

    // ----- losing a connection -----

    method CloseFd(fd: int)
      modifies k`st
      ensures k.st == old(k.st).Deleted(fd).Closed(fd)
    {
      k.EpollDel(fd);
      k.Close(fd);
    }

    method Forget(c: Client, ghost t0: State)
      requires Wired() && c in clients && IsConnected(t0, c.slot)
      requires Coupled(t0.slots, t0.lists.home, t0.busy, t0.owner)
      modifies c`clientFd, c.output`head, c.output`items, c.output`queued, c.output`released, c.output`live,
               c.output`again
      ensures var t := Lost(t0, c.slot); Coupled(t.slots, t.lists.home, t.busy, t.owner)
      ensures c.output.released == old(c.output.released) + old(c.output.items)
      ensures c.output.again == old(c.output.again) + old(c.output.Freed())
    {
      hide *;
      LostFacts(t0, c.slot);
      CoupledParts(t0);
      ConnectedHome(t0, c.slot);
      FreeOutput(c, t0.slots, t0.lists.home);
      Disconnected(c, t0, Lost(t0, c.slot));
    }

    /** The queue of a client that is lost is freed. */
    method FreeOutput(c: Client, ghost slots: seq<Slot>, ghost home: seq<Home>)
      requires Wired() && c in clients && |slots| == |home| == |clients| && c.slot < |home| && home[c.slot] == Connected
      requires OutputsMatch(home, slots) && LedgersMatch(home)
      modifies c.output`head, c.output`items, c.output`queued, c.output`released, c.output`live,
               c.output`again
      ensures var slots' := slots[c.slot := slots[c.slot].(fd := -1, queued := [])];
        OutputsMatch(home[c.slot := Pending], slots') && LedgersMatch(home[c.slot := Pending])
      ensures c.output.released == old(c.output.released) + old(c.output.items)
      ensures c.output.again == old(c.output.again) + old(c.output.Freed())
    {
      hide OutputQueue.Valid, OutputQueue.Ledger, OutputQueue.Held, Pool, WiredTo;
      ClientAt(c);
      LedgerAt(c, home);
      c.output.Free();
      ghost var slots' := slots[c.slot := slots[c.slot].(fd := -1, queued := [])];
      ghost var home' := home[c.slot := Pending];
      forall j | 0 <= j < |clients| ensures LedgerMatches(home', j) {
        if j != c.slot {
          OutputsApart(c, j);
          assert old(LedgerMatches(home, j));
        }
      }
      forall j | 0 <= j < |clients| && home'[j] != Free && j != draining ensures OutputMatches(slots', j) {
        if j != c.slot {
          OutputsApart(c, j);
          assert old(OutputMatches(slots, j));
        }
      }
    }

    method Disconnected(c: Client, ghost t0: State, ghost t: State)
      requires Wired() && c in clients && |t0.slots| == |t0.lists.home| == |clients| && c.slot < |t0.slots|
      requires SlotsMatch(t0.slots) && InputsMatch(t0.lists.home, t0.slots, t0.busy) && ListenerMatches(t0.owner)
      requires t.slots == t0.slots[c.slot := t0.slots[c.slot].(fd := -1, queued := [])] && t.busy == t0.busy
      requires t.lists.home == t0.lists.home[c.slot := Pending] && t.owner == t0.owner - {t0.slots[c.slot].fd}
      requires OutputsMatch(t.lists.home, t.slots) && LedgersMatch(t.lists.home)
      modifies c`clientFd
      ensures Coupled(t.slots, t.lists.home, t.busy, t.owner)
    {
      hide OutputMatches, LedgerMatches, Input.Awaiting, WiredTo;
      c.clientFd := -1;
    }

    lemma LedgerAt(c: Client, home: seq<Home>)
      requires Wired() && c in clients && |home| == |clients| && LedgersMatch(home)
      ensures c.slot < |clients| && c.output in outputs && c.output.Ledger()
      ensures home[c.slot] == Connected ==> c.output.Held() && (c.slot != draining ==> c.output.live == c.output.items)
      ensures home[c.slot] == Connected ==> |c.output.live| <= |c.output.items|
      ensures home[c.slot] != Connected ==> c.output.live == []
    {
      hide OutputQueue.Ledger, Pool;
      ClientAt(c);
      assert LedgerMatches(home, c.slot);
    }

    lemma LostFacts(t0: State, i: nat)
      requires IsConnected(t0, i)
      ensures i in t0.lists.connected
      ensures var t := Lost(t0, i);
        && t.lists.home == t0.lists.home[i := Pending]
        && t.slots == t0.slots[i := t0.slots[i].(fd := -1, queued := [])]
        && t.lists == t0.lists.Moved(IndexOf(t0.lists.connected, i))
        && t.k == t0.k.Deleted(t0.slots[i].fd).Closed(t0.slots[i].fd)
        && t.busy == t0.busy && t.cap == t0.cap && t.decodes == t0.decodes
        && t.owner == t0.owner - {t0.slots[i].fd} && t.writing == t0.writing && t.answering == t0.answering
    {
      hide Lists.Ok;
      Listed(t0, i);
    }

    method MoveToPending(c: Client, ghost l: Lists, ghost t: State)
      requires Wired() && lists.Valid() && lists.view == l && c in clients && c.slot in l.connected
      requires lists.slots == clients
      requires Coupled(t.slots, t.lists.home, t.busy, t.owner)
      modifies lists, clients`next, clients`prev
      ensures lists.Valid() && lists.view == l.Moved(IndexOf(l.connected, c.slot))
      ensures Coupled(t.slots, t.lists.home, t.busy, t.owner)
    {
      hide *;
      lists.MoveToPendingDisconnect(c, IndexOf(l.connected, c.slot));
    }

    method ClientPendingDisconnect(c: Client)
      requires Valid() && c in clients && s.lists.home[c.slot] != Free
      modifies this`s, k`st, lists, clients`clientFd, clients`next, clients`prev
      modifies c.output`head, c.output`items, c.output`queued, c.output`released, c.output`live,
               c.output`again
      ensures Valid()
      ensures s == if old(s).lists.home[c.slot] == Connected then Lost(old(s), c.slot) else old(s)
      ensures Evolved(old(s), s) && s.writing == old(s).writing && s.busy == old(s).busy
      ensures c.slot < |s.lists.home| && s.lists.home[c.slot] == Pending
      ensures c.output.released == old(c.output.released)
              + if old(s).lists.home[c.slot] == Connected then old(c.output.items) else []
      ensures c.output.again == old(c.output.again)
              + if old(s).lists.home[c.slot] == Connected then old(c.output.Freed()) else []
    {
      hide *;
      Open();
      SlotOf(c);
      Status(s, c.slot);
      OpenWhenConnected(s, c.slot);
      EvolvedSame(s);
      if c.clientFd == -1 {
        assert c.output.released + [] == c.output.released;
        assert c.output.again + [] == c.output.again;
        return;
      }
      LostInv(s, c.slot);
      LostFacts(s, c.slot);
      InvSizes(Lost(s, c.slot));
      EvolvedLost(s, c.slot);
      CloseFd(c.clientFd);
      Forget(c, s);
      MoveToPending(c, s.lists, Lost(s, c.slot));
      s := Lost(s, c.slot);
      Close();
    }

    // ----- writing to a client -----

    method AppendCopy(c: Client, bytes: seq<byte>, ghost slots: seq<Slot>, ghost home: seq<Home>) returns (first: bool)
      requires Wired() && c in clients && |slots| == |home| == |clients| && OutputsMatch(home, slots)
      requires home[c.slot] != Free && c.slot != draining && bytes != []
      requires LedgersMatch(home) && (home[c.slot] == Connected || slots[c.slot].queued != [])
      modifies c.output, c.output.items, this`items
      ensures fresh(items - old(items)) && LedgersMatch(home)
      ensures OutputsMatch(home, slots[c.slot := slots[c.slot].(queued := slots[c.slot].queued + bytes)])
      ensures first == (slots[c.slot].queued == [])
      ensures c.output.again == old(c.output.again) && old(c.output.leaked) <= c.output.leaked
      ensures |c.output.leaked| == |old(c.output.leaked)| + if home[c.slot] == Connected then 0 else 1
    {
      hide OutputQueue.Valid, OutputQueue.Ledger, OutputQueue.Held, Pool, WiredTo;
      ClientAt(c);
      LedgerAt(c, home);
      assert OutputMatches(slots, c.slot);
      c.output.SomeItems();
      first := c.output.Append(bytes);
      items := items + {c.output.items[|c.output.items| - 1]};
      ghost var slots' := slots[c.slot := slots[c.slot].(queued := slots[c.slot].queued + bytes)];
      assert OutputMatches(slots', c.slot);
      c.output.AllHeld();
      forall j | 0 <= j < |clients| ensures LedgerMatches(home, j) {
        if j != c.slot {
          OutputsApart(c, j);
          assert old(LedgerMatches(home, j));
        }
      }
      forall j | 0 <= j < |clients| && home[j] != Free && j != draining && j != c.slot
        ensures OutputMatches(slots', j)
      {
        ghost var q := clients[j].output;
        OutputsApart(c, j);
        assert old(OutputMatches(slots, j)) && old(OutputMatches(slots, c.slot)) && slots'[j] == slots[j];
        assert forall m :: 0 <= m < |q.items| ==> q.items[m] in q.items && q.items[m] !in old(c.output.items);
      }
    }

    lemma ClientAt(c: Client)
      requires Wired() && c in clients
      ensures c.slot < |clients| && clients[c.slot] == c && c.output in outputs
      ensures forall j :: 0 <= j < |clients| ==> clients[j].output in outputs
    {
      assert WiredClient(c, c.slot);
      forall j | 0 <= j < |clients| ensures clients[j].output in outputs {
        assert WiredClient(clients[j], j);
      }
    }

    lemma OutputsApart(c: Client, j: nat)
      requires Wired() && c in clients && j < |clients| && j != c.slot
      ensures clients[j].output != c.output && clients[j].output in outputs
    {
      assert WiredClient(c, c.slot) && WiredClient(clients[j], j);
    }

    lemma CoupledParts(t: State)
      requires Coupled(t.slots, t.lists.home, t.busy, t.owner)
      ensures Wired() && |t.slots| == |t.lists.home| == |clients|
      ensures SlotsMatch(t.slots) && OutputsMatch(t.lists.home, t.slots)
      ensures InputsMatch(t.lists.home, t.slots, t.busy) && ListenerMatches(t.owner) && LedgersMatch(t.lists.home)
    {
      hide LedgerMatches, OutputMatches;
    }

    /** Only the output queues depend on what is queued. */
    lemma Requeued(t: State, i: nat, q: seq<byte>)
      requires Wired() && i < |clients| == |t.slots| == |t.lists.home|
      requires SlotsMatch(t.slots) && InputsMatch(t.lists.home, t.slots, t.busy) && ListenerMatches(t.owner)
      requires OutputsMatch(t.lists.home, t.slots[i := t.slots[i].(queued := q)]) && LedgersMatch(t.lists.home)
      ensures Coupled(t.slots[i := t.slots[i].(queued := q)], t.lists.home, t.busy, t.owner)
    {
      hide Input.Awaiting, OutputMatches, LedgerMatches;
    }

    /** The queue of the client takes a copy of the bytes. */
    method AppendItem(c: Client, bytes: seq<byte>, ghost t0: State) returns (first: bool)
      requires Wired() && c in clients && c.slot < |clients| && Coupled(t0.slots, t0.lists.home, t0.busy, t0.owner)
      requires c.slot < |t0.slots| == |t0.lists.home|
      requires t0.lists.home[c.slot] != Free && c.slot != draining && bytes != []
      requires t0.lists.home[c.slot] == Connected || t0.slots[c.slot].queued != []
      modifies c.output, c.output.items, this`items
      ensures fresh(items - old(items))
      ensures var a := t0.slots[c.slot];
        Coupled(t0.slots[c.slot := a.(queued := a.queued + bytes)], t0.lists.home, t0.busy, t0.owner)
      ensures first == (t0.slots[c.slot].queued == [])
      ensures c.output.again == old(c.output.again) && old(c.output.leaked) <= c.output.leaked
      ensures |c.output.leaked| == |old(c.output.leaked)| + if t0.lists.home[c.slot] == Connected then 0 else 1
    {
      hide *;
      CoupledParts(t0);
      first := AppendCopy(c, bytes, t0.slots, t0.lists.home);
      Requeued(t0, c.slot, t0.slots[c.slot].queued + bytes);
    }

    /** After the state has moved on, where only the kernel may have to follow. */
    method WaitForWritable(c: Client, first: bool, ghost t: State)
      requires Coupled(t.slots, t.lists.home, t.busy, t.owner) && lists.Valid()
      modifies k`st
      ensures Coupled(t.slots, t.lists.home, t.busy, t.owner) && lists.Valid()
      ensures k.st == if first then old(k.st).Modified(c.clientFd, K.InOut) else old(k.st)
    {
      hide *;
      if first {
        k.EpollMod(c.clientFd, K.InOut);
      }
    }

    method ClientOutputAppend(c: Client, bytes: seq<byte>)
      requires Valid() && c in clients && s.lists.home[c.slot] != Free && c.slot != draining
      requires s.lists.home[c.slot] == Connected || s.slots[c.slot].queued != []
      requires s.writing == c.slot && s.owed == bytes != []
      modifies this`s, this`items, k`st, c.output, c.output.items
      ensures Valid() && fresh(items - old(items))
      ensures s == Kept(old(s), c.slot)
      ensures c.output.again == old(c.output.again) && old(c.output.leaked) <= c.output.leaked
      ensures |c.output.leaked| == |old(c.output.leaked)| + if old(s).lists.home[c.slot] == Connected then 0 else 1
    {
      hide *;
      Open();
      SlotOf(c);
      KeptInv(s, c.slot);
      KeptFacts(s, c.slot);
      var first := AppendItem(c, bytes, s);
      WaitForWritable(c, first, Kept(s, c.slot));
      s := Kept(s, c.slot);
      Close();
    }

    lemma KeptFacts(t0: State, i: nat)
      requires t0.Sizes() && i < |t0.slots|
      ensures var t, a := Kept(t0, i), t0.slots[i];
        && t.lists == t0.lists && t.owner == t0.owner && t.busy == t0.busy && t.cap == t0.cap
        && t.decodes == t0.decodes && t.writing == NONE
        && t.owed == []
        && t.slots == t0.slots[i := a.(queued := a.queued + t0.owed)]
        && t.k == if a.queued == [] then t0.k.Modified(a.fd, K.InOut) else t0.k
    {
    }

    /** One write(2) of what is owed of frame f. */
    method WriteSome(c: Client, bytes: seq<byte>, ghost t0: State, ghost f: Frame) returns (r: K.Io)
      requires Valid() && c in clients && s.lists.home[c.slot] != Free
      requires s.writing == c.slot && s.owed == bytes != [] && s.slots[c.slot].queued == []
      requires Wrote(t0, s, c.slot, f) && s.lists == t0.lists
      modifies this`s, k`st, k`stalls
      ensures r.Count? ==> 0 < r.n <= |bytes|
      ensures Valid() && Wrote(t0, s, c.slot, f) && s.lists == t0.lists && s.slots == old(s).slots
      ensures s.writing == c.slot && s.owed == if r.Count? then bytes[r.n..] else bytes
      ensures k.calm && s.lists.home[c.slot] == Connected ==> !r.Failed?
      ensures s.lists.home[c.slot] == Pending ==> r.Failed?
      ensures r.Again? ==> c.clientFd in k.stalls.waited
      ensures old(k.stalls.waited) <= k.stalls.waited
    {
      hide *;
      Open();
      SlotOf(c);
      OpenWhenConnected(s, c.slot);
      r := k.Write(c.clientFd, bytes);
      if r.Count? {
        TakenInv(s, c.slot, r.n);
        TakenFacts(s, c.slot, r.n);
        WroteMore(t0, s, c.slot, f, r.n);
        s := Taken(s, c.slot, r.n);
        Close();
      }
    }

    lemma TakenFacts(t0: State, i: nat, n: nat)
      requires t0.Sizes() && i < |t0.slots| && n <= |t0.owed|
      ensures var t := Taken(t0, i, n);
        && t.lists == t0.lists && t.owner == t0.owner && t.busy == t0.busy && t.cap == t0.cap
        && t.decodes == t0.decodes && t.slots == t0.slots
        && t.k == t0.k.Sent(t0.slots[i].fd, t0.owed[..n]) && t.writing == t0.writing && t.answering == t0.answering
        && t.owed == t0.owed[n..]
    {
    }

    ghost method BeginWrite(c: Client, f: Frame)
      requires Valid() && c in clients && s.lists.home[c.slot] != Free && s.writing == NONE && |f.payload| < SIZE_LIMIT
      requires f.kind == PONG ==> c.slot < |s.slots| && s.answering == s.slots[c.slot].conn
      modifies this`s
      ensures Valid() && s.writing == c.slot && s.owed == Encode(f) && s.lists == old(s).lists
      ensures s.slots == old(s).slots
      ensures Wrote(old(s), s, c.slot, f)
    {
      hide *;
      Open();
      SlotOf(c);
      LoggedInv(s, c.slot, f);
      WroteLogged(s, c.slot, f);
      LoggedFacts(s, c.slot, f);
      s := Logged(s, c.slot, f);
      Close();
    }

    lemma LoggedFacts(t0: State, i: nat, f: Frame)
      requires t0.Sizes() && i < |t0.slots| && t0.slots[i].conn < |t0.sent|
      ensures var t := Logged(t0, i, f);
        && t.lists == t0.lists && t.owner == t0.owner && t.busy == t0.busy && t.cap == t0.cap && t.decodes == t0.decodes
        && t.slots == t0.slots && t.k == t0.k
        && t.writing == i && t.owed == Encode(f)
    {
    }

    ghost method EndWrite(c: Client, t0: State, f: Frame)
      requires Valid() && c in clients && s.lists.home[c.slot] != Free && (s.writing == c.slot || s.writing == NONE)
      requires s.writing == c.slot && s.lists.home[c.slot] == Connected ==> s.owed == []
      requires Wrote(t0, s, c.slot, f)
      modifies this`s
      ensures Valid() && s.writing == NONE && s.lists == old(s).lists && s.slots == old(s).slots
      ensures Wrote(t0, s, c.slot, f)
    {
      hide *;
      Open();
      SlotOf(c);
      SettledInv(s, c.slot);
      WroteSettled(t0, s, c.slot, f);
      SettledFacts(s);
      s := Settled(s);
      Close();
    }

    lemma SettledFacts(t0: State)
      ensures var t := Settled(t0);
        && t.lists == t0.lists && t.owner == t0.owner && t.busy == t0.busy && t.cap == t0.cap && t.decodes == t0.decodes
        && t.slots == t0.slots && t.k == t0.k
        && t.writing == NONE
    {
    }

    /** What was not written of frame f is queued. */
    method QueueRest(c: Client, bytes: seq<byte>, ghost t0: State, ghost f: Frame)
      requires Valid() && c in clients && s.lists.home[c.slot] != Free && c.slot != draining
      requires s.lists.home[c.slot] == Connected || s.slots[c.slot].queued != []
      requires s.writing == c.slot && s.owed == bytes != []
      requires Wrote(t0, s, c.slot, f) && s.lists == t0.lists
      modifies this`s, this`items, k`st, c.output, c.output.items
      ensures Valid() && fresh(items - old(items)) && s.writing == NONE && s.owed == [] && s.lists == t0.lists
      ensures Wrote(t0, s, c.slot, f)
      ensures c.output.again == old(c.output.again) && old(c.output.leaked) <= c.output.leaked
      ensures |c.output.leaked| == |old(c.output.leaked)| + if old(s).lists.home[c.slot] == Connected then 0 else 1
    {
      hide *;
      Open();
      SlotOf(c);
      WroteKept(t0, s, c.slot, f);
      KeptFacts(s, c.slot);
      ClientOutputAppend(c, bytes);
    }

    /** A hard failure while writing frame f: the client is lost, unless it was already. */
    method LoseWriter(c: Client, ghost t0: State, ghost f: Frame)
      requires Valid() && c in clients && s.lists.home[c.slot] != Free && s.writing == c.slot && c.slot != draining
      requires Wrote(t0, s, c.slot, f) && s.lists == t0.lists
      modifies this`s, k`st, lists, clients`clientFd, clients`next, clients`prev
      modifies c.output`head, c.output`items, c.output`queued, c.output`released, c.output`live,
               c.output`again
      ensures Valid() && s.writing == c.slot && s.lists.home[c.slot] == Pending
      ensures Wrote(t0, s, c.slot, f) && c.output.again == old(c.output.again)
    {
      hide *;
      Open();
      SlotOf(c);
      NoneFreed(c);
      Status(s, c.slot);
      OpenWhenConnected(s, c.slot);
      if s.lists.home[c.slot] == Connected {
        WroteLost(t0, s, c.slot, f);
        LostFacts(s, c.slot);
      }
      ClientPendingDisconnect(c);
    }

    /** Nothing of a queue in use has been freed. */
    lemma NoneFreed(c: Client)
      requires Valid() && c in clients && c.slot < |s.lists.home| && c.slot != draining
      ensures s.lists.home[c.slot] == Connected ==> c.output.Freed() == [] && c.output.live == c.output.items
      ensures c.output.again + [] == c.output.again
    {
      hide SlotsMatch, OutputsMatch, InputsMatch, ClientLists.Valid, Lists.Ok, State.Inv, Pool, OutputQueue.Ledger;
      LedgerAt(c, s.lists.home);
    }

    lemma LedgerOf(c: Client)
      requires Valid() && Idle() && c in clients
      ensures c.slot < |s.lists.home|
      ensures c.output.live == if s.lists.home[c.slot] == Connected then c.output.items else []
      ensures Balanced(c.output.created, c.output.released, c.output.live, c.output.again, c.output.leaked)
    {
      hide SlotsMatch, OutputsMatch, InputsMatch, ClientLists.Valid, Lists.Ok, State.Inv, Pool, Balanced, HeldBy;
      LedgerAt(c, s.lists.home);
    }

    lemma NonEmptyFrame(f: Frame)
      ensures Encode(f) != []
    {
    }

    /** One round of the loop of client_write; `go` says whether it goes on behind the n bytes
        that were written. */
    method WriteRound(c: Client, bytes: seq<byte>, ghost t0: State, ghost f: Frame) returns (go: bool, n: nat)
      requires Valid() && c in clients && s.lists.home[c.slot] != Free && s.writing == c.slot && c.slot != draining
      requires s.owed == bytes != [] && s.slots[c.slot].queued == []
      requires Wrote(t0, s, c.slot, f) && s.lists == t0.lists
      modifies this`s, this`items, k`st, k`stalls, lists, clients`clientFd, clients`next, clients`prev, c.output
      modifies c.output.items
      ensures Valid() && fresh(items - old(items)) && Wrote(t0, s, c.slot, f)
      ensures go ==> 0 < n < |bytes| && s.writing == c.slot && s.owed == bytes[n..] && s.lists == t0.lists
      ensures go ==> c.clientFd == old(c.clientFd) && c.output.items == old(c.output.items) && s.slots == old(s).slots
      ensures !go ==> s.lists.home[c.slot] != Free && (s.writing == NONE || s.writing == c.slot)
      ensures !go && s.lists.home[c.slot] == Connected ==> s.owed == []
      ensures k.calm && old(s).lists.home[c.slot] == Connected ==> s.lists == t0.lists
      ensures !go && s.lists.home[c.slot] == Connected ==> s.slots == old(s).slots || old(c.clientFd) in k.stalls.waited
      ensures c.output.again == old(c.output.again) && c.output.leaked == old(c.output.leaked)
      ensures old(k.stalls.waited) <= k.stalls.waited
    {
      hide *;
      SlotOf(c);
      go, n := false, 0;
      var r := WriteSome(c, bytes, t0, f);
      if r.Count? {
        go, n := r.n < |bytes|, r.n;
      } else if r.Again? {
        QueueRest(c, bytes, t0, f);
      } else {
        LoseWriter(c, t0, f);
      }
      SlotOf(c);
    }

    /** The loop of client_write: writes what is owed until it is all taken, the connection
        has to wait, or a write fails. */
    method WriteNow(c: Client, buf: array<byte>, n: nat, ghost t0: State, ghost f: Frame)
      requires Valid() && c in clients && s.lists.home[c.slot] != Free && s.writing == c.slot && c.slot != draining
      requires 0 < n <= buf.Length && s.owed == buf[..n] && s.slots[c.slot].queued == []
      requires Wrote(t0, s, c.slot, f) && s.lists == t0.lists
      modifies this`s, this`items, k`st, k`stalls, lists, clients`clientFd, clients`next, clients`prev, c.output
      modifies c.output.items
      ensures Valid() && fresh(items - old(items)) && Wrote(t0, s, c.slot, f) && s.lists.home[c.slot] != Free
      ensures (s.writing == NONE || s.writing == c.slot) && (s.lists.home[c.slot] == Connected ==> s.owed == [])
      ensures k.calm && old(s).lists.home[c.slot] == Connected ==> s.lists == t0.lists
      ensures s.lists.home[c.slot] == Connected ==> s.slots == old(s).slots || old(c.clientFd) in k.stalls.waited
      ensures c.output.again == old(c.output.again) && c.output.leaked == old(c.output.leaked)
      ensures old(k.stalls.waited) <= k.stalls.waited
    {
      hide *;
      SlotOf(c);
      assert buf[0..n] == buf[..n];
      var offset, go := 0, true;
      while go
        invariant offset < n && Valid() && Wrote(t0, s, c.slot, f) && fresh(items - old(items))
        invariant old(k.stalls.waited) <= k.stalls.waited
        invariant c.slot < |s.lists.home|
        invariant c.output.again == old(c.output.again) && c.output.leaked == old(c.output.leaked)
        invariant go ==> c.clientFd == old(c.clientFd) && c.output.items == old(c.output.items)
        invariant go ==> s.lists == t0.lists && s.slots == old(s).slots
        invariant go ==> s.writing == c.slot && s.owed == buf[offset..n]
        invariant !go ==> s.lists.home[c.slot] != Free && (s.writing == NONE || s.writing == c.slot)
        invariant !go && s.lists.home[c.slot] == Connected ==> s.owed == []
        invariant k.calm && old(s).lists.home[c.slot] == Connected ==> s.lists == t0.lists
        invariant !go && s.lists.home[c.slot] == Connected ==>
            s.slots == old(s).slots || old(c.clientFd) in k.stalls.waited
        decreases n - offset, go
      {
        var m;
        go, m := WriteRound(c, buf[offset..n], t0, f);
        if go {
          assert buf[offset..n][m..] == buf[offset + m..n];
          offset := offset + m;
        }
        SlotOf(c);
      }
    }

    /** client_write: the frame in buf[..n] is written, queued, or the client is lost. When
        nothing was queued, it is queued only if a write had to wait. No item is freed again,
        and one is leaked exactly if it is put on the chain of a client that was lost. */
    method ClientWrite(c: Client, buf: array<byte>, n: nat, ghost f: Frame)
      requires Valid() && c in clients && s.lists.home[c.slot] != Free && s.writing == NONE && c.slot != draining
      requires n <= buf.Length && buf[..n] == Encode(f) && |f.payload| < SIZE_LIMIT
      requires f.kind == PONG ==> c.slot < |s.slots| && s.answering == s.slots[c.slot].conn
      modifies this`s, this`items, k`st, k`stalls, lists, clients`clientFd, clients`next, clients`prev, c.output
      modifies c.output.items
      ensures Valid() && fresh(items - old(items)) && s.writing == NONE
      ensures Wrote(old(s), s, c.slot, f)
      ensures k.calm && old(s).lists.home[c.slot] == Connected ==> s.lists == old(s).lists
      ensures c.slot < |s.lists.home|
      ensures s.lists.home[c.slot] == Connected && old(c.output.head) == null ==>
          s.slots == old(s).slots || old(c.clientFd) in k.stalls.waited
      ensures c.output.again == old(c.output.again) && old(c.output.leaked) <= c.output.leaked
      ensures |c.output.leaked| == |old(c.output.leaked)|
              + if old(s).lists.home[c.slot] == Pending && old(c.output.head) != null then 1 else 0
      ensures old(k.stalls.waited) <= k.stalls.waited
    {
      hide *;
      OutputAt(c);
      BeginWrite(c, f);
      NonEmptyFrame(f);
      if c.output.head != null {
        QueueRest(c, buf[..n], old(s), f);
      } else {
        WriteNow(c, buf, n, old(s), f);
      }
      EndWrite(c, old(s), f);
      SlotOf(c);
    }

    // ----- draining a queue -----

    method DrainQueue(c: Client, ghost slots: seq<Slot>, ghost home: seq<Home>)
      returns (item: Item?, failed: bool, ghost rest: seq<Item>, ghost done: nat, ghost written: seq<byte>)
      requires Wired() && c in clients && |slots| == |home| == |clients| && OutputsMatch(home, slots)
      requires home[c.slot] == Connected && draining < 0 && LedgersMatch(home)
      modifies this`draining, k`st, k`stalls, c.output.items, c.output`released, c.output`live
      ensures draining == c.slot && OutputsMatch(home, slots) && LedgersMatch(home) && c.output.live == rest
      ensures c.output.Remaining(rest) && item == First(rest) && (failed ==> item != null)
      ensures written + Unwritten(rest) == slots[c.slot].queued && (rest == [] <==> Unwritten(rest) == [])
      ensures item != null && !failed ==> c.clientFd in k.stalls.waited
      ensures k.calm && c.clientFd in old(k.st).open ==> !failed
      ensures k.st == old(k.st).Sent(c.clientFd, written)
      ensures forall x :: x in rest ==> x in items && x.owner == c.output
      ensures done <= |c.output.items| && rest == c.output.items[done..]
      ensures c.output.released == old(c.output.released) + c.output.items[..done]
      ensures c.output.items != [] ==> (done > 0 <==> |written| >= old(c.output.items[0].size))
      ensures old(k.stalls.waited) <= k.stalls.waited
    {
      hide OutputQueue.Valid, OutputQueue.Remaining, AllOk, Unwritten, OutputQueue.Ledger, OutputQueue.Held;
      ClientAt(c);
      assert OutputMatches(slots, c.slot);
      LedgerAt(c, home);
      draining := c.slot;
      item, failed, done, written := c.output.Drain(k, c.clientFd);
      rest := c.output.items[done..];
      forall j | 0 <= j < |clients| ensures LedgerMatches(home, j) {
        if j != c.slot {
          OutputsApart(c, j);
          assert old(LedgerMatches(home, j));
        }
      }
      forall j | 0 <= j < |clients| && home[j] != Free && j != draining ensures OutputMatches(slots, j) {
        ghost var q := clients[j].output;
        assert old(OutputMatches(slots, j)) && q != c.output;
        assert forall m :: 0 <= m < |q.items| ==> q.items[m] in q.items && q.items[m] !in old(c.output.items);
      }
    }

    method DrainOutput(c: Client)
      returns (item: Item?, failed: bool, ghost rest: seq<Item>, ghost done: nat, ghost written: seq<byte>)
      requires Valid() && c in clients && s.lists.home[c.slot] == Connected && draining < 0
      modifies this`draining, k`st, k`stalls, c.output.items, c.output`released, c.output`live
      ensures draining == c.slot && Coupled(s.slots, s.lists.home, s.busy, s.owner) && lists.Valid()
      ensures c.output.live == rest
      ensures c.output.Remaining(rest) && item == First(rest) && (failed ==> item != null)
      ensures written + Unwritten(rest) == s.slots[c.slot].queued && (rest == [] <==> Unwritten(rest) == [])
      ensures item != null && !failed ==> c.clientFd in k.stalls.waited
      ensures k.calm && c.clientFd in old(k.st).open ==> !failed
      ensures k.st == old(k.st).Sent(c.clientFd, written)
      ensures forall x :: x in rest ==> x in items && x.owner == c.output
      ensures done <= |c.output.items| && rest == c.output.items[done..]
      ensures c.output.released == old(c.output.released) + c.output.items[..done]
      ensures c.output.items != [] ==> (done > 0 <==> |written| >= old(c.output.items[0].size))
      ensures old(k.stalls.waited) <= k.stalls.waited
    {
      hide *;
      Open();
      SlotOf(c);
      CoupledParts(s);
      item, failed, rest, done, written := DrainQueue(c, s.slots, s.lists.home);
      Coupling(s);
    }

    lemma Coupling(t: State)
      requires Wired() && |t.slots| == |t.lists.home| == |clients|
      requires SlotsMatch(t.slots) && OutputsMatch(t.lists.home, t.slots)
      requires InputsMatch(t.lists.home, t.slots, t.busy) && ListenerMatches(t.owner) && LedgersMatch(t.lists.home)
      ensures Coupled(t.slots, t.lists.home, t.busy, t.owner)
    {
      hide LedgerMatches, OutputMatches;
    }

    /** While slot i is drained, nothing depends on what the state says is queued there. */
    lemma RequeuedWhileDraining(t: State, i: nat, q: seq<byte>)
      requires Coupled(t.slots, t.lists.home, t.busy, t.owner) && i < |t.slots| && draining == i
      ensures Coupled(t.slots[i := t.slots[i].(queued := q)], t.lists.home, t.busy, t.owner)
    {
      hide Input.Awaiting, OutputQueue.Valid;
    }

    /** The head of the queue is set after a drain. */
    method ResumeQueue(c: Client, item: Item?, ghost rest: seq<Item>, ghost t: State)
      requires Coupled(t.slots, t.lists.home, t.busy, t.owner) && c in clients && draining == c.slot
      requires c.slot < |t.slots| == |t.lists.home| && (t.lists.home[c.slot] == Connected ==> c.output.live == rest)
      requires c.output.Remaining(rest) && item == First(rest)
      requires forall x :: x in rest ==> x in items && x.owner == c.output
      requires t.slots[c.slot].queued == Unwritten(rest)
      modifies this`draining, c.output`head, c.output`items, c.output`queued
      ensures draining == -1 && Coupled(t.slots, t.lists.home, t.busy, t.owner)
    {
      hide OutputQueue.Valid, OutputQueue.Remaining, Input.Awaiting, Unwritten, SlotsMatch, InputsMatch;
      hide ListenerMatches, OutputQueue.Ledger, OutputQueue.Held;
      LedgerAt(c, t.lists.home);
      c.output.Resume(item, rest);
      c.output.AllHeld();
      draining := -1;
      forall j | 0 <= j < |clients| ensures LedgerMatches(t.lists.home, j) {
        if j != c.slot {
          OutputsApart(c, j);
          assert old(LedgerMatches(t.lists.home, j));
        }
      }
      forall j | 0 <= j < |clients| && t.lists.home[j] != Free ensures OutputMatches(t.slots, j) {
        if j != c.slot {
          ghost var q := clients[j].output;
          assert WiredClient(clients[j], j) && WiredClient(c, c.slot) && q != c.output;
          assert old(OutputMatches(t.slots, j));
        }
      }
    }

    /** A hard failure while draining: the client is lost, and the queue is left dangling. */
    method LoseDrained(c: Client, ghost left: seq<byte>, ghost written: seq<byte>)
      requires Coupled(s.slots, s.lists.home, s.busy, s.owner) && lists.Valid() && s.Inv() && lists.view == s.lists
      requires s.cap == cap && s.decodes == decodes
      requires c in clients && draining == c.slot < |s.slots| && s.lists.home[c.slot] == Connected && s.writing == NONE
      requires s.slots[c.slot].queued == written + left && left != []
      requires k.st == s.k.Sent(s.slots[c.slot].fd, written)
      modifies this`s, k`st, lists, clients`clientFd, clients`next, clients`prev
      modifies c.output`head, c.output`items, c.output`queued, c.output`released, c.output`live,
               c.output`again
      ensures Valid() && s.writing == NONE && s.slots[c.slot].queued == left && Evolved(old(s), s)
      ensures IsConnected(Drained(old(s), c.slot, written, left), c.slot)
      ensures s == DrainFailed(old(s), c.slot, written, left)
      ensures c.slot < |s.lists.home| && s.lists.home[c.slot] == Pending
      ensures c.output.released == old(c.output.released) + old(c.output.items)
      ensures c.output.again == old(c.output.again) + old(c.output.Freed())
    {
      hide *;
      ghost var t := s;
      InvSizes(t);
      MarkDrained(c, left, written);
      Open();
      InvSizes(s);
      LostFacts(s, c.slot);
      ClientPendingDisconnect(c);
      EvolvedTrans(t, Drained(t, c.slot, written, left), s);
      DrainFailedIs(t, c.slot, written, left);
      MarkDangling(c, left);
      EvolvedTrans(t, Lost(Drained(t, c.slot, written, left), c.slot), s);
    }

    lemma DrainFailedIs(t0: State, i: nat, written: seq<byte>, left: seq<byte>)
      requires t0.Sizes() && i < |t0.slots| && IsConnected(Drained(t0, i, written, left), i)
      ensures Lost(Drained(t0, i, written, left), i).Sizes()
      ensures DrainFailed(t0, i, written, left) == Dangling(Lost(Drained(t0, i, written, left), i), i, left)
    {
      hide Lists.Ok;
    }

    ghost method MarkDrained(c: Client, left: seq<byte>, written: seq<byte>)
      requires Coupled(s.slots, s.lists.home, s.busy, s.owner) && lists.Valid() && s.Inv() && lists.view == s.lists
      requires s.cap == cap && s.decodes == decodes
      requires c in clients && draining == c.slot < |s.slots| && s.lists.home[c.slot] == Connected && s.writing == NONE
      requires s.slots[c.slot].queued == written + left && left != []
      requires k.st == s.k.Sent(s.slots[c.slot].fd, written)
      modifies this`s
      ensures Valid() && s.writing == NONE && s.Sizes() && Evolved(old(s), s)
      ensures s == Drained(old(s), c.slot, written, left)
      ensures c.slot < |s.slots| == |s.lists.home| && s.lists.home[c.slot] == Connected
    {
      hide *;
      ghost var t := s;
      InvSizes(t);
      DrainedInv(t, c.slot, written, left);
      DrainedFacts(t, c.slot, written, left);
      RequeuedWhileDraining(t, c.slot, left);
      EvolvedDrained(t, c.slot, written, left);
      s := Drained(t, c.slot, written, left);
      Close();
      InvSizes(s);
    }

    ghost method MarkDangling(c: Client, left: seq<byte>)
      requires Valid() && c in clients && draining == c.slot < |s.slots| == |s.lists.home|
      requires s.lists.home[c.slot] == Pending
      requires s.writing == NONE
      modifies this`s
      ensures Valid() && s.writing == NONE && old(s).Sizes() && Evolved(old(s), s)
      ensures s == Dangling(old(s), c.slot, left) && s.lists == old(s).lists
      ensures c.slot < |s.slots| && s.slots[c.slot].queued == left
    {
      hide *;
      ghost var t := s;
      Open();
      InvSizes(t);
      EvolvedDangling(t, c.slot, left);
      DanglingInv(t, c.slot, left);
      DanglingFacts(t, c.slot, left);
      RequeuedWhileDraining(t, c.slot, left);
      s := Dangling(t, c.slot, left);
      Close();
    }

    lemma DrainedFacts(t0: State, i: nat, written: seq<byte>, rest: seq<byte>)
      requires t0.Sizes() && i < |t0.slots|
      ensures var t, a := Drained(t0, i, written, rest), t0.slots[i];
        && t.lists == t0.lists && t.owner == t0.owner && t.busy == t0.busy && t.cap == t0.cap
        && t.decodes == t0.decodes && t.writing == t0.writing && t.answering == t0.answering
        && t.slots == t0.slots[i := a.(queued := rest)]
        && t.k == if rest == [] then t0.k.Sent(a.fd, written).Modified(a.fd, K.In) else t0.k.Sent(a.fd, written)
    {
    }

    lemma DanglingFacts(t0: State, i: nat, left: seq<byte>)
      requires t0.Sizes() && i < |t0.slots|
      ensures var t := Dangling(t0, i, left);
        && t.lists == t0.lists && t.owner == t0.owner && t.busy == t0.busy && t.cap == t0.cap && t.decodes == t0.decodes
        && t.writing == t0.writing && t.answering == t0.answering && t.k == t0.k
        && t.slots == t0.slots[i := t0.slots[i].(queued := left)]
    {
    }

    /** The write interest is dropped when the queue is empty, and the state follows. */
    method FinishDrain(c: Client, empty: bool, ghost left: seq<byte>, ghost written: seq<byte>)
      requires s.Inv() && lists.Valid() && lists.view == s.lists && s.Sizes() && s.cap == cap && s.decodes == decodes
      requires c in clients
      requires c.slot < |s.slots| == |s.lists.home|
      requires s.lists.home[c.slot] == Connected && s.writing == NONE && c.clientFd == s.slots[c.slot].fd
      requires s.slots[c.slot].queued == written + left && empty == (left == [])
      requires k.st == s.k.Sent(s.slots[c.slot].fd, written)
      requires Coupled(s.slots[c.slot := s.slots[c.slot].(queued := left)], s.lists.home, s.busy, s.owner)
      modifies this`s, k`st
      ensures Valid() && s == Drained(old(s), c.slot, written, left)
    {
      hide *;
      DrainedInv(s, c.slot, written, left);
      DrainedFacts(s, c.slot, written, left);
      if empty {
        k.EpollMod(c.clientFd, K.In);
      }
      s := Drained(s, c.slot, written, left);
      Close();
    }

    /** After a drain that failed: the client is lost, and the rest becomes the queue. */
    method AbandonQueue(c: Client, item: Item?, ghost rest: seq<Item>, ghost written: seq<byte>)
      requires Coupled(s.slots, s.lists.home, s.busy, s.owner) && lists.Valid() && s.Inv() && lists.view == s.lists
      requires s.cap == cap && s.decodes == decodes && c in clients && draining == c.slot < |s.slots|
      requires s.writing == NONE
      requires s.lists.home[c.slot] == Connected && s.slots[c.slot].queued == written + Unwritten(rest)
      requires Unwritten(rest) != [] && k.st == s.k.Sent(s.slots[c.slot].fd, written)
      requires c.output.Remaining(rest) && item == First(rest)
      requires forall x :: x in rest ==> x in items && x.owner == c.output
      modifies this`s, this`draining, k`st, lists, clients`clientFd, clients`next, clients`prev
      modifies c.output`head, c.output`items, c.output`queued, c.output`released, c.output`live,
               c.output`again
      ensures Valid() && s.writing == NONE && draining < 0 && Evolved(old(s), s)
      ensures IsConnected(Drained(old(s), c.slot, written, old(Unwritten(rest))), c.slot)
      ensures s == DrainFailed(old(s), c.slot, written, old(Unwritten(rest)))
      ensures c.output.released == old(c.output.released) + old(c.output.items)
      ensures c.output.again == old(c.output.again) + old(c.output.Freed())
    {
      hide *;
      LoseDrained(c, Unwritten(rest), written);
      Open();
      SlotOf(c);
      ResumeQueue(c, item, rest, s);
      Close();
    }

    /** After any other drain: the rest becomes the queue. */
    method KeepQueue(c: Client, item: Item?, ghost rest: seq<Item>, ghost written: seq<byte>)
      requires Coupled(s.slots, s.lists.home, s.busy, s.owner) && lists.Valid() && s.Inv() && lists.view == s.lists
      requires s.cap == cap && s.decodes == decodes && c in clients
      requires draining == c.slot < |s.slots| == |s.lists.home| && s.writing == NONE
      requires s.Sizes() && c.clientFd == s.slots[c.slot].fd
      requires s.lists.home[c.slot] == Connected && s.slots[c.slot].queued == written + Unwritten(rest)
      requires (item == null) == (Unwritten(rest) == []) && k.st == s.k.Sent(s.slots[c.slot].fd, written)
      requires c.output.Remaining(rest) && item == First(rest) && c.output.live == rest
      requires forall x :: x in rest ==> x in items && x.owner == c.output
      modifies this`s, this`draining, k`st, c.output`head, c.output`items, c.output`queued
      ensures Valid() && s.writing == NONE && draining < 0 && Evolved(old(s), s)
      ensures s == Drained(old(s), c.slot, written, old(Unwritten(rest)))
    {
      hide *;
      ghost var left := Unwritten(rest);
      DrainedFacts(s, c.slot, written, left);
      EvolvedDrained(s, c.slot, written, left);
      RequeuedWhileDraining(s, c.slot, left);
      ResumeQueue(c, item, rest, Drained(s, c.slot, written, left));
      FinishDrain(c, item == null, left, written);
      DrainedFacts(old(s), c.slot, written, left);
    }

    /** process_client_socket_out: as much of the queue is written as the socket takes. The
        rest stays queued, and the server goes on waiting for writability, only when a
        write had to wait; after a hard failure the client is lost. The first `done` items
        are freed; after a failure the whole chain is freed again with them, which does
        harm exactly if one item had been written completely. */
    method ProcessClientSocketOut(c: Client)
      returns (ghost failed: bool, ghost written: seq<byte>, ghost left: seq<byte>, ghost done: nat)
      requires Valid() && c in clients && s.lists.home[c.slot] == Connected && s.writing == NONE && draining < 0
      modifies this`s, this`draining, k`st, k`stalls, lists, clients`clientFd, clients`next, clients`prev, c.output
      modifies c.output.items
      ensures Valid() && s.writing == NONE && draining < 0 && Evolved(old(s), s)
      ensures old(s).Sizes() && c.slot < |old(s).slots| && old(s).slots[c.slot].queued == written + left
      ensures !failed ==>
          s == Drained(old(s), c.slot, written, left) && (left == [] || old(c.clientFd) in k.stalls.waited)
      ensures failed ==> IsConnected(Drained(old(s), c.slot, written, left), c.slot)
      ensures failed ==> s == DrainFailed(old(s), c.slot, written, left) && !k.calm && left != []
      ensures done <= |old(c.output.items)| && (failed ==> old(c.output.items) != [])
      ensures failed ==> (done > 0 <==> |written| >= old(c.output.items[0].size))
      ensures c.output.released == old(c.output.released) + old(c.output.items)[..done]
              + if failed then old(c.output.items) else []
      ensures c.output.again == old(c.output.again) + if failed then old(c.output.items)[..done] else []
      ensures old(k.stalls.waited) <= k.stalls.waited
    {
      hide *;
      Open();
      SlotOf(c);
      InvSizes(s);
      StreamOf(s, c.slot);
      var item, broken;
      ghost var rest;
      item, broken, rest, done, written := DrainOutput(c);
      failed, left := broken, Unwritten(rest);
      FirstOf(rest);
      if broken {
        c.output.FreedIs(done);
        AbandonQueue(c, item, rest, written);
      } else {
        KeepQueue(c, item, rest, written);
        assert c.output.released + [] == c.output.released;
        assert c.output.again + [] == c.output.again;
      }
    }

    lemma FirstOf(rest: seq<Item>)
      ensures First(rest) == null <==> rest == []
    {
    }

    // ----- the application's operations -----

    /** encode_user_message: the frame is built in the shared encode buffer. */
    method EncodeUserMessage(m: Message) returns (size: int)
      requires Wired()
      modifies encoded
      ensures size >= 0 <==> Sendable(m, encoded.Length)
      ensures size >= 0 ==> m.Payload? && UserFrame(SERVER_TO_CLIENT_USER, m).payload == m.bytes
      ensures size >= 0 ==> size <= encoded.Length && encoded[..size] == Encode(UserFrame(SERVER_TO_CLIENT_USER, m))
    {
      size := EncodeInto(encoded, SERVER_TO_CLIENT_USER, m);
    }

    /** NAME_server_send, for a client that the application was told is connected. */
    method Send(c: Client, m: Message)
      requires Valid() && c in clients && s.lists.home[c.slot] != Free && s.writing == NONE && draining < 0
      requires Encodable(m)
      modifies this`s, this`items, k`st, k`stalls, lists, clients`clientFd, clients`next, clients`prev, c.output
      modifies c.output.items, encoded
      ensures Valid() && fresh(items - old(items)) && s.writing == NONE
      ensures if Sendable(m, encoded.Length) then Wrote(old(s), s, c.slot, UserFrame(SERVER_TO_CLIENT_USER, m))
              else s == old(s)
      ensures k.calm && old(s).lists.home[c.slot] == Connected ==> s.lists == old(s).lists
      ensures old(k.stalls.waited) <= k.stalls.waited
    {
      hide *;
      Open();
      var size := EncodeUserMessage(m);
      Close();
      EncodableSize(SERVER_TO_CLIENT_USER, m);
      KindsDiffer();
      if size < 0 {
        return;
      }
      ClientWrite(c, encoded, size, UserFrame(SERVER_TO_CLIENT_USER, m));
    }

    lemma OutputIn(c: Client)
      requires Valid() && c in clients && s.lists.home[c.slot] != Free && draining < 0
      ensures c.output in outputs && (forall x :: x in c.output.items ==> x in items)
    {
      OutputAt(c);
    }

    /** One round of the loop of broadcast, for the client at position n. */
    method BroadcastOne(c: Client, size: nat, ghost f: Frame, ghost t0: State, ghost n: nat, ghost before: seq<nat>)
      returns (next: Client?, ghost before': seq<nat>)
      requires Valid() && s.writing == NONE && draining < 0
      requires t0.Inv() && n < |t0.lists.connected| && BroadcastTo(t0, s, f, n)
      requires s.lists.connected == before + t0.lists.connected[n..] && c == At(clients, t0.lists.connected[n])
      requires size <= encoded.Length && encoded[..size] == Encode(f) && |f.payload| < SIZE_LIMIT && f.kind != PONG
      modifies this`s, this`items, k`st, k`stalls, lists, clients`clientFd, clients`next, clients`prev, outputs, items
      ensures Valid() && fresh(items - old(items)) && s.writing == NONE
      ensures BroadcastTo(t0, s, f, n + 1) && s.lists.connected == before' + t0.lists.connected[n + 1..]
      ensures next == At(clients, Head(t0.lists.connected[n + 1..]))
      ensures k.calm ==> s.lists == old(s).lists
      ensures old(k.stalls.waited) <= k.stalls.waited
    {
      hide *;
      Open();
      InvSizes(s);
      ghost var i, rest := t0.lists.connected[n], t0.lists.connected[n + 1..];
      assert t0.lists.connected[n..] == [i] + rest;
      assert before + ([i] + rest) == before + [i] + rest;
      lists.NextConnected(before, [i] + rest);
      PoolAt(i);
      OutputIn(c);
      next := c.next;
      ClientWrite(c, encoded, size, f);
      BroadcastStep(t0, old(s), s, f, n);
      WalkOn(old(s), s, before, i, rest, f);
      before' := if s.lists == old(s).lists then before + [i] else before;
    }

    lemma PoolAt(i: nat)
      requires Wired() && i < |clients|
      ensures At(clients, i) == clients[i] && clients[i] in clients && clients[i].slot == i
    {
    }

    lemma FirstConnected()
      requires Valid()
      ensures lists.connectedList == At(clients, Head(s.lists.connected))
    {
    }

    lemma HeadAt(t0: State, n: nat)
      requires t0.Inv() && |t0.slots| == |clients| && n <= |t0.lists.connected|
      ensures At(clients, Head(t0.lists.connected[n..])) == null <==> n == |t0.lists.connected|
      ensures n < |t0.lists.connected| ==>
          At(clients, Head(t0.lists.connected[n..])) == At(clients, t0.lists.connected[n])
    {
      if n < |t0.lists.connected| {
        ConnectedAt(t0, n);
      }
    }

    /** The loop of broadcast. */
    method WriteToAll(size: nat, ghost f: Frame)
      requires Valid() && s.writing == NONE && draining < 0
      requires size <= encoded.Length && encoded[..size] == Encode(f) && |f.payload| < SIZE_LIMIT && f.kind != PONG
      modifies this`s, this`items, k`st, k`stalls, lists, clients`clientFd, clients`next, clients`prev, outputs, items
      ensures Valid() && fresh(items - old(items)) && s.writing == NONE
      ensures old(s).Inv() && BroadcastTo(old(s), s, f, |old(s).lists.connected|)
      ensures k.calm ==> s.lists == old(s).lists
      ensures old(k.stalls.waited) <= k.stalls.waited
    {
      hide *;
      Open();
      ghost var connected, n, before := s.lists.connected, 0, [];
      BroadcastNone(s, f);
      assert connected[0..] == connected && [] + connected == connected;
      FirstConnected();
      var c := lists.connectedList;
      while c != null
        invariant 0 <= n <= |connected| && c == At(clients, Head(connected[n..]))
        invariant Valid() && fresh(items - old(items)) && s.writing == NONE
        invariant BroadcastTo(old(s), s, f, n) && s.lists.connected == before + connected[n..]
        invariant old(k.stalls.waited) <= k.stalls.waited
        invariant k.calm ==> s.lists == old(s).lists
        decreases |connected| - n
      {
        HeadAt(old(s), n);
        c, before := BroadcastOne(c, size, f, old(s), n, before);
        n := n + 1;
      }
      HeadAt(old(s), n);
    }

    /** NAME_server_broadcast. */
    method Broadcast(m: Message)
      requires Valid() && s.writing == NONE && draining < 0
      requires Encodable(m)
      modifies this`s, this`items, k`st, k`stalls, lists, clients`clientFd, clients`next, clients`prev, outputs, items
      modifies encoded
      ensures Valid() && fresh(items - old(items)) && s.writing == NONE
      ensures old(s).Inv()
      ensures if Sendable(m, encoded.Length)
              then BroadcastTo(old(s), s, UserFrame(SERVER_TO_CLIENT_USER, m), |old(s).lists.connected|)
              else s == old(s)
      ensures k.calm ==> s.lists == old(s).lists
      ensures old(k.stalls.waited) <= k.stalls.waited
    {
      hide *;
      Open();
      var size := EncodeUserMessage(m);
      Close();
      EncodableSize(SERVER_TO_CLIENT_USER, m);
      KindsDiffer();
      if size >= 0 {
        WriteToAll(size, UserFrame(SERVER_TO_CLIENT_USER, m));
      }
    }

    /** The client whose message is being handled, if any. */
    ghost predicate CurrentOk()
      reads this`current, this`s
    {
      current != null ==> current in clients && current.slot < |s.lists.home| && s.lists.home[current.slot] != Free
    }

    /** NAME_server_reply. */
    method Reply(m: Message)
      requires Valid() && CurrentOk() && s.writing == NONE && draining < 0 && Encodable(m)
      modifies this`s, this`items, k`st, k`stalls, lists, clients`clientFd, clients`next, clients`prev, outputs, items
      modifies encoded
      ensures Valid() && fresh(items - old(items)) && s.writing == NONE
      ensures if current != null && Sendable(m, encoded.Length)
              then Wrote(old(s), s, current.slot, UserFrame(SERVER_TO_CLIENT_USER, m))
              else s == old(s)
      ensures current != null && k.calm && old(s).lists.home[current.slot] == Connected ==> s.lists == old(s).lists
      ensures old(k.stalls.waited) <= k.stalls.waited
    {
      hide *;
      CurrentServed();
      if current != null {
        OutputIn(current);
        Send(current, m);
      }
    }

    lemma CurrentServed()
      requires CurrentOk()
      ensures current != null ==>
          current in clients && current.slot < |s.lists.home| && s.lists.home[current.slot] != Free
    {
    }

    /** The slot that a disconnect is about; -1 for none. */
    ghost function Target(c: Client?): int
      reads this`current
    {
      if c != null then c.slot else if current != null then current.slot else -1
    }

    /** NAME_server_disconnect: without a client, the current one is meant. */
    method Disconnect(c: Client?)
      requires Valid() && CurrentOk() && s.writing == NONE && draining < 0
      requires c != null ==> c in clients && s.lists.home[c.slot] != Free
      modifies this`s, k`st, lists, clients`clientFd, clients`next, clients`prev, outputs
      ensures Valid() && Evolved(old(s), s) && s.writing == NONE && OnlyDismissed(old(s), s)
      ensures if Target(c) >= 0 then LostIfConnected(Noted(old(s), Target(c)), s, Target(c)) else s == old(s)
    {
      hide *;
      CurrentServed();
      Open();
      EvolvedSame(s);
      OnlyDismissedSame(s, s);
      var target := if c == null then current else c;
      TargetOf(c);
      if target == null {
        return;
      }
      OutputIn(target);
      SlotOf(target);
      NoteDismissal(target.slot);
      ghost var t := s;
      InvSizes(t);
      ClientPendingDisconnect(target);
      EvolvedTrans(old(s), t, s);
      DismissedOnly(old(s), t, s, target.slot);
    }

    ghost method NoteDismissal(i: nat)
      requires Valid()
      modifies this`s
      ensures Valid() && s == Noted(old(s), i) && Evolved(old(s), s) && s.Inv() && s.Sizes()
      ensures s.lists == old(s).lists && s.slots == old(s).slots && s.writing == old(s).writing && s.busy == old(s).busy
    {
      hide *;
      Open();
      NotedInv(s, i);
      NotedFacts(s, i);
      s := Noted(s, i);
      Close();
    }

    lemma NotedFacts(t0: State, i: nat)
      ensures var t := Noted(t0, i);
        && t.lists == t0.lists && t.slots == t0.slots && t.busy == t0.busy && t.cap == t0.cap && t.decodes == t0.decodes
        && t.writing == t0.writing && t.answering == t0.answering && t.owner == t0.owner && t.k == t0.k
        && t.log == t0.log + [Deed.Dismiss(i)]
    {
    }

    lemma DismissedOnly(t0: State, t: State, u: State, i: nat)
      requires t == Noted(t0, i) && t.Inv() && t.Sizes() && i < |t.slots|
      requires u == if t.lists.home[i] == Connected then Lost(t, i) else t
      ensures OnlyDismissed(t0, u) && LostIfConnected(t, u, i)
    {
      hide State.SlotOk, State.ConnOk, State.DescriptorsOk, Lists.Ok;
      assert t.log[|t0.log|..] == [Deed.Dismiss(i)];
      if t.lists.home[i] == Connected {
        assert IsConnected(t, i);
        LostFacts(t, i);
        assert u.log == t.log;
      }
    }

    lemma TargetOf(c: Client?)
      ensures Target(c) == if c != null then c.slot else if current != null then current.slot else -1
    {
    }

    lemma TargetIs(c: Client?)
      ensures c != null ==> Target(c) == c.slot
    {
    }

    /** Actions that do not cause a connected client to be disconnected, as far as that
        is up to the application. */
    ghost predicate Quiet(a: Action, home: seq<Home>)
      reads this`current
    {
      a.DoDisconnect? ==> if a.target < 0 then current == null else a.target < |home| ==> home[a.target] != Connected
    }

    ghost predicate AllQuiet(script: seq<Action>, home: seq<Home>)
      reads this`current
    {
      forall a :: a in script ==> Quiet(a, home)
    }

    /** What an operation of the application comes to. */
    ghost predicate Acted(a: Action, t0: State, t: State, from: Client?)
      requires t0.Inv() && Wired()
    {
      match a
      case DoSend(i, m) =>
        if i < |t0.slots| && Live(t0.slots[i].trace) && Sendable(m, encoded.Length)
        then Wrote(t0, t, i, UserFrame(SERVER_TO_CLIENT_USER, m)) else t == t0
      case DoReply(m) =>
        if from != null && Sendable(m, encoded.Length)
        then Wrote(t0, t, from.slot, UserFrame(SERVER_TO_CLIENT_USER, m)) else t == t0
      case DoBroadcast(m) =>
        if Sendable(m, encoded.Length)
        then BroadcastTo(t0, t, UserFrame(SERVER_TO_CLIENT_USER, m), |t0.lists.connected|) else t == t0
      case DoDisconnect(i) =>
        var target := if i >= 0 then i else if from != null then from.slot else -1;
        if target >= 0 && (i < 0 || (target < |t0.slots| && Live(t0.slots[target].trace)))
        then LostIfConnected(Noted(t0, target), t, target) else t == t0
    }

    /** One operation of the application. It names only clients that it was told are
        connected and not yet told are disconnected. */
    method Perform(a: Action)
      requires Valid() && CurrentOk() && s.writing == NONE && draining < 0 && Fine(a)
      modifies this`s, this`items, k`st, k`stalls, lists, clients`clientFd, clients`next, clients`prev, outputs, items
      modifies encoded
      ensures Valid() && CurrentOk() && fresh(items - old(items)) && s.writing == NONE
      ensures Evolved(old(s), s)
      ensures k.calm && Quiet(a, old(s).lists.home) && current == null ==> s.lists == old(s).lists
      ensures k.calm ==> OnlyDismissed(old(s), s)
      ensures old(k.stalls.waited) <= k.stalls.waited
      ensures old(s).Inv() && Wired() && Acted(a, old(s), s, current)
    {
      hide *;
      Open();
      CurrentServed();
      if a.DoDisconnect? {
        PerformDisconnect(a);
      } else {
        PerformWrite(a);
        if k.calm {
          SameListsOnlyDismissed(old(s), s);
        }
      }
      StillCurrent(old(s));
    }

    method PerformWrite(a: Action)
      requires Valid() && CurrentOk() && s.writing == NONE && draining < 0 && Fine(a) && !a.DoDisconnect?
      modifies this`s, this`items, k`st, k`stalls, lists, clients`clientFd, clients`next, clients`prev, outputs, items
      modifies encoded
      ensures Valid() && fresh(items - old(items)) && s.writing == NONE && Evolved(old(s), s)
      ensures k.calm ==> s.lists == old(s).lists
      ensures old(k.stalls.waited) <= k.stalls.waited
      ensures old(s).Inv() && Wired() && Acted(a, old(s), s, current)
    {
      hide *;
      Open();
      CurrentServed();
      EvolvedSame(s);
      FineMessage(a);
      Matching(s);
      match a {
        case DoSend(i, m) =>
          if i < |clients| && Live(clients[i].trace) {
            ServedAt(i);
            OutputIn(clients[i]);
            Send(clients[i], m);
            SendEvolves(old(s), s, i, m);
          }
        case DoReply(m) =>
          Reply(m);
          ReplyEvolves(old(s), s, m);
        case DoBroadcast(m) =>
          Broadcast(m);
          BroadcastEvolves(old(s), s, m);
      }
      HasActed(a, old(s), s);
    }

    lemma Matching(t0: State)
      requires Valid() && s == t0
      ensures |t0.slots| == |clients| && forall i :: 0 <= i < |clients| ==> clients[i].trace == t0.slots[i].trace
    {
      hide OutputsMatch, InputsMatch, State.Inv, ClientLists.Valid;
    }

    lemma HasActed(a: Action, t0: State, t: State)
      requires t0.Inv() && Wired()
      requires match a
        case DoSend(i, m) =>
          if i < |t0.slots| && Live(t0.slots[i].trace) && Sendable(m, encoded.Length)
          then Wrote(t0, t, i, UserFrame(SERVER_TO_CLIENT_USER, m)) else t == t0
        case DoReply(m) =>
          if current != null && Sendable(m, encoded.Length)
          then Wrote(t0, t, current.slot, UserFrame(SERVER_TO_CLIENT_USER, m)) else t == t0
        case DoBroadcast(m) =>
          if Sendable(m, encoded.Length)
          then BroadcastTo(t0, t, UserFrame(SERVER_TO_CLIENT_USER, m), |t0.lists.connected|) else t == t0
        case DoDisconnect(i) =>
          var target := if i >= 0 then i else if current != null then current.slot else -1;
          if target >= 0 && (i < 0 || (target < |t0.slots| && Live(t0.slots[target].trace)))
          then LostIfConnected(Noted(t0, target), t, target) else t == t0
      ensures Acted(a, t0, t, current)
    {
    }


    method PerformDisconnect(a: Action)
      requires Valid() && CurrentOk() && s.writing == NONE && draining < 0 && a.DoDisconnect?
      modifies this`s, k`st, lists, clients`clientFd, clients`next, clients`prev, outputs
      ensures Valid() && s.writing == NONE && Evolved(old(s), s) && OnlyDismissed(old(s), s)
      ensures Quiet(a, old(s).lists.home) && current == null ==> s.lists == old(s).lists
      ensures old(s).Inv() && Wired() && Acted(a, old(s), s, current)
    {
      hide *;
      Open();
      EvolvedSame(s);
      OnlyDismissedSame(s, s);
      Matching(s);
      TargetOf(null);
      var i := a.target;
      if i < 0 {
        Disconnect(null);
      } else if i < |clients| && Live(clients[i].trace) {
        ServedAt(i);
        Disconnect(clients[i]);
        TargetIs(clients[i]);
      }
      QuietDisconnect(a, old(s), s);
      HasActed(a, old(s), s);
    }

    lemma SameListsOnlyDismissed(t0: State, t: State)
      requires Evolved(t0, t) && t.lists == t0.lists
      ensures OnlyDismissed(t0, t)
    {
    }

    lemma FineMessage(a: Action)
      requires Fine(a)
      ensures !a.DoDisconnect? ==> Encodable(a.message)
    {
    }

    lemma ServedAt(i: nat)
      requires Valid() && i < |clients|
      ensures clients[i] in clients && clients[i].slot == i < |s.lists.home|
      ensures Live(clients[i].trace) ==> s.lists.home[i] != Free
    {
      hide *;
      Open();
      PoolAt(i);
      SlotOf(clients[i]);
      LiveIsServed(s, i);
    }

    lemma SendEvolves(t0: State, t: State, i: nat, m: Message)
      requires t0.Sizes() && i < |t0.slots|
      requires if Sendable(m, encoded.Length) then Wrote(t0, t, i, UserFrame(SERVER_TO_CLIENT_USER, m)) else t == t0
      ensures Evolved(t0, t)
      ensures t0.lists.home[i] != Connected ==> t.lists == t0.lists
    {
      EvolvedSame(t0);
      if Sendable(m, encoded.Length) {
        hide *;
        KindsDiffer();
        SendableIsPayload(m);
        EvolvedWrote(t0, t, i, UserFrame(SERVER_TO_CLIENT_USER, m));
        if t0.lists.home[i] != Connected {
          WroteToPending(t0, t, i, UserFrame(SERVER_TO_CLIENT_USER, m));
        }
      }
    }

    lemma SendableIsPayload(m: Message)
      requires Sendable(m, encoded.Length)
      ensures m.Payload? && UserFrame(SERVER_TO_CLIENT_USER, m).kind == SERVER_TO_CLIENT_USER
    {
    }

    lemma ReplyEvolves(t0: State, t: State, m: Message)
      requires t0.Sizes() && (current != null ==> current.slot < |t0.slots|)
      requires if current != null && Sendable(m, encoded.Length)
               then Wrote(t0, t, current.slot, UserFrame(SERVER_TO_CLIENT_USER, m))
               else t == t0
      ensures Evolved(t0, t) && (current == null ==> t == t0)
      ensures current != null && t0.lists.home[current.slot] != Connected ==> t.lists == t0.lists
    {
      EvolvedSame(t0);
      if current != null {
        SendEvolves(t0, t, current.slot, m);
      }
    }

    lemma BroadcastEvolves(t0: State, t: State, m: Message)
      requires t0.Inv()
      requires if Sendable(m, encoded.Length)
               then BroadcastTo(t0, t, UserFrame(SERVER_TO_CLIENT_USER, m), |t0.lists.connected|)
               else t == t0
      ensures Evolved(t0, t)
    {
      EvolvedSame(t0);
    }

    lemma QuietDisconnect(a: Action, t0: State, t: State)
      requires a.DoDisconnect?
      requires var target := if a.target >= 0 then a.target else Target(null);
        t == t0 || (target >= 0 && LostIfConnected(Noted(t0, target), t, target))
      ensures Quiet(a, t0.lists.home) && current == null ==> t.lists == t0.lists
    {
      hide Lists.Ok, Lost;
    }

    lemma StillCurrent(t0: State)
      requires Evolved(t0, s)
      requires current != null ==>
          current in clients && current.slot < |t0.slots| && t0.lists.home[current.slot] != Free
      ensures CurrentOk()
    {
      if current != null {
        EvolvedHome(t0, s, current.slot);
      }
    }

    // ----- callbacks -----

    /** The application decides what to do in a callback. */
    method Application() returns (script: seq<Action>)
      ensures forall a :: a in script ==> Fine(a)
    {
      script := *;
      if exists a :: a in script && !Fine(a) {
        script := [];
      }
    }

    method RunScript(script: seq<Action>)
      requires Valid() && CurrentOk() && s.writing == NONE && draining < 0 && forall a :: a in script ==> Fine(a)
      modifies this`s, this`items, k`st, k`stalls, lists, clients`clientFd, clients`next, clients`prev, outputs, items
      modifies encoded
      ensures Valid() && CurrentOk() && fresh(items - old(items)) && s.writing == NONE
      ensures Evolved(old(s), s) && (k.calm ==> OnlyDismissed(old(s), s))
      ensures k.calm && current == null && AllQuiet(script, old(s).lists.home) ==> s.lists == old(s).lists
      ensures old(k.stalls.waited) <= k.stalls.waited
    {
      hide *;
      Open();
      EvolvedSame(s);
      OnlyDismissedSame(s, s);
      for n := 0 to |script|
        invariant Valid() && CurrentOk() && fresh(items - old(items)) && s.writing == NONE
        invariant old(k.stalls.waited) <= k.stalls.waited
        invariant Evolved(old(s), s) && (k.calm ==> OnlyDismissed(old(s), s))
        invariant k.calm && current == null && AllQuiet(script, old(s).lists.home) ==> s.lists == old(s).lists
      {
        ghost var t := s;
        QuietAt(script, old(s).lists.home, n);
        Perform(script[n]);
        EvolvedTrans(old(s), t, s);
        if k.calm {
          OnlyDismissedTrans(old(s), t, s);
        }
      }
    }

    // ----- handling a message -----

    /** The message handler of the application: it is told who sent the message by `current`. */
    method OnMessage(f: Frame)
      requires Valid() && CurrentOk() && s.writing == NONE && draining < 0 && FromCurrent(f)
      modifies this`s, this`items, k`st, k`stalls, lists, clients`clientFd, clients`next, clients`prev
      modifies outputs, items, encoded
      ensures current != null
      ensures Valid() && fresh(items - old(items)) && s.writing == NONE
      ensures ToldThen(old(s), s, current.slot, f)
      ensures k.calm ==> OnlyDismissed(old(s), s)
      ensures old(k.stalls.waited) <= k.stalls.waited
    {
      hide *;
      CurrentServed();
      FromCurrentFacts(f);
      Tell(f);
      ghost var t := s;
      var script := Application();
      RunScript(script);
      MakeToldThen(old(s), s, current.slot, f);
      if k.calm {
        OnlyDismissedTrans(old(s), t, s);
      }
    }

    lemma MakeToldThen(t0: State, t: State, i: nat, f: Frame)
      requires Due(t0, i, f) && Evolved(Told(t0, i, f), t)
      ensures ToldThen(t0, t, i, f)
    {
    }

    /** The application was given user message f from slot i, and reacted. */
    ghost predicate ToldThen(t0: State, t: State, i: nat, f: Frame) {
      Due(t0, i, f) && Evolved(Told(t0, i, f), t)
    }

    /** Message f has come from the current client and can be decoded. */
    ghost predicate FromCurrent(f: Frame)
      reads this`s, this`current
    {
      && current != null && s.busy == current.slot && Due(s, current.slot, f)
      && f.kind == CLIENT_TO_SERVER_USER && s.decodes(f.payload)
    }

    lemma FromCurrentFacts(f: Frame)
      requires FromCurrent(f)
      ensures current != null && s.busy == current.slot && Due(s, current.slot, f)
      ensures f.kind == CLIENT_TO_SERVER_USER && s.decodes(f.payload)
    {
    }

    lemma IsFromCurrent(f: Frame)
      requires current != null && s.busy == current.slot && Due(s, current.slot, f)
      requires f.kind == CLIENT_TO_SERVER_USER && s.decodes(f.payload)
      ensures FromCurrent(f)
    {
    }

    ghost method Tell(f: Frame)
      requires Valid() && CurrentOk() && s.writing == NONE && FromCurrent(f)
      modifies this`s
      ensures current != null
      ensures Valid() && CurrentOk() && s.writing == NONE
      ensures Due(old(s), current.slot, f) && s == Told(old(s), current.slot, f) && OnlyDismissed(old(s), s)
    {
      hide *;
      CurrentServed();
      FromCurrentFacts(f);
      Open();
      SlotOf(current);
      InvSizes(s);
      DueFacts(s, current.slot, f);
      ToldInv(s, current.slot, f);
      ToldFacts(s, current.slot, f);
      OnlyDismissedSame(s, Told(s, current.slot, f));
      s := Told(s, current.slot, f);
      Close();
      MakeCurrentOk();
    }

    lemma MakeCurrentOk()
      requires current != null ==>
          current in clients && current.slot < |s.lists.home| && s.lists.home[current.slot] != Free
      ensures CurrentOk()
    {
    }

    lemma DueFacts(t0: State, i: nat, f: Frame)
      requires Due(t0, i, f)
      ensures t0.Sizes() && i < |t0.slots| && t0.slots[i].conn < |t0.sent| == |t0.handled| == |t0.complete|
      ensures t0.complete[t0.slots[i].conn] == t0.handled[t0.slots[i].conn] + [f]
    {
    }

    lemma ToldFacts(t0: State, i: nat, f: Frame)
      requires t0.Sizes() && i < |t0.slots| && t0.slots[i].conn < |t0.sent|
      ensures var t := Told(t0, i, f);
        && t.lists == t0.lists && t.slots == t0.slots && t.busy == t0.busy && t.cap == t0.cap && t.decodes == t0.decodes
        && t.writing == t0.writing && t.answering == t0.answering && t.owner == t0.owner && t.k == t0.k
        && t.log == t0.log
    {
    }

    lemma PingedFacts(t0: State, i: nat, f: Frame)
      requires t0.Sizes() && i < |t0.slots| && t0.slots[i].conn < |t0.sent|
      ensures var t := Pinged(t0, i, f);
        && t.lists == t0.lists && t.slots == t0.slots && t.busy == t0.busy && t.cap == t0.cap && t.decodes == t0.decodes
        && t.writing == t0.writing && t.owner == t0.owner && t.k == t0.k && t.log == t0.log
        && t.answering == t.slots[i].conn
    {
    }

    /** handle_message_user: a payload that cannot be decoded is rejected. */
    method HandleMessageUser(c: Client, f: Frame) returns (ok: bool)
      requires Valid() && current == null && s.writing == NONE && draining < 0 && s.busy == c.slot
      requires c in clients && s.lists.home[c.slot] == Connected
      requires Due(s, c.slot, f) && f.kind == CLIENT_TO_SERVER_USER
      modifies this`s, this`items, this`current, k`st, k`stalls, lists, clients`clientFd, clients`next, clients`prev
      modifies outputs, items, encoded
      ensures Valid() && current == null && fresh(items - old(items)) && s.writing == NONE
      ensures ok == decodes(f.payload)
      ensures if ok then ToldThen(old(s), s, c.slot, f) else s == old(s)
      ensures k.calm ==> OnlyDismissed(old(s), s)
      ensures old(k.stalls.waited) <= k.stalls.waited
    {
      hide *;
      Open();
      SlotOf(c);
      OnlyDismissedSame(s, s);
      ok := decodes(f.payload);
      if !ok {
        return;
      }
      SetCurrent(c);
      IsFromCurrent(f);
      OnMessage(f);
      SetCurrent(null);
    }

    method SetCurrent(c: Client?)
      requires Valid() && (c != null ==> c in clients && c.slot < |s.lists.home| && s.lists.home[c.slot] != Free)
      modifies this`current
      ensures Valid() && current == c && CurrentOk()
    {
      hide State.Inv, Coupled, ClientLists.Valid, Wired;
      current := c;
    }

    /** handle_message_ping: restarts the keep-alive timer and answers with a pong. */
    method HandleMessagePing(c: Client, ghost f: Frame) returns (ok: bool)
      requires Valid() && s.writing == NONE && draining < 0 && s.busy == c.slot && s.answering == NONE
      requires c in clients && s.lists.home[c.slot] == Connected && Due(s, c.slot, f) && f.kind == PING
      modifies this`s, this`items, k`st, k`calls, k`stalls, lists, clients`clientFd, clients`next, clients`prev, outputs
      modifies items
      ensures Valid() && fresh(items - old(items)) && s.writing == NONE
      ensures if ok then Ponged(old(s), s, c.slot, f) else s == old(s)
      ensures k.calls == old(k.calls) + if ok then [K.Arm(old(c.keepAliveTimerFd), 3)] else []
      ensures (k.obliging ==> ok) && (k.calm ==> s.lists == old(s).lists)
      ensures old(k.stalls.waited) <= k.stalls.waited
    {
      hide *;
      Open();
      OutputIn(c);
      SlotOf(c);
      TimerOpen(s, c.slot);
      assert k.calls + [] == k.calls;
      ok := k.Do(K.Arm(c.keepAliveTimerFd, 3));
      if !ok {
        return;
      }
      AnswerPing(c, f);
    }

    method AnswerPing(c: Client, ghost f: Frame)
      requires Valid() && s.writing == NONE && draining < 0 && s.busy == c.slot && s.answering == NONE
      requires c in clients && s.lists.home[c.slot] == Connected && Due(s, c.slot, f) && f.kind == PING
      modifies this`s, this`items, k`st, k`stalls, lists, clients`clientFd, clients`next, clients`prev, outputs
      modifies items
      ensures Valid() && fresh(items - old(items)) && s.writing == NONE
      ensures Ponged(old(s), s, c.slot, f) && (k.calm ==> s.lists == old(s).lists)
      ensures old(k.stalls.waited) <= k.stalls.waited
    {
      hide *;
      Open();
      OutputIn(c);
      SlotOf(c);
      var header := MakePong();
      TakePing(c, f);
      ClientWrite(c, header, HEADER_SIZE, Frame(PONG, []));
      MakePonged(old(s), s, c.slot, f);
    }

    lemma MakePonged(t0: State, t: State, i: nat, f: Frame)
      requires Due(t0, i, f) && Wrote(Pinged(t0, i, f), t, i, Frame(PONG, []))
      ensures Ponged(t0, t, i, f)
    {
    }

    /** Ping f from slot i was answered. */
    ghost predicate Ponged(t0: State, t: State, i: nat, f: Frame) {
      Due(t0, i, f) && Wrote(Pinged(t0, i, f), t, i, Frame(PONG, []))
    }

    ghost method TakePing(c: Client, f: Frame)
      requires Valid() && s.writing == NONE && s.busy == c.slot && s.answering == NONE
      requires c in clients && c.slot < |s.lists.home| && s.lists.home[c.slot] == Connected
      requires Due(s, c.slot, f) && f.kind == PING
      modifies this`s
      ensures Valid() && Due(old(s), c.slot, f) && s == Pinged(old(s), c.slot, f) && s.writing == NONE
      ensures c.slot < |s.slots| && s.answering == s.slots[c.slot].conn && s.lists == old(s).lists
    {
      hide *;
      Open();
      SlotOf(c);
      DueFacts(s, c.slot, f);
      PingedInv(s, c.slot, f);
      PingedFacts(s, c.slot, f);
      s := Pinged(s, c.slot, f);
      Close();
    }

    method MakePong() returns (header: array<byte>)
      ensures header.Length == HEADER_SIZE && header[..HEADER_SIZE] == Encode(Frame(PONG, []))
      ensures |Frame(PONG, []).payload| < SIZE_LIMIT && Frame(PONG, []).kind == PONG && fresh(header)
    {
      header := new byte[HEADER_SIZE];
      Create(header, PONG, 0);
      PongBytes(header);
    }

    lemma PongBytes(header: array<byte>)
      requires header.Length == HEADER_SIZE && header[..HEADER_SIZE] == [PONG] + SizeBytes(0)
      ensures header[..HEADER_SIZE] == Encode(Frame(PONG, [])) && |Frame(PONG, []).payload| < SIZE_LIMIT
    {
      assert [PONG] + SizeBytes(0) + [] == [PONG] + SizeBytes(0);
    }

    /** handle_message: user messages that can be decoded are given to the application, pings
        restart the timer and are answered, and everything else is rejected. */
    method HandleMessage(c: Client, f: Frame) returns (ok: bool)
      requires Valid() && current == null && s.writing == NONE && draining < 0 && s.busy == c.slot
      requires c in clients && s.lists.home[c.slot] == Connected && Due(s, c.slot, f) && s.answering == NONE
      modifies this`s, this`items, this`current, k`st, k`calls, k`stalls, lists, clients`clientFd, clients`next
      modifies clients`prev
      modifies outputs, items, encoded
      ensures Valid() && current == null && fresh(items - old(items)) && s.writing == NONE
      ensures !ok ==> s == old(s) && k.calls == old(k.calls)
      ensures ok ==> f.kind == CLIENT_TO_SERVER_USER || f.kind == PING
      ensures f.kind == CLIENT_TO_SERVER_USER ==> ok == decodes(f.payload) && k.calls == old(k.calls)
      ensures ok && f.kind == CLIENT_TO_SERVER_USER ==> ToldThen(old(s), s, c.slot, f)
      ensures ok && f.kind == PING ==> Ponged(old(s), s, c.slot, f)
      ensures ok && f.kind == PING ==> k.calls == old(k.calls) + [K.Arm(old(c.keepAliveTimerFd), 3)]
      ensures f.kind == PING && k.obliging ==> ok
      ensures k.calm && f.kind == PING ==> s.lists == old(s).lists
      ensures k.calm && f.kind == CLIENT_TO_SERVER_USER ==> OnlyDismissed(old(s), s)
      ensures old(k.stalls.waited) <= k.stalls.waited
    {
      hide *;
      KindsDiffer();
      DueFacts(s, c.slot, f);
      if f.kind == CLIENT_TO_SERVER_USER {
        ok := HandleMessageUser(c, f);
      } else if f.kind == PING {
        ok := HandleMessagePing(c, f);
        assert k.calls + [] == k.calls;
      } else {
        ok := false;
      }
    }

    lemma TimerOpen(t0: State, i: nat)
      requires t0.Inv() && i < |t0.slots| && t0.lists.home[i] == Connected
      ensures t0.slots[i].timer in t0.k.open && t0.k.open[t0.slots[i].timer] == K.Timer
    {
      assert t0.SlotOk(i);
    }

    // ----- reading from a client -----

    static lemma SliceOrder(i: nat, j: nat, size: nat)
      requires i < j
      ensures i * size + size <= j * size
    {
      assert j * size == (i + 1) * size + (j - i - 1) * size;
    }

    /** The slices of two clients do not overlap. */
    lemma SlicesApart(i: nat, j: nat)
      requires Wired() && i < |clients| && j < |clients| && i != j
      ensures var p, q := clients[i].input, clients[j].input;
        p.base + p.cap <= q.base || q.base + q.cap <= p.base
      ensures clients[i].input != clients[j].input
    {
      assert WiredClient(clients[i], i) && WiredClient(clients[j], j);
      if i < j {
        SliceOrder(i, j, cap);
      } else {
        SliceOrder(j, i, cap);
      }
    }

    /** One read into the slice of a client: the other clients' inputs do not change. */
    method ReceiveInto(c: Client, ghost t: State) returns (r: K.Io, p: Progress, ghost chunk: seq<byte>)
      requires Wired() && c in clients && c.slot < |clients|
      requires Coupled(t.slots, t.lists.home, t.busy, t.owner) && t.busy == c.slot
      requires c.input.Awaiting() && lists.Valid()
      modifies c.input, data, k`st, k`arriving
      ensures Coupled(t.slots, t.lists.home, t.busy, t.owner) && lists.Valid()
      ensures !r.Count? ==> k.st == old(k.st) && k.arriving == old(k.arriving)
      ensures !r.Count? ==> c.input.Awaiting() && c.input.Prefix() == old(c.input.Prefix())
      ensures c.clientFd !in old(k.st.open) ==> r.Failed?
      ensures r.Count? ==>
          k.st == old(k.st).Received(c.clientFd, chunk) && k.arriving == old(k.arriving) - |chunk| && chunk != []
      ensures r.Again? ==> k.arriving == 0
      ensures k.calm && c.clientFd in old(k.st.open) ==> !r.Failed?
      ensures r.Count? ==>
          c.input.InBuffer() && c.input.size <= c.input.cap && c.input.Prefix() == old(c.input.Prefix()) + chunk
      ensures r.Count? && p.Partial? ==> c.input.Awaiting()
      ensures r.Count? && p.Complete? ==> Parse(c.input.Prefix(), c.input.cap) == Parsed([p.frame], [], false)
      ensures r.Count? && p.TooBig? ==> Parse(c.input.Prefix(), c.input.cap) == Parsed([], c.input.Prefix(), true)
    {
      hide OutputQueue.Valid, ClientLists.Valid, Parse, Asks, SlotsMatch, OutputsMatch, ListenerMatches;
      assert WiredClient(c, c.slot);
      r, p, chunk := c.input.Receive(k, c.clientFd);
      forall j | 0 <= j < |clients| && t.lists.home[j] == Connected && j != t.busy
        ensures clients[j].input.Awaiting() && clients[j].input.Prefix() == t.slots[j].input
      {
        SlicesApart(c.slot, j);
        var q := clients[j].input;
        assert WiredClient(clients[j], j);
        assert old(q.Awaiting()) && q.Prefix() == old(q.Prefix());
      }
    }

    /** The buffer holds exactly what is left of the bytes received. */
    ghost predicate Unparsed(c: Client)
      reads this`s, c.input, c.input.data
    {
      c.input.Awaiting() && ParsedTo(s, c.slot, c.input.Prefix()) && UpToDate(s, c.slot)
    }

    lemma InputAt(c: Client)
      requires Valid() && c in clients && c.slot < |s.slots| == |s.lists.home| && s.lists.home[c.slot] == Connected
      requires s.busy == NONE
      ensures Unparsed(c)
    {
      hide Lists.Ok, ClientLists.Valid, Input.Awaiting, OutputsMatch, ParsedTo, UpToDate, State.SlotOk, State.ConnOk;
      SlotOf(c);
      ParsedWhenIdle(s, c.slot);
    }

    ghost method BeginRead(c: Client)
      requires Valid() && c in clients && s.lists.home[c.slot] != Free && s.writing == NONE && s.busy == NONE
      modifies this`s
      ensures Valid() && s == Reading(old(s), c.slot) && s.lists == old(s).lists && s.busy == c.slot
      ensures s.handled == old(s).handled && s.answering == old(s).answering
      ensures s.writing == NONE
      ensures s.lists.home[c.slot] == Connected ==> Unparsed(c)
    {
      hide *;
      Open();
      SlotOf(c);
      if s.lists.home[c.slot] == Connected {
        InputAt(c);
        UnparsedFacts(c);
        ParsedReading(s, c.slot, c.input.Prefix());
      }
      ReadingInv(s, c.slot);
      ReadingCoupled(s, c.slot);
      s := Reading(s, c.slot);
      Close();
      if s.lists.home[c.slot] == Connected {
        MakeUnparsed(c);
      }
    }

    lemma ReadingCoupled(t0: State, i: nat)
      requires Coupled(t0.slots, t0.lists.home, t0.busy, t0.owner) && t0.busy == NONE
      ensures var t := Reading(t0, i);
        && Coupled(t.slots, t.lists.home, t.busy, t.owner)
        && t.lists == t0.lists && t.k == t0.k && t.cap == t0.cap && t.decodes == t0.decodes
        && t.writing == t0.writing && t.answering == t0.answering && t.busy == i
        && t.slots == t0.slots && t.sent == t0.sent && t.complete == t0.complete && t.handled == t0.handled
        && t.answering == t0.answering
    {
    }

    ghost method EndRead(c: Client)
      requires Valid() && c in clients && s.lists.home[c.slot] != Free && s.writing == NONE && s.busy == c.slot
      requires s.lists.home[c.slot] == Connected ==> Unparsed(c)
      requires c.input.InBuffer() && c.input.size <= c.input.cap
      modifies this`s
      ensures Valid() && s == Read(old(s), c.slot, c.input.Prefix()) && s.writing == NONE && s.busy == NONE
      ensures s.handled == old(s).handled && s.answering == old(s).answering
      ensures s.lists == old(s).lists
    {
      hide *;
      Open();
      SlotOf(c);
      if s.lists.home[c.slot] == Connected {
        UnparsedFacts(c);
      }
      ReadInv(s, c.slot, c.input.Prefix());
      ReadCoupled(c, s);
      s := Read(s, c.slot, c.input.Prefix());
      Close();
    }

    lemma UnparsedFacts(c: Client)
      requires Unparsed(c)
      ensures c.input.Awaiting() && c.input.InBuffer() && c.input.size <= c.input.cap
      ensures ParsedTo(s, c.slot, c.input.Prefix()) && UpToDate(s, c.slot)
    {
    }

    lemma MakeUnparsed(c: Client)
      requires c.input.Awaiting() && ParsedTo(s, c.slot, c.input.Prefix()) && UpToDate(s, c.slot)
      ensures Unparsed(c)
    {
    }

    lemma ReadCoupled(c: Client, t0: State)
      requires Coupled(t0.slots, t0.lists.home, t0.busy, t0.owner) && t0.busy == c.slot && c in clients
      requires c.slot < |clients|
      requires c.input.InBuffer() && c.input.size <= c.input.cap
      requires t0.Sizes() && (t0.lists.home[c.slot] == Connected ==> c.input.Awaiting())
      ensures var t := Read(t0, c.slot, c.input.Prefix());
        && Coupled(t.slots, t.lists.home, t.busy, t.owner)
        && t.lists == t0.lists && t.k == t0.k && t.cap == t0.cap && t.decodes == t0.decodes
        && t.writing == t0.writing && t.answering == t0.answering && t.busy == NONE
        && t.handled == t0.handled && t.answering == t0.answering
    {
      hide Input.Awaiting, OutputQueue.Valid, Input.InBuffer;
      assert WiredClient(c, c.slot);
    }

    ghost function FramesOf(p: Progress): seq<Frame> {
      if p.Complete? then [p.frame] else []
    }

    /** One read in the loop of process_client_socket_in. */
    method ReadSome(c: Client) returns (r: K.Io, p: Progress)
      requires Valid() && c in clients && c.slot < |s.lists.home| && s.lists.home[c.slot] != Free && s.busy == c.slot
      requires s.writing == s.answering == NONE && c.input.Awaiting()
      requires s.lists.home[c.slot] == Connected ==> Unparsed(c)
      modifies this`s, c.input, data, k`st, k`arriving
      ensures Valid() && Served(old(s), s, c.slot) && s.lists == old(s).lists && s.busy == c.slot
      ensures s.writing == s.answering == NONE
      ensures !r.Count? ==> s == old(s) && k.arriving == old(k.arriving)
      ensures !r.Count? && s.lists.home[c.slot] == Connected ==> Unparsed(c)
      ensures r.Count? ==> s.lists.home[c.slot] == Connected && k.arriving < old(k.arriving)
      ensures Took(old(s), s, c.slot, old(k.arriving) - k.arriving) && (r.Again? ==> k.arriving == 0)
      ensures k.calm && s.lists.home[c.slot] == Connected ==> !r.Failed?
      ensures r.Count? ==> (p.Complete? ==> Due(s, c.slot, p.frame)) && (p.TooBig? ==> Overlong(s, c.slot))
      ensures s.handled == old(s).handled && s.answering == old(s).answering
      ensures r.Count? && p.Partial? ==> Unparsed(c)
      ensures r.Count? && p.Complete? ==> ParsedTo(s, c.slot, [])
      ensures old(s).lists.home[c.slot] != Connected ==> r.Failed?
      ensures c.input.InBuffer() && c.input.size <= c.input.cap
    {
      hide *;
      Open();
      SlotOf(c);
      StreamOf(s, c.slot);
      AwaitingFacts(c);
      CapOf(c);
      ghost var before, chunk := c.input.Prefix(), [];
      if s.lists.home[c.slot] == Connected {
        UnparsedFacts(c);
      }
      EvolvedSame(s);
      TookEvolved(s, s, c.slot);
      TookServed(s, s, c.slot, 0);
      r, p, chunk := ReceiveInto(c, s);
      if r.Count? {
        RecordRead(c, p, chunk, before);
      } else {
        Close();
        AwaitingFacts(c);
        if s.lists.home[c.slot] == Connected {
          MakeUnparsed(c);
        }
      }
    }

    /** Bytes have been read from slot c behind `before`. */
    ghost method RecordRead(c: Client, p: Progress, chunk: seq<byte>, before: seq<byte>)
      requires Wired() && lists.Valid() && lists.view == s.lists && s.Inv() && s.cap == cap && s.decodes == decodes
      requires Coupled(s.slots, s.lists.home, s.busy, s.owner) && s.busy == c.slot && s.writing == s.answering == NONE
      requires c in clients && c.slot < |s.slots| == |s.lists.home| == |clients| && s.lists.home[c.slot] == Connected
      requires ParsedTo(s, c.slot, before) && UpToDate(s, c.slot)
      requires k.st == s.k.Received(s.slots[c.slot].fd, chunk)
      requires c.input.InBuffer() && c.input.size <= c.input.cap && c.input.Prefix() == before + chunk
      requires p.Partial? ==> c.input.Awaiting()
      requires p.Complete? ==> Parse(c.input.Prefix(), c.input.cap) == Parsed([p.frame], [], false)
      requires p.TooBig? ==> Parse(c.input.Prefix(), c.input.cap) == Parsed([], c.input.Prefix(), true)
      modifies this`s
      ensures Valid() && Took(old(s), s, c.slot, |chunk|) && Served(old(s), s, c.slot) && s.lists == old(s).lists
      ensures s.busy == c.slot && s.writing == s.answering == NONE && s.handled == old(s).handled
      ensures (p.Complete? ==> Due(s, c.slot, p.frame)) && (p.TooBig? ==> Overlong(s, c.slot))
      ensures p.Partial? ==> Unparsed(c)
      ensures p.Complete? ==> ParsedTo(s, c.slot, [])
    {
      hide *;
      InvSizes(s);
      CapOf(c);
      StreamOf(s, c.slot);
      ghost var frames := FramesOf(p);
      ProgressFacts(c, p);
      ReceivedInv(s, c.slot, chunk, frames, before);
      TookReceived(s, c.slot, chunk, frames, before);
      TookServed(s, Received(s, c.slot, chunk, frames), c.slot, |chunk|);
      ReceivedFacts(s, c.slot, chunk, frames);
      s := Received(s, c.slot, chunk, frames);
      Close();
      if p.Partial? {
        MakeUnparsed(c);
      }
    }

    /** What the progress says about the bytes in the buffer. */
    lemma ProgressFacts(c: Client, p: Progress)
      requires c.input.InBuffer() && c.input.size <= c.input.cap
      requires p.Partial? ==> c.input.Awaiting()
      requires p.Complete? ==> Parse(c.input.Prefix(), c.input.cap) == Parsed([p.frame], [], false)
      requires p.TooBig? ==> Parse(c.input.Prefix(), c.input.cap) == Parsed([], c.input.Prefix(), true)
      ensures Parse(c.input.Prefix(), c.input.cap).frames == FramesOf(p)
      ensures p.Partial? ==> Parse(c.input.Prefix(), c.input.cap) == Parsed([], c.input.Prefix(), false)
      ensures p.TooBig? ==> Parse(c.input.Prefix(), c.input.cap).tooBig
      ensures FramesOf(p) == if p.Complete? then [p.frame] else []
    {
      hide Parse, Input.Awaiting;
      if p.Partial? {
        AwaitingFacts(c);
      }
    }

    lemma AwaitingFacts(c: Client)
      requires c.input.Awaiting()
      ensures c.input.InBuffer() && c.input.size <= c.input.cap
      ensures Parse(c.input.Prefix(), c.input.cap) == Parsed([], c.input.Prefix(), false)
    {
      c.input.AwaitingIsUnparsed();
    }

    lemma CapOf(c: Client)
      requires Wired() && c in clients && c.slot < |clients|
      ensures c.input.cap == cap && c.input in inputs && c.input.InBuffer() && c.output in outputs
    {
      assert WiredClient(c, c.slot);
    }

    lemma ReceivedFacts(t0: State, i: nat, chunk: seq<byte>, frames: seq<Frame>)
      requires t0.Sizes() && i < |t0.slots| && t0.slots[i].conn < |t0.sent|
      ensures var t := Received(t0, i, chunk, frames);
        && t.lists == t0.lists && t.owner == t0.owner && t.busy == t0.busy && t.cap == t0.cap
        && t.decodes == t0.decodes && t.slots == t0.slots
        && t.k == t0.k.Received(t0.slots[i].fd, chunk) && t.writing == t0.writing && t.answering == t0.answering
        && |t.sent| == |t0.sent|
        && t.handled == t0.handled
      ensures UpToDate(t0, i) && frames == [] ==> UpToDate(Received(t0, i, chunk, frames), i)
      ensures UpToDate(t0, i) && |frames| == 1 ==> Due(Received(t0, i, chunk, frames), i, frames[0])
    {
    }

    /** client_reset_input, while slot i is the one being read. */
    method ResetInput(c: Client, ghost t: State)
      requires Wired() && c in clients && c.slot < |clients|
      requires Coupled(t.slots, t.lists.home, t.busy, t.owner) && t.busy == c.slot
      modifies c.input
      ensures Coupled(t.slots, t.lists.home, t.busy, t.owner)
      ensures c.input.Awaiting() && c.input.Prefix() == []
    {
      hide OutputQueue.Valid, Asks, SlotsMatch, OutputsMatch, ListenerMatches;
      assert WiredClient(c, c.slot);
      c.input.Reset();
      forall j | 0 <= j < |clients| && t.lists.home[j] == Connected && j != t.busy
        ensures clients[j].input.Awaiting() && clients[j].input.Prefix() == t.slots[j].input
      {
        var q := clients[j].input;
        assert WiredClient(clients[j], j);
        assert old(q.Awaiting()) && q.Prefix() == old(q.Prefix());
      }
    }

    /** Slot i is being read from; it may have been lost meanwhile. */
    ghost predicate ReadingFrom(c: Client)
      reads this, k`st, lists, clients, outputs, inputs, items, data, c, c.input, c.input.data
    {
      && Valid() && current == null && s.writing == s.answering == NONE && draining < 0 && s.busy == c.slot
      && c in clients && c.slot < |s.lists.home| && s.lists.home[c.slot] != Free
      && c.input.InBuffer() && c.input.size <= c.input.cap && (s.lists.home[c.slot] == Connected ==> Unparsed(c))
    }

    lemma ReadingFacts(c: Client)
      requires ReadingFrom(c)
      ensures Valid() && current == null && s.writing == s.answering == NONE && draining < 0 && s.busy == c.slot
      ensures c in clients && c.slot < |s.lists.home| && s.lists.home[c.slot] != Free
      ensures c.input.InBuffer() && c.input.size <= c.input.cap && (s.lists.home[c.slot] == Connected ==> Unparsed(c))
      ensures s.Inv() && s.Sizes() && |s.lists.home| == |s.slots| && s.slots[c.slot].conn < |s.sent|
    {
      hide Lists.Ok, ClientLists.Valid, Coupled, Unparsed;
      StreamOf(s, c.slot);
    }

    lemma StillReading(c: Client)
      requires Valid() && current == null && s.writing == s.answering == NONE && draining < 0 && s.busy == c.slot
      requires c in clients && c.slot < |s.lists.home| && s.lists.home[c.slot] != Free
      requires c.input.InBuffer() && c.input.size <= c.input.cap && (s.lists.home[c.slot] == Connected ==> Unparsed(c))
      ensures ReadingFrom(c)
    {
    }

    /** The client being read from is lost. */
    method LoseReader(c: Client)
      requires Valid() && current == null && s.writing == s.answering == NONE && draining < 0 && s.busy == c.slot
      requires c in clients && c.slot < |s.lists.home| && s.lists.home[c.slot] != Free
      requires c.input.InBuffer() && c.input.size <= c.input.cap
      modifies this`s, k`st, lists, clients`clientFd, clients`next, clients`prev, outputs
      ensures ReadingFrom(c) && Took(old(s), s, c.slot, 0) && c.slot < |s.lists.home|
      ensures s.lists.home[c.slot] != Connected && Restarted(old(s), s, c.slot, k.calls, k.calls)
    {
      hide *;
      Open();
      StreamOf(s, c.slot);
      OutputIn(c);
      ClientPendingDisconnect(c);
      EvolvedHome(old(s), s, c.slot);
      TookEvolved(old(s), s, c.slot);
      ReadOnly(old(s), s, c.slot, 0, k.calls);
      StillReading(c);
    }

    /** The next frame is awaited. */
    method AwaitFrame(c: Client)
      requires Valid() && current == null && s.writing == s.answering == NONE && draining < 0 && s.busy == c.slot
      requires c in clients && c.slot < |s.lists.home| && s.lists.home[c.slot] != Free && ParsedTo(s, c.slot, [])
      requires UpToDate(s, c.slot)
      modifies c.input
      ensures ReadingFrom(c) && c.input.Awaiting()
    {
      hide *;
      Open();
      SlotOf(c);
      CapOf(c);
      ResetInput(c, s);
      Close();
      MakeUnparsed(c);
      UnparsedFacts(c);
      StillReading(c);
    }

    /** A complete frame is handled; unless it is rejected, the next one is awaited. */
    method HandleFrame(c: Client, f: Frame) returns (ok: bool)
      requires Valid() && current == null && s.writing == s.answering == NONE && draining < 0 && s.busy == c.slot
      requires c in clients && c.slot < |s.lists.home| && s.lists.home[c.slot] == Connected && ParsedTo(s, c.slot, [])
      requires c.input.size <= c.input.cap && Due(s, c.slot, f)
      modifies this`s, this`items, this`current, c.input
      modifies k`st, k`calls, k`stalls, lists, clients`clientFd, clients`next, clients`prev, outputs, items, encoded
      ensures ReadingFrom(c) && fresh(items - old(items)) && Took(old(s), s, c.slot, 0)
      ensures Restarted(old(s), s, c.slot, old(k.calls), k.calls)
      ensures c.slot < |s.lists.home| && (ok ==> c.input.Awaiting()) && (!ok ==> s.lists.home[c.slot] != Connected)
      ensures k.calm && k.obliging ==>
          s.lists.home[c.slot] == Connected || Dismissed(old(s), s, c.slot) || Rejecting(old(s), c.slot)
      ensures old(k.stalls.waited) <= k.stalls.waited
    {
      hide *;
      Open();
      SlotOf(c);
      StreamOf(s, c.slot);
      CapOf(c);
      ok := HandleMessage(c, f);
      Open();
      HandledFacts(old(s), s, c, f, ok, old(k.calls), old(c.keepAliveTimerFd));
      if ok {
        AwaitFrame(c);
      } else {
        LoseReader(c);
      }
    }

    /** What handle_message did, as reading from the client. */
    lemma HandledFacts(t0: State, t: State, c: Client, f: Frame, ok: bool, calls: seq<K.Call>, timer: int)
      requires t0.Inv() && t.Inv() && t0.Sizes() && Due(t0, c.slot, f) && ParsedTo(t0, c.slot, [])
      requires t0.answering == NONE && c.slot < |t0.lists.home|
      requires t0.decodes == decodes && t0.lists.home[c.slot] == Connected
      requires c.slot < |t0.slots| && t0.slots[c.slot].timer == timer
      requires !ok ==> t == t0
      requires ok ==> f.kind == CLIENT_TO_SERVER_USER || f.kind == PING
      requires f.kind == CLIENT_TO_SERVER_USER ==> ok == decodes(f.payload) && k.calls == calls
      requires ok && f.kind == CLIENT_TO_SERVER_USER ==> ToldThen(t0, t, c.slot, f)
      requires ok && f.kind == PING ==> Ponged(t0, t, c.slot, f)
      requires ok && f.kind == PING ==> k.calls == calls + [K.Arm(timer, 3)]
      requires f.kind == PING && k.obliging ==> ok
      requires k.calm && f.kind == PING ==> t.lists == t0.lists
      requires k.calm && f.kind == CLIENT_TO_SERVER_USER ==> OnlyDismissed(t0, t)
      ensures Took(t0, t, c.slot, 0) && t.answering == NONE && t.busy == t0.busy
      ensures ok ==> ParsedTo(t, c.slot, []) && UpToDate(t, c.slot) && Restarted(t0, t, c.slot, calls, k.calls)
      ensures c.slot < |t.lists.home| && t.lists.home[c.slot] != Free
      ensures ok && k.calm ==> t.lists.home[c.slot] == Connected || Dismissed(t0, t, c.slot)
      ensures !ok && k.obliging ==> Rejecting(t0, c.slot)
    {
      hide *;
      KindsDiffer();
      DueFacts(t0, c.slot, f);
      if !ok {
        EvolvedSame(t0);
        TookEvolved(t0, t0, c.slot);
        Unacceptable(t0, c.slot, f);
      } else if f.kind == PING {
        PongedFacts(t0, t, c.slot, f);
        TookPing(t0, t, c.slot, f);
        RestartedPing(t0, t, c.slot, f, calls);
        PingTaken(t0, t, c.slot, f);
      } else {
        ToldThenFacts(t0, t, c.slot, f);
        TookUser(t0, t, c.slot, f);
        RestartedUser(t0, t, c.slot, f, calls);
        UserTaken(t0, t, c.slot, f);
      }
    }

    lemma PongedFacts(t0: State, t: State, i: nat, f: Frame)
      requires Ponged(t0, t, i, f)
      ensures Due(t0, i, f) && Wrote(Pinged(t0, i, f), t, i, Frame(PONG, []))
    {
    }

    lemma ToldThenFacts(t0: State, t: State, i: nat, f: Frame)
      requires ToldThen(t0, t, i, f)
      ensures Due(t0, i, f) && Evolved(Told(t0, i, f), t)
    {
    }

    lemma Unacceptable(t0: State, i: nat, f: Frame)
      requires Due(t0, i, f)
      ensures !t0.Acceptable(f) ==> Rejecting(t0, i)
      ensures !t0.Acceptable(f) <==> f.kind != PING && (f.kind == CLIENT_TO_SERVER_USER ==> !t0.decodes(f.payload))
    {
      assert f in t0.complete[t0.slots[i].conn];
    }

    lemma PingTaken(t0: State, t: State, i: nat, f: Frame)
      requires t0.Inv() && Due(t0, i, f) && ParsedTo(t0, i, []) && t0.lists.home[i] == Connected
      requires Wrote(Pinged(t0, i, f), t, i, Frame(PONG, []))
      ensures UpToDate(t, i) && ParsedTo(t, i, []) && i < |t.lists.home| && t.lists.home[i] != Free
      ensures t.answering == NONE && t.busy == t0.busy
    {
      hide Parse, State.SlotOk, State.ConnOk, State.DescriptorsOk, Lists.Ok;
      if t.lists != t0.lists {
        Listed(Pinged(t0, i, f), i);
      }
    }

    lemma UserTaken(t0: State, t: State, i: nat, f: Frame)
      requires t0.Inv() && Due(t0, i, f) && ParsedTo(t0, i, []) && t0.lists.home[i] == Connected
      requires Evolved(Told(t0, i, f), t)
      ensures UpToDate(t, i) && ParsedTo(t, i, []) && i < |t.lists.home| && t.lists.home[i] != Free
      ensures t.answering == t0.answering && t.busy == t0.busy
      ensures OnlyDismissed(t0, t) ==> t.lists.home[i] == Connected || Dismissed(t0, t, i)
    {
      hide Parse, State.SlotOk, State.ConnOk, State.DescriptorsOk, Lists.Ok;
      assert SameClient(t0.slots[i], t.slots[i]) && SameOrLost(t0.lists.home[i], t.lists.home[i]);
    }

    /** What reading from slot i since t0, when `arriving` bytes were on their way and `calls`
        had been made, has done: it took those that no longer are, every ping taken restarted
        the timer, and the client is not lost without a reason. */
    ghost predicate ReadSince(t0: State, arriving: nat, calls: seq<K.Call>, i: nat)
      reads this`s, k`arriving, k`calls, k`calm, k`obliging
    {
      && Took(t0, s, i, arriving - k.arriving) && Restarted(t0, s, i, calls, k.calls)
      && (k.calm && k.obliging ==> Spared(t0, s, i))
    }

    lemma ReadMore(t0: State, arriving: nat, t: State, calls: seq<K.Call>, i: nat)
      requires Took(t0, t, i, arriving - k.arriving) && Took(t, s, i, 0)
      requires Restarted(t0, t, i, calls, calls) && Restarted(t, s, i, calls, k.calls)
      requires k.calm && k.obliging ==>
          Overlong(t, i) || Rejecting(t, i) || Dismissed(t, s, i)
          || (i < |s.lists.home| && s.lists.home[i] == Connected)
          || (i < |t0.lists.home| && t0.lists.home[i] != Connected)
      ensures ReadSince(t0, arriving, calls, i)
    {
      hide Overlong, Rejecting, Dismissed, Restarted, Served, Parse, Lists.Ok;
      TookTrans(t0, t, s, i, arriving - k.arriving, 0);
      RestartedTrans(t0, t, s, i, calls, calls, k.calls);
      TookServed(t0, t, i, arriving - k.arriving);
      TookServed(t, s, i, 0);
      if k.calm && k.obliging {
        SparedIf(t0, t, s, i);
      }
    }

    lemma ReadThen(t0: State, arriving: nat, calls: seq<K.Call>, t: State, arriving': nat, calls': seq<K.Call>, i: nat)
      requires Took(t0, t, i, arriving - arriving') && Restarted(t0, t, i, calls, calls')
      requires (k.calm && k.obliging ==> Spared(t0, t, i)) && ReadSince(t, arriving', calls', i)
      ensures ReadSince(t0, arriving, calls, i)
    {
      hide Served, Spared, Restarted, Parse, Lists.Ok;
      TookTrans(t0, t, s, i, arriving - arriving', arriving' - k.arriving);
      RestartedTrans(t0, t, s, i, calls, calls', k.calls);
      if k.calm && k.obliging {
        SparedTrans(t0, t, s, i);
      }
    }

    lemma ReadSinceFacts(t0: State, arriving: nat, calls: seq<K.Call>, i: nat)
      requires ReadSince(t0, arriving, calls, i)
      ensures Took(t0, s, i, arriving - k.arriving) && Served(t0, s, i) && Restarted(t0, s, i, calls, k.calls)
      ensures k.calm && k.obliging ==> Spared(t0, s, i)
    {
    }

    /** One round of the loop of process_client_socket_in; `go` says whether it goes on. It
        ends only when the client is lost or nothing is left to be read. */
    method ReadRound(c: Client) returns (go: bool)
      requires ReadingFrom(c) && c.input.Awaiting()
      modifies this`s, this`items, this`current, c.input, data
      modifies k`st, k`calls, k`stalls, k`arriving, lists, clients`clientFd, clients`next, clients`prev, outputs, items
      modifies encoded
      ensures fresh(items - old(items)) && ReadSince(old(s), old(k.arriving), old(k.calls), c.slot) && ReadingFrom(c)
      ensures k.arriving <= old(k.arriving) && (go ==> c.input.Awaiting() && k.arriving < old(k.arriving))
      ensures c.slot < |s.lists.home| && (!go && s.lists.home[c.slot] == Connected ==> k.arriving == 0)
      ensures old(k.stalls.waited) <= k.stalls.waited
    {
      hide *;
      ReadingFacts(c);
      var r, p := ReadSome(c);
      ghost var t := s;
      ReadOnly(old(s), t, c.slot, old(k.arriving) - k.arriving, k.calls);
      go := AfterRead(c, r, p);
      ReadMore(old(s), old(k.arriving), t, old(k.calls), c.slot);
    }

    /** What a read with outcome r and progress p leads to. */
    method AfterRead(c: Client, r: K.Io, p: Progress) returns (go: bool)
      requires Valid() && current == null && s.writing == s.answering == NONE && draining < 0 && s.busy == c.slot
      requires c in clients && c.slot < |s.lists.home| && s.lists.home[c.slot] != Free
      requires c.input.InBuffer() && c.input.size <= c.input.cap
      requires r.Count? ==> s.lists.home[c.slot] == Connected
      requires !r.Count? && s.lists.home[c.slot] == Connected ==> Unparsed(c)
      requires r.Count? && p.Partial? ==> Unparsed(c)
      requires r.Count? && p.Complete? ==> ParsedTo(s, c.slot, []) && Due(s, c.slot, p.frame)
      requires Took(s, s, c.slot, 0) && Restarted(s, s, c.slot, k.calls, k.calls)
      modifies this`s, this`items, this`current, c.input
      modifies k`st, k`calls, k`stalls, lists, clients`clientFd, clients`next, clients`prev, outputs, items, encoded
      ensures ReadingFrom(c) && fresh(items - old(items)) && Took(old(s), s, c.slot, 0)
      ensures Restarted(old(s), s, c.slot, old(k.calls), k.calls)
      ensures c.slot < |s.lists.home| && (go ==> c.input.Awaiting() && r.Count?)
      ensures !go && s.lists.home[c.slot] == Connected ==> r.Again?
      ensures k.calm && k.obliging && old(s).lists.home[c.slot] == Connected ==>
          || s.lists.home[c.slot] == Connected || r.Failed? || (r.Count? && p.TooBig?)
          || Dismissed(old(s), s, c.slot) || Rejecting(old(s), c.slot)
      ensures old(k.stalls.waited) <= k.stalls.waited
    {
      hide *;
      go := false;
      if r.Again? {
        StillReading(c);
      } else if r.Failed? || p.TooBig? {
        LoseReader(c);
      } else if p.Complete? {
        go := HandleFrame(c, p.frame);
      } else {
        UnparsedFacts(c);
        StillReading(c);
        go := true;
      }
    }

    lemma ReadOnly(t0: State, t: State, i: nat, n: int, calls: seq<K.Call>)
      requires Took(t0, t, i, n) && t.handled == t0.handled
      ensures Took(t, t, i, 0) && Restarted(t0, t, i, calls, calls) && Restarted(t, t, i, calls, calls)
    {
      hide *;
      TookServed(t0, t, i, n);
      TookNothing(t0, t, i, n);
      TookServed(t, t, i, 0);
      NotRestarted(t0, t, i, calls);
      NotRestarted(t, t, i, calls);
    }

    method ReadLoop(c: Client)
      requires ReadingFrom(c) && c.input.Awaiting()
      modifies this`s, this`items, this`current, c.input, data
      modifies k`st, k`calls, k`stalls, k`arriving, lists, clients`clientFd, clients`next, clients`prev, outputs, items
      modifies encoded
      ensures fresh(items - old(items)) && ReadSince(old(s), old(k.arriving), old(k.calls), c.slot) && ReadingFrom(c)
      ensures c.slot < |s.lists.home| && (s.lists.home[c.slot] == Connected ==> k.arriving == 0)
      ensures old(k.stalls.waited) <= k.stalls.waited
    {
      hide *;
      ReadingFacts(c);
      EvolvedSame(s);
      TookEvolved(s, s, c.slot);
      NothingRead(c.slot);
      var go := true;
      while go
        invariant old(k.stalls.waited) <= k.stalls.waited
        invariant ReadingFrom(c) && fresh(items - old(items))
        invariant ReadSince(old(s), old(k.arriving), old(k.calls), c.slot)
        invariant go ==> c.input.Awaiting()
        invariant c.slot < |s.lists.home| && (!go && s.lists.home[c.slot] == Connected ==> k.arriving == 0)
        decreases k.arriving, go
      {
        ghost var t, arriving, calls := s, k.arriving, k.calls;
        ReadSinceFacts(old(s), old(k.arriving), old(k.calls), c.slot);
        go := ReadRound(c);
        ReadThen(old(s), old(k.arriving), old(k.calls), t, arriving, calls, c.slot);
      }
    }

    lemma NothingRead(i: nat)
      requires Took(s, s, i, 0)
      ensures ReadSince(s, k.arriving, k.calls, i)
    {
      NotRestarted(s, s, i, k.calls);
    }

    /** process_client_socket_in. All that has arrived is read, unless the client is lost, and
        by the invariant every complete frame from a client that is still connected has been
        dealt with. Each ping taken restarts the client's timer. As long as no system call
        fails, the client is lost only for a frame that is too large or not acceptable, or
        because the application disconnects it. */
    method ProcessClientSocketIn(c: Client)
      requires Valid() && current == null && s.writing == s.answering == NONE && draining < 0 && s.busy == NONE
      requires c in clients && c.slot < |s.lists.home| && s.lists.home[c.slot] != Free && c.input.Awaiting()
      modifies this`s, this`items, this`current, c.input, data
      modifies k`st, k`calls, k`stalls, k`arriving, lists, clients`clientFd, clients`next, clients`prev, outputs, items
      modifies encoded
      ensures Valid() && fresh(items - old(items)) && Served(old(s), s, c.slot)
      ensures current == null && s.writing == s.answering == NONE && draining < 0 && s.busy == NONE
      ensures ReadSince(old(s), old(k.arriving), old(k.calls), c.slot)
      ensures c.slot < |s.lists.home| && (s.lists.home[c.slot] == Connected ==> k.arriving == 0)
      ensures old(k.stalls.waited) <= k.stalls.waited
    {
      hide *;
      StartRead(c);
      ghost var t := s;
      TookServed(old(s), t, c.slot, 0);
      NotRestarted(old(s), t, c.slot, k.calls);
      ReadLoop(c);
      ReadThen(old(s), old(k.arriving), old(k.calls), t, old(k.arriving), old(k.calls), c.slot);
      FinishRead(c, old(s), old(k.arriving), old(k.calls));
      ReadSinceFacts(old(s), old(k.arriving), old(k.calls), c.slot);
    }

    ghost method StartRead(c: Client)
      requires Valid() && current == null && s.writing == s.answering == NONE && draining < 0 && s.busy == NONE
      requires c in clients && c.slot < |s.lists.home| && s.lists.home[c.slot] != Free && c.input.Awaiting()
      modifies this`s
      ensures ReadingFrom(c) && Took(old(s), s, c.slot, 0) && Spared(old(s), s, c.slot) && s.handled == old(s).handled
    {
      hide *;
      Open();
      SlotOf(c);
      StreamOf(s, c.slot);
      AwaitingFacts(c);
      ServedReading(s, c.slot);
      BeginRead(c);
      StillReading(c);
    }

    ghost method FinishRead(c: Client, t0: State, arriving: nat, calls: seq<K.Call>)
      requires ReadingFrom(c) && ReadSince(t0, arriving, calls, c.slot)
      modifies this`s
      ensures Valid() && ReadSince(t0, arriving, calls, c.slot)
      ensures current == null && s.writing == s.answering == NONE && draining < 0 && s.busy == NONE
      ensures s.lists == old(s).lists
    {
      hide *;
      ReadingFacts(c);
      ghost var t := s;
      ReadSinceFacts(t0, arriving, calls, c.slot);
      ServedRead(t, c.slot, c.input.Prefix());
      EndRead(c);
      TookThen(t, k.arriving, c.slot);
      ReadThen(t0, arriving, calls, t, k.arriving, k.calls, c.slot);
    }

    lemma TookThen(t: State, arriving: nat, i: nat)
      requires Took(t, s, i, 0) && Spared(t, s, i) && arriving == k.arriving && s.handled == t.handled
      ensures ReadSince(t, arriving, k.calls, i)
    {
      NotRestarted(t, s, i, k.calls);
    }

    // ----- accepting a client -----

    /** The system calls of client_init: a timer is made, armed and registered, and the
        socket registered; on failure, nothing is left open or registered. */
    method WatchClient(clientFd: int) returns (timer: int, ok: bool)
      requires clientFd in k.st.open && clientFd !in k.st.epoll
      modifies k`st, k`calls
      ensures !ok ==> k.st == old(k.st) && !k.obliging
      ensures ok ==>
        && timer >= 0 && timer !in old(k.st).open && timer !in old(k.st).epoll
        && k.st == old(k.st).Opened(timer, K.Timer).Registered(timer, K.In).Registered(clientFd, K.In)
      ensures ok ==> k.calls == old(k.calls) + [K.Arm(timer, 3)]
    {
      timer := k.Open(K.Timer);
      if timer == -1 {
        ok := false;
        return;
      }
      ghost var st := old(k.st);
      assert (st.open[timer := K.Timer]) - {timer} == st.open;
      assert (st.epoll[timer := K.In]) - {timer} == st.epoll;
      ok := k.Do(K.Arm(timer, 3));
      if ok {
        ok := k.EpollAdd(timer);
        if ok {
          ok := k.EpollAdd(clientFd);
          if ok {
            return;
          }
          k.EpollDel(timer);
        }
      }
      k.Close(timer);
    }

    /** client_init. */
    method ClientInit(c: Client, clientFd: int) returns (ok: bool)
      requires c.input.InBuffer() && clientFd in k.st.open && clientFd !in k.st.epoll && c.output.live == []
      modifies c`clientFd, c`keepAliveTimerFd, c.input, c.output`head, c.output`items, c.output`queued, k`st, k`calls
      ensures c.clientFd == clientFd && c.input.Awaiting() && c.input.Prefix() == []
      ensures c.output.Valid() && c.output.items == [] && c.output.queued == []
      ensures !ok ==> k.st == old(k.st) && !k.obliging
      ensures ok ==> var timer := c.keepAliveTimerFd;
        && timer >= 0 && timer !in old(k.st).open && timer !in old(k.st).epoll
        && k.st == old(k.st).Opened(timer, K.Timer).Registered(timer, K.In).Registered(clientFd, K.In)
      ensures ok ==> k.calls == old(k.calls) + [K.Arm(c.keepAliveTimerFd, 3)]
    {
      hide *;
      c.clientFd := clientFd;
      c.input.Reset();
      c.output.Clear();
      var timer;
      timer, ok := WatchClient(clientFd);
      c.keepAliveTimerFd := timer;
    }

    /** client_init for a slot that was free: the other slots are not affected. */
    method InitSlot(c: Client, clientFd: int, ghost t0: State) returns (ok: bool)
      requires Wired() && c in clients && c.slot < |clients| == |t0.slots| == |t0.lists.home|
      requires Coupled(t0.slots, t0.lists.home, t0.busy, t0.owner) && t0.lists.home[c.slot] == Free
      requires clientFd in k.st.open && clientFd !in k.st.epoll
      modifies c`clientFd, c`keepAliveTimerFd, c.input, c.output`head, c.output`items, c.output`queued, k`st, k`calls
      ensures c.clientFd == clientFd
      ensures var a := Slot(clientFd, c.keepAliveTimerFd, |t0.k.conns|, [], [], t0.slots[c.slot].trace);
        && Coupled(t0.slots[c.slot := a], t0.lists.home, t0.busy, t0.owner)
        && Coupled(t0.slots[c.slot := a], t0.lists.home[c.slot := Connected], t0.busy, t0.owner)
      ensures !ok ==> k.st == old(k.st) && !k.obliging
      ensures ok ==> var timer := c.keepAliveTimerFd;
        && timer >= 0 && timer !in old(k.st).open && timer !in old(k.st).epoll
        && k.st == old(k.st).Opened(timer, K.Timer).Registered(timer, K.In).Registered(clientFd, K.In)
      ensures ok ==> k.calls == old(k.calls) + [K.Arm(c.keepAliveTimerFd, 3)]
    {
      hide OutputMatches, LedgerMatches, OutputQueue.Valid, OutputQueue.Ledger, OutputQueue.Held, Input.Awaiting;
      ok := InitQueue(c, clientFd, t0);
      forall j | 0 <= j < |clients| && j != c.slot ensures clients[j].input != c.input && clients[j] != c {
        assert WiredClient(clients[j], j) && WiredClient(c, c.slot);
      }
    }

    /** The same, as far as the queues are concerned. */
    method InitQueue(c: Client, clientFd: int, ghost t0: State) returns (ok: bool)
      requires Wired() && c in clients && c.slot < |clients| == |t0.slots| == |t0.lists.home|
      requires OutputsMatch(t0.lists.home, t0.slots) && LedgersMatch(t0.lists.home) && t0.lists.home[c.slot] == Free
      requires clientFd in k.st.open && clientFd !in k.st.epoll
      modifies c`clientFd, c`keepAliveTimerFd, c.input, c.output`head, c.output`items, c.output`queued, k`st, k`calls
      ensures c.clientFd == clientFd && c.input.Awaiting() && c.input.Prefix() == []
      ensures var a, home := Slot(clientFd, c.keepAliveTimerFd, |t0.k.conns|, [], [], t0.slots[c.slot].trace),
                             t0.lists.home;
        && OutputsMatch(home, t0.slots[c.slot := a]) && LedgersMatch(home)
        && OutputsMatch(home[c.slot := Connected], t0.slots[c.slot := a]) && LedgersMatch(home[c.slot := Connected])
      ensures !ok ==> k.st == old(k.st) && !k.obliging
      ensures ok ==> var timer := c.keepAliveTimerFd;
        && timer >= 0 && timer !in old(k.st).open && timer !in old(k.st).epoll
        && k.st == old(k.st).Opened(timer, K.Timer).Registered(timer, K.In).Registered(clientFd, K.In)
      ensures ok ==> k.calls == old(k.calls) + [K.Arm(c.keepAliveTimerFd, 3)]
    {
      hide OutputQueue.Valid, OutputQueue.Ledger, OutputQueue.Held, Input.Awaiting, Pool;
      ClientAt(c);
      assert WiredClient(clients[c.slot], c.slot);
      LedgerAt(c, t0.lists.home);
      ok := ClientInit(c, clientFd);
      ghost var a := Slot(clientFd, c.keepAliveTimerFd, |t0.k.conns|, [], [], t0.slots[c.slot].trace);
      ghost var slots, home := t0.slots[c.slot := a], t0.lists.home[c.slot := Connected];
      c.output.AllHeld();
      forall j | 0 <= j < |clients| ensures LedgerMatches(home, j) && LedgerMatches(t0.lists.home, j) {
        OtherQueue(c, j);
        assert old(LedgerMatches(t0.lists.home, j));
      }
      forall j | 0 <= j < |clients| && home[j] != Free && j != draining ensures OutputMatches(slots, j) {
        OtherQueue(c, j);
        if j != c.slot {
          assert old(OutputMatches(t0.slots, j));
        }
      }
    }

    lemma OtherQueue(c: Client, j: nat)
      requires Wired() && c in clients && j < |clients|
      ensures clients[j].output in outputs && (if j != c.slot then clients[j].output != c.output else clients[j] == c)
    {
      ClientAt(c);
      if j != c.slot {
        OutputsApart(c, j);
      }
    }

    method AllocSlot(ghost t0: State) returns (c: Client?)
      requires Wired() && lists.Valid() && lists.view == t0.lists && lists.slots == clients && t0.Inv()
      requires |t0.slots| == |clients|
      requires Coupled(t0.slots, t0.lists.home, t0.busy, t0.owner)
      modifies lists, clients`next, clients`prev
      ensures lists.Valid() && Coupled(t0.slots, t0.lists.home, t0.busy, t0.owner)
      ensures c == null <==> t0.lists.free == []
      ensures c != null ==> c in clients && c.slot == t0.lists.free[0] && lists.view == t0.lists.Allocated()
      ensures c == null ==> lists.view == t0.lists
    {
      hide *;
      InvSizes(t0);
      if t0.lists.free != [] {
        FirstFree(t0);
        PoolAt(t0.lists.free[0]);
      }
      HeadFacts(t0.lists.free);
      c := lists.AllocClient();
    }

    lemma HeadFacts(f: seq<nat>)
      ensures f == [] ==> At(clients, Head(f)) == null
      ensures f != [] ==> Head(f) == f[0]
    {
    }

    lemma JoinedFacts(t0: State, fd: int, timer: int)
      requires t0.Inv() && t0.lists.free != []
      ensures t0.Sizes() && t0.lists.Ok()
      ensures t0.lists.free[0] < |t0.slots| == |t0.lists.home|
      ensures var t, i := Joined(t0, fd, timer), t0.lists.free[0];
        && t.lists == t0.lists.Allocated() && t.lists.home == t0.lists.home[i := Connected]
        && t.busy == t0.busy && t.cap == t0.cap && t.decodes == t0.decodes && t.writing == t0.writing
        && t.answering == t0.answering && t.closing == t0.closing
        && t.owner == t0.owner[fd := SocketOf(i)][timer := TimerOf(i)]
        && t.slots == t0.slots[i := Slot(fd, timer, |t0.k.conns|, [], [], t0.slots[i].trace + [ClientConnected])]
        && t.k == t0.k.Accepted(fd).Opened(timer, K.Timer).Registered(timer, K.In).Registered(fd, K.In)
    {
      InvSizes(t0);
      FirstFree(t0);
    }

    /** The application is told of a client. */
    method Announce(c: Client, notice: Notice, ghost t0: State, ghost home: seq<Home>)
      requires Coupled(t0.slots, home, t0.busy, t0.owner) && c in clients && c.slot < |t0.slots|
      modifies c`trace
      ensures var a := t0.slots[c.slot];
        Coupled(t0.slots[c.slot := a.(trace := a.trace + [notice])], home, t0.busy, t0.owner)
    {
      hide OutputQueue.Valid, Input.Awaiting;
      c.trace := c.trace + [notice];
    }

    lemma MoreOwners(slots: seq<Slot>, home: seq<Home>, busy: int, owner: map<int, Role>, fd: int, timer: int, i: nat)
      requires Coupled(slots, home, busy, owner)
      ensures Coupled(slots, home, busy, owner[fd := SocketOf(i)][timer := TimerOf(i)])
    {
      hide SlotsMatch, OutputsMatch, InputsMatch;
    }

    /** The slot is taken, and the application is told. */
    method Join(c: Client, ghost a: Slot)
      requires s.Inv() && s.cap == cap && s.decodes == decodes && s.lists.free != [] && c in clients
      requires c.slot == s.lists.free[0] < |s.slots|
      requires s.writing == s.busy == s.closing == s.answering == NONE
      requires a.fd >= 0 && a.fd !in s.k.open && a.fd !in s.k.epoll && a.fd != a.timer
      requires a.timer >= 0 && a.timer !in s.k.open && a.timer !in s.k.epoll
      requires lists.Valid() && lists.view == s.lists.Allocated()
      requires a == Slot(a.fd, a.timer, |s.k.conns|, [], [], s.slots[c.slot].trace)
      requires c.slot < |s.lists.home|
      requires Coupled(s.slots[c.slot := a], s.lists.home[c.slot := Connected], s.busy, s.owner)
      requires k.st == s.k.Accepted(a.fd).Opened(a.timer, K.Timer).Registered(a.timer, K.In).Registered(a.fd, K.In)
      modifies this`s, c`trace
      ensures Valid() && s == Joined(old(s), a.fd, a.timer)
      ensures s.writing == s.busy == s.closing == s.answering == NONE
    {
      hide *;
      UnusedNow(s, a.fd);
      UnusedNow(s, a.timer);
      JoinedInv(s, a.fd, a.timer);
      JoinedFacts(s, a.fd, a.timer);
      Announce(c, ClientConnected, s.(slots := s.slots[c.slot := a]), s.lists.home[c.slot := Connected]);
      ghost var b := a.(trace := a.trace + [ClientConnected]);
      assert s.slots[c.slot := a][c.slot := b] == s.slots[c.slot := b];
      MoreOwners(s.slots[c.slot := b], s.lists.home[c.slot := Connected], s.busy, s.owner, a.fd, a.timer, c.slot);
      s := Joined(s, a.fd, a.timer);
      Close();
    }

    /** A connection that found no slot is closed. */
    method Refuse(clientFd: int, ghost t0: State)
      requires s.Inv() && s.cap == cap && s.decodes == decodes && lists.Valid() && lists.view == s.lists
      requires Coupled(s.slots, s.lists.home, s.busy, s.owner)
      requires clientFd !in s.k.open && k.st == s.k.Accepted(clientFd)
      modifies this`s, k`st
      ensures Valid() && s == Refused(old(s)) && |s.sent| == |old(s).sent| + 1
      ensures s.writing == old(s).writing && s.busy == old(s).busy && s.closing == old(s).closing
      ensures s.answering == old(s).answering
    {
      hide *;
      InvSizes(s);
      RefusedInv(s);
      RefusedFacts(s);
      RefusedKernel(s.k, clientFd);
      k.Close(clientFd);
      s := Refused(s);
      Close();
    }

    lemma RefusedFacts(t0: State)
      requires t0.Sizes()
      ensures var t := Refused(t0);
        && t.lists == t0.lists && t.slots == t0.slots && t.owner == t0.owner && t.busy == t0.busy
        && t.cap == t0.cap && t.decodes == t0.decodes
        && t.writing == t0.writing && t.answering == t0.answering && t.closing == t0.closing
        && t.k == t0.k.(conns := t0.k.conns + [K.Bytes([], [])]) && |t.sent| == |t0.sent| + 1
    {
    }

    /** A slot that could not be set up goes back to the free list. */
    method Bounce(c: Client, ghost a: Slot)
      requires s.Inv() && s.cap == cap && s.decodes == decodes && s.lists.free != [] && c in clients
      requires c.slot == s.lists.free[0] < |s.slots|
      requires lists.Valid() && lists.view == s.lists.Allocated() && lists.slots == clients
      requires a.trace == s.slots[c.slot].trace
      requires Coupled(s.slots[c.slot := a], s.lists.home, s.busy, s.owner)
      modifies this`s, lists, clients`next, clients`prev
      ensures s.Inv() && s.cap == cap && s.decodes == decodes && lists.Valid() && lists.view == s.lists
      ensures s == Bounced(old(s), a)
      ensures Coupled(s.slots, s.lists.home, s.busy, s.owner) && s.k == old(s).k
      ensures s.writing == old(s).writing && s.busy == old(s).busy && s.closing == old(s).closing
      ensures s.answering == old(s).answering
      ensures |s.sent| == |old(s).sent|
    {
      hide *;
      InvSizes(s);
      FirstFree(s);
      BouncedInv(s, a);
      BouncedFacts(s, a);
      lists.FreeConnectedClient(c, 0);
      s := Bounced(s, a);
    }

    lemma BouncedFacts(t0: State, a: Slot)
      requires t0.Sizes() && t0.lists.Ok() && t0.lists.free != [] && t0.lists.free[0] < |t0.slots|
      requires t0.lists.Allocated().Ok() && t0.lists.Allocated().connected != []
      requires t0.lists.Allocated().FreedConnected(0).home == t0.lists.home
      ensures var t := Bounced(t0, a);
        && t.lists == t0.lists.Allocated().FreedConnected(0) && t.lists.home == t0.lists.home
        && t.slots == t0.slots[t0.lists.free[0] := a] && t.owner == t0.owner && t.busy == t0.busy
        && t.cap == t0.cap && t.decodes == t0.decodes
        && t.writing == t0.writing && t.answering == t0.answering && t.closing == t0.closing && t.k == t0.k
        && |t.sent| == |t0.sent|
    {
      hide Lists.Ok;
    }

    /** Between two events. */
    ghost predicate Idle()
      reads this`s, this`current, this`draining
    {
      current == null && draining < 0 && s.writing == s.busy == s.closing == s.answering == NONE
    }

    lemma IdleFacts()
      requires Idle()
      ensures current == null && draining < 0 && s.writing == s.busy == s.closing == s.answering == NONE
    {
    }

    lemma NowIdle()
      requires current == null && draining < 0 && s.writing == s.busy == s.closing == s.answering == NONE
      ensures Idle()
    {
    }

    lemma NoCurrent()
      requires current == null
      ensures CurrentOk()
    {
    }

    lemma EvolvedIdle(t0: State, t: State)
      requires Evolved(t0, t)
      ensures t.busy == t0.busy && t.closing == t0.closing && t.answering == t0.answering
    {
    }

    lemma CoupledSizes(t: State)
      requires Coupled(t.slots, t.lists.home, t.busy, t.owner)
      ensures Wired() && |t.slots| == |t.lists.home| == |clients| && lists.slots == clients
    {
    }

    lemma AcceptedFacts(st: K.State, fd: int)
      ensures fd in st.Accepted(fd).open && st.Accepted(fd).epoll == st.epoll
      ensures forall x :: x in st.open ==> x in st.Accepted(fd).open
    {
    }

    /** on_client_connected: the slot is taken, the application is told, and reacts. */
    method OnClientConnected(c: Client, ghost a: Slot)
      requires s.Inv() && s.cap == cap && s.decodes == decodes && s.lists.free != [] && c in clients
      requires c.slot == s.lists.free[0] < |s.slots|
      requires s.writing == s.busy == s.closing == s.answering == NONE
      requires a.fd >= 0 && a.fd !in s.k.open && a.fd !in s.k.epoll && a.fd != a.timer
      requires a.timer >= 0 && a.timer !in s.k.open && a.timer !in s.k.epoll
      requires lists.Valid() && lists.view == s.lists.Allocated()
      requires a == Slot(a.fd, a.timer, |s.k.conns|, [], [], s.slots[c.slot].trace)
      requires c.slot < |s.lists.home|
      requires Coupled(s.slots[c.slot := a], s.lists.home[c.slot := Connected], s.busy, s.owner)
      requires k.st == s.k.Accepted(a.fd).Opened(a.timer, K.Timer).Registered(a.timer, K.In).Registered(a.fd, K.In)
      requires current == null && draining < 0
      modifies this`s, this`items, k`st, k`stalls, lists, clients, outputs, items, encoded
      ensures Valid() && fresh(items - old(items)) && Newcomer(old(s), s, a.fd, a.timer)
      ensures current == null && draining < 0 && s.writing == s.busy == s.closing == s.answering == NONE
      ensures old(k.stalls.waited) <= k.stalls.waited
    {
      hide *;
      ghost var t := s;
      Join(c, a);
      NoCurrent();
      ghost var u := s;
      var script := Application();
      RunScript(script);
      EvolvedIdle(u, s);
      JoinedIsOneClient(t, a.fd, a.timer, s);
    }

    /** The slot taken for an accepted connection is set up and announced, or freed again. */
    method SetUp(c: Client, clientFd: int) returns (ok: bool, ghost timer: int)
      requires s.Inv() && s.cap == cap && s.decodes == decodes && lists.Valid() && lists.slots == clients
      requires s.lists.free != [] && c in clients
      requires c.slot == s.lists.free[0] < |s.slots| == |s.lists.home| == |clients| && lists.view == s.lists.Allocated()
      requires s.lists.home[c.slot] == Free && Coupled(s.slots, s.lists.home, s.busy, s.owner) && Idle()
      requires clientFd >= 0 && clientFd !in s.k.open && clientFd !in s.k.epoll && k.st == s.k.Accepted(clientFd)
      modifies this`s, this`items, k`st, k`calls, k`stalls, lists, clients, inputs, outputs, items, encoded
      ensures fresh(items - old(items)) && Idle() && (k.obliging ==> ok)
      ensures ok ==> Valid() && Newcomer(old(s), s, clientFd, timer) && k.calls == old(k.calls) + [K.Arm(timer, 3)]
      ensures !ok ==> Unbound() && Untaken(old(s), s) && k.st == old(k.st)
      ensures old(k.stalls.waited) <= k.stalls.waited
    {
      hide *;
      IdleFacts();
      InvSizes(s);
      CoupledSizes(s);
      CapOf(c);
      AcceptedFacts(s.k, clientFd);
      ok := InitSlot(c, clientFd, s);
      timer := c.keepAliveTimerFd;
      ghost var t, a := s, Slot(clientFd, c.keepAliveTimerFd, |s.k.conns|, [], [], s.slots[c.slot].trace);
      if ok {
        OnClientConnected(c, a);
      } else {
        GiveBack(c, a);
      }
      NowIdle();
    }

    /** Valid, but for the kernel, which is ahead by an accepted connection. */
    ghost predicate Unbound()
      reads this, lists, clients, outputs, inputs, items, data
    {
      && Wired() && s.Inv() && s.cap == cap && s.decodes == decodes && lists.Valid() && lists.view == s.lists
      && Coupled(s.slots, s.lists.home, s.busy, s.owner)
    }

    lemma UnboundFacts()
      ensures Unbound() <==>
        && Wired() && s.Inv() && s.cap == cap && s.decodes == decodes && lists.Valid() && lists.view == s.lists
        && Coupled(s.slots, s.lists.home, s.busy, s.owner)
    {
    }

    /** No slot was taken. */
    ghost predicate Untaken(t0: State, t: State) {
      t.k == t0.k && |t.sent| == |t0.sent| && t.Sizes() && NoClient(t0, Refused(t))
    }

    lemma UntakenFacts(t0: State, t: State)
      requires Untaken(t0, t)
      ensures t.k == t0.k && |t.sent| == |t0.sent| && t.Sizes() && NoClient(t0, Refused(t))
    {
    }

    lemma SameIsUntaken(t0: State)
      requires t0.Sizes() && NoClient(t0, Refused(t0))
      ensures Untaken(t0, t0)
    {
    }

    /** The slot of a client whose set-up failed goes back to the free list. */
    method GiveBack(c: Client, ghost a: Slot)
      requires s.Inv() && s.cap == cap && s.decodes == decodes && s.lists.free != [] && c in clients
      requires c.slot == s.lists.free[0] < |s.slots|
      requires lists.Valid() && lists.view == s.lists.Allocated() && lists.slots == clients
      requires a.trace == s.slots[c.slot].trace
      requires Coupled(s.slots[c.slot := a], s.lists.home, s.busy, s.owner)
      modifies this`s, lists, clients`next, clients`prev
      ensures Unbound() && Untaken(old(s), s)
      ensures s.writing == old(s).writing && s.busy == old(s).busy && s.closing == old(s).closing
      ensures s.answering == old(s).answering
    {
      hide *;
      ghost var t := s;
      Bounce(c, a);
      BouncedIsNoClient(t, a);
      InvSizes(s);
      CoupledSizes(s);
      UnboundFacts();
      MakeUntaken(t, s);
    }

    lemma MakeUntaken(t0: State, t: State)
      requires t.k == t0.k && |t.sent| == |t0.sent| && t.Sizes() && NoClient(t0, Refused(t))
      ensures Untaken(t0, t)
    {
    }


    /** An accepted connection is given a slot, and the application reacts. */
    method AdmitClient(clientFd: int) returns (ok: bool, ghost timer: int)
      requires Unbound() && Idle()
      requires clientFd >= 0 && clientFd !in s.k.open && clientFd !in s.k.epoll && k.st == s.k.Accepted(clientFd)
      modifies this`s, this`items, k`st, k`calls, k`stalls, lists, clients, inputs, outputs, items, encoded
      ensures fresh(items - old(items)) && Idle()
      ensures ok ==> Valid() && Newcomer(old(s), s, clientFd, timer) && k.calls == old(k.calls) + [K.Arm(timer, 3)]
      ensures !ok ==> Unbound() && Untaken(old(s), s) && k.st == old(k.st)
      ensures k.obliging && old(s).lists.free != [] ==> ok
      ensures old(k.stalls.waited) <= k.stalls.waited
    {
      hide *;
      UnboundFacts();
      InvSizes(s);
      CoupledSizes(s);
      RefusedIsNoClient(s);
      SameIsUntaken(s);
      var c := AllocSlot(s);
      if c == null {
        UnboundFacts();
        return false, -1;
      }
      FirstFree(s);
      ok, timer := SetUp(c, clientFd);
    }

    /** process_listener. */
    method ProcessListener()
      requires Valid() && Idle()
      modifies this`s, this`items, k`st, k`calls, k`stalls, lists, clients, inputs, outputs, items, encoded
      ensures Valid() && Idle() && fresh(items - old(items))
      ensures NoClient(old(s), s) || OneClient(old(s), s)
      ensures Greeted(old(s), s, old(k.calls), k.calls)
      ensures k.obliging && old(s).lists.free != [] ==> OneClient(old(s), s)
      ensures k.obliging ==> |s.sent| == |old(s).sent| + 1
      ensures old(k.stalls.waited) <= k.stalls.waited
    {
      hide *;
      Open();
      IdleFacts();
      RefusedIsNoClient(s);
      GreetedNobody(s, s, old(k.calls), k.calls);
      var clientFd := k.OpenStream();
      if clientFd == -1 {
        return;
      }
      UnboundFacts();
      ProcessAccepted(clientFd);
    }

    /** The part of process_listener behind accept. */
    method ProcessAccepted(clientFd: int)
      requires Unbound() && Idle()
      requires clientFd >= 0 && clientFd !in s.k.open && clientFd !in s.k.epoll && k.st == s.k.Accepted(clientFd)
      modifies this`s, this`items, k`st, k`calls, k`stalls, lists, clients, inputs, outputs, items, encoded
      ensures Valid() && Idle() && fresh(items - old(items))
      ensures NoClient(old(s), s) || OneClient(old(s), s)
      ensures Greeted(old(s), s, old(k.calls), k.calls) && |s.sent| == |old(s).sent| + 1
      ensures k.obliging && old(s).lists.free != [] ==> OneClient(old(s), s)
      ensures old(k.stalls.waited) <= k.stalls.waited
    {
      hide *;
      UnboundFacts();
      InvSizes(s);
      RefusedIsNoClient(s);
      SameIsUntaken(s);
      AcceptedFacts(s.k, clientFd);
      var ok := PrepareSocket(clientFd);
      if ok {
        ghost var timer;
        ok, timer := AdmitClient(clientFd);
        if ok {
          IsPrepared(old(k.calls), k.calls, clientFd, timer);
          GreetedBy(old(s), s, old(k.calls), k.calls, clientFd, timer);
          return;
        }
      }
      IdleFacts();
      UnboundFacts();
      UntakenFacts(old(s), s);
      Refuse(clientFd, s);
      GreetedNobody(old(s), s, old(k.calls), k.calls);
      NowIdle();
    }

    method PrepareSocket(fd: int) returns (ok: bool)
      modifies k`calls
      ensures ok ==> k.calls == old(k.calls) + [K.NonBlocking(fd)] + [K.NoDelay(fd)]
      ensures k.obliging && fd in k.st.open ==> ok
    {
      ok := k.Do(K.NonBlocking(fd));
      if ok {
        ok := k.Do(K.NoDelay(fd));
      }
    }

    lemma IsPrepared(before: seq<K.Call>, after: seq<K.Call>, fd: int, timer: int)
      requires after == before + [K.NonBlocking(fd)] + [K.NoDelay(fd)] + [K.Arm(timer, 3)]
      ensures Prepared(before, after, fd, timer)
    {
    }

    // ----- destroying the pending clients -----

    /** What the application does when told that a client is disconnected: it does not
        disconnect another one. */
    method FarewellScript(slot: nat) returns (script: seq<Action>)
      ensures forall a :: a in script ==> Fine(a) && (a.DoDisconnect? ==> a.target < 0 || a.target == slot)
    {
      script := *;
      if exists a :: a in script && !(Fine(a) && (a.DoDisconnect? ==> a.target < 0 || a.target == slot)) {
        script := [];
      }
    }

    lemma FarewellIsQuiet(script: seq<Action>, slot: nat)
      requires forall a :: a in script ==> Fine(a) && (a.DoDisconnect? ==> a.target < 0 || a.target == slot)
      requires current == null && slot < |s.lists.home| && s.lists.home[slot] == Pending
      ensures forall a :: a in script ==> Fine(a)
      ensures AllQuiet(script, s.lists.home)
    {
    }

    lemma QuietAt(script: seq<Action>, home: seq<Home>, n: nat)
      requires n < |script|
      ensures AllQuiet(script, home) ==> Quiet(script[n], home)
    {
    }

    /** on_client_disconnected, of which it is assumed that it leaves the other clients
        connected: it disconnects none, and while it runs no write fails hard. What held of
        the kernel before holds again after it. `t` is the state in which it is over. */
    method OnClientDisconnected(c: Client) returns (ghost t: State)
      requires Valid() && current == null && draining < 0 && s.writing == NONE && c in clients
      requires s.lists.pending != [] && c.slot == s.lists.pending[0] == s.closing && c.slot < |s.slots|
      requires Live(s.slots[c.slot].trace)
      modifies this`s, this`items, k`st, k`stalls, k`calm, lists, clients`clientFd, clients`next, clients`prev
      modifies outputs, items, encoded, c`trace
      ensures Valid() && current == null && draining < 0 && s.writing == NONE && fresh(items - old(items))
      ensures Evolved(old(s), t) && t.Inv() && t.lists == old(s).lists && k.calm == old(k.calm)
      ensures c.slot < |t.slots| && t.Sizes() && s == Gone(t)
      ensures c.slot < |s.slots| && !Live(s.slots[c.slot].trace) && t.writing == NONE
      ensures old(k.stalls.waited) <= k.stalls.waited
    {
      hide *;
      Open();
      PendingAt(s, 0);
      Farewell(c);
      t := s;
      EvolvedHome(old(s), t, c.slot);
      Open();
      RecordGone(c);
    }

    method Farewell(c: Client)
      requires Valid() && current == null && draining < 0 && s.writing == NONE
      requires c.slot < |s.lists.home| && s.lists.home[c.slot] == Pending
      modifies this`s, this`items, k`st, k`stalls, k`calm, lists, clients`clientFd, clients`next, clients`prev
      modifies outputs, items, encoded
      ensures Valid() && current == null && draining < 0 && s.writing == NONE && fresh(items - old(items))
      ensures Evolved(old(s), s) && s.lists == old(s).lists && k.calm == old(k.calm)
      ensures old(k.stalls.waited) <= k.stalls.waited
    {
      hide *;
      NoCurrent();
      var script := FarewellScript(c.slot);
      FarewellIsQuiet(script, c.slot);
      var calm := k.calm;
      k.calm := true;
      RunScript(script);
      k.calm := calm;
    }

    method RecordGone(c: Client)
      requires Valid() && c in clients && s.lists.pending != [] && c.slot == s.lists.pending[0] == s.closing
      requires c.slot < |s.slots| && Live(s.slots[c.slot].trace)
      modifies this`s, c`trace
      ensures Valid() && old(s).Sizes() && s == Gone(old(s)) && c.slot < |s.slots| && s.writing == old(s).writing
      ensures !Live(s.slots[c.slot].trace)
    {
      hide *;
      Open();
      GoneInv(s);
      GoneFacts(s);
      Announce(c, ClientDisconnected, s, s.lists.home);
      s := Gone(s);
      Close();
    }

    lemma FirstPendingFacts()
      requires Valid() && Idle() && s.lists.pending != []
      ensures s.Inv() && s.Sizes() && s.lists.Ok() && |s.slots| == |s.lists.home| && s.lists.pending[0] < |s.slots|
      ensures s.lists.home[s.lists.pending[0]] == Pending && Live(s.slots[s.lists.pending[0]].trace)
      ensures current == null && draining < 0 && s.writing == s.busy == s.closing == s.answering == NONE
    {
      hide *;
      Open();
      IdleFacts();
      InvSizes(s);
      PendingAt(s, 0);
      LiveIsServed(s, s.lists.pending[0]);
      NotASlot();
    }

    lemma NotASlot()
      ensures NONE < 0
    {
    }

    lemma GoneFacts(t0: State)
      requires t0.Sizes() && t0.lists.pending != [] && t0.lists.pending[0] < |t0.slots|
      ensures var t, i := Gone(t0), t0.lists.pending[0];
        && t.lists == t0.lists
        && t.slots == t0.slots[i := t0.slots[i].(trace := t0.slots[i].trace + [ClientDisconnected])]
        && t.busy == t0.busy && t.cap == t0.cap && t.decodes == t0.decodes && t.owner == t0.owner && t.k == t0.k
        && t.writing == t0.writing && t.closing == t0.closing && t.answering == t0.answering
    {
    }

    /** close_fd on the timer of the first pending client. */
    method CloseTimer(c: Client)
      requires Valid() && c in clients && s.lists.pending != [] && c.slot == s.lists.pending[0]
      requires s.closing == NONE && s.writing == NONE && s.busy == NONE
      modifies this`s, k`st, c`keepAliveTimerFd
      ensures Valid() && c.slot < |old(s).slots| && old(s).Sizes() && s == TimerClosed(old(s))
      ensures s.closing == c.slot && s.lists == old(s).lists && s.writing == NONE && s.busy == NONE
      ensures c.slot < |s.slots| == |old(s).slots| && s.slots[c.slot].trace == old(s).slots[c.slot].trace
      ensures s.answering == old(s).answering
    {
      hide *;
      Open();
      SlotOf(c);
      TimerClosedInv(s);
      TimerClosedFacts(s);
      CloseFd(c.keepAliveTimerFd);
      ClearTimer(c, s);
      s := TimerClosed(s);
      Close();
    }

    method ClearTimer(c: Client, ghost t0: State)
      requires Coupled(t0.slots, t0.lists.home, t0.busy, t0.owner) && c in clients && c.slot < |t0.slots|
      modifies c`keepAliveTimerFd
      ensures var a := t0.slots[c.slot];
        Coupled(t0.slots[c.slot := a.(timer := -1)], t0.lists.home, t0.busy, t0.owner - {a.timer})
    {
      hide OutputQueue.Valid, Input.Awaiting;
      c.keepAliveTimerFd := -1;
    }

    lemma TimerClosedFacts(t0: State)
      requires t0.Sizes() && t0.lists.pending != [] && t0.lists.pending[0] < |t0.slots|
      ensures var t, i := TimerClosed(t0), t0.lists.pending[0];
        && t.lists == t0.lists && t.slots == t0.slots[i := t0.slots[i].(timer := -1)] && t.busy == t0.busy
        && t.cap == t0.cap && t.decodes == t0.decodes
        && t.owner == t0.owner - {t0.slots[i].timer} && t.writing == t0.writing && t.answering == t0.answering
        && t.closing == i
        && t.k == t0.k.Deleted(t0.slots[i].timer).Closed(t0.slots[i].timer)
    {
    }

    /** The slot of the client that was being destroyed is freed. */
    method FreeSlot(c: Client)
      requires Valid() && c in clients && s.lists.pending != [] && c.slot == s.lists.pending[0] < |s.slots|
      requires s.closing == c.slot && s.writing == NONE && s.busy == NONE && !Live(s.slots[c.slot].trace)
      modifies this`s, lists, clients`next, clients`prev
      ensures Valid() && old(s).Sizes() && old(s).lists.Ok() && s == Destroyed(old(s))
      ensures s.lists.pending == old(s.lists.pending)[1..]
      ensures s.closing == NONE && s.writing == NONE && s.busy == NONE && s.answering == old(s).answering
    {
      hide *;
      Open();
      InvSizes(s);
      SlotOf(c);
      DestroyedInv(s);
      DestroyedFacts(s);
      PendingAt(s, 0);
      Unlisted(s.slots, s.lists.home, s.busy, s.owner, c.slot);
      Relist(c, s);
      s := Destroyed(s);
      Close();
    }

    method Relist(c: Client, ghost t0: State)
      requires lists.Valid() && lists.view == t0.lists && lists.slots == clients && c in clients
      requires t0.lists.pending != [] && c.slot == t0.lists.pending[0] < |t0.slots| == |t0.lists.home|
      requires t0.lists.Ok() && Coupled(t0.slots, t0.lists.home[c.slot := Free], t0.busy, t0.owner)
      modifies lists, clients`next, clients`prev
      ensures lists.Valid() && lists.view == t0.lists.FreedPending()
      ensures Coupled(t0.slots, t0.lists.home[c.slot := Free], t0.busy, t0.owner)
    {
      hide *;
      lists.FreePendingDisconnectClient(c);
    }

    lemma Unlisted(slots: seq<Slot>, home: seq<Home>, busy: int, owner: map<int, Role>, i: nat)
      requires Coupled(slots, home, busy, owner) && i < |home| && home[i] != Connected
      ensures Coupled(slots, home[i := Free], busy, owner)
    {
      hide SlotsMatch, OutputMatches, Input.Awaiting, OutputQueue.Ledger, OutputQueue.Held;
      var home' := home[i := Free];
      forall j | 0 <= j < |clients| ensures LedgerMatches(home', j) {
        assert LedgerMatches(home, j);
      }
    }

    lemma DestroyedFacts(t0: State)
      requires t0.Sizes() && t0.lists.Ok() && t0.lists.pending != [] && t0.lists.pending[0] < |t0.slots|
      ensures var t, i := Destroyed(t0), t0.lists.pending[0];
        && t.lists == t0.lists.FreedPending() && t.lists.home == t0.lists.home[i := Free]
        && t.lists.pending == t0.lists.pending[1..]
        && t.slots == t0.slots && t.busy == t0.busy && t.cap == t0.cap && t.decodes == t0.decodes
        && t.owner == t0.owner && t.writing == t0.writing && t.answering == t0.answering
        && t.closing == NONE && t.k == t0.k
    {
      hide Lists.Ok;
      assert Drop(t0.lists.pending, 0) == t0.lists.pending[1..];
    }

    /** The first half of a round of destroy_pending_disconnect_clients: the timer is
        closed and the application told. */
    method Dismiss(c: Client, ghost t0: State) returns (ghost t: State)
      requires Valid() && Idle() && c in clients && s.lists.pending != [] && c.slot == s.lists.pending[0]
      requires Cleared(t0, s)
      modifies this`s, this`items, k`st, k`stalls, k`calm, lists, clients, outputs, items, encoded
      ensures Valid() && fresh(items - old(items)) && Cleared(t0, t) && t.Inv() && k.calm == old(k.calm)
      ensures t.lists == old(s).lists && c.slot < |t.slots| && s == Gone(t) && s.lists == t.lists
      ensures current == null && draining < 0 && s.writing == s.busy == s.answering == NONE && s.closing == c.slot
      ensures c.slot < |s.slots| && !Live(s.slots[c.slot].trace)
      ensures old(k.stalls.waited) <= k.stalls.waited
    {
      hide *;
      FirstPendingFacts();
      ClearedTimer(t0, s);
      CloseTimer(c);
      ghost var u := s;
      t := OnClientDisconnected(c);
      ClearedCallback(t0, u, t);
      EvolvedIdle(u, t);
      GoneFacts(t);
    }

    /** One round of the loop of destroy_pending_disconnect_clients. */
    method DestroyOne(c: Client, ghost t0: State) returns (next: Client?)
      requires Valid() && Idle() && c in clients && s.lists.pending != [] && c.slot == s.lists.pending[0]
      requires Cleared(t0, s)
      modifies this`s, this`items, k`st, k`stalls, k`calm, lists, clients, outputs, items, encoded
      ensures Valid() && Idle() && fresh(items - old(items)) && Cleared(t0, s)
      ensures s.lists.pending == old(s).lists.pending[1..] && k.calm == old(k.calm)
      ensures next == At(clients, Head(s.lists.pending))
      ensures old(k.stalls.waited) <= k.stalls.waited
    {
      hide *;
      ghost var t := Dismiss(c, t0);
      NextPending(c);
      next := c.next;
      ClearedDestroyed(t0, t);
      FreeSlot(c);
      NowIdle();
    }

    /** The forward pointer of the first pending client leads to the next one. */
    lemma NextPending(c: Client)
      requires Valid() && s.lists.pending != [] && c in clients && c.slot == s.lists.pending[0]
      ensures c.next == At(clients, Head(s.lists.pending[1..]))
    {
      SlotOf(c);
      var p := s.lists.pending;
      assert |p| > 1 ==> s.lists.next[p[0]] == p[1];
      assert |p| == 1 ==> s.lists.next[p[0]] == NIL;
    }

    /** destroy_pending_disconnect_clients. */
    method DestroyPendingDisconnectClients()
      requires Valid() && Idle()
      modifies this`s, this`items, k`st, k`stalls, k`calm, lists, clients, outputs, items, encoded
      ensures Valid() && Idle() && fresh(items - old(items))
      ensures Cleared(old(s), s) && s.lists.pending == [] && k.calm == old(k.calm)
      ensures old(k.stalls.waited) <= k.stalls.waited
    {
      hide *;
      Open();
      ClearedSame(s);
      FirstPending();
      var c := lists.pendingList;
      while c != null
        invariant Valid() && Idle() && fresh(items - old(items)) && Cleared(old(s), s)
        invariant old(k.stalls.waited) <= k.stalls.waited
        invariant c == At(clients, Head(s.lists.pending)) && k.calm == old(k.calm)
        decreases |s.lists.pending|
      {
        PendingHead();
        c := DestroyOne(c, old(s));
      }
      PendingHead();
    }

    lemma FirstPending()
      requires Valid()
      ensures lists.pendingList == At(clients, Head(s.lists.pending))
    {
    }

    lemma PendingHead()
      requires Valid()
      ensures At(clients, Head(s.lists.pending)) == null <==> s.lists.pending == []
      ensures var c := At(clients, Head(s.lists.pending)); c != null ==> c in clients && c.slot == s.lists.pending[0]
    {
      if s.lists.pending != [] {
        PendingAt(s, 0);
        PoolAt(s.lists.pending[0]);
      }
    }

    // ----- one event -----

    /** A connected client can be written to and read from. */
    lemma Ready(c: Client)
      requires Valid() && Idle() && c in clients && c.slot < |s.lists.home| && s.lists.home[c.slot] == Connected
      ensures c.input.Awaiting() && c.input in inputs && c.output in outputs
      ensures forall x :: x in c.output.items ==> x in items
      ensures s.Sizes() && c.slot < |s.slots| && s.slots[c.slot].conn < |s.sent| && Served(s, s, c.slot)
    {
      hide *;
      Open();
      IdleFacts();
      SlotOf(c);
      CapOf(c);
      OutputIn(c);
      StreamOf(s, c.slot);
      InputAt(c);
      UnparsedFacts(c);
      EvolvedSame(s);
      ServedEvolved(s, s, c.slot);
    }

    /** The first half of process_client_socket. */
    method ServeOut(c: Client)
      requires Valid() && Idle() && c in clients && c.slot < |s.lists.home| && s.lists.home[c.slot] == Connected
      modifies this`s, this`draining, k`st, k`stalls, lists, clients`clientFd, clients`next, clients`prev, c.output
      modifies c.output.items
      ensures Valid() && Idle() && c.slot < |s.lists.home| && s.lists.home[c.slot] != Free
      ensures WrittenOut(old(s), s, c.slot, k.stalls.waited, k.calm && k.obliging)
      ensures old(k.stalls.waited) <= k.stalls.waited
    {
      hide *;
      IdleFacts();
      SlotOf(c);
      Open();
      ghost var failed, written, left, done := ProcessClientSocketOut(c);
      Open();
      OutIsWritten(old(s), c.slot, failed, written, left, s, k.stalls.waited, k.calm && k.obliging);
      EvolvedHome(old(s), s, c.slot);
      EvolvedIdle(old(s), s);
      NowIdle();
    }

    lemma OutIsWritten(t0: State, i: nat, failed: bool, written: seq<byte>, left: seq<byte>, t: State,
                       waited: set<int>, calm: bool)
      requires t0.Inv() && t.Inv() && i < |t0.slots| && t0.lists.home[i] == Connected && Evolved(t0, t)
      requires t0.slots[i].queued == written + left
      requires !failed ==> t == Drained(t0, i, written, left) && (left == [] || t0.slots[i].fd in waited)
      requires failed ==> IsConnected(Drained(t0, i, written, left), i) && t == DrainFailed(t0, i, written, left)
      requires failed ==> !calm
      ensures WrittenOut(t0, t, i, waited, calm)
    {
      hide Lists.Ok, State.SlotOk, State.ConnOk, State.DescriptorsOk, State.ConnsDistinct, CaughtUp;
      if failed {
        Listed(Drained(t0, i, written, left), i);
      } else if left == [] {
        Status(t0, i);
        assert written + left == written;
        DrainCatchesUp(t0, i, written);
      }
    }

    /** The second half of process_client_socket, for a client that the first half may have
        lost. */
    method ServeIn(c: Client)
      requires Valid() && Idle() && c in clients && c.slot < |s.lists.home| && s.lists.home[c.slot] != Free
      requires c.input.Awaiting()
      modifies this`s, this`items, this`current, c.input, data
      modifies k`st, k`calls, k`stalls, k`arriving, lists, clients`clientFd, clients`next, clients`prev, outputs, items
      modifies encoded
      ensures Valid() && Idle() && fresh(items - old(items))
      ensures Restarted(old(s), s, c.slot, old(k.calls), k.calls)
      ensures k.calm && k.obliging ==> Spared(old(s), s, c.slot)
      ensures IsConnected(s, c.slot) ==> k.arriving == 0
      ensures old(k.stalls.waited) <= k.stalls.waited
    {
      hide *;
      IdleFacts();
      ProcessClientSocketIn(c);
      ReadSinceFacts(old(s), old(k.arriving), old(k.calls), c.slot);
      ServedFacts(old(s), s, c.slot);
      NowIdle();
      if IsConnected(s, c.slot) {
        ConnectedHome(s, c.slot);
      }
    }

    /** process_client_socket: what is queued is written, then what has arrived is read. */
    method ProcessClientSocket(c: Client, readable: bool, writable: bool)
      requires Valid() && Idle() && c in clients && c.slot < |s.lists.home| && s.lists.home[c.slot] == Connected
      modifies this`s, this`items, this`draining, this`current, data, k`st, k`calls, k`stalls, k`arriving, lists
      modifies clients
      modifies inputs, outputs, items, encoded
      ensures Valid() && Idle() && fresh(items - old(items))
      ensures Attended(old(s), s, c.slot, Event(readable, writable, old(k.calls)))
      ensures old(k.stalls.waited) <= k.stalls.waited
    {
      hide *;
      Ready(c);
      NothingToWrite(s, c.slot, k.calls);
      if writable {
        ServeOut(c);
      }
      ghost var u, waited := s, k.stalls.waited;
      if readable {
        ServeIn(c);
      }
      BothHalves(old(s), u, c.slot, readable, writable, old(k.calls), waited);
    }

    /** The two halves together, from t0 by way of u. */
    lemma BothHalves(t0: State, u: State, i: nat, readable: bool, writable: bool, calls: seq<K.Call>, waited: set<int>)
      requires t0.Sizes() && i < |t0.slots| && t0.slots[i].conn < |t0.sent|
      requires Restarted(t0, t0, i, calls, calls) && Spared(t0, t0, i) && Evolved(t0, t0)
      requires if writable then WrittenOut(t0, u, i, waited, k.calm && k.obliging) else u == t0
      requires waited <= k.stalls.waited
      requires if readable then
                 && Restarted(u, s, i, calls, k.calls) && (k.calm && k.obliging ==> Spared(u, s, i))
                 && (IsConnected(s, i) ==> k.arriving == 0)
               else s == u && k.calls == calls && waited == k.stalls.waited
      ensures Attended(t0, s, i, Event(readable, writable, calls))
    {
      hide *;
      EventIs(readable, writable, calls);
      if readable {
        ReadingAttended(t0, u, s, i, Event(readable, writable, calls), waited);
      } else if writable {
        WritingAttended(t0, s, i, Event(readable, writable, calls));
      } else {
        NothingAttended(s, i, Event(readable, writable, calls));
      }
    }

    /** What the event that is being processed is like so far. */
    ghost function Event(readable: bool, writable: bool, calls: seq<K.Call>): How
      reads k`arriving, k`stalls, k`calls, k`calm, k`obliging
    {
      How(readable, writable, k.arriving, k.stalls.waited, calls, k.calls, k.calm && k.obliging)
    }

    lemma EventIs(readable: bool, writable: bool, calls: seq<K.Call>)
      ensures var h := Event(readable, writable, calls);
        && h.readable == readable && h.writable == writable && h.left == k.arriving && h.waited == k.stalls.waited
        && h.before == calls && h.after == k.calls && h.good == (k.calm && k.obliging)
    {
    }

    lemma ConnectedHome(t: State, i: nat)
      requires IsConnected(t, i)
      ensures i < |t.lists.home| && t.lists.home[i] == Connected
    {
    }

    lemma ServedFacts(t0: State, t: State, i: nat)
      requires Served(t0, t, i)
      ensures t.closing == t0.closing
    {
    }

    /** process_client_keep_alive_timer. */
    method ProcessClientKeepAliveTimer(c: Client)
      requires Valid() && Idle() && c in clients && c.slot < |s.lists.home| && s.lists.home[c.slot] == Connected
      modifies this`s, k`st, lists, clients`clientFd, clients`next, clients`prev
      modifies c.output`head, c.output`items, c.output`queued, c.output`released, c.output`live,
               c.output`again
      ensures Valid() && Idle() && IsConnected(old(s), c.slot) && s == Lost(old(s), c.slot)
    {
      hide *;
      Open();
      IdleFacts();
      InvSizes(s);
      ClientPendingDisconnect(c);
      EvolvedIdle(old(s), s);
      NowIdle();
    }

    lemma NoneUnmatched(t0: State, fd: int, list: seq<nat>)
      ensures Unmatched(t0, fd, list[..0])
    {
    }

    lemma Found(c: Client, n: nat)
      requires Valid() && n < |s.lists.connected| && c == At(clients, s.lists.connected[n])
      ensures c in clients && c.slot == s.lists.connected[n] < |s.lists.home| == |s.slots| && IsConnected(s, c.slot)
      ensures s.lists.home[c.slot] == Connected
      ensures c.clientFd == s.slots[c.slot].fd && c.keepAliveTimerFd == s.slots[c.slot].timer
    {
      hide *;
      Open();
      ConnectedAt(s, n);
      ConnectedFacts(s, s.lists.connected[n]);
      PoolAt(s.lists.connected[n]);
      SlotOf(c);
    }

    lemma ConnectedFacts(t0: State, i: nat)
      requires IsConnected(t0, i)
      ensures i < |t0.slots| == |t0.lists.home| && t0.lists.home[i] == Connected
    {
    }

    lemma NextOf(c: Client, n: nat)
      requires Valid() && n < |s.lists.connected| && c == At(clients, s.lists.connected[n])
      ensures c.next == At(clients, Head(s.lists.connected[n + 1..]))
    {
      hide State.Inv, Coupled, Lists.Ok, ClientLists.Valid;
      var l := s.lists.connected;
      assert l == l[..n] + l[n..] && l[n..][0] == l[n] && l[n..][1..] == l[n + 1..];
      lists.NextConnected(l[..n], l[n..]);
    }

    lemma BySocket(t0: State, t: State, fd: int, i: nat)
      requires IsConnected(t0, i) && t0.slots[i].fd == fd && Served(t0, t, i)
      ensures ByClient(t0, t, fd, i)
    {
    }

    lemma ByTimer(t0: State, t: State, fd: int, i: nat)
      requires IsConnected(t0, i) && t0.slots[i].timer == fd && t == Lost(t0, i)
      ensures ByClient(t0, t, fd, i)
    {
    }

    /** The dispatch of an event on a descriptor that is not the listener. */
    method DispatchToClient(fd: int, readable: bool, writable: bool)
      requires Valid() && Idle() && fd != listenerFd
      modifies this`s, this`items, this`draining, this`current, data, k`st, k`calls, k`stalls, k`arriving, lists
      modifies clients
      modifies inputs, outputs, items, encoded
      ensures Valid() && Idle() && fresh(items - old(items)) && Dispatched(old(s), s, fd, listenerFd)
      ensures AttendedBy(old(s), s, fd, Event(readable, writable, old(k.calls)))
      ensures old(k.stalls.waited) <= k.stalls.waited
    {
      hide *;
      Open();
      FirstConnected();
      ghost var connected, n := s.lists.connected, 0;
      assert connected[0..] == connected;
      NoneUnmatched(s, fd, connected);
      var c := lists.connectedList;
      while c != null
        invariant 0 <= n <= |connected| && c == At(clients, Head(connected[n..]))
        invariant Valid() && Idle() && s == old(s) && items == old(items) && k.arriving == old(k.arriving)
        invariant k.calls == old(k.calls) && k.stalls == old(k.stalls)
        invariant Unmatched(s, fd, connected[..n])
        decreases |connected| - n
      {
        HeadAt(s, n);
        Found(c, n);
        if fd == c.clientFd || fd == c.keepAliveTimerFd {
          DispatchTo(c, fd, readable, writable);
          return;
        }
        CapOf(c);
        UnmatchedMore(s, fd, connected, n);
        NextOf(c, n);
        c := c.next;
        n := n + 1;
      }
      HeadAt(s, n);
      assert connected[..n] == connected;
      DispatchedToNone(s, fd, listenerFd);
      EventIs(readable, writable, old(k.calls));
      AttendedByNone(s, fd, Event(readable, writable, old(k.calls)));
    }

    lemma AttendedFacts(t0: State, t: State, i: nat, h: How)
      requires Attended(t0, t, i, h)
      ensures Served(t0, t, i)
    {
    }

    /** The event is for this client: for its socket, which is asked first, or its timer. */
    method DispatchTo(c: Client, fd: int, readable: bool, writable: bool)
      requires Valid() && Idle() && fd != listenerFd && (fd == c.clientFd || fd == c.keepAliveTimerFd)
      requires c in clients && c.slot < |s.lists.home| && s.lists.home[c.slot] == Connected && IsConnected(s, c.slot)
      modifies this`s, this`items, this`draining, this`current, data, k`st, k`calls, k`stalls, k`arriving, lists
      modifies clients
      modifies inputs, outputs, items, encoded
      ensures Valid() && Idle() && fresh(items - old(items)) && Dispatched(old(s), s, fd, listenerFd)
      ensures AttendedBy(old(s), s, fd, Event(readable, writable, old(k.calls)))
      ensures old(k.stalls.waited) <= k.stalls.waited
    {
      hide *;
      CapOfValid(c);
      if fd == c.clientFd {
        ServeSocket(c, readable, writable);
      } else {
        ExpireTimer(c, readable, writable);
      }
      DispatchedTo(old(s), s, fd, listenerFd, c.slot);
    }

    lemma CapOfValid(c: Client)
      requires Valid() && c in clients && c.slot < |s.lists.home|
      ensures c.input in inputs && c.output in outputs
    {
      hide *;
      Open();
      CapOf(c);
    }

    method ServeSocket(c: Client, readable: bool, writable: bool)
      requires Valid() && Idle()
      requires c in clients && c.slot < |s.lists.home| && s.lists.home[c.slot] == Connected && IsConnected(s, c.slot)
      modifies this`s, this`items, this`draining, this`current, data, k`st, k`calls, k`stalls, k`arriving, lists
      modifies clients
      modifies inputs, outputs, items, encoded
      ensures Valid() && Idle() && fresh(items - old(items)) && c.slot < |old(s).slots|
      ensures ByClient(old(s), s, old(c.clientFd), c.slot)
      ensures AttendedBy(old(s), s, old(c.clientFd), Event(readable, writable, old(k.calls)))
      ensures old(k.stalls.waited) <= k.stalls.waited
    {
      hide *;
      Open();
      SlotOf(c);
      ProcessClientSocket(c, readable, writable);
      AttendedFacts(old(s), s, c.slot, Event(readable, writable, old(k.calls)));
      BySocket(old(s), s, old(c.clientFd), c.slot);
      AttendedBySocket(old(s), s, old(c.clientFd), Event(readable, writable, old(k.calls)), c.slot);
    }

    method ExpireTimer(c: Client, ghost readable: bool, ghost writable: bool)
      requires Valid() && Idle()
      requires c in clients && c.slot < |s.lists.home| && s.lists.home[c.slot] == Connected && IsConnected(s, c.slot)
      modifies this`s, k`st, lists, clients`clientFd, clients`next, clients`prev, outputs
      ensures Valid() && Idle() && c.slot < |old(s).slots|
      ensures ByClient(old(s), s, old(c.keepAliveTimerFd), c.slot)
      ensures AttendedBy(old(s), s, old(c.keepAliveTimerFd), Event(readable, writable, old(k.calls)))
    {
      hide *;
      Open();
      SlotOf(c);
      CapOf(c);
      ProcessClientKeepAliveTimer(c);
      ByTimer(old(s), s, old(c.keepAliveTimerFd), c.slot);
      EventIs(readable, writable, old(k.calls));
      AttendedByTimer(old(s), s, old(c.keepAliveTimerFd), Event(readable, writable, old(k.calls)), c.slot);
    }

    /** The dispatch of an event on any descriptor. */
    method Dispatch(fd: int, readable: bool, writable: bool)
      requires Valid() && Idle()
      modifies this`s, this`items, this`draining, this`current, data, lists, clients, inputs, outputs, items, encoded
      modifies k`st, k`stalls, k`calls, k`arriving
      ensures Valid() && Idle() && fresh(items - old(items))
      ensures Dispatched(old(s), s, fd, listenerFd)
      ensures fd != listenerFd ==> AttendedBy(old(s), s, fd, Event(readable, writable, old(k.calls)))
      ensures fd == listenerFd ==> Greeted(old(s), s, old(k.calls), k.calls)
      ensures fd == listenerFd && k.obliging && old(s).lists.free != [] ==> OneClient(old(s), s)
      ensures fd == listenerFd && k.obliging ==> |s.sent| == |old(s).sent| + 1
    {
      hide *;
      if fd == listenerFd {
        ProcessListener();
        ByListener(old(s), s, fd, listenerFd);
      } else {
        DispatchToClient(fd, readable, writable);
      }
    }

    /** NAME_server_process, for an event on descriptor fd; `arriving` bounds what can be
        read before a read would have to wait. `mid` is the state after the dispatch. */
    method Process(fd: int, readable: bool, writable: bool, arriving: nat) returns (ghost mid: State)
      requires Valid() && Idle()
      modifies this`s, this`items, this`draining, this`current, data, lists, clients, inputs, outputs, items, encoded
      modifies k`st, k`stalls, k`calls, k`arriving, k`calm
      ensures Valid() && Idle() && fresh(items - old(items))
      ensures Dispatched(old(s), mid, fd, listenerFd)
      ensures fd != listenerFd ==> AttendedBy(old(s), mid, fd, Event(readable, writable, old(k.calls)))
      ensures fd == listenerFd ==> Greeted(old(s), mid, old(k.calls), k.calls)
      ensures fd == listenerFd && k.obliging && old(s).lists.free != [] ==> OneClient(old(s), mid)
      ensures fd == listenerFd && k.obliging ==> |mid.sent| == |old(s).sent| + 1
      ensures Cleared(mid, s) && s.lists.pending == [] && k.calm == old(k.calm)
      ensures s.listener == old(s).listener && Listens()
    {
      hide *;
      k.arriving, k.stalls := arriving, K.NoStalls;
      Dispatch(fd, readable, writable);
      mid := s;
      EventIs(readable, writable, old(k.calls));
      ghost var h := Event(readable, writable, old(k.calls));
      DestroyPendingDisconnectClients();
      EventIs(readable, writable, old(k.calls));
      if fd != listenerFd {
        AttendedByLater(old(s), mid, fd, h, k.stalls.waited);
        assert h.(waited := k.stalls.waited) == Event(readable, writable, old(k.calls));
      }
      DispatchedListener(old(s), mid, fd, listenerFd);
      ClearedListener(mid, s);
      ListensWhenValid();
    }

    /** Once the server is started, its listener is open and registered. */
    ghost predicate Listens()
      reads this`s, this`listenerFd, k`st
    {
      s.listener != NONE ==>
        && listenerFd == s.listener
        && listenerFd in k.st.open && k.st.open[listenerFd] == K.Listener
        && listenerFd in k.st.epoll && k.st.epoll[listenerFd] == K.In
    }

    lemma ListensWhenValid()
      requires Valid()
      ensures Listens()
    {
      hide SlotsMatch, OutputsMatch, InputsMatch, ClientLists.Valid, Lists.Ok, State.SlotOk, State.ConnOk, Pool;
      if s.listener != NONE {
        assert s.RoleOk(s.listener);
      }
    }

    lemma ByListener(t0: State, t: State, fd: int, listener: int)
      requires fd == listener && (NoClient(t0, t) || OneClient(t0, t))
      ensures Dispatched(t0, t, fd, listener)
    {
    }

    // ----- starting -----

    /** The system calls of NAME_server_start: on failure the listener is closed again. */
    method OpenListener() returns (fd: int)
      modifies k`st, k`calls
      ensures fd != -1 ==>
          k.calls == old(k.calls) + [K.ReuseAddress(fd), K.Bind(fd)] + [K.Listen(fd), K.NonBlocking(fd)]
      ensures fd == -1 ==> k.st == old(k.st)
      ensures fd != -1 ==> fd >= 0 && fd !in old(k.st).open && fd !in old(k.st).epoll
      ensures fd != -1 ==> k.st == old(k.st).Opened(fd, K.Listener).Registered(fd, K.In)
      ensures k.obliging ==> fd != -1
    {
      fd := k.Open(K.Listener);
      if fd == -1 {
        return;
      }
      assert old(k.st).open[fd := K.Listener] - {fd} == old(k.st).open;
      // the address is checked before bind
      var ok := k.Do(K.ReuseAddress(fd));
      if ok {
        ok := k.Do(K.Bind(fd));
      }
      if ok {
        ok := k.Do(K.Listen(fd));
      }
      if ok {
        ok := k.Do(K.NonBlocking(fd));
      }
      if ok {
        ok := k.EpollAdd(fd);
      }
      if !ok {
        k.Close(fd);
        fd := -1;
      }
    }

    /** NAME_server_start. */
    method Start() returns (ok: bool)
      requires Valid() && Idle() && s.listener == NONE
      modifies this`s, this`listenerFd, k`st, k`calls
      ensures ok ==> k.calls == old(k.calls) + [K.ReuseAddress(listenerFd), K.Bind(listenerFd)]
                                             + [K.Listen(listenerFd), K.NonBlocking(listenerFd)]
      ensures Valid() && Idle()
      ensures s == if ok then Listening(old(s), listenerFd) else old(s)
      ensures k.obliging ==> ok
      ensures s.listener == (if ok then listenerFd else NONE) && (ok ==> listenerFd >= 0 && Listens())
    {
      hide *;
      Open();
      IdleFacts();
      var fd := OpenListener();
      ok := fd != -1;
      if ok {
        UnusedNow(s, fd);
        NoListener(s);
        ListeningInv(s, fd);
        ListeningFacts(s, fd);
        Listen(fd, s);
        s := Listening(s, fd);
      }
      Close();
      ListensWhenValid();
      NowIdle();
    }

    lemma NoListener(t0: State)
      requires t0.Inv() && t0.listener == NONE
      ensures forall x :: x in t0.owner ==> t0.owner[x] != ListenerOf
    {
      hide State.SlotOk, State.ConnOk, Lists.Ok;
      forall x | x in t0.owner ensures t0.owner[x] != ListenerOf {
        assert t0.RoleOk(x);
      }
    }

    method Listen(fd: int, ghost t0: State)
      requires Coupled(t0.slots, t0.lists.home, t0.busy, t0.owner)
      requires forall x :: x in t0.owner ==> t0.owner[x] != ListenerOf
      modifies this`listenerFd
      ensures listenerFd == fd && Coupled(t0.slots, t0.lists.home, t0.busy, t0.owner[fd := ListenerOf])
    {
      hide SlotsMatch, OutputsMatch, InputsMatch;
      listenerFd := fd;
    }

    lemma ListeningFacts(t0: State, fd: int)
      ensures var t := Listening(t0, fd);
        && t.lists == t0.lists && t.slots == t0.slots && t.busy == t0.busy && t.cap == t0.cap
        && t.decodes == t0.decodes && t.writing == t0.writing && t.answering == t0.answering
        && t.closing == t0.closing && t.owner == t0.owner[fd := ListenerOf] && t.listener == fd
        && t.k == t0.k.Opened(fd, K.Listener).Registered(fd, K.In)
    {
    }
  }
}
