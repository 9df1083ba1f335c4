/** The free, connected and pending-disconnect lists of
    messi/c_source/templates/linux/server.c: intrusive lists threaded through the
    client slots by `next`, with back links on the connected list only. */
module Slots {
  import opened Clients

  datatype Home = Free | Connected | Pending

  /** A pointer field of every slot, as the number of the slot pointed to. */
  type Pointers = seq<int>

  const NIL := -1

  /** A field that was never assigned. */
  const UNKNOWN := -2

  function Head(s: seq<nat>): int {
    if s == [] then NIL else s[0]
  }

  function Drop(s: seq<nat>, k: nat): seq<nat>
    requires k < |s|
  {
    s[..k] + s[k + 1..]
  }

  /** Where a client is on a list. */
  ghost function IndexOf(s: seq<nat>, c: nat): (k: nat)
    requires c in s
    ensures k < |s| && s[k] == c
  {
    var k :| 0 <= k < |s| && s[k] == c;
    k
  }

  /** Following `next` from the first client visits exactly `s` and ends in nil. */
  ghost predicate Chained(s: seq<nat>, next: Pointers) {
    && (forall i :: 0 <= i < |s| ==> s[i] < |next|)
    && (forall i :: 0 <= i < |s| - 1 ==> next[s[i]] == s[i + 1])
    && (s != [] ==> next[s[|s| - 1]] == NIL)
  }

  /** The back link of every client but the first is its predecessor. */
  ghost predicate BackChained(s: seq<nat>, prev: Pointers) {
    && (forall i :: 0 <= i < |s| ==> s[i] < |prev|)
    && (forall i :: 0 < i < |s| ==> prev[s[i]] == s[i - 1])
  }

  ghost predicate Distinct(s: seq<nat>) {
    forall i, j :: 0 <= i < j < |s| ==> s[i] != s[j]
  }

  /** `s` holds, once each, exactly the clients whose home is `h`. */
  ghost predicate Holds(s: seq<nat>, home: seq<Home>, h: Home) {
    && Distinct(s)
    && (forall i :: 0 <= i < |s| ==> s[i] < |home| && home[s[i]] == h)
    && (forall c: nat :: c < |home| && home[c] == h ==> c in s)
  }

  ghost function Below(n: nat): (r: set<nat>)
    ensures |r| == n && forall i: nat :: i in r <==> i < n
  {
    if n == 0 then {} else Below(n - 1) + {n - 1}
  }

  ghost function Members(s: seq<nat>): (r: set<nat>)
    ensures forall x :: x in r <==> x in s
    ensures Distinct(s) ==> |r| == |s|
  {
    if s == [] then {} else
      assert s == [s[0]] + s[1..];
      Members(s[1..]) + {s[0]}
  }

  /** A sequence without duplicates that holds exactly the numbers below n has length n. */
  lemma CountDistinct(s: seq<nat>, n: nat)
    requires Distinct(s) && (forall k :: 0 <= k < |s| ==> s[k] < n) && (forall i :: 0 <= i < n ==> i in s)
    ensures |s| == n
  {
    assert Members(s) == Below(n);
  }

  /** The pointers after remove_client_from_list. */
  function NextWithout(next: Pointers, s: seq<nat>, k: nat): Pointers
    requires k < |s| && (forall i :: 0 <= i < |s| ==> s[i] < |next|)
  {
    if k == 0 then next else next[s[k - 1] := next[s[k]]]
  }

  function PrevWithout(prev: Pointers, s: seq<nat>, k: nat): Pointers
    requires k < |s| && (forall i :: 0 <= i < |s| ==> s[i] < |prev|)
  {
    if k + 1 == |s| then prev else prev[s[k + 1] := prev[s[k]]]
  }

  /** The three lists as sequences, which list each slot is on, and the pointers
      that thread them. */
  datatype Lists = Lists(free: seq<nat>, connected: seq<nat>, pending: seq<nat>,
                         home: seq<Home>, next: Pointers, prev: Pointers)
  {
    /** Every slot is on exactly one list, once; all lists end in nil; the
        connected list has back links. */
    ghost predicate Ok() {
      && |next| == |prev| == |home|
      && Holds(free, home, Free) && Holds(connected, home, Connected) && Holds(pending, home, Pending)
      && Chained(free, next) && Chained(connected, next) && Chained(pending, next)
      && BackChained(connected, prev)
    }

    ghost function Allocated(): Lists
      requires Ok() && free != []
    {
      var c := free[0];
      Lists(Drop(free, 0), [c] + connected, pending, home[c := Connected],
            next[c := Head(connected)], if connected == [] then prev else prev[connected[0] := c])
    }

    ghost function Moved(k: nat): Lists
      requires Ok() && k < |connected|
    {
      var c := connected[k];
      Lists(free, Drop(connected, k), [c] + pending, home[c := Pending],
            NextWithout(next, connected, k)[c := Head(pending)], PrevWithout(prev, connected, k))
    }

    ghost function FreedConnected(k: nat): Lists
      requires Ok() && k < |connected|
    {
      var c := connected[k];
      Lists([c] + free, Drop(connected, k), pending, home[c := Free],
            NextWithout(next, connected, k)[c := Head(free)], PrevWithout(prev, connected, k))
    }

    ghost function FreedPending(): Lists
      requires Ok() && pending != []
    {
      var c := pending[0];
      Lists([c] + free, connected, Drop(pending, 0), home[c := Free],
            NextWithout(next, pending, 0)[c := Head(free)], PrevWithout(prev, pending, 0))
    }

    /** The three lists together hold every slot exactly once. */
    lemma Partition()
      requires Ok()
      ensures var all := free + connected + pending;
        && Distinct(all) && |all| == |home| && forall i :: 0 <= i < |home| ==> i in all
    {
      hide Chained, BackChained;
      var all := free + connected + pending;
      assert forall k :: 0 <= k < |all| ==> all[k] < |home|;
      forall i | 0 <= i < |home| ensures i in all {
        assert i in if home[i] == Free then free else if home[i] == Connected then connected else pending;
      }
      CountDistinct(all, |home|);
    }

    /** What remove_client_from_list relies on: only the head of the pending list
        may be removed, since that list has no back links. */
    lemma Removable(s: seq<nat>, k: nat)
      requires Ok() && k < |s|
      requires s == connected || (s == pending && k == 0)
      ensures Distinct(s) && Chained(s, next) && s[k] < |home| && (k > 0 ==> prev[s[k]] == s[k - 1])
    {
    }

    lemma Allocatable()
      requires Ok()
      requires free != []
      ensures free[0] < |home| && next[free[0]] == Head(Drop(free, 0))
      ensures connected != [] ==> connected[0] < |home| && connected[0] != free[0]
    {
    }

    lemma AllocatedOk()
      requires Ok() && free != []
      ensures Allocated().Ok() && |Allocated().home| == |home|
    {
      var c := free[0];
      hide Holds, Chained, BackChained, Distinct;
      Transfer(free, Free, 0, connected, Connected, pending, Pending, home, next);
      PushBackChained(connected, home, Connected, c, prev);
    }

    lemma MovedOk(k: nat)
      requires Ok() && k < |connected|
      ensures Moved(k).Ok() && |Moved(k).home| == |home|
    {
      hide Holds, Chained, BackChained;
      Transfer(connected, Connected, k, pending, Pending, free, Free, home, next);
      DropBackChained(connected, home, Connected, k, prev);
    }

    lemma FreedConnectedOk(k: nat)
      requires Ok() && k < |connected|
      ensures FreedConnected(k).Ok() && |FreedConnected(k).home| == |home|
    {
      hide Holds, Chained, BackChained;
      Transfer(connected, Connected, k, free, Free, pending, Pending, home, next);
      DropBackChained(connected, home, Connected, k, prev);
    }

    lemma FreedPendingOk()
      requires Ok() && pending != []
      ensures FreedPending().Ok() && |FreedPending().home| == |home|
    {
      hide Holds, Chained, BackChained;
      OtherBackChained(connected, pending, home, prev);
      Transfer(pending, Pending, 0, free, Free, connected, Connected, home, next);
    }
  }

  /** All slots free, in order, with back links never assigned. */
  ghost function AllFree(n: nat): (l: Lists)
    ensures |l.home| == n
  {
    Lists(seq(n, i => i), [], [], seq(n, i => Free),
          seq(n, i => if i + 1 < n then i + 1 else NIL), seq(n, i => UNKNOWN))
  }

  lemma AllFreeOk(n: nat)
    ensures AllFree(n).Ok()
  {
    var l := AllFree(n);
    forall c: nat | c < |l.home| ensures c in l.free {
      assert l.free[c] == c;
    }
  }

  // ----- how each list fares when a client moves from the list s to the front of t -----

  lemma DropHolds(s: seq<nat>, home: seq<Home>, h: Home, k: nat, h': Home)
    requires k < |s| && Holds(s, home, h) && h' != h
    ensures Holds(Drop(s, k), home[s[k] := h'], h)
  {
    var d := Drop(s, k);
    forall c | c in s && c != s[k] ensures c in d {
      var i :| 0 <= i < |s| && s[i] == c;
      assert c == d[if i < k then i else i - 1];
    }
  }

  lemma PushHolds(s: seq<nat>, home: seq<Home>, h: Home, c: nat)
    requires Holds(s, home, h) && c < |home| && home[c] != h
    ensures c !in s && Holds([c] + s, home[c := h], h)
  {
  }

  lemma OtherHolds(s: seq<nat>, home: seq<Home>, h: Home, c: nat, h': Home)
    requires Holds(s, home, h) && c < |home| && home[c] != h && h' != h
    ensures c !in s && Holds(s, home[c := h'], h)
  {
  }

  lemma DropChained(s: seq<nat>, k: nat, next: Pointers)
    requires Distinct(s) && Chained(s, next) && k < |s|
    ensures Chained(Drop(s, k), NextWithout(next, s, k)) && s[k] !in Drop(s, k)
    ensures |NextWithout(next, s, k)| == |next|
  {
    var d := Drop(s, k);
    assert forall i :: 0 <= i < |d| ==> d[i] == if i < k then s[i] else s[i + 1];
  }

  lemma OtherChained(t: seq<nat>, h: Home, s: seq<nat>, h': Home, home: seq<Home>, k: nat, next: Pointers)
    requires h != h' && Holds(t, home, h) && Holds(s, home, h')
    requires Chained(t, next) && Chained(s, next) && k < |s|
    ensures s[k] !in t && Chained(t, NextWithout(next, s, k))
  {
  }

  lemma Relink(s: seq<nat>, c: nat, next: Pointers, v: int)
    requires Chained(s, next) && c !in s && c < |next|
    ensures Chained(s, next[c := v])
    ensures v == Head(s) ==> Chained([c] + s, next[c := v])
  {
    var t := [c] + s;
    assert s != [] ==> t[|t| - 1] == s[|s| - 1];
    assert forall i :: 0 < i < |t| ==> t[i] == s[i - 1];
  }

  lemma Transfer(s: seq<nat>, h: Home, k: nat, t: seq<nat>, h': Home, u: seq<nat>, h'': Home,
                 home: seq<Home>, next: Pointers)
    requires h != h' && h != h'' && h' != h'' && k < |s|
    requires Holds(s, home, h) && Holds(t, home, h') && Holds(u, home, h'')
    requires Chained(s, next) && Chained(t, next) && Chained(u, next)
    ensures s[k] < |next| && s[k] < |home|
    ensures var home' := home[s[k] := h'];
      Holds(Drop(s, k), home', h) && Holds([s[k]] + t, home', h') && Holds(u, home', h'')
    ensures var next' := NextWithout(next, s, k)[s[k] := Head(t)];
      Chained(Drop(s, k), next') && Chained([s[k]] + t, next') && Chained(u, next') && |next'| == |next|
  {
    assert s[k] < |next| && s[k] < |home| && home[s[k]] == h && Distinct(s);
    hide Holds, Chained, Distinct;
    var c, mid := s[k], NextWithout(next, s, k);
    DropHolds(s, home, h, k, h');
    PushHolds(t, home, h', c);
    OtherHolds(u, home, h'', c, h');
    DropChained(s, k, next);
    OtherChained(t, h', s, h, home, k, next);
    OtherChained(u, h'', s, h, home, k, next);
    Relink(Drop(s, k), c, mid, Head(t));
    Relink(t, c, mid, Head(t));
    Relink(u, c, mid, Head(t));
  }

  lemma PushBackChained(s: seq<nat>, home: seq<Home>, h: Home, c: nat, prev: Pointers)
    requires Holds(s, home, h) && BackChained(s, prev) && |home| == |prev| && c < |prev|
    ensures var prev' := if s == [] then prev else prev[s[0] := c];
      BackChained([c] + s, prev') && |prev'| == |prev|
  {
  }

  lemma OtherBackChained(s: seq<nat>, t: seq<nat>, home: seq<Home>, prev: Pointers)
    requires Holds(s, home, Connected) && Holds(t, home, Pending) && t != [] && |prev| == |home|
    requires BackChained(s, prev)
    ensures t[0] < |prev| && BackChained(s, PrevWithout(prev, t, 0))
    ensures |PrevWithout(prev, t, 0)| == |prev|
  {
  }

  lemma DropBackChained(s: seq<nat>, home: seq<Home>, h: Home, k: nat, prev: Pointers)
    requires Holds(s, home, h) && BackChained(s, prev) && k < |s| && |prev| == |home|
    ensures s[k] < |prev| && BackChained(Drop(s, k), PrevWithout(prev, s, k))
    ensures |PrevWithout(prev, s, k)| == |prev|
  {
    var d := Drop(s, k);
    assert forall i :: 0 <= i < |d| ==> d[i] == if i < k then s[i] else s[i + 1];
  }

  /** Removing the client behind `before` from a list. */
  lemma DropAt(l: Lists, before: seq<nat>, c: nat, rest: seq<nat>)
    requires l.Ok() && l.connected == before + [c] + rest
    ensures c in l.connected && Drop(l.connected, IndexOf(l.connected, c)) == before + rest
  {
    var s := l.connected;
    assert s[|before|] == c;
    assert IndexOf(s, c) == |before|;
  }

  // ----- the lists in memory -----

  /** The pool of slots: each knows its place, so no two are the same. */
  ghost predicate Pool(slots: seq<Client>) {
    forall i :: 0 <= i < |slots| ==> slots[i].slot == i
  }

  function At(slots: seq<Client>, p: int): Client? {
    if 0 <= p < |slots| then slots[p] else null
  }

  /** The pointers stored in the slots. */
  ghost predicate Mirrors(slots: seq<Client>, next: Pointers, prev: Pointers)
    reads slots`next, slots`prev
  {
    && |next| == |prev| == |slots|
    && (forall i :: 0 <= i < |slots| ==> slots[i].next == At(slots, next[i]))
    && (forall i :: 0 <= i < |slots| && prev[i] != UNKNOWN ==> slots[i].prev == At(slots, prev[i]))
  }

  lemma MirroredNext(slots: seq<Client>, c: Client, next: Pointers, prev: Pointers)
    requires Pool(slots) && Mirrors(slots, next, prev) && c in slots
    ensures c.next == At(slots, next[c.slot])
  {
  }

  method RemoveFromList(slots: seq<Client>, head: Client?, c: Client,
                        ghost s: seq<nat>, ghost k: nat, ghost next: Pointers, ghost prev: Pointers)
    returns (head': Client?)
    requires Pool(slots) && Mirrors(slots, next, prev)
    requires Distinct(s) && Chained(s, next)
    requires k < |s| && s[k] < |slots| && c == slots[s[k]] && (k > 0 ==> prev[s[k]] == s[k - 1])
    requires head == At(slots, s[0])
    modifies slots`next, slots`prev
    ensures head' == At(slots, Head(Drop(s, k)))
    ensures Mirrors(slots, NextWithout(next, s, k), PrevWithout(prev, s, k))
  {
    ghost var after := if k + 1 < |s| then s[k + 1] else NIL;
    assert c.next == At(slots, after) && (k > 0 ==> c.prev == slots[s[k - 1]] != c);
    head' := head;
    if c == head {
      head' := c.next;
    } else {
      c.prev.next := c.next;
    }
    if c.next != null {
      c.next.prev := c.prev;
    }
  }

  /** Sets the forward pointer of a client that is being put on a list. */
  method SetNext(slots: seq<Client>, c: Client, v: Client?, ghost p: int, ghost next: Pointers, ghost prev: Pointers)
    requires Pool(slots) && Mirrors(slots, next, prev)
    requires c in slots && v == At(slots, p)
    modifies c`next
    ensures Mirrors(slots, next[c.slot := p], prev)
  {
    c.next := v;
  }

  /** The insertion at the front of the connected list in alloc_client. */
  method PushConnected(slots: seq<Client>, c: Client, head: Client?, ghost s: seq<nat>, ghost next: Pointers,
                       ghost prev: Pointers)
    requires Pool(slots) && Mirrors(slots, next, prev)
    requires c in slots && head == At(slots, Head(s))
    requires s != [] ==> s[0] < |slots|
    modifies slots`next, slots`prev
    ensures Mirrors(slots, next[c.slot := Head(s)], if s == [] then prev else prev[s[0] := c.slot])
  {
    c.next := head;
    if head != null {
      head.prev := c;
    }
  }

  class ClientLists {
    const slots: seq<Client>
    var connectedList: Client?
    var freeList: Client?
    var pendingList: Client?
    ghost var view: Lists

    ghost predicate Valid()
      reads this, slots`next, slots`prev
    {
      && Pool(slots)
      && view.Ok() && |view.home| == |slots|
      && freeList == At(slots, Head(view.free))
      && connectedList == At(slots, Head(view.connected))
      && pendingList == At(slots, Head(view.pending))
      && Mirrors(slots, view.next, view.prev)
    }

    /** The set-up of the lists in server_init: all slots are free, in pool order. */
    constructor (clients: seq<Client>)
      requires Pool(clients) && clients != []
      modifies clients`next
      ensures Valid() && slots == clients && view == AllFree(|clients|)
    {
      slots := clients;
      freeList, connectedList, pendingList := clients[0], null, null;
      view := AllFree(|clients|);
      new;
      for i := 0 to |clients| - 1
        invariant forall j :: 0 <= j < i ==> clients[j].next == clients[j + 1]
        invariant freeList == clients[0] && connectedList == null && pendingList == null && view == AllFree(|clients|)
      {
        clients[i].next := clients[i + 1];
      }
      clients[|clients| - 1].next := null;
      AllFreeOk(|clients|);
    }

    /** The forward pointer of a connected client leads to the next connected client. */
    lemma NextConnected(before: seq<nat>, rest: seq<nat>)
      requires Valid() && view.connected == before + rest && rest != []
      ensures rest[0] < |slots| && slots[rest[0]].next == At(slots, Head(rest[1..])) && view.home[rest[0]] == Connected
    {
      assert view.connected[|before|] == rest[0];
      assert |rest| > 1 ==> view.connected[|before| + 1] == rest[1];
    }

    /** The clients that following `next` visits, for at most `steps` steps. */
    ghost function Walk(c: Client?, steps: nat): seq<nat>
      reads slots`next
    {
      if c == null || c !in slots || steps == 0 then [] else [c.slot] + Walk(c.next, steps - 1)
    }

    lemma {:induction false} WalkChain(list: seq<nat>, steps: nat)
      requires Pool(slots) && Mirrors(slots, view.next, view.prev) && Chained(list, view.next) && steps > |list|
      ensures Walk(At(slots, Head(list)), steps) == list
      decreases |list|
    {
      if list != [] {
        var rest := list[1..];
        assert rest != [] ==> rest[|rest| - 1] == list[|list| - 1];
        forall i | 0 <= i < |rest| - 1 ensures view.next[rest[i]] == rest[i + 1] {
          assert rest[i] == list[i + 1] && rest[i + 1] == list[i + 2];
        }
        assert view.next[list[0]] == Head(rest);
        WalkChain(rest, steps - 1);
      }
    }

    /** However far one follows the pointers in memory from the three heads, exactly the
        three lists are visited; every slot is on one of them and on no other, once; and
        the back link of every connected client but the first leads to its predecessor. */
    lemma ListsInMemory(steps: nat)
      requires Valid() && steps > |slots|
      ensures var free, connected := Walk(freeList, steps), Walk(connectedList, steps);
        var pending := Walk(pendingList, steps);
        && Distinct(free + connected + pending) && |free + connected + pending| == |slots|
        && (forall i :: 0 <= i < |slots| ==> i in free + connected + pending)
        && (forall k :: 0 <= k < |connected| ==> connected[k] < |slots|)
        && (forall k :: 0 <= k < |connected| - 1 ==> slots[connected[k + 1]].prev == slots[connected[k]])
        && free == view.free && connected == view.connected && pending == view.pending
    {
      hide Chained, Mirrors;
      view.Partition();
      WalkChain(view.free, steps);
      WalkChain(view.connected, steps);
      WalkChain(view.pending, steps);
      BackLinks();
    }

    lemma BackLinks()
      requires Valid()
      ensures forall k :: 0 <= k < |view.connected| ==> view.connected[k] < |slots|
      ensures forall k :: 0 <= k < |view.connected| - 1 ==>
          slots[view.connected[k + 1]].prev == slots[view.connected[k]]
    {
    }

    method AllocClient() returns (c: Client?)
      requires Valid()
      modifies this, slots`next, slots`prev
      ensures Valid()
      ensures c == At(slots, Head(old(view.free)))
      ensures view == if c == null then old(view) else old(view.Allocated())
    {
      hide Holds, Chained, BackChained, Distinct, Drop, Mirrors;
      c := freeList;
      if c != null {
        ghost var v := view;
        v.Allocatable();
        MirroredNext(slots, c, v.next, v.prev);
        freeList := c.next;
        PushConnected(slots, c, connectedList, v.connected, v.next, v.prev);
        connectedList := c;
        v.AllocatedOk();
        view := v.Allocated();
      }
    }

    method MoveToPendingDisconnect(c: Client, ghost k: nat)
      requires Valid()
      requires k < |view.connected| && view.connected[k] == c.slot && c in slots
      modifies this, slots`next, slots`prev
      ensures Valid()
      ensures view == old(view.Moved(k))
    {
      hide Holds, Chained, BackChained, Distinct, Mirrors, NextWithout, PrevWithout;
      ghost var v := view;
      v.Removable(v.connected, k);
      connectedList := RemoveFromList(slots, connectedList, c, v.connected, k, v.next, v.prev);
      SetNext(slots, c, pendingList, Head(v.pending),
              NextWithout(v.next, v.connected, k), PrevWithout(v.prev, v.connected, k));
      pendingList := c;
      v.MovedOk(k);
      view := v.Moved(k);
    }

    method FreeConnectedClient(c: Client, ghost k: nat)
      requires Valid()
      requires k < |view.connected| && view.connected[k] == c.slot && c in slots
      modifies this, slots`next, slots`prev
      ensures Valid()
      ensures view == old(view.FreedConnected(k))
    {
      hide Holds, Chained, BackChained, Distinct, Mirrors, NextWithout, PrevWithout;
      ghost var v := view;
      v.Removable(v.connected, k);
      connectedList := RemoveFromList(slots, connectedList, c, v.connected, k, v.next, v.prev);
      SetNext(slots, c, freeList, Head(v.free),
              NextWithout(v.next, v.connected, k), PrevWithout(v.prev, v.connected, k));
      freeList := c;
      v.FreedConnectedOk(k);
      view := v.FreedConnected(k);
    }

    method FreePendingDisconnectClient(c: Client)
      requires Valid()
      requires view.pending != [] && view.pending[0] == c.slot && c in slots
      modifies this, slots`next, slots`prev
      ensures Valid()
      ensures view == old(view.FreedPending())
    {
      hide Holds, Chained, BackChained, Distinct, Mirrors, NextWithout, PrevWithout;
      ghost var v := view;
      v.Removable(v.pending, 0);
      pendingList := RemoveFromList(slots, pendingList, c, v.pending, 0, v.next, v.prev);
      SetNext(slots, c, freeList, Head(v.free), NextWithout(v.next, v.pending, 0), PrevWithout(v.prev, v.pending, 0));
      freeList := c;
      v.FreedPendingOk();
      view := v.FreedPending();
    }
  }
}
