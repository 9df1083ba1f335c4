/** The output queue of a client slot in messi/c_source/templates/linux/server.c: a chain
    of heap items, each with its own copy of the bytes that are still to be written. */
module Output {
  import opened Header
  import opened Kernel

  /** NAME_server_client_output_item_t: data[offset..offset + size] is to be written. */
  class Item {
    ghost const owner: OutputQueue
    const data: seq<byte>
    var offset: nat
    var size: nat
    var next: Item?

    constructor (ghost owner: OutputQueue, data: seq<byte>)
      ensures this.owner == owner && this.data == data
      ensures offset == 0 && size == |data| && next == null
    {
      this.owner := owner;
      this.data := data;
      offset, size, next := 0, |data|, null;
    }

    ghost predicate Ok()
      reads this`offset, this`size
    {
      offset + size == |data| && size > 0
    }

    ghost function Bytes(): seq<byte>
      reads this`offset, this`size
    {
      if Ok() then data[offset..] else []
    }
  }

  function First(s: seq<Item>): Item? {
    if s == [] then null else s[0]
  }

  ghost predicate Chained(s: seq<Item>)
    reads s`next
  {
    && (forall i :: 0 <= i < |s| - 1 ==> s[i].next == s[i + 1])
    && (s != [] ==> s[|s| - 1].next == null)
  }

  ghost predicate AllOk(s: seq<Item>)
    reads s`offset, s`size
  {
    forall i :: 0 <= i < |s| ==> s[i].Ok()
  }

  /** No item is in the chain twice, or in another queue's. */
  ghost predicate Owned(s: seq<Item>, q: OutputQueue) {
    && (forall i :: 0 <= i < |s| ==> s[i].owner == q)
    && (forall i, j :: 0 <= i < j < |s| ==> s[i] != s[j])
  }

  /** What the items hold that is still to be written. */
  ghost function Unwritten(s: seq<Item>): seq<byte>
    reads s`offset, s`size
  {
    if s == [] then [] else s[0].Bytes() + Unwritten(s[1..])
  }

  lemma UnwrittenSnoc(s: seq<Item>, x: Item)
    ensures Unwritten(s + [x]) == Unwritten(s) + x.Bytes()
    ensures AllOk(s) && x.Ok() ==> AllOk(s + [x])
  {
    if s != [] {
      assert (s + [x])[1..] == s[1..] + [x];
      UnwrittenSnoc(s[1..], x);
    } else {
      assert s + [x] == [x];
      assert Unwritten([x]) == x.Bytes();
    }
  }

  /** Items are created once; each is live, freed, or leaked, and freed twice if it is in `again`. */
  ghost predicate Balanced(created: seq<Item>, released: seq<Item>, live: seq<Item>, again: seq<Item>,
                           leaked: seq<Item>)
  {
    && Distinct(created)
    && multiset(released) + multiset(live) + multiset(leaked) == multiset(created) + multiset(again)
    && (forall x :: x in again ==> x in created && multiset(released)[x] >= 2)
    && (forall x :: x in leaked ==> x !in released && x !in live)
  }

  ghost predicate HeldBy(items: seq<Item>, released: seq<Item>, live: seq<Item>) {
    && |live| <= |items| && live == items[|items| - |live|..] && Distinct(items)
    && forall x :: x in items[..|items| - |live|] ==> x in released
  }

  ghost predicate Distinct(s: seq<Item>) {
    forall i, j :: 0 <= i < j < |s| ==> s[i] != s[j]
  }

  lemma {:induction false} OnceEach(s: seq<Item>)
    requires Distinct(s)
    ensures forall x :: multiset(s)[x] <= 1
  {
    if s != [] {
      var last := s[|s| - 1];
      OnceEach(s[..|s| - 1]);
      assert s == s[..|s| - 1] + [last];
      assert last !in s[..|s| - 1];
    }
  }

  lemma CountsOf(a: seq<Item>, r: seq<Item>, l: seq<Item>, g: seq<Item>, k: seq<Item>, x: Item)
    requires Balanced(a, r, l, g, k)
    ensures multiset(r)[x] + multiset(l)[x] + multiset(k)[x] == multiset(a)[x] + multiset(g)[x]
  {
    assert (multiset(r) + multiset(l) + multiset(k))[x] == (multiset(a) + multiset(g))[x];
  }

  /** A new item is live, or leaked if the chain it is put on was freed. */
  lemma BalancedAppend(a: seq<Item>, r: seq<Item>, l: seq<Item>, g: seq<Item>, k: seq<Item>, x: Item)
    requires Balanced(a, r, l, g, k) && x !in a
    ensures Balanced(a + [x], r, l + [x], g, k) && Balanced(a + [x], r, l, g, k + [x])
  {
    CountsOf(a, r, l, g, k, x);
    var c, l', k' := a + [x], l + [x], k + [x];
    assert multiset(c) == multiset(a) + multiset{x};
    assert multiset(l') == multiset(l) + multiset{x};
    assert multiset(k') == multiset(k) + multiset{x};
    SameMore(multiset(r), multiset(l), multiset(k), multiset(a), multiset(g), multiset{x});
  }

  lemma SameMore<T>(r: multiset<T>, l: multiset<T>, k: multiset<T>, a: multiset<T>, g: multiset<T>, c: multiset<T>)
    requires r + l + k == a + g
    ensures r + (l + c) + k == (a + c) + g && r + l + (k + c) == (a + c) + g && (r + (c + l)) + k == a + (g + c)
  {
    assert r + (l + c) + k == (r + l + k) + c;
    assert r + l + (k + c) == (r + l + k) + c;
    assert (r + (c + l)) + k == (r + l + k) + c;
  }

  /** The first live item is freed. */
  lemma BalancedFree(a: seq<Item>, r: seq<Item>, l: seq<Item>, g: seq<Item>, k: seq<Item>)
    requires Balanced(a, r, l, g, k) && l != []
    ensures Balanced(a, r + [l[0]], l[1..], g, k)
  {
    var x := l[0];
    assert l == [x] + l[1..];
    assert multiset(r + [x]) == multiset(r) + multiset{x};
    assert multiset(l) == multiset{x} + multiset(l[1..]);
    assert forall y :: y in l[1..] ==> y in l;
  }

  /** The whole chain is freed, of which all but the live end had been freed. */
  lemma BalancedFreeAll(a: seq<Item>, r: seq<Item>, l: seq<Item>, g: seq<Item>, k: seq<Item>, s: seq<Item>)
    requires Balanced(a, r, l, g, k) && HeldBy(s, r, l)
    ensures Balanced(a, r + s, [], g + s[..|s| - |l|], k)
  {
    var done := s[..|s| - |l|];
    assert s == done + l;
    assert multiset(s) == multiset(done) + multiset(l);
    assert multiset(r + s) == multiset(r) + multiset(s);
    assert multiset(g + done) == multiset(g) + multiset(done);
    SameMore(multiset(r), multiset(l), multiset(k), multiset(a), multiset(g), multiset(done));
    forall x | x in g + done ensures x in a && multiset(r + s)[x] >= 2 {
      if x in done {
        assert x in s && x in r;
        assert x in multiset(s) && x in multiset(r);
        FreedWasCreated(a, r, l, g, k, x);
      }
    }
    forall x | x in k ensures x !in r + s {
      assert x in s ==> x in done || x in l;
    }
  }

  lemma FreedWasCreated(a: seq<Item>, r: seq<Item>, l: seq<Item>, g: seq<Item>, k: seq<Item>, x: Item)
    requires Balanced(a, r, l, g, k) && x in r
    ensures x in a
  {
    CountsOf(a, r, l, g, k, x);
    assert multiset(r)[x] >= 1;
  }

  /** Whatever was allocated is live or freed, and freed only once, exactly as long as no item
      was freed again or leaked; and an item was freed twice exactly if one was freed again. */
  lemma FreedOnceIff(a: seq<Item>, r: seq<Item>, l: seq<Item>, g: seq<Item>, k: seq<Item>)
    requires Balanced(a, r, l, g, k)
    ensures (forall x :: x in a ==> multiset(r)[x] + multiset(l)[x] == 1) <==> g == [] && k == []
    ensures (forall x :: multiset(r)[x] <= 1) <==> g == []
    ensures (forall x :: x in a ==> x in r || x in l) <==> k == []
  {
    OnceEach(a);
    forall x: Item ensures multiset(r)[x] + multiset(l)[x] + multiset(k)[x] == multiset(a)[x] + multiset(g)[x] {
      CountsOf(a, r, l, g, k, x);
    }
    if g != [] {
      assert g[0] in g && g[0] in a && multiset(r)[g[0]] >= 2;
    }
    if k != [] {
      assert k[0] in k && k[0] !in r && k[0] !in l;
      assert multiset(k)[k[0]] >= 1 && multiset(g)[k[0]] == 0 && k[0] in a;
    }
    if g == [] {
      assert forall x :: multiset(g)[x] == 0;
    }
    if k == [] {
      assert forall x :: multiset(k)[x] == 0;
      forall x | x in a ensures x in r || x in l {
        assert multiset(a)[x] >= 1;
      }
    }
  }

  /** head_p and tail_p; tail_p means nothing while the queue is empty. */
  class OutputQueue {
    ghost const slot: nat
    var head: Item?
    var tail: Item?
    ghost var items: seq<Item>
    ghost var queued: seq<byte>

    /** The items that were allocated, and those that were passed to free, in order. */
    ghost var created: seq<Item>
    ghost var released: seq<Item>

    /** The end of the chain that has not been freed. */
    ghost var live: seq<Item>

    /** The items that were passed to free though they had been freed, and those that were
        put on a chain that had been freed. */
    ghost var again: seq<Item>
    ghost var leaked: seq<Item>

    constructor (ghost slot: nat)
      ensures this.slot == slot && head == null && items == [] && queued == [] && released == []
      ensures live == [] && Ledger()
    {
      this.slot := slot;
      head := null;
      items, queued, released, created, live, again, leaked := [], [], [], [], [], [], [];
    }

    /** Every item is accounted for. */
    ghost predicate Ledger()
      reads this`created, this`released, this`live, this`again, this`leaked
    {
      Balanced(created, released, live, again, leaked)
    }

    /** What is not live of the chain has been freed. */
    ghost predicate Held()
      reads this`items, this`released, this`live
    {
      HeldBy(items, released, live)
    }

    /** The chain runs from head to tail through `items` and ends there. */
    ghost predicate Linked()
      reads this`head, this`tail, this`items, items`next
    {
      && head == First(items)
      && (items != [] ==> tail == items[|items| - 1])
      && Chained(items) && Owned(items, this)
    }

    ghost predicate Valid()
      reads this, items
    {
      Linked() && AllOk(items) && queued == Unwritten(items) && (items == [] <==> queued == [])
    }

    /** Puts a new item at the end of the chain. */
    method Link(item: Item) returns (first: bool)
      requires Linked() && item.owner == this && item !in items && item.next == null
      modifies this`head, this`tail, this`items, items`next
      ensures Linked() && items == old(items) + [item]
      ensures queued == old(queued)
      ensures first == (old(items) == [])
    {
      first := head == null;
      if first {
        head := item;
      } else {
        tail.next := item;
      }
      tail := item;
      items := items + [item];
    }

    /** The item after one that has been written. */
    method NextItem(item: Item, ghost done: nat) returns (next: Item?)
      requires Linked() && done < |items| && items[done] == item
      ensures next == First(items[done + 1..]) && items[done..][1..] == items[done + 1..]
    {
      next := item.next;
    }

    /** Puts a copy of the bytes at the end of the queue. */
    method Append(data: seq<byte>) returns (first: bool)
      requires Valid() && Ledger() && data != []
      modifies this`head, this`tail, this`items, this`queued, this`created, this`live, this`leaked, items`next
      ensures Valid()
      ensures |items| == |old(items)| + 1 && items == old(items) + [items[|old(items)|]]
      ensures fresh(items[|old(items)|]) && items[|old(items)|].owner == this
      ensures queued == old(queued) + data
      ensures first == (old(queued) == [])
      ensures Ledger() && created == old(created) + [items[|old(items)|]]
      ensures old(live) == old(items) ==> live == items && leaked == old(leaked)
      ensures old(live) != old(items) ==> live == old(live) && leaked == old(leaked) + [items[|old(items)|]]
    {
      hide *;
      ValidFacts();
      var item := new Item(this, data);
      UnwrittenSnoc(items, item);
      NewItem(item, data);
      RecordItem(item);
      first := Link(item);
      queued := queued + data;
      MakeValid();
    }

    /** The new item is on the books. */
    ghost method RecordItem(item: Item)
      requires Ledger() && item !in created
      modifies this`created, this`live, this`leaked
      ensures Ledger() && created == old(created) + [item]
      ensures if old(live) == items then live == old(live) + [item] && leaked == old(leaked)
              else live == old(live) && leaked == old(leaked) + [item]
    {
      BalancedAppend(created, released, live, again, leaked, item);
      created := created + [item];
      if live == items {
        live := live + [item];
      } else {
        leaked := leaked + [item];
      }
    }

    lemma SomeItems()
      requires Valid()
      ensures items == [] <==> queued == []
    {
    }

    /** Nothing of a chain in use has been freed. */
    lemma AllHeld()
      requires Valid()
      ensures live == items ==> Held()
    {
    }

    lemma ValidFacts()
      requires Valid()
      ensures Linked() && AllOk(items) && queued == Unwritten(items) && (items == [] <==> queued == [])
    {
    }

    lemma MakeValid()
      requires Linked() && AllOk(items) && queued == Unwritten(items) && items != [] && queued != []
      ensures Valid()
    {
    }

    static lemma NewItem(item: Item, data: seq<byte>)
      requires item.data == data != [] && item.offset == 0 && item.size == |data|
      ensures item.Ok() && item.Bytes() == data
    {
    }

    /** One round of the loop of process_client_socket_out. */
    method WriteItem(k: Kernel, fd: int, item: Item, ghost done: nat)
      returns (r: Io, next: Item?, ghost done': nat, ghost data: seq<byte>)
      requires Linked() && done < |items| && items[done] == item && AllOk(items[done..])
      requires Ledger() && live == items[done..]
      modifies k`st, k`stalls, items`offset, items`size, this`released, this`live
      ensures done <= done' <= |items| && done' <= done + 1 && released == old(released) + items[done..done']
      ensures done' == done ==> 0 < item.size == old(item.size) - |data|
      ensures done' > done ==> |data| == old(item.size)
      ensures next == First(items[done'..]) && AllOk(items[done'..])
      ensures old(Unwritten(items[done..])) == data + Unwritten(items[done'..])
      ensures k.st == old(k.st).Sent(fd, data)
      ensures if r.Count? then data != [] else data == [] && next == item && done' == done
      ensures old(k.stalls.waited) <= k.stalls.waited && (r.Again? ==> fd in k.stalls.waited)
      ensures k.calm && fd in old(k.st.open) ==> !r.Failed?
      ensures Ledger() && live == items[done'..]
    {
      hide Unwritten, AllOk, Chained, Owned, Linked, Ledger;
      ghost var rest := items[done..];
      ItemsApart(done);
      Start(rest);
      next, done', data := item, done, [];
      var bytes := item.data[item.offset..item.offset + item.size];
      assert bytes == item.Bytes();
      r := k.Write(fd, bytes);
      if r == Count(item.size) {
        assert bytes[..r.n] == bytes;
        data := bytes;
        next := NextItem(item, done);
        done' := done + 1;
        FreeItem(item);
      } else if r.Count? {
        data := bytes[..r.n];
        Advance(item, r.n, rest);
      } else {
        SentNothing(k.st, fd);
      }
    }

    ghost method FreeItem(item: Item)
      requires Ledger() && live != [] && live[0] == item
      modifies this`released, this`live
      ensures Ledger() && released == old(released) + [item] && live == old(live)[1..]
    {
      BalancedFree(created, released, live, again, leaked);
      released, live := released + [item], live[1..];
    }

    lemma ItemsApart(done: nat)
      requires Linked() && done < |items|
      ensures items[done] !in items[done + 1..]
      ensures items[done..][0] == items[done] && items[done..][1..] == items[done + 1..]
    {
    }

    /** The loop of process_client_socket_out: writes items until the chain is
        exhausted, the connection has to wait, or a write fails. */
    method Drain(k: Kernel, fd: int) returns (item: Item?, failed: bool, ghost done: nat, ghost written: seq<byte>)
      requires Valid() && Ledger() && live == items
      modifies k`st, k`stalls, items`offset, items`size, this`released, this`live
      ensures Ledger() && Held() && done <= |items| && live == items[done..]
      ensures done <= |items| && item == First(items[done..]) && released == old(released) + items[..done]
      ensures AllOk(items[done..]) && written + Unwritten(items[done..]) == queued
      ensures Remaining(items[done..]) && (items[done..] == [] <==> Unwritten(items[done..]) == [])
      ensures k.st == old(k.st).Sent(fd, written)
      ensures failed ==> item != null
      ensures items != [] ==> (done > 0 <==> |written| >= old(items[0].size))
      ensures item != null && !failed ==> fd in k.stalls.waited
      ensures old(k.stalls.waited) <= k.stalls.waited
      ensures k.calm && fd in old(k.st.open) ==> !failed
    {
      hide *;
      DrainFacts();
      item, failed, done, written := head, false, 0, [];
      SentNothing(k.st, fd);
      while item != null
        invariant done <= |items| && item == First(items[done..]) && released == old(released) + items[..done]
        invariant Linked() && AllOk(items[done..]) && Ledger() && live == items[done..]
        invariant old(k.stalls.waited) <= k.stalls.waited
        invariant written + Unwritten(items[done..]) == queued
        invariant items != [] && done == 0 ==> 0 < items[0].size == old(items[0].size) - |written|
        invariant items != [] && done > 0 ==> |written| >= old(items[0].size)
        invariant k.st == old(k.st).Sent(fd, written) && !failed
        decreases |queued| - |written|
      {
        ghost var data, before;
        var r;
        before := done;
        ItemAt(done);
        SentOpen(old(k.st), fd, written);
        r, item, done, data := WriteItem(k, fd, item, done);
        SentTwice(old(k.st), fd, written, data);
        Joined(items, before, done, old(released));
        assert written + (data + Unwritten(items[done..])) == (written + data) + Unwritten(items[done..]);
        written := written + data;
        if !r.Count? {
          failed := r.Failed?;
          break;
        }
      }
      ItemAt(done);
      RemainingAfter(done);
      HeldAfter(done, old(released));
    }

    lemma HeldAfter(done: nat, earlier: seq<Item>)
      requires Linked() && done <= |items| && released == earlier + items[..done] && live == items[done..]
      ensures Held()
    {
    }

    lemma DrainFacts()
      requires Valid()
      ensures Linked() && items[0..] == items && AllOk(items[0..])
      ensures queued == Unwritten(items) && [] + queued == queued
      ensures head == First(items) && released + items[..0] == released && (items != [] ==> items[0].size > 0)
    {
    }

    lemma ItemAt(done: nat)
      requires done <= |items|
      ensures First(items[done..]) == if done < |items| then items[done] else null
      ensures done == |items| <==> items[done..] == []
    {
    }

    static lemma Joined(s: seq<Item>, before: nat, done: nat, earlier: seq<Item>)
      requires before <= done <= |s|
      ensures (earlier + s[..before]) + s[before..done] == earlier + s[..done]
    {
      assert s[..before] + s[before..done] == s[..done];
    }

    /** The items a drain has left, which may become the whole queue. */
    ghost predicate Remaining(s: seq<Item>)
      reads this`tail, s
    {
      Chained(s) && Owned(s, this) && AllOk(s) && (s != [] ==> tail == s[|s| - 1])
    }

    lemma RemainingAfter(done: nat)
      requires Linked() && done <= |items| && AllOk(items[done..])
      ensures Remaining(items[done..]) && (items[done..] == [] <==> Unwritten(items[done..]) == [])
    {
      if done < |items| {
        assert items[done..][0].Ok() && |items[done..][0].Bytes()| > 0;
      }
    }

    /** Makes the remaining items the queue. */
    method Resume(item: Item?, ghost rest: seq<Item>)
      requires Remaining(rest) && item == First(rest)
      modifies this`head, this`items, this`queued
      ensures Valid() && items == rest && queued == Unwritten(rest) && head == item
    {
      head := item;
      items, queued := rest, Unwritten(rest);
      if rest != [] {
        assert rest[0].Ok() && |rest[0].Bytes()| > 0;
      }
    }

    /** free_client_output: every item in the chain is freed, also those freed before. */
    method Free()
      requires Ledger() && Held()
      modifies this`head, this`items, this`queued, this`released, this`live, this`again
      ensures Valid() && items == [] && queued == [] && head == null && released == old(released) + old(items)
      ensures Ledger() && live == [] && again == old(again) + old(Freed())
    {
      hide Ledger;
      FreeAll();
      head := null;
      items, queued := [], [];
    }

    /** The part of the chain that has been freed. */
    ghost function Freed(): seq<Item>
      reads this`items, this`live
    {
      if |live| <= |items| then items[..|items| - |live|] else []
    }

    lemma FreedIs(done: nat)
      requires done <= |items| && live == items[done..]
      ensures Freed() == items[..done]
    {
    }

    ghost method FreeAll()
      requires Ledger() && Held() && |live| <= |items|
      modifies this`released, this`live, this`again
      ensures released == old(released) + items
      ensures Ledger() && live == [] && again == old(again) + items[..|items| - |old(live)|]
    {
      BalancedFreeAll(created, released, live, again, leaked, items);
      released, again, live := released + items, again + items[..|items| - |live|], [];
    }

    /** The queue is empty; what was left of it, all of which has been freed, is forgotten. */
    method Clear()
      requires live == []
      modifies this`head, this`items, this`queued
      ensures Valid() && items == [] && queued == [] && head == null
    {
      head := null;
      items, queued := [], [];
    }
  }

  lemma Start(s: seq<Item>)
    requires s != [] && AllOk(s)
    ensures s[0].Ok() && AllOk(s[1..]) && Unwritten(s) == s[0].Bytes() + Unwritten(s[1..])
  {
  }

  method Advance(item: Item, n: nat, ghost s: seq<Item>)
    requires s != [] && s[0] == item && AllOk(s) && item !in s[1..] && 0 < n < item.size
    modifies item`offset, item`size
    ensures AllOk(s) && item.size == old(item.size) - n
    ensures old(Unwritten(s)) == old(item.Bytes())[..n] + Unwritten(s)
  {
    hide Unwritten;
    ghost var rest := s[1..];
    Start(s);
    assert AllOk(rest);
    ghost var later, bytes := Unwritten(rest), item.Bytes();
    item.offset, item.size := item.offset + n, item.size - n;
    assert Unwritten(rest) == later && AllOk(rest);
    assert forall i :: 0 < i < |s| ==> s[i] == rest[i - 1];
    assert AllOk(s);
    Start(s);
    assert bytes == bytes[..n] + item.Bytes();
  }
}
