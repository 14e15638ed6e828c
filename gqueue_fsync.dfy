/** gfxQueueFSync: a fully synchronous queue. Get blocks until an item is available;
    Put and Push link the item and then block until that item has been taken out of
    the queue again (by a Get/Pop or a Remove), or their timeout expires. */
module GQueueFSync {
  import opened GQueueCore

  class Queue {
    var head: Item?
    var tail: Item?
    /** The count of the queue's semaphore: Put and Push signal it, Get waits on it. */
    var sem: nat
    /** The linked items, head first. */
    ghost var Contents: seq<Item>

    /** The links are intact and the semaphore counts exactly the linked items. */
    ghost predicate Valid()
      reads this, Contents`next
    {
      Linked(Contents, head, tail) && sem == |Contents|
    }

    /** gfxQueueFSyncInit: an empty queue. */
    constructor Init()
      ensures Valid() && Contents == []
    {
      head, tail := null, null;
      sem := 0;
      Contents := [];
    }

    /** gfxQueueFSyncGet (and Pop): wait up to `ms` for an item, then unlink the head
        item, signal its semaphore (waking the producer blocked in its Put/Push) and
        return it; null when the wait times out. With no other thread in the model an
        empty queue stays empty, so any finite wait times out, and a TIME_INFINITE
        wait on an empty queue would never return. */
    method Get(ms: DelayTime) returns (pitem: Item?)
      requires Valid()
      requires ms == TimeInfinite ==> Contents != []
      modifies this, Contents`released
      ensures Valid()
      ensures old(Contents) == [] ==> pitem == null && Contents == []
      ensures old(Contents) != [] ==> pitem == old(Contents)[0] && Contents == old(Contents)[1..]
      ensures pitem != null ==> pitem.released && pitem !in Contents
      ensures forall x :: x in old(Contents) ==> x.released == (x == pitem || old(x.released))
    {
      pitem := head;
      if pitem != null {
        head := pitem.next;
        if head == null {
          tail := null;
        }
        sem := sem - 1;
        Contents := Contents[1..];
        pitem.released := true;
      }
    }

    /** gfxQueueFSyncPut: link `pitem` at the tail (its semaphore starts unsignalled),
        signal the queue, then wait up to `ms` for `pitem` to be taken out.
        `takenMeanwhile` is the number of Gets that other threads complete on this
        queue before the wait ends: none when `ms` is TIME_IMMEDIATE, and, when it is
        TIME_INFINITE, as many as it takes to reach `pitem`, since the wait ends only
        then. The result is TRUE exactly when `pitem` was taken; on a timeout it is
        FALSE and `pitem` stays linked. */
    method Put(pitem: Item, ms: DelayTime, takenMeanwhile: nat) returns (ok: bool)
      requires Valid() && pitem !in Contents
      requires takenMeanwhile <= |Contents| + 1
      requires ms == TimeImmediate ==> takenMeanwhile == 0
      requires ms == TimeInfinite ==> takenMeanwhile == |Contents| + 1
      modifies this, pitem, tail, Contents`released
      ensures Valid()
      ensures Contents == (old(Contents) + [pitem])[takenMeanwhile..]
      ensures forall x :: x in (old(Contents) + [pitem])[..takenMeanwhile] ==> x.released
      ensures forall x :: x in Contents && x != pitem ==> x.released == old(x.released)
      ensures ok <==> pitem !in Contents
      ensures ok == pitem.released
    {
      Append(pitem);
      ok := AwaitTaken(pitem, takenMeanwhile);
    }

    /** gfxQueueFSyncPush: as Put, but `pitem` is linked at the head, so the first Get
        that other threads complete takes it. */
    method Push(pitem: Item, ms: DelayTime, takenMeanwhile: nat) returns (ok: bool)
      requires Valid() && pitem !in Contents
      requires takenMeanwhile <= |Contents| + 1
      requires ms == TimeImmediate ==> takenMeanwhile == 0
      requires ms == TimeInfinite ==> takenMeanwhile >= 1
      modifies this, pitem, Contents`released
      ensures Valid()
      ensures Contents == ([pitem] + old(Contents))[takenMeanwhile..]
      ensures forall x :: x in ([pitem] + old(Contents))[..takenMeanwhile] ==> x.released
      ensures forall x :: x in Contents && x != pitem ==> x.released == old(x.released)
      ensures ok <==> pitem !in Contents
      ensures ok == pitem.released
    {
      Prepend(pitem);
      ok := AwaitTaken(pitem, takenMeanwhile);
    }

    /** The linking half of Put: `pitem` goes to the tail with an unsignalled
        semaphore, and the queue's semaphore is signalled. */
    method Append(pitem: Item)
      requires Valid() && pitem !in Contents
      modifies this, pitem, tail
      ensures Valid()
      ensures Contents == old(Contents) + [pitem]
      ensures !pitem.released
      ensures forall x :: x in old(Contents) ==> x.released == old(x.released)
    {
      pitem.next := null;
      pitem.released := false;
      if tail == null {
        head := pitem;
      } else {
        tail.next := pitem;
      }
      tail := pitem;
      sem := sem + 1;
      Contents := Contents + [pitem];
    }

    /** The linking half of Push: `pitem` goes to the head with an unsignalled
        semaphore, and the queue's semaphore is signalled. */
    method Prepend(pitem: Item)
      requires Valid() && pitem !in Contents
      modifies this, pitem
      ensures Valid()
      ensures Contents == [pitem] + old(Contents)
      ensures !pitem.released
    {
      pitem.next := head;
      pitem.released := false;
      head := pitem;
      if tail == null {
        tail := pitem;
      }
      sem := sem + 1;
      Contents := [pitem] + Contents;
    }

    /** The waiting half of Put and Push: while the producer waits on the semaphore
        of the linked `pitem`, other threads complete `n` Gets; the wait succeeds
        exactly when one of them took `pitem`. */
    method AwaitTaken(pitem: Item, n: nat) returns (ok: bool)
      requires Valid() && pitem in Contents && !pitem.released
      requires n <= |Contents|
      modifies this, Contents`released
      ensures Valid()
      ensures Contents == old(Contents)[n..]
      ensures forall j :: 0 <= j < n ==> old(Contents)[j].released
      ensures forall x :: x in Contents && x != pitem ==> x.released == old(x.released)
      ensures ok <==> pitem !in Contents
      ensures ok == pitem.released
    {
      ghost var all := Contents;
      var i := 0;
      while i < n
        invariant i <= n
        invariant Valid() && Contents == all[i..]
        invariant forall j :: 0 <= j < i ==> all[j].released
        invariant forall x :: x in Contents ==> x.released == (x != pitem && old(x.released))
        invariant pitem !in Contents ==> pitem.released
      {
        var taken := Get(TimeImmediate);
        i := i + 1;
      }
      ok := pitem.released;
    }

    /** gfxQueueFSyncRemove: unlink `pitem` wherever it is and signal its semaphore,
        so that a producer waiting in Put/Push for it is released; nothing happens
        when it is not in the queue. */
    method Remove(pitem: Item)
      requires Valid()
      modifies this, Contents`next, Contents`released
      ensures Valid()
      ensures Contents == Without(old(Contents), pitem)
      ensures pitem !in Contents
      ensures pitem in old(Contents) ==> pitem.released
      ensures pitem !in old(Contents) ==> pitem.released == old(pitem.released)
      ensures forall x :: x in Contents ==> x.released == old(x.released)
    {
      var found := Unlink(pitem);
      if found {
        pitem.released := true;
      }
    }

    /** The unlinking half of Remove. */
    method Unlink(pitem: Item) returns (found: bool)
      requires Valid()
      modifies this, Contents`next
      ensures Valid()
      ensures found <==> pitem in old(Contents)
      ensures Contents == Without(old(Contents), pitem)
      ensures pitem !in Contents
    {
      ghost var s := Contents;
      var prev;
      ghost var k;
      found, prev, k := Locate(head, s, pitem);
      if found {
        var after := pitem.next;
        assert after == (if k + 1 < |s| then s[k + 1] else null);
        if prev == null {
          head := after;
        } else {
          prev.next := after;
        }
        if tail == pitem {
          tail := prev;
        }
        assert forall i :: 0 <= i < |s| - 1 && i != k - 1 ==> s[i].next == s[i + 1];
        sem := sem - 1;
        Contents := s[..k] + s[k + 1..];
        UnlinkedChain(s, k, head, tail);
        WithoutAt(s, k);
      } else {
        assert Without(s, pitem) == s;
      }
    }

    /** gfxQueueFSyncIsEmpty. */
    method IsEmpty() returns (empty: bool)
      requires Valid()
      ensures empty <==> Contents == []
    {
      empty := head == null;
    }

    /** gfxQueueFSyncIsIn: walks the queue. */
    method IsIn(pitem: Item) returns (isIn: bool)
      requires Valid()
      ensures isIn <==> pitem in Contents
    {
      var prev;
      ghost var k;
      isIn, prev, k := Locate(head, Contents, pitem);
    }
  }
}
