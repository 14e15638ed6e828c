/** gfxQueueGSync: a queue whose Get blocks until an item is available or the
    timeout expires; Put and Push never block. */
module GQueueGSync {
  import opened GQueueCore

  class Queue {
    var head: Item?
    var tail: Item?
    /** The count of the queue's semaphore: Put and Push signal it, Get waits on it. */
    var sem: nat
    /** The linked items, head first. */
    ghost var Contents: seq<Item>

    /** The links are intact and the semaphore counts exactly the linked items. */
    ghost predicate Valid()
      reads this, Contents`next
    {
      Linked(Contents, head, tail) && sem == |Contents|
    }

    /** gfxQueueGSyncInit: an empty queue. */
    constructor Init()
      ensures Valid() && Contents == []
    {
      head, tail := null, null;
      sem := 0;
      Contents := [];
    }

    /** gfxQueueGSyncGet (and Pop): wait up to `ms` for an item, then unlink and
        return the head item; null when the wait times out. With no other thread in
        the model, an empty queue stays empty, so any finite wait times out, and a
        TIME_INFINITE wait on an empty queue would never return. */
    method Get(ms: DelayTime) returns (pitem: Item?)
      requires Valid()
      requires ms == TimeInfinite ==> Contents != []
      modifies this
      ensures Valid()
      ensures old(Contents) == [] ==> pitem == null && Contents == []
      ensures old(Contents) != [] ==> pitem == old(Contents)[0] && Contents == old(Contents)[1..]
    {
      pitem := head;
      if pitem != null {
        head := pitem.next;
        if head == null {
          tail := null;
        }
        sem := sem - 1;
        Contents := Contents[1..];
      }
    }

    /** gfxQueueGSyncPut: link `pitem` at the tail. Linking an item that is already
        in the queue is a caller error. */
    method Put(pitem: Item)
      requires Valid() && pitem !in Contents
      modifies this, pitem`next, tail
      ensures Valid()
      ensures Contents == old(Contents) + [pitem]
    {
      pitem.next := null;
      if tail == null {
        head := pitem;
      } else {
        tail.next := pitem;
      }
      tail := pitem;
      sem := sem + 1;
      Contents := Contents + [pitem];
    }

    /** gfxQueueGSyncPush: link `pitem` at the head, so that it is the next one out. */
    method Push(pitem: Item)
      requires Valid() && pitem !in Contents
      modifies this, pitem`next
      ensures Valid()
      ensures Contents == [pitem] + old(Contents)
    {
      pitem.next := head;
      head := pitem;
      if tail == null {
        tail := pitem;
      }
      sem := sem + 1;
      Contents := [pitem] + Contents;
    }

    /** gfxQueueGSyncRemove: unlink `pitem` wherever it is; nothing happens when it
        is not in the queue. */
    method Remove(pitem: Item)
      requires Valid()
      modifies this, Contents`next
      ensures Valid()
      ensures Contents == Without(old(Contents), pitem)
      ensures pitem !in Contents
    {
      ghost var s := Contents;
      var found, prev;
      ghost var k;
      found, prev, k := Locate(head, s, pitem);
      if found {
        var after := pitem.next;
        assert after == (if k + 1 < |s| then s[k + 1] else null);
        if prev == null {
          head := after;
        } else {
          prev.next := after;
        }
        if tail == pitem {
          tail := prev;
        }
        assert forall i :: 0 <= i < |s| - 1 && i != k - 1 ==> s[i].next == s[i + 1];
        Contents := s[..k] + s[k + 1..];
        sem := sem - 1;
        UnlinkedChain(s, k, head, tail);
        WithoutAt(s, k);
      } else {
        assert Without(s, pitem) == s;
      }
    }

    /** gfxQueueGSyncIsEmpty. */
    method IsEmpty() returns (empty: bool)
      requires Valid()
      ensures empty <==> Contents == []
    {
      empty := head == null;
    }

    /** gfxQueueGSyncIsIn: walks the queue. */
    method IsIn(pitem: Item) returns (isIn: bool)
      requires Valid()
      ensures isIn <==> pitem in Contents
    {
      var prev;
      ghost var k;
      isIn, prev, k := Locate(head, Contents, pitem);
    }
  }
}
