/** gfxQueueASync: a queue none of whose operations ever block. */
module GQueueASync {
  import opened GQueueCore

  class Queue {
    var head: Item?
    var tail: Item?
    /** The linked items, head first. */
    ghost var Contents: seq<Item>

    ghost predicate Valid()
      reads this, Contents`next
    {
      Linked(Contents, head, tail)
    }

    /** gfxQueueASyncInit: an empty queue. */
    constructor Init()
      ensures Valid() && Contents == []
    {
      head, tail := null, null;
      Contents := [];
    }

    /** gfxQueueASyncGet (and Pop): unlink and return the head item, or null at once
        when the queue is empty. */
    method Get() returns (pitem: Item?)
      requires Valid()
      modifies this
      ensures Valid()
      ensures old(Contents) == [] ==> pitem == null && Contents == []
      ensures old(Contents) != [] ==> pitem == old(Contents)[0] && Contents == old(Contents)[1..]
    {
      pitem := head;
      if pitem != null {
        head := pitem.next;
        if head == null {
          tail := null;
        }
        Contents := Contents[1..];
      }
    }

    /** gfxQueueASyncPut: link `pitem` at the tail. Linking an item that is already
        in the queue is a caller error. */
    method Put(pitem: Item)
      requires Valid() && pitem !in Contents
      modifies this, pitem`next, tail
      ensures Valid()
      ensures Contents == old(Contents) + [pitem]
    {
      pitem.next := null;
      if tail == null {
        head := pitem;
      } else {
        tail.next := pitem;
      }
      tail := pitem;
      Contents := Contents + [pitem];
    }

    /** gfxQueueASyncPush: link `pitem` at the head, so that it is the next one out. */
    method Push(pitem: Item)
      requires Valid() && pitem !in Contents
      modifies this, pitem`next
      ensures Valid()
      ensures Contents == [pitem] + old(Contents)
    {
      pitem.next := head;
      head := pitem;
      if tail == null {
        tail := pitem;
      }
      Contents := [pitem] + Contents;
    }

    /** gfxQueueASyncRemove: unlink `pitem` wherever it is; nothing happens when it
        is not in the queue. */
    method Remove(pitem: Item)
      requires Valid()
      modifies this, Contents`next
      ensures Valid()
      ensures Contents == Without(old(Contents), pitem)
      ensures pitem !in Contents
    {
      ghost var s := Contents;
      var found, prev;
      ghost var k;
      found, prev, k := Locate(head, s, pitem);
      if found {
        var after := pitem.next;
        assert after == (if k + 1 < |s| then s[k + 1] else null);
        if prev == null {
          head := after;
        } else {
          prev.next := after;
        }
        if tail == pitem {
          tail := prev;
        }
        assert forall i :: 0 <= i < |s| - 1 && i != k - 1 ==> s[i].next == s[i + 1];
        Contents := s[..k] + s[k + 1..];
        UnlinkedChain(s, k, head, tail);
        WithoutAt(s, k);
      } else {
        assert Without(s, pitem) == s;
      }
    }

    /** gfxQueueASyncIsEmpty. */
    method IsEmpty() returns (empty: bool)
      requires Valid()
      ensures empty <==> Contents == []
    {
      empty := head == null;
    }

    /** gfxQueueASyncIsIn: walks the queue. */
    method IsIn(pitem: Item) returns (isIn: bool)
      requires Valid()
      ensures isIn <==> pitem in Contents
    {
      var prev;
      ghost var k;
      isIn, prev, k := Locate(head, Contents, pitem);
    }
  }
}
