/** Concrete runs of the FSync queue, each with one producer that does not wait. */
module GQueueScenarios {
  import opened GQueueCore
  import GQueueFSync

  /** Three items put with TIME_IMMEDIATE time out at once and stay linked; Gets with
      TIME_IMMEDIATE then return them in the order they were put, then null, and each
      Get releases the producer of the item it took. */
  method PutThreeGetFour(a: Item, b: Item, c: Item) returns (oks: seq<bool>, got: seq<Item?>)
    requires a != b && b != c && a != c
    modifies a, b, c
    ensures oks == [false, false, false]
    ensures got == [a, b, c, null]
    ensures a.released && b.released && c.released
  {
    var q := new GQueueFSync.Queue.Init();
    oks := PutThree(q, a, b, c);
    var g1 := q.Get(TimeImmediate);
    var g2 := q.Get(TimeImmediate);
    var g3 := q.Get(TimeImmediate);
    var g4 := q.Get(TimeImmediate);
    got := [g1, g2, g3, g4];
  }

  /** The producer half of `PutThreeGetFour`. */
  method PutThree(q: GQueueFSync.Queue, a: Item, b: Item, c: Item) returns (oks: seq<bool>)
    requires q.Valid() && q.Contents == []
    requires a != b && b != c && a != c
    modifies q, a, b, c
    ensures q.Valid() && q.Contents == [a, b, c]
    ensures oks == [false, false, false]
  {
    var okA := q.Put(a, TimeImmediate, 0);
    var okB := q.Put(b, TimeImmediate, 0);
    var okC := q.Put(c, TimeImmediate, 0);
    oks := [okA, okB, okC];
  }

  /** A Put that times out leaves its item linked; removing the item afterwards
      signals its semaphore. */
  method TimeoutThenRemove(a: Item) returns (ok: bool, linked: bool, linkedAfter: bool)
    modifies a
    ensures !ok && linked && !linkedAfter
    ensures a.released
  {
    var q := new GQueueFSync.Queue.Init();
    ok := q.Put(a, TimeImmediate, 0);
    linked := q.IsIn(a);
    q.Remove(a);
    linkedAfter := q.IsIn(a);
  }
}
