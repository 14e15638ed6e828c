/** What the three GQUEUE variants share: the wait times, the intrusive item, the
    link invariant that ties a ghost sequence of items to the head/next/tail chain,
    the list walk used by IsIn and Remove, and the value-level deque discipline
    (Put appends, Push prepends, Get/Pop takes the head, Remove unlinks one item)
    about which the ordering lemmas are stated. */
module GQueueCore {

  /** delaytime_t of the Win32 port: a DWORD number of milliseconds. */
  newtype DelayTime = x: int | 0 <= x < 0x1_0000_0000

  /** Do not wait at all. */
  const TimeImmediate: DelayTime := 0
  /** Wait until the condition holds, however long that takes (Win32 INFINITE). */
  const TimeInfinite: DelayTime := 0xFFFF_FFFF

  /** A caller-owned queue item. `next` is the intrusive link. `released` stands for
      the per-item semaphore of an FSync item: it is set when the item is unlinked by
      Get/Pop or Remove, which is what wakes a producer waiting in Put/Push. ASync and
      GSync items have no semaphore and their queues never touch the flag. */
  class Item {
    var next: Item?
    var released: bool

    constructor ()
      ensures next == null && !released
    {
      next := null;
      released := false;
    }
  }

  ghost predicate Distinct<T>(s: seq<T>) {
    forall i, j :: 0 <= i < j < |s| ==> s[i] != s[j]
  }

  /** `items` is exactly the chain that starts at `head` and follows `next` to null:
      no item twice, each item's `next` is its successor, the last one's is null. */
  ghost predicate Chain(items: seq<Item>, head: Item?)
    reads items`next
  {
    && Distinct(items)
    && head == (if items == [] then null else items[0])
    && (items != [] ==> items[|items| - 1].next == null)
    && (forall i :: 0 <= i < |items| - 1 ==> items[i].next == items[i + 1])
  }

  /** The queue invariant: the chain from `head`, with `tail` its last item
      (both null exactly when the queue is empty). */
  ghost predicate Linked(items: seq<Item>, head: Item?, tail: Item?)
    reads items`next
  {
    && Chain(items, head)
    && tail == (if items == [] then null else items[|items| - 1])
  }

  /** Walks the chain from `head` looking for `pitem`, as IsIn and Remove do.
      On success `prev` is the item linked before it (null when it is the head). */
  method Locate(head: Item?, ghost items: seq<Item>, pitem: Item) returns (found: bool, prev: Item?, ghost k: nat)
    requires Chain(items, head)
    ensures found <==> pitem in items
    ensures found ==> k < |items| && items[k] == pitem
    ensures found ==> prev == (if k == 0 then null else items[k - 1])
  {
    prev := null;
    var cur := head;
    k := 0;
    while cur != null && cur != pitem
      invariant k <= |items|
      invariant cur == (if k < |items| then items[k] else null)
      invariant prev == (if k == 0 then null else items[k - 1])
      invariant pitem !in items[..k]
      decreases |items| - k
    {
      prev := cur;
      cur := cur.next;
      k := k + 1;
    }
    found := cur != null;
  }

  /** Unlinking the item at position `k` (its predecessor's `next` now skips it, and
      `head`/`tail` move off it) leaves the chain of the remaining items. */
  lemma UnlinkedChain(s: seq<Item>, k: nat, head: Item?, tail: Item?)
    requires k < |s| && Distinct(s)
    requires s[|s| - 1].next == null
    requires forall i :: 0 <= i < |s| - 1 && i != k - 1 ==> s[i].next == s[i + 1]
    requires k > 0 ==> s[k - 1].next == (if k + 1 < |s| then s[k + 1] else null)
    requires head == (if k > 0 then s[0] else if 1 < |s| then s[1] else null)
    requires tail == (if k < |s| - 1 then s[|s| - 1] else if k > 0 then s[k - 1] else null)
    ensures Linked(s[..k] + s[k + 1..], head, tail)
  {
    var r := s[..k] + s[k + 1..];
    assert |r| == |s| - 1;
    forall i | 0 <= i < |r| ensures r[i] == s[if i < k then i else i + 1] {
    }
    forall i, j | 0 <= i < j < |r| ensures r[i] != r[j] {
      var i', j' := if i < k then i else i + 1, if j < k then j else j + 1;
      assert r[i] == s[i'] && r[j] == s[j'] && i' < j';
    }
    forall i | 0 <= i < |r| - 1 ensures r[i].next == r[i + 1] {
      if i + 1 < k {
      } else if i + 1 == k {
        assert r[i] == s[k - 1] && r[i + 1] == s[k + 1];
      } else {
        assert r[i] == s[i + 1] && r[i + 1] == s[i + 2];
      }
    }
    if r != [] {
      if k == |s| - 1 {
        assert r[|r| - 1] == s[k - 1];
      } else {
        assert r[|r| - 1] == s[|s| - 1];
      }
    }
  }

  /** `s` with the first occurrence of `x` taken out: what Remove leaves behind. */
  function Without<T(==)>(s: seq<T>, x: T): (r: seq<T>)
    ensures x !in s ==> r == s
    ensures x in s ==> |r| == |s| - 1
    ensures forall y :: y in r ==> y in s
  {
    if s == [] then []
    else if s[0] == x then s[1..]
    else [s[0]] + Without(s[1..], x)
  }

  /** Taking out the item at position `k` (its first occurrence) keeps every other
      item, in the same order. */
  lemma {:induction false} WithoutAt<T>(s: seq<T>, k: nat)
    requires k < |s| && s[k] !in s[..k]
    ensures Without(s, s[k]) == s[..k] + s[k + 1..]
  {
    if k > 0 {
      assert s[1..][k - 1] == s[k];
      assert s[k] !in s[1..][..k - 1] by {
        assert s[1..][..k - 1] == s[1..k];
      }
      WithoutAt(s[1..], k - 1);
      assert s[1..][..k - 1] + s[1..][k..] == s[1..k] + s[k + 1..];
      assert [s[0]] + s[1..k] == s[..k];
    }
  }

  /** In a queue, whose items are distinct, the removed item is gone for good. */
  lemma {:induction false} WithoutRemovesAll<T>(s: seq<T>, x: T)
    requires Distinct(s)
    ensures x !in Without(s, x)
    ensures Distinct(Without(s, x))
  {
    if s != [] && s[0] != x {
      assert Distinct(s[1..]) by {
        forall i, j | 0 <= i < j < |s| - 1 ensures s[1..][i] != s[1..][j] {
          assert s[1..][i] == s[i + 1] && s[1..][j] == s[j + 1];
        }
      }
      WithoutRemovesAll(s[1..], x);
      assert s[0] !in s[1..] by {
        forall j | 0 <= j < |s| - 1 ensures s[1..][j] != s[0] {
          assert s[1..][j] == s[j + 1];
        }
      }
      var r := Without(s, x);
      assert r == [s[0]] + Without(s[1..], x);
      forall i, j | 0 <= i < j < |r| ensures r[i] != r[j] {
        if i == 0 {
          assert r[j] == Without(s[1..], x)[j - 1];
        } else {
          assert r[i] == Without(s[1..], x)[i - 1] && r[j] == Without(s[1..], x)[j - 1];
        }
      }
    } else if s != [] {
      forall j | 0 <= j < |s| - 1 ensures s[1..][j] != x {
        assert s[1..][j] == s[j + 1];
      }
      forall i, j | 0 <= i < j < |s| - 1 ensures s[1..][i] != s[1..][j] {
        assert s[1..][i] == s[i + 1] && s[1..][j] == s[j + 1];
      }
    }
  }

  /** The operations on a queue's contents, as values. Pop is the same as Get. */
  datatype Op<T> = Put(item: T) | Push(item: T) | Get | Remove(item: T)

  /** The contents after one operation. */
  function Next<T(==)>(q: seq<T>, op: Op<T>): seq<T>
  {
    match op
    case Put(x) => q + [x]
    case Push(x) => [x] + q
    case Get => if q == [] then q else q[1..]
    case Remove(x) => Without(q, x)
  }

  /** What one operation hands out: the head for a Get on a non-empty queue, else nothing. */
  function Out<T>(q: seq<T>, op: Op<T>): seq<T>
  {
    if op.Get? && q != [] then [q[0]] else []
  }

  /** The contents after running `ops` from contents `q`. */
  function After<T(==)>(q: seq<T>, ops: seq<Op<T>>): seq<T>
    decreases |ops|
  {
    if ops == [] then q else After(Next(q, ops[0]), ops[1..])
  }

  /** The items the Gets of `ops` hand out, in order, when run from contents `q`. */
  function Handed<T(==)>(q: seq<T>, ops: seq<Op<T>>): seq<T>
    decreases |ops|
  {
    if ops == [] then [] else Out(q, ops[0]) + Handed(Next(q, ops[0]), ops[1..])
  }

  /** The items the Puts of `ops` insert, in order. */
  function PutItems<T>(ops: seq<Op<T>>): seq<T>
    decreases |ops|
  {
    if ops == [] then []
    else (if ops[0].Put? then [ops[0].item] else []) + PutItems(ops[1..])
  }

  /** Every operation of `ops` is a Put or a Get. */
  predicate PutsAndGets<T>(ops: seq<Op<T>>)
    decreases |ops|
  {
    ops == [] || ((ops[0].Put? || ops[0].Get?) && PutsAndGets(ops[1..]))
  }

  /** FIFO: with only Put and Get, what comes out followed by what is left is the
      initial contents followed by the inserted items, in insertion order. */
  lemma {:induction false} PutGetIsFifo<T>(q: seq<T>, ops: seq<Op<T>>)
    requires PutsAndGets(ops)
    ensures Handed(q, ops) + After(q, ops) == q + PutItems(ops)
    decreases |ops|
  {
    if ops != [] {
      var q1, rest := Next(q, ops[0]), ops[1..];
      PutGetIsFifo(q1, rest);
      var h, a, p := Handed(q1, rest), After(q1, rest), PutItems(rest);
      assert h + a == q1 + p;
      assert Handed(q, ops) == Out(q, ops[0]) + h;
      assert After(q, ops) == a;
      if ops[0].Put? {
        var x := ops[0].item;
        assert PutItems(ops) == [x] + p;
        assert (q + [x]) + p == q + ([x] + p);
      } else if q != [] {
        assert PutItems(ops) == p;
        assert [q[0]] + (q[1..] + p) == ([q[0]] + q[1..]) + p;
        assert [q[0]] + q[1..] == q;
      } else {
        assert PutItems(ops) == p;
      }
    }
  }

  /** Running `a` and then `b` is running `a + b`. */
  lemma {:induction false} RunAppend<T>(q: seq<T>, a: seq<Op<T>>, b: seq<Op<T>>)
    ensures After(q, a + b) == After(After(q, a), b)
    ensures Handed(q, a + b) == Handed(q, a) + Handed(After(q, a), b)
    decreases |a|
  {
    if a != [] {
      assert (a + b)[0] == a[0];
      assert (a + b)[1..] == a[1..] + b;
      RunAppend(Next(q, a[0]), a[1..], b);
    } else {
      assert a + b == b;
    }
  }

  /** Pushes of each item of `xs` in turn. */
  function Pushes<T>(xs: seq<T>): (ops: seq<Op<T>>)
    ensures |ops| == |xs|
  {
    if xs == [] then [] else [Push(xs[0])] + Pushes(xs[1..])
  }

  /** `n` Gets. */
  function Gets<T>(n: nat): (ops: seq<Op<T>>)
    ensures |ops| == n
  {
    if n == 0 then [] else [Get] + Gets(n - 1)
  }

  function Reversed<T>(s: seq<T>): (r: seq<T>)
    ensures |r| == |s|
  {
    if s == [] then [] else Reversed(s[1..]) + [s[0]]
  }

  /** Push and Pop at the head are a stack: pushing `xs` one by one and then popping
      as many times hands them back in reverse order and restores the contents. */
  lemma {:induction false} PushPopIsLifo<T>(q: seq<T>, xs: seq<T>)
    ensures After(q, Pushes(xs) + Gets(|xs|)) == q
    ensures Handed(q, Pushes(xs) + Gets(|xs|)) == Reversed(xs)
    decreases |xs|
  {
    if xs != [] {
      var x, rest := xs[0], xs[1..];
      var push: seq<Op<T>> := [Push(x)];
      var get: seq<Op<T>> := [Get];
      var mid := Pushes(rest) + Gets(|rest|);
      GetsSnoc<T>(|rest|);
      assert Pushes(xs) + Gets(|xs|) == (push + mid) + get;
      assert push[1..] == [] && get[1..] == [];
      assert After(q, push) == [x] + q && Handed(q, push) == [];
      RunAppend(q, push, mid);
      PushPopIsLifo([x] + q, rest);
      assert ([x] + q)[1..] == q;
      assert After([x] + q, get) == q && Handed([x] + q, get) == [x];
      RunAppend(q, push + mid, get);
    }
  }

  lemma {:induction false} GetsSnoc<T>(n: nat)
    ensures Gets<T>(n + 1) == Gets<T>(n) + [Get]
    decreases n
  {
    if n > 0 {
      GetsSnoc<T>(n - 1);
    }
  }
}
