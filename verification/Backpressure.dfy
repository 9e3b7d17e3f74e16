/** Model of src/util/backpressure.rs: a bounded FIFO that evicts instead of blocking its producer. */
module Backpressure {
  import opened Bytes

  function RemoveAt<T>(items: seq<T>, k: nat): (r: seq<T>)
    requires k < |items|
    ensures |r| == |items| - 1
    ensures forall i :: 0 <= i < |r| ==> r[i] == if i < k then items[i] else items[i + 1]
  {
    items[..k] + items[k + 1..]
  }

  /** Index of the oldest item satisfying `p`, or the number of items. */
  function Oldest<T(!new)>(items: seq<T>, p: T -> bool): (k: nat)
    ensures k <= |items|
    ensures forall i :: 0 <= i < k ==> !p(items[i])
    ensures k < |items| ==> p(items[k])
  {
    if items == [] || p(items[0]) then 0 else 1 + Oldest(items[1..], p)
  }

  /** Push, evicting the oldest evictable item of a full queue; a queue with none hands the item back. */
  function PushOr<T(!new)>(items: seq<T>, capacity: nat, item: T, evictable: T -> bool): (seq<T>, Option<T>) {
    if |items| < capacity then (items + [item], None)
    else
      var k := Oldest(items, evictable);
      if k < |items| then (RemoveAt(items, k) + [item], None) else (items, Some(item))
  }

  function Protected<T(!new)>(items: seq<T>, evictable: T -> bool): seq<T> {
    if items == [] then []
    else (if evictable(items[0]) then [] else [items[0]]) + Protected(items[1..], evictable)
  }

  lemma {:induction false} ProtectedConcat<T(!new)>(a: seq<T>, b: seq<T>, evictable: T -> bool)
    ensures Protected(a + b, evictable) == Protected(a, evictable) + Protected(b, evictable)
  {
    if a == [] {
      assert a + b == b;
    } else {
      assert (a + b)[1..] == a[1..] + b;
      ProtectedConcat(a[1..], b, evictable);
    }
  }

  lemma {:induction false} EvictionProtects<T(!new)>(items: seq<T>, k: nat, evictable: T -> bool)
    requires k < |items| && evictable(items[k])
    ensures Protected(RemoveAt(items, k), evictable) == Protected(items, evictable)
  {
    if k == 0 {
      assert RemoveAt(items, 0) == items[1..];
    } else {
      assert RemoveAt(items, k)[1..] == RemoveAt(items[1..], k - 1);
      EvictionProtects(items[1..], k - 1, evictable);
    }
  }

  /** No push ever loses or reorders a buffered protected item, exceeds the capacity, or loses the new item:
      it is the newest in the queue unless the queue is full of protected items, when it is handed back. */
  lemma PushOrProtects<T(!new)>(items: seq<T>, capacity: nat, item: T, evictable: T -> bool)
    requires 0 < capacity && |items| <= capacity
    ensures |PushOr(items, capacity, item, evictable).0| <= capacity
    ensures match PushOr(items, capacity, item, evictable)
            case (after, None) =>
              && |after| > 0 && after[|after| - 1] == item
              && Protected(after, evictable) == Protected(items, evictable) + Protected([item], evictable)
            case (after, Some(rejected)) => after == items && rejected == item
    ensures PushOr(items, capacity, item, evictable).1.Some? <==>
            |items| == capacity && Protected(items, evictable) == items
  {
    var k := Oldest(items, evictable);
    AllProtected(items, evictable);
    hide Protected, Oldest;
    if |items| < capacity {
      ProtectedConcat(items, [item], evictable);
    } else if k < |items| {
      EvictionProtects(items, k, evictable);
      ProtectedConcat(RemoveAt(items, k), [item], evictable);
    }
  }

  /** `after` is the queue without its `k`-th item, the oldest evictable one, and with the new item last. */
  ghost predicate EvictedFor<T(!new)>(items: seq<T>, after: seq<T>, item: T, evictable: T -> bool, k: nat) {
    && k < |items| && evictable(items[k])
    && (forall i :: 0 <= i < k ==> !evictable(items[i]))
    && after == items[..k] + items[k + 1..] + [item]
  }

  /** With room nothing is lost; a full queue loses exactly its oldest evictable item, or, without one, rejects. */
  lemma PushOrExactly<T(!new)>(items: seq<T>, capacity: nat, item: T, evictable: T -> bool)
    ensures var (after, rejected) := PushOr(items, capacity, item, evictable);
            && (|items| < capacity ==> after == items + [item] && rejected == None)
            && (|items| >= capacity ==>
                  || (rejected == None && exists k :: EvictedFor(items, after, item, evictable, k))
                  || (rejected == Some(item) && after == items
                      && forall i :: 0 <= i < |items| ==> !evictable(items[i])))
  {
    var k := Oldest(items, evictable);
    if |items| >= capacity && k < |items| {
      assert EvictedFor(items, PushOr(items, capacity, item, evictable).0, item, evictable, k);
    }
  }

  lemma {:induction false} AllProtected<T(!new)>(items: seq<T>, evictable: T -> bool)
    ensures |Protected(items, evictable)| <= |items|
    ensures Protected(items, evictable) == items <==> Oldest(items, evictable) == |items|
  {
    if items != [] {
      AllProtected(items[1..], evictable);
      if !evictable(items[0]) {
        assert Protected(items, evictable)[1..] == Protected(items[1..], evictable);
        assert items == [items[0]] + items[1..];
      }
    }
  }

  class BoundedDropOldest<T(!new)> {
    var items: seq<T>
    const capacity: nat

    ghost predicate Valid()
      reads this
    {
      |items| <= capacity && 0 < capacity
    }

    constructor (capacity: nat)
      requires capacity > 0
      ensures Valid() && items == [] && this.capacity == capacity
    {
      this.capacity := capacity;
      items := [];
    }

    method Push(item: T)
      requires Valid()
      modifies this
      ensures Valid()
      ensures items == (if old(|items|) == capacity then old(items)[1..] else old(items)) + [item]
    {
      if |items| >= capacity {
        items := items[1..];
      }
      items := items + [item];
    }

    method PushOrReject(item: T, evictable: T -> bool) returns (rejected: Option<T>)
      requires Valid()
      modifies this
      ensures Valid()
      ensures (items, rejected) == PushOr(old(items), capacity, item, evictable)
      ensures old(|items|) < capacity ==> items == old(items) + [item] && rejected == None
    {
      if |items| < capacity {
        items := items + [item];
        return None;
      }
      var index := 0;
      while index < |items| && !evictable(items[index])
        invariant index <= |items| && items == old(items)
        invariant forall i :: 0 <= i < index ==> !evictable(items[i])
      {
        index := index + 1;
      }
      if index < |items| {
        items := RemoveAt(items, index) + [item];
        return None;
      }
      return Some(item);
    }

    method Clear()
      modifies this
      ensures items == []
    {
      items := [];
    }

    method TryPop() returns (item: Option<T>)
      requires Valid()
      modifies this
      ensures Valid()
      ensures if old(items) == [] then item == None && items == []
              else item == Some(old(items)[0]) && items == old(items)[1..]
    {
      if items == [] {
        return None;
      }
      item, items := Some(items[0]), items[1..];
    }
  }
}
