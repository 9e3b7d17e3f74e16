/** Model of src/cast/request_id.rs: request IDs that wrap, skip pending ones, and expire. */
module RequestIds {
  import opened Bytes

  const MAX_ID: nat := 0xFFFF_FFFF

  predicate IsId(id: int) {
    1 <= id <= MAX_ID
  }

  /** The ID `k` places after `start` in the cycle 1, 2, ..., 2^32 - 1, 1, ... */
  function Cyclic(start: nat, k: nat): (id: nat)
    requires IsId(start)
    ensures IsId(id)
  {
    (start - 1 + k) % MAX_ID + 1
  }

  lemma CyclicStep(start: nat, k: nat)
    requires IsId(start)
    ensures Cyclic(start, 0) == start
    ensures Cyclic(start, k + 1) == if Cyclic(start, k) == MAX_ID then 1 else Cyclic(start, k) + 1
    ensures Cyclic(start, MAX_ID) == start
  {
  }

  /** Every ID comes up within one cycle. */
  lemma CyclicCovers(start: nat, id: nat) returns (k: nat)
    requires IsId(start) && IsId(id)
    ensures k < MAX_ID && Cyclic(start, k) == id
  {
    k := if id >= start then id - start else id + MAX_ID - start;
  }

  ghost predicate FirstFree(start: nat, pending: map<nat, nat>, k: nat)
    requires IsId(start)
  {
    k < MAX_ID && Cyclic(start, k) !in pending && forall j :: 0 <= j < k ==> Cyclic(start, j) in pending
  }

  class PendingMap {
    var pending: map<nat, nat>
    const timeout: nat

    constructor (timeout: nat)
      ensures pending == map[] && this.timeout == timeout
    {
      pending, this.timeout := map[], timeout;
    }

    method Insert(id: nat, sentAt: nat) returns (fresh': bool)
      modifies this
      ensures fresh' <==> id !in old(pending)
      ensures pending == if fresh' then old(pending)[id := sentAt] else old(pending)
    {
      if id in pending {
        return false;
      }
      pending := pending[id := sentAt];
      return true;
    }

    method Resolve(id: nat) returns (hit: bool)
      modifies this
      ensures hit <==> id in old(pending)
      ensures pending == old(pending) - {id}
    {
      hit := id in pending;
      pending := pending - {id};
    }

    method Expire(now: nat) returns (expired: set<nat>)
      modifies this
      ensures expired == Overdue(old(pending), now, timeout)
      ensures pending == old(pending) - expired
    {
      expired := Overdue(pending, now, timeout);
      pending := pending - expired;
    }
  }

  class RequestId {
    var next: nat

    ghost predicate Valid()
      reads this
    {
      IsId(next)
    }

    constructor ()
      ensures Valid() && next == 1
    {
      next := 1;
    }

    /** The first ID in cyclic order that is not pending. `None` is the panic: every ID is pending. */
    method Allocate(pending: PendingMap) returns (id: Option<nat>)
      requires Valid()
      modifies this
      ensures Valid()
      ensures match id
              case Some(i) =>
                exists k: nat :: FirstFree(old(next), pending.pending, k) && i == Cyclic(old(next), k)
                            && next == Cyclic(old(next), k + 1)
              case None => next == old(next) && forall i: nat :: IsId(i) ==> i in pending.pending
    {
      var start := next;
      ghost var k := 0;
      CyclicStep(start, 0);
      while true
        invariant k < MAX_ID && next == Cyclic(start, k)
        invariant forall j :: 0 <= j < k ==> Cyclic(start, j) in pending.pending
        decreases MAX_ID - k
      {
        var candidate := next;
        CyclicStep(start, k);
        next := if next == MAX_ID then 1 else next + 1;
        if candidate !in pending.pending {
          assert FirstFree(start, pending.pending, k);
          return Some(candidate);
        }
        if next == start {
          forall i: nat | IsId(i) ensures i in pending.pending {
            var j := CyclicCovers(start, i);
            OneCycle(start, k + 1);
          }
          return None;
        }
        k := k + 1;
        CyclicStep(start, k);
      }
    }
  }

  lemma OneCycle(start: nat, k: nat)
    requires IsId(start) && 0 < k <= MAX_ID && Cyclic(start, k) == start
    ensures k == MAX_ID
  {
  }

  function Overdue(pending: map<nat, nat>, now: nat, timeout: nat): set<nat> {
    set id | id in pending && now >= pending[id] + timeout
  }

  // ---------------------------------------------------------------------------
  // A session's IDs over time
  // ---------------------------------------------------------------------------

  datatype IdEvent = Took(id: nat) | Freed(ids: set<nat>)

  /** The allocator, the pending map, and the history of both. */
  datatype Ids = Ids(next: nat, pending: map<nat, nat>, log: seq<IdEvent>)

  const NO_IDS := Ids(1, map[], [])

  /** Allocate and register. With every ID pending the program panics: no ID is taken and 0 stands for it. */
  ghost function Take(ids: Ids, now: nat): (r: (nat, Ids))
    requires IsId(ids.next)
    ensures IsId(r.1.next)
  {
    if exists k: nat :: FirstFree(ids.next, ids.pending, k) then
      var k: nat :| FirstFree(ids.next, ids.pending, k);
      var id := Cyclic(ids.next, k);
      (id, Ids(Cyclic(ids.next, k + 1), ids.pending[id := now], ids.log + [Took(id)]))
    else
      (0, ids)
  }

  ghost function Release(ids: Ids, gone: set<nat>): Ids {
    Ids(ids.next, ids.pending - gone, ids.log + [Freed(gone)])
  }

  function Noted(open: set<nat>, e: IdEvent): set<nat> {
    if e.Took? then open + {e.id} else open - e.ids
  }

  /** The IDs taken and not freed again. */
  function Outstanding(log: seq<IdEvent>): set<nat> {
    if log == [] then {} else Noted(Outstanding(log[..|log| - 1]), log[|log| - 1])
  }

  /** Every ID taken is a nonzero one that was not outstanding. */
  ghost predicate Sound(log: seq<IdEvent>) {
    forall i :: 0 <= i < |log| && log[i].Took? ==> IsId(log[i].id) && log[i].id !in Outstanding(log[..i])
  }

  ghost predicate IdsOk(ids: Ids) {
    IsId(ids.next) && ids.pending.Keys == Outstanding(ids.log) && Sound(ids.log)
  }

  lemma SoundSnoc(log: seq<IdEvent>, e: IdEvent)
    requires Sound(log) && (e.Took? ==> IsId(e.id) && e.id !in Outstanding(log))
    ensures Sound(log + [e])
    ensures Outstanding(log + [e]) == Noted(Outstanding(log), e)
  {
    var l := log + [e];
    assert l[..|l| - 1] == log;
    forall i | 0 <= i < |l| && l[i].Took? ensures IsId(l[i].id) && l[i].id !in Outstanding(l[..i]) {
      assert i < |log| ==> l[..i] == log[..i];
    }
  }

  /** Taking keeps the books; it fails only if no ID is free, else yields the first free ID in cyclic order. */
  lemma TakeOk(ids: Ids, now: nat)
    requires IdsOk(ids)
    ensures IdsOk(Take(ids, now).1)
    ensures Take(ids, now).0 == 0 <==> forall id: nat :: IsId(id) ==> id in ids.pending
    ensures Take(ids, now).0 != 0 ==>
              && (exists k: nat :: FirstFree(ids.next, ids.pending, k) && Take(ids, now).0 == Cyclic(ids.next, k))
              && Take(ids, now).1.pending == ids.pending[Take(ids, now).0 := now]
  {
    if k: nat :| FirstFree(ids.next, ids.pending, k) {
      var id := Take(ids, now).0;
      SoundSnoc(ids.log, Took(id));
      assert IsId(id) && id !in ids.pending;
    } else {
      forall id: nat | IsId(id) ensures id in ids.pending {
        AllTaken(ids, id);
      }
    }
  }

  lemma AllTaken(ids: Ids, id: nat)
    requires IsId(ids.next) && IsId(id) && forall k: nat :: !FirstFree(ids.next, ids.pending, k)
    ensures id in ids.pending
  {
    var k := CyclicCovers(ids.next, id);
    AllTakenUpTo(ids, k + 1);
  }

  lemma {:induction false} AllTakenUpTo(ids: Ids, n: nat)
    requires IsId(ids.next) && n <= MAX_ID && forall k: nat :: !FirstFree(ids.next, ids.pending, k)
    ensures forall j :: 0 <= j < n ==> Cyclic(ids.next, j) in ids.pending
  {
    if n > 0 {
      AllTakenUpTo(ids, n - 1);
      assert !FirstFree(ids.next, ids.pending, n - 1);
    }
  }

  /** The first request of a session has number 1. */
  lemma FirstIdIsOne(now: nat)
    ensures Take(NO_IDS, now).0 == 1
  {
    var none: map<nat, nat> := map[];
    assert Cyclic(1, 0) == 1 && Cyclic(1, 0) !in none;
    assert FirstFree(1, none, 0);
    var k: nat :| FirstFree(1, none, k) && Take(NO_IDS, now).0 == Cyclic(1, k);
  }

  lemma ReleaseOk(ids: Ids, gone: set<nat>)
    requires IdsOk(ids)
    ensures IdsOk(Release(ids, gone))
  {
    SoundSnoc(ids.log, Freed(gone));
  }

  lemma {:induction false} StillOutstanding(log: seq<IdEvent>, i: nat, j: nat, id: nat)
    requires i <= j <= |log| && id in Outstanding(log[..i])
    requires forall m :: i <= m < j && log[m].Freed? ==> id !in log[m].ids
    ensures id in Outstanding(log[..j])
    decreases j - i
  {
    if i < j {
      StillOutstanding(log, i, j - 1, id);
      assert log[..j][..j - 1] == log[..j - 1];
    }
  }

  /** Two uses of one ID are separated by a resolve or an expiry of it. */
  lemma UsesAreSeparated(log: seq<IdEvent>, i: nat, j: nat)
    requires Sound(log) && i < j < |log| && log[i].Took? && log[j].Took? && log[i].id == log[j].id
    ensures exists m :: i < m < j && log[m].Freed? && log[i].id in log[m].ids
  {
    var id := log[i].id;
    assert log[..i + 1][..i] == log[..i];
    if forall m :: i + 1 <= m < j && log[m].Freed? ==> id !in log[m].ids {
      StillOutstanding(log, i + 1, j, id);
    }
  }
}
