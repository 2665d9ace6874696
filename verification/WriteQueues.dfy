/** The two-stage frame queue, its pool, and the rings the schedulers link queues
    into (xnet/http2/writesched.go:187-288). */
module WriteQueues {
  import opened Frames

  class WriteQueue {
    var currQueue: seq<FrameWriteRequest>
    var nextQueue: seq<FrameWriteRequest>
    var currPos: nat
    var prev: WriteQueue?
    var next: WriteQueue?

    constructor ()
      ensures Ok() && Contents() == [] && fresh(this)
    {
      currQueue, nextQueue, currPos, prev, next := [], [], 0, null, null;
    }

    ghost predicate Ok()
      reads this`currQueue, this`currPos
    {
      currPos <= |currQueue|
    }

    ghost function Contents(): (q: seq<FrameWriteRequest>)
      requires Ok()
      reads this`currQueue, this`currPos, this`nextQueue
    {
      currQueue[currPos..] + nextQueue
    }

    method Empty() returns (empty: bool)
      requires Ok()
      ensures empty <==> Contents() == []
    {
      empty := |currQueue| - currPos + |nextQueue| == 0;
    }

    method Push(wr: FrameWriteRequest)
      requires Ok()
      modifies this`nextQueue
      ensures Contents() == old(Contents()) + [wr]
    {
      nextQueue := nextQueue + [wr];
    }

    /** shift.  Its panic on an empty queue is a precondition. */
    method Shift() returns (wr: FrameWriteRequest)
      requires Ok() && Contents() != []
      modifies this`currQueue, this`currPos, this`nextQueue
      ensures Ok() && [wr] + Contents() == old(Contents())
    {
      if currPos >= |currQueue| {
        currQueue, currPos, nextQueue := nextQueue, 0, [];
      }
      wr := currQueue[currPos];
      currQueue := currQueue[currPos := BLANK];
      currPos := currPos + 1;
    }

    /** *peek() = rest */
    method ReplaceFirst(rest: FrameWriteRequest)
      requires Ok() && Contents() != []
      modifies this`currQueue, this`nextQueue
      ensures Ok() && Contents() == old(Contents())[0 := rest]
    {
      if currPos < |currQueue| {
        currQueue := currQueue[currPos := rest];
      } else {
        nextQueue := nextQueue[0 := rest];
      }
    }

    method Peek() returns (wr: Option<FrameWriteRequest>)
      requires Ok()
      ensures wr == if Contents() == [] then None else Some(Contents()[0])
    {
      if currPos < |currQueue| {
        return Some(currQueue[currPos]);
      }
      if |nextQueue| > 0 {
        return Some(nextQueue[0]);
      }
      return None;
    }

    /** consume */
    method ConsumeUpTo(n: int, w: Windows) returns (r: Option<FrameWriteRequest>, w': Windows)
      requires Ok()
      modifies this`currQueue, this`currPos, this`nextQueue
      ensures Ok()
      ensures var c := ConsumeQueue(old(Contents()), n, w); r == c.taken && w' == c.windows && Contents() == c.queue
    {
      var first := Peek();
      if first.None? {
        return None, w;
      }
      match Consume(first.value, n, w) {
        case Nothing =>
          return None, w;
        case Whole(w1) =>
          var wr := Shift();
          return Some(wr), w1;
        case Split(consumed, rest, w1) =>
          ReplaceFirst(rest);
          return Some(consumed), w1;
      }
    }

    /** What put does to a queue: both stages are emptied. */
    method Reset()
      modifies this`currQueue, this`currPos, this`nextQueue
      ensures Ok() && Contents() == []
    {
      currQueue, nextQueue, currPos := [], [], 0;
    }
  }

  // ---- the pool ----

  /** Distinct empty queues. */
  ghost predicate PoolOk(pool: seq<WriteQueue>)
    reads pool`currQueue, pool`currPos, pool`nextQueue
  {
    DistinctQueues(pool) && forall i :: 0 <= i < |pool| ==> pool[i].Ok() && pool[i].Contents() == []
  }

  /** writeQueuePool.get */
  method PoolGet(pool: seq<WriteQueue>) returns (q: WriteQueue, pool': seq<WriteQueue>)
    requires PoolOk(pool)
    ensures PoolOk(pool') && q !in pool' && q.Ok() && q.Contents() == []
    ensures (fresh(q) && pool' == pool) || pool == pool' + [q]
  {
    if |pool| == 0 {
      q := new WriteQueue();
      return q, pool;
    }
    var x := |pool| - 1;
    q, pool' := pool[x], pool[..x];
  }

  /** writeQueuePool.put */
  method PoolPut(pool: seq<WriteQueue>, q: WriteQueue) returns (pool': seq<WriteQueue>)
    requires PoolOk(pool) && q !in pool
    modifies q`currQueue, q`currPos, q`nextQueue
    ensures PoolOk(pool') && pool' == pool + [q]
  {
    q.Reset();
    forall i | 0 <= i < |pool| ensures pool[i].Ok() && pool[i].Contents() == [] {
      assert pool[i] in pool && old(pool[i].Ok() && pool[i].Contents() == []);
    }
    pool' := pool + [q];
  }

  // ---- rings ----

  function Succ(i: nat, n: nat): nat { if i + 1 == n then 0 else i + 1 }

  function Pred(i: nat, n: nat): nat
    requires i < n
  {
    if i == 0 then n - 1 else i - 1
  }

  ghost predicate DistinctQueues(s: seq<WriteQueue>) { forall i, j :: 0 <= i < j < |s| ==> s[i] != s[j] }

  /** ring lists a circular doubly linked list, starting at its head. */
  ghost predicate IsRing(ring: seq<WriteQueue>)
    reads ring`next, ring`prev
  {
    DistinctQueues(ring) && forall i :: 0 <= i < |ring| ==> LinkedAt(ring, i)
  }

  ghost predicate LinkedAt(ring: seq<WriteQueue>, i: nat)
    requires i < |ring|
    reads ring`next, ring`prev
  {
    ring[i].next == ring[Succ(i, |ring|)] && ring[i].prev == ring[Pred(i, |ring|)]
  }

  ghost function Head(ring: seq<WriteQueue>): WriteQueue? { if ring == [] then null else ring[0] }

  ghost function Cut(ring: seq<WriteQueue>, k: nat): seq<WriteQueue>
    requires k < |ring|
  {
    ring[..k] + ring[k + 1..]
  }

  lemma CutFacts(ring: seq<WriteQueue>, k: nat)
    requires DistinctQueues(ring) && k < |ring|
    ensures forall q :: q in Cut(ring, k) <==> q in ring && q != ring[k]
  {
    assert ring == ring[..k] + [ring[k]] + ring[k + 1..];
  }

  lemma RingDistinct(ring: seq<WriteQueue>)
    requires IsRing(ring)
    ensures DistinctQueues(ring)
  {
  }

  /** A new queue goes before the head, at the end of the list. */
  method Insert(head: WriteQueue?, q: WriteQueue, ghost ring: seq<WriteQueue>) returns (head': WriteQueue)
    requires IsRing(ring) && head == Head(ring) && q !in ring
    modifies q`next, q`prev, ring`next, ring`prev
    ensures IsRing(ring + [q]) && head' == Head(ring + [q])
  {
    if head == null {
      q.next := q;
      q.prev := q;
      return q;
    }
    ghost var n := |ring|;
    assert LinkedAt(ring, 0) && LinkedAt(ring, n - 1);
    q.prev := head.prev;
    q.next := head;
    q.prev.next := q;
    q.next.prev := q;
    forall i | 0 <= i < n ensures LinkedAt(ring + [q], i) {
      assert old(LinkedAt(ring, i));
    }
    head' := head;
  }

  /** Unlink q, the k-th queue of the ring; the next one becomes the head if q
      was it. */
  method Remove(head: WriteQueue, q: WriteQueue, ghost ring: seq<WriteQueue>, ghost k: nat) returns (head': WriteQueue?)
    requires IsRing(ring) && head == Head(ring) && k < |ring| && ring[k] == q
    modifies ring`next, ring`prev
    ensures IsRing(Cut(ring, k)) && head' == Head(Cut(ring, k))
  {
    assert LinkedAt(ring, k);
    if q.next == q {
      return null;
    }
    Bypass(q, ring, k);
    CutRing(ring, k);
    hide LinkedAt, DistinctQueues;
    head' := head;
    if head == q {
      head' := q.next;
    }
  }

  /** The neighbours of q are linked to each other. */
  method Bypass(q: WriteQueue, ghost ring: seq<WriteQueue>, ghost k: nat)
    requires IsRing(ring) && k < |ring| && ring[k] == q && |ring| > 1
    modifies ring`next, ring`prev
    ensures q.next == old(q.next)
    ensures forall j ::
              0 <= j < |ring| ==>
                ring[j].next == ring[if j == Pred(k, |ring|) then Succ(k, |ring|) else Succ(j, |ring|)]
    ensures forall j ::
              0 <= j < |ring| ==>
                ring[j].prev == ring[if j == Succ(k, |ring|) then Pred(k, |ring|) else Pred(j, |ring|)]
  {
    ghost var n := |ring|;
    assert LinkedAt(ring, k) && LinkedAt(ring, Pred(k, n)) && LinkedAt(ring, Succ(k, n));
    q.prev.next := q.next;
    q.next.prev := q.prev;
    forall j | 0 <= j < n
      ensures ring[j].next == ring[if j == Pred(k, n) then Succ(k, n) else Succ(j, n)]
      ensures ring[j].prev == ring[if j == Succ(k, n) then Pred(k, n) else Pred(j, n)]
    {
      assert old(LinkedAt(ring, j));
    }
  }

  lemma CutRing(ring: seq<WriteQueue>, k: nat)
    requires DistinctQueues(ring) && k < |ring| && |ring| > 1
    requires forall j ::
               0 <= j < |ring| ==>
                 ring[j].next == ring[if j == Pred(k, |ring|) then Succ(k, |ring|) else Succ(j, |ring|)]
    requires forall j ::
               0 <= j < |ring| ==>
                 ring[j].prev == ring[if j == Succ(k, |ring|) then Pred(k, |ring|) else Pred(j, |ring|)]
    ensures IsRing(Cut(ring, k))
  {
    hide DistinctQueues;
    var r := Cut(ring, k);
    forall i | 0 <= i < |r| ensures LinkedAt(r, i) {
      var j := if i < k then i else i + 1;
      assert r[i] == ring[j];
    }
    hide LinkedAt, Cut;
    CutDistinct(ring, k);
  }

  lemma CutDistinct(ring: seq<WriteQueue>, k: nat)
    requires DistinctQueues(ring) && k < |ring|
    ensures DistinctQueues(Cut(ring, k))
  {
    var r := Cut(ring, k);
    assert forall i :: 0 <= i < |r| ==> r[i] == ring[if i < k then i else i + 1];
  }

  /** Reading the ring from another of its queues. */
  ghost function Turned(ring: seq<WriteQueue>, k: nat): (r: seq<WriteQueue>)
    requires k <= |ring|
  {
    ring[k..] + ring[..k]
  }

  lemma TurnedSame(ring: seq<WriteQueue>, k: nat)
    requires k <= |ring|
    ensures |Turned(ring, k)| == |ring| && forall q :: q in Turned(ring, k) <==> q in ring
  {
    assert ring == ring[..k] + ring[k..];
  }

  lemma TurnedRing(ring: seq<WriteQueue>, k: nat)
    requires IsRing(ring) && k <= |ring|
    ensures IsRing(Turned(ring, k))
  {
    var r, n := Turned(ring, k), |ring|;
    forall i | 0 <= i < n ensures LinkedAt(r, i) {
      var j := if i + k < n then i + k else i + k - n;
      assert r[i] == ring[j] && LinkedAt(ring, j);
      assert r[Succ(i, n)] == ring[Succ(j, n)] && r[Pred(i, n)] == ring[Pred(j, n)];
    }
    hide LinkedAt;
    assert forall i :: 0 <= i < n ==> r[i] == ring[if i + k < n then i + k else i + k - n];
  }
}
