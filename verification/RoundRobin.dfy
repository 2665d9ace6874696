/** The round-robin scheduler with its linked ring and its queue pool, proved
    against RoundRobinSpec (xnet/http2/writesched_roundrobin.go). */
module RoundRobin {
  import opened Frames
  import opened WriteQueues
  import opened RoundRobinSpec

  /** The ring, the pool and the control queue do not share queues. */
  ghost predicate Apart(pool: seq<WriteQueue>, ring: seq<WriteQueue>, control: WriteQueue) {
    control !in ring && forall q :: q in pool ==> q !in ring && q != control
  }

  /** ring holds the queue of every open stream, in the order of ids. */
  ghost predicate RingOf(streams: map<StreamID, WriteQueue>, ids: seq<StreamID>, ring: seq<WriteQueue>) {
    && |ids| == |ring| && Distinct(ids)
    && (forall id :: id in ids <==> id in streams)
    && (forall i :: 0 <= i < |ids| ==> ids[i] in streams && streams[ids[i]] == ring[i])
  }

  /** The queues of the ring hold what the streams have queued. */
  ghost predicate QueuesOk(ring: seq<WriteQueue>, ids: seq<StreamID>, queues: map<StreamID, seq<FrameWriteRequest>>)
    reads ring`currQueue, ring`currPos, ring`nextQueue
  {
    && |ids| == |ring| && (forall id :: id in ids <==> id in queues)
    && forall i :: 0 <= i < |ring| ==> ids[i] in queues && ring[i].Ok() && ring[i].Contents() == queues[ids[i]]
  }

  lemma {:induction false} FindStream(streams: map<StreamID, WriteQueue>, ids: seq<StreamID>, ring: seq<WriteQueue>,
                                      id: StreamID)
    returns (k: nat)
    requires RingOf(streams, ids, ring) && id in streams
    ensures k < |ids| && ids[k] == id && ring[k] == streams[id]
  {
    k :| 0 <= k < |ids| && ids[k] == id;
  }

  lemma RingGrown(streams: map<StreamID, WriteQueue>, ids: seq<StreamID>, ring: seq<WriteQueue>, id: StreamID,
                  q: WriteQueue)
    requires RingOf(streams, ids, ring) && id !in streams
    ensures RingOf(streams[id := q], ids + [id], ring + [q])
  {
  }

  lemma QueuesGrown(ring: seq<WriteQueue>, ids: seq<StreamID>, queues: map<StreamID, seq<FrameWriteRequest>>,
                    id: StreamID, q: WriteQueue)
    requires QueuesOk(ring, ids, queues) && id !in queues && q.Ok() && q.Contents() == []
    ensures QueuesOk(ring + [q], ids + [id], queues[id := []])
  {
    forall i | 0 <= i < |ring + [q]|
      ensures var x := (ids + [id])[i];
              x in queues[id := []] && (ring + [q])[i].Ok() && (ring + [q])[i].Contents() == queues[id := []][x]
    {
      if i < |ring| { assert ids[i] in queues; }
    }
  }

  lemma ApartGrown(pool: seq<WriteQueue>, ring: seq<WriteQueue>, control: WriteQueue, q: WriteQueue)
    requires Apart(pool, ring, control) && q !in pool && q != control
    ensures Apart(pool, ring + [q], control)
  {
  }

  /** push on the k-th queue of the ring */
  method PushAt(q: WriteQueue, wr: FrameWriteRequest, ghost ring: seq<WriteQueue>, ghost ids: seq<StreamID>,
                ghost queues: map<StreamID, seq<FrameWriteRequest>>, ghost k: nat)
    requires QueuesOk(ring, ids, queues) && DistinctQueues(ring) && Distinct(ids) && k < |ring| && ring[k] == q
    modifies q`nextQueue
    ensures QueuesOk(ring, ids, queues[ids[k] := queues[ids[k]] + [wr]])
  {
    q.Push(wr);
    forall i | 0 <= i < |ring| && i != k ensures ring[i].Ok() && ring[i].Contents() == queues[ids[i]] {
      assert old(ring[i].Ok() && ring[i].Contents() == queues[ids[i]]);
    }
  }

  /** consume on the k-th queue of the ring */
  method ConsumeAt(q: WriteQueue, w: Windows, ghost ring: seq<WriteQueue>, ghost ids: seq<StreamID>,
                   ghost queues: map<StreamID, seq<FrameWriteRequest>>, ghost k: nat)
    returns (r: Option<FrameWriteRequest>, w': Windows)
    requires QueuesOk(ring, ids, queues) && DistinctQueues(ring) && Distinct(ids) && k < |ring| && ring[k] == q
    modifies q`currQueue, q`currPos, q`nextQueue
    ensures ids[k] in queues
    ensures var c := ConsumeQueue(queues[ids[k]], MAX_INT32, w);
            r == c.taken && w' == c.windows && QueuesOk(ring, ids, queues[ids[k] := c.queue])
  {
    assert q.Ok() && q.Contents() == queues[ids[k]];
    r, w' := q.ConsumeUpTo(MAX_INT32, w);
    forall i | 0 <= i < |ring| && i != k ensures ring[i].Ok() && ring[i].Contents() == queues[ids[i]] {
      assert old(ring[i].Ok() && ring[i].Contents() == queues[ids[i]]);
    }
  }

  lemma RingCut(streams: map<StreamID, WriteQueue>, ids: seq<StreamID>, ring: seq<WriteQueue>, id: StreamID, k: nat)
    requires RingOf(streams, ids, ring) && k < |ids| && ids[k] == id
    ensures RingOf(streams - {id}, Without(ids, id), Cut(ring, k))
  {
    hide Without, Distinct;
    WithoutAt(ids, id, k);
    WithoutFacts(ids, id);
    var ids', ring' := Without(ids, id), Cut(ring, k);
    forall i | 0 <= i < |ids'| ensures ids'[i] in streams && ids'[i] != id && streams[ids'[i]] == ring'[i] {
      var j := if i < k then i else i + 1;
      assert ids'[i] == ids[j] && ring'[i] == ring[j];
    }
  }

  lemma QueuesCut(ring: seq<WriteQueue>, ids: seq<StreamID>, queues: map<StreamID, seq<FrameWriteRequest>>,
                  id: StreamID, k: nat)
    requires QueuesOk(ring, ids, queues) && Distinct(ids) && k < |ids| && ids[k] == id
    ensures QueuesOk(Cut(ring, k), Without(ids, id), queues - {id})
  {
    hide Without, Distinct;
    WithoutAt(ids, id, k);
    WithoutFacts(ids, id);
    var ids', ring', queues' := Without(ids, id), Cut(ring, k), queues - {id};
    forall i | 0 <= i < |ring'| ensures ids'[i] in queues' && ring'[i].Ok() && ring'[i].Contents() == queues'[ids'[i]] {
      var j := if i < k then i else i + 1;
      assert ids'[i] == ids[j] && ring'[i] == ring[j];
    }
  }

  /** Unlink the k-th queue; the others keep their contents. */
  method RemoveAt(head: WriteQueue, q: WriteQueue, ghost ring: seq<WriteQueue>, ghost ids: seq<StreamID>,
                  ghost queues: map<StreamID, seq<FrameWriteRequest>>, ghost k: nat)
    returns (head': WriteQueue?)
    requires IsRing(ring) && head == Head(ring) && k < |ring| && ring[k] == q
    requires QueuesOk(ring, ids, queues) && Distinct(ids)
    modifies ring`next, ring`prev
    ensures IsRing(Cut(ring, k)) && head' == Head(Cut(ring, k))
    ensures QueuesOk(Cut(ring, k), Without(ids, ids[k]), queues - {ids[k]})
  {
    hide IsRing;
    head' := Remove(head, q, ring, k);
    forall i | 0 <= i < |ring| ensures ring[i].Ok() && ring[i].Contents() == queues[ids[i]] {
      assert old(ring[i].Ok() && ring[i].Contents() == queues[ids[i]]);
    }
    QueuesCut(ring, ids, queues, ids[k], k);
  }

  lemma ApartCut(pool: seq<WriteQueue>, ring: seq<WriteQueue>, control: WriteQueue, k: nat)
    requires Apart(pool, ring, control) && DistinctQueues(ring) && k < |ring|
    ensures Apart(pool, Cut(ring, k), control) && ring[k] !in pool && ring[k] != control
  {
    CutFacts(ring, k);
  }

  lemma RingRotated(streams: map<StreamID, WriteQueue>, ids: seq<StreamID>, ring: seq<WriteQueue>, k: nat)
    requires RingOf(streams, ids, ring) && k <= |ids|
    ensures RingOf(streams, Rotate(ids, k), Turned(ring, k))
  {
    RotateFacts(ids, k);
  }

  lemma QueuesRotated(ring: seq<WriteQueue>, ids: seq<StreamID>, queues: map<StreamID, seq<FrameWriteRequest>>, k: nat)
    requires QueuesOk(ring, ids, queues) && k <= |ids| && Distinct(ids)
    ensures QueuesOk(Turned(ring, k), Rotate(ids, k), queues)
  {
    RotateFacts(ids, k);
    var ids', ring' := Rotate(ids, k), Turned(ring, k);
    forall i | 0 <= i < |ring| ensures ids'[i] in queues && ring'[i].Ok() && ring'[i].Contents() == queues[ids'[i]] {
      var j := if i + k < |ring| then i + k else i + k - |ring|;
      assert ids'[i] == ids[j] && ring'[i] == ring[j];
    }
  }

  lemma ApartRotated(pool: seq<WriteQueue>, ring: seq<WriteQueue>, control: WriteQueue, k: nat)
    requires Apart(pool, ring, control) && k <= |ring|
    ensures Apart(pool, Turned(ring, k), control)
  {
    TurnedSame(ring, k);
  }

  lemma SameStreams(streams: map<StreamID, WriteQueue>, ids: seq<StreamID>, ring: seq<WriteQueue>,
                    queues: map<StreamID, seq<FrameWriteRequest>>)
    requires RingOf(streams, ids, ring) && QueuesOk(ring, ids, queues)
    ensures streams.Keys == queues.Keys
  {
  }

  lemma IdsDistinct(streams: map<StreamID, WriteQueue>, ids: seq<StreamID>, ring: seq<WriteQueue>)
    requires RingOf(streams, ids, ring)
    ensures |ids| == |ring| && Distinct(ids) && forall id :: id in ids <==> id in streams
  {
  }

  const NO_WINDOWS := Windows(0, map[], 0)

  lemma OpenIsLegal(s: RR, id: StreamID)
    requires s.Valid() && id !in s.order
    ensures id !in s.queues && Step(s, Open(id)).Valid()
  {
    StepValid(s, Open(id));
  }

  lemma PopValid(s: RR, w: Windows)
    requires s.Valid()
    ensures var s' := Step(s.(windows := w), RoundRobinSpec.Pop); s'.Valid() && s'.(windows := NO_WINDOWS).Valid()
  {
    StepValid(s.(windows := w), RoundRobinSpec.Pop);
  }

  lemma PopNone(s: RR)
    requires s.control == [] && forall j :: 0 <= j < |s.order| ==> !ReadyAt(s, j)
    ensures Step(s, RoundRobinSpec.Pop) == s && Popped(s) == None
  {
    hide ReadyAt;
  }

  lemma ReadyIfTaken(s: RR, i: nat)
    requires i < |s.order| && s.order[i] in s.queues
    ensures var c := ConsumeQueue(s.queues[s.order[i]], MAX_INT32, s.windows);
            && (c.taken.Some? <==> ReadyAt(s, i))
            && (c.taken.None? ==> c.windows == s.windows && s.queues[s.order[i] := c.queue] == s.queues)
  {
  }

  lemma PopFound(s: RR, i: nat)
    requires s.control == [] && i < |s.order| && ReadyAt(s, i) && forall j :: 0 <= j < i ==> !ReadyAt(s, j)
    ensures s.order[i] in s.queues
    ensures var c := ConsumeQueue(s.queues[s.order[i]], MAX_INT32, s.windows);
            && Popped(s) == c.taken
            && Step(s, RoundRobinSpec.Pop) == RR([], Rotate(s.order, i + 1), s.queues[s.order[i] := c.queue], c.windows)
  {
    hide ConsumeQueue, Ready;
    assert FirstReady(s, 0) == i;
  }

  lemma RingNext(ring: seq<WriteQueue>, i: nat)
    requires IsRing(ring) && i < |ring|
    ensures ring[i].next == ring[Succ(i, |ring|)] && (ring[Succ(i, |ring|)] == ring[0] <==> i + 1 == |ring|)
    ensures ring[i].next == Head(Turned(ring, i + 1))
  {
    assert LinkedAt(ring, i);
  }

  lemma NoStreams(control: WriteQueue)
    ensures RingOf(map[], [], []) && IsRing([]) && QueuesOk([], [], map[]) && Apart([], [], control) && PoolOk([])
    ensures RR([], [], map[], NO_WINDOWS).Valid()
  {
  }

  class Scheduler {
    const control: WriteQueue
    var streams: map<StreamID, WriteQueue>
    var head: WriteQueue?
    var queuePool: seq<WriteQueue>
    ghost var frames: seq<FrameWriteRequest>                        // the control frames queued
    ghost var ids: seq<StreamID>                                    // the open streams from the head on
    ghost var queues: map<StreamID, seq<FrameWriteRequest>>         // what they have queued
    ghost var ring: seq<WriteQueue>                                 // their queues

    constructor ()
      ensures Valid() && fresh(control) && ring == [] && queuePool == []
      ensures forall w :: Abs(w) == RR([], [], map[], w)
    {
      control := new WriteQueue();
      streams, head, queuePool := map[], null, [];
      frames, ids, queues, ring := [], [], map[], [];
      new;
      hide RingOf, IsRing, QueuesOk, Apart, PoolOk, RR.Valid;
      NoStreams(control);
    }

    ghost predicate Valid()
      reads this, control, ring, queuePool
    {
      Parts() && Abs(NO_WINDOWS).Valid()
    }

    ghost function Abs(w: Windows): (s: RR)
      reads this`frames, this`ids, this`queues
    {
      RR(frames, ids, queues, w)
    }

    /** queuePool.get */
    method GetQueue() returns (q: WriteQueue)
      requires Parts()
      modifies this`queuePool
      ensures Parts()
      ensures q !in ring && q != control && q !in queuePool && q.Ok() && q.Contents() == []
      ensures fresh(q) || q in old(queuePool)
      ensures forall p :: p in queuePool ==> p in old(queuePool)
    {
      hide QueuesOk, IsRing, RingOf;
      q, queuePool := PoolGet(queuePool);
    }

    /** OpenStream.  Its panic on an open stream is part of Legal. */
    method OpenStream(id: StreamID)
      requires Valid() && id !in streams
      modifies this, ring`next, ring`prev, queuePool`next, queuePool`prev
      ensures Valid() && forall w :: Abs(w) == Step(old(Abs(w)), Open(id))
      ensures forall q :: q in ring ==> fresh(q) || q in old(ring) || q in old(queuePool)
      ensures forall q :: q in queuePool ==> q in old(queuePool)
    {
      hide Parts, RR.Valid;
      NotListed(id);
      OpenIsLegal(Abs(NO_WINDOWS), id);
      var q := GetQueue();
      LinkStream(q, id);
    }

    lemma NotListed(id: StreamID)
      requires Parts() && id !in streams
      ensures id !in ids
    {
      hide QueuesOk, IsRing, PoolOk, Apart;
    }

    /** Put the stream's queue into the ring and the map. */
    method LinkStream(q: WriteQueue, id: StreamID)
      requires Parts() && id !in streams
      requires q !in ring && q != control && q !in queuePool && q.Ok() && q.Contents() == []
      modifies this`head, this`streams, this`ids, this`queues, this`ring, q`next, q`prev, ring`next, ring`prev
      ensures Parts() && ids == old(ids) + [id] && queues == old(queues)[id := []] && ring == old(ring) + [q]
    {
      hide IsRing, RingOf, QueuesOk, PoolOk, Apart;
      IdsDistinct(streams, ids, ring);
      SameStreams(streams, ids, ring, queues);
      RingGrown(streams, ids, ring, id, q);
      QueuesGrown(ring, ids, queues, id, q);
      ApartGrown(queuePool, ring, control, q);
      head := Insert(head, q, ring);
      streams := streams[id := q];
      ring, ids, queues := ring + [q], ids + [id], queues[id := []];
    }

    method Push(wr: FrameWriteRequest)
      requires Valid() && Legal(Abs(NO_WINDOWS), RoundRobinSpec.Push(wr))
      modifies this`frames, this`queues, control`nextQueue, ring`nextQueue
      ensures Valid() && forall w :: Abs(w) == Step(old(Abs(w)), RoundRobinSpec.Push(wr))
    {
      hide IsRing, RingOf, QueuesOk, PoolOk, RR.Valid;
      SameStreams(streams, ids, ring, queues);
      StepValid(Abs(NO_WINDOWS), RoundRobinSpec.Push(wr));
      if wr.IsControl() {
        control.Push(wr);
        frames := frames + [wr];
        return;
      }
      if wr.StreamId() !in streams {
        control.Push(wr);
        frames := frames + [wr];
        return;
      }
      ghost var k := FindStream(streams, ids, ring, wr.StreamId());
      RingDistinct(ring);
      IdsDistinct(streams, ids, ring);
      var q := streams[wr.StreamId()];
      PushAt(q, wr, ring, ids, queues, k);
      assert forall i :: 0 <= i < |queuePool| ==> queuePool[i] in queuePool && queuePool[i] != q;
      assert PoolOk(queuePool);
      queues := queues[wr.StreamId() := queues[wr.StreamId()] + [wr]];
    }

    /** CloseStream; a stream that is not open is ignored. */
    method CloseStream(id: StreamID)
      requires Valid()
      modifies this, ring
      ensures Valid() && forall w :: Abs(w) == Step(old(Abs(w)), Close(id))
      ensures forall q :: q in ring || q in queuePool ==> q in old(ring) || q in old(queuePool)
    {
      hide Parts, RR.Valid, Without;
      StepValid(Abs(NO_WINDOWS), Close(id));
      if id !in streams {
        NotOpen(id);
        return;
      }
      var q := streams[id];
      ghost var k := IndexOf(id);
      UnlinkStream(q, id, k);
      PutQueue(q);
    }

    lemma NotOpen(id: StreamID)
      requires Parts() && id !in streams
      ensures Without(ids, id) == ids && queues - {id} == queues
    {
      hide PoolOk, IsRing;
      WithoutAbsent(ids, id);
    }

    lemma IndexOf(id: StreamID) returns (k: nat)
      requires Parts() && id in streams
      ensures k < |ids| == |ring| && ids[k] == id && ring[k] == streams[id]
    {
      hide PoolOk, IsRing, QueuesOk;
      k := FindStream(streams, ids, ring, id);
    }

    /** Take the stream's queue out of the ring and the map. */
    method UnlinkStream(q: WriteQueue, id: StreamID, ghost k: nat)
      requires Parts() && k < |ids| && |ids| == |ring| && ids[k] == id && ring[k] == q
      modifies this`head, this`streams, this`ids, this`queues, this`ring, ring`next, ring`prev
      ensures Parts() && q !in ring && q !in queuePool && q != control
      ensures ids == Without(old(ids), id) && queues == old(queues) - {id} && ring == Cut(old(ring), k)
      ensures forall p :: p in ring ==> p in old(ring)
    {
      hide IsRing, RingOf, QueuesOk, PoolOk, Apart, Without, Distinct, DistinctQueues, Cut;
      IdsDistinct(streams, ids, ring);
      RingDistinct(ring);
      CutFacts(ring, k);
      ApartCut(queuePool, ring, control, k);
      RingCut(streams, ids, ring, id, k);
      head := RemoveAt(head, q, ring, ids, queues, k);
      assert PoolOk(queuePool);
      streams := streams - {id};
      ring, ids, queues := Cut(ring, k), Without(ids, id), queues - {id};
      CutFacts(old(ring), k);
    }

    /** Everything in Valid but what concerns the frames. */
    ghost predicate Parts()
      reads this, control, ring, queuePool
    {
      && control.Ok() && control.Contents() == frames
      && Apart(queuePool, ring, control) && PoolOk(queuePool)
      && RingOf(streams, ids, ring) && IsRing(ring) && head == Head(ring) && QueuesOk(ring, ids, queues)
    }

    /** queuePool.put */
    method PutQueue(q: WriteQueue)
      requires Parts() && q !in queuePool && q !in ring && q != control
      modifies this`queuePool, q`currQueue, q`currPos, q`nextQueue
      ensures Parts() && queuePool == old(queuePool) + [q]
    {
      hide RingOf, PoolOk;
      queuePool := PoolPut(queuePool, q);
      forall i | 0 <= i < |ring| ensures ring[i].Ok() && ring[i].Contents() == queues[ids[i]] {
        assert ring[i] in ring;
        assert old(ring[i].Ok() && ring[i].Contents() == queues[ids[i]]);
      }
    }

    /** Pop */
    method Pop(w: Windows) returns (r: Option<FrameWriteRequest>, w': Windows)
      requires Valid()
      modifies this`head, this`frames, this`ids, this`queues, this`ring, control`currQueue, control`currPos,
               control`nextQueue, ring`currQueue, ring`currPos, ring`nextQueue
      ensures Valid() && Abs(w') == Step(old(Abs(w)), RoundRobinSpec.Pop) && r == Popped(old(Abs(w)))
      ensures forall q :: q in ring <==> q in old(ring)
    {
      hide IsRing, RingOf, QueuesOk, PoolOk, RR.Valid;
      IdsDistinct(streams, ids, ring);
      var empty := control.Empty();
      if !empty {
        PopValid(Abs(NO_WINDOWS), w);
        var wr := control.Shift();
        frames := frames[1..];
        return Some(wr), w;
      }
      if head == null {
        PopNone(Abs(w));
        return None, w;
      }
      r, w' := PopRing(w);
    }

    method PopRing(w: Windows) returns (r: Option<FrameWriteRequest>, w': Windows)
      requires Valid() && frames == [] && head != null
      modifies this`head, this`ids, this`queues, this`ring, ring`currQueue, ring`currPos, ring`nextQueue
      ensures Valid() && Abs(w') == Step(old(Abs(w)), RoundRobinSpec.Pop) && r == Popped(old(Abs(w)))
      ensures forall q :: q in ring <==> q in old(ring)
    {
      hide Parts, RR.Valid, ReadyAt, Step, Popped;
      RingShape();
      var q := head;
      ghost var i := 0;
      while true
        invariant 0 <= i < |ring| == |ids| && q == ring[i]
        invariant Valid() && Abs(w) == old(Abs(w)) && ring == old(ring) && head == old(head)
        invariant forall j :: 0 <= j < i ==> !ReadyAt(Abs(w), j)
        decreases |ring| - i
      {
        r, w' := TryQueue(q, i, w);
        if r.Some? {
          return;
        }
        q := q.next;
        i := i + 1;
        if q == head {
          break;
        }
      }
      PopNone(Abs(w));
      return None, w;
    }

    /** One turn of the loop of Pop. */
    method TryQueue(q: WriteQueue, ghost i: nat, w: Windows) returns (r: Option<FrameWriteRequest>, w': Windows)
      requires Valid() && frames == [] && i < |ring| == |ids| && q == ring[i]
      requires forall j :: 0 <= j < i ==> !ReadyAt(Abs(w), j)
      modifies this`head, this`ids, this`queues, this`ring, q`currQueue, q`currPos, q`nextQueue
      ensures Valid()
      ensures r.Some? ==> Abs(w') == Step(old(Abs(w)), RoundRobinSpec.Pop) && r == Popped(old(Abs(w)))
      ensures r.Some? ==> forall p :: p in ring <==> p in old(ring)
      ensures r.None? ==> Abs(w) == old(Abs(w)) && !ReadyAt(Abs(w), i) && ring == old(ring) && head == old(head)
      ensures r.None? ==> q.next == ring[Succ(i, |ring|)] && (q.next == head <==> i + 1 == |ring|)
    {
      hide Parts, RR.Valid, ReadyAt, Step, Popped, ConsumeQueue;
      RingStep(i);
      ReadyIfTaken(Abs(w), i);
      r, w' := ConsumeFrom(q, i, w);
      if r.Some? {
        PopFound(old(Abs(w)), i);
        PopValid(old(Abs(NO_WINDOWS)), w);
        TurnPast(q, i);
      }
    }

    lemma RingShape()
      requires Parts()
      ensures |ring| == |ids| && (head != null ==> |ring| > 0 && head == ring[0])
    {
      hide IsRing, QueuesOk, PoolOk;
    }

    lemma RingStep(i: nat)
      requires Parts() && i < |ring|
      ensures |ring| == |ids| && ids[i] in queues
      ensures ring[i].next == ring[Succ(i, |ring|)] && (ring[i].next == head <==> i + 1 == |ring|)
    {
      hide PoolOk;
      RingNext(ring, i);
    }

    /** consume on the i-th queue of the ring */
    method ConsumeFrom(q: WriteQueue, ghost i: nat, w: Windows) returns (r: Option<FrameWriteRequest>, w': Windows)
      requires Parts() && i < |ring| == |ids| && q == ring[i] && ids[i] in queues
      modifies this`queues, q`currQueue, q`currPos, q`nextQueue
      ensures Parts()
      ensures var c := ConsumeQueue(old(queues)[ids[i]], MAX_INT32, w);
              r == c.taken && w' == c.windows && queues == old(queues)[ids[i] := c.queue]
    {
      hide IsRing, RingOf, QueuesOk, PoolOk, ConsumeQueue, Distinct, DistinctQueues;
      RingDistinct(ring);
      IdsDistinct(streams, ids, ring);
      r, w' := ConsumeAt(q, w, ring, ids, queues, i);
      assert forall j :: 0 <= j < |queuePool| ==> queuePool[j] in queuePool && queuePool[j] != q;
      assert PoolOk(queuePool);
      queues := queues[ids[i] := ConsumeQueue(queues[ids[i]], MAX_INT32, w).queue];
    }

    /** The stream behind the served one becomes the head. */
    method TurnPast(q: WriteQueue, ghost i: nat)
      requires Parts() && i < |ring| == |ids| && q == ring[i]
      modifies this`head, this`ids, this`ring
      ensures Parts() && ids == Rotate(old(ids), i + 1) && forall p :: p in ring <==> p in old(ring)
    {
      hide IsRing, RingOf, QueuesOk, PoolOk, Apart, Distinct, DistinctQueues, Turned;
      hide Head, Rotate, WriteQueue.Ok, WriteQueue.Contents;
      IdsDistinct(streams, ids, ring);
      RingNext(ring, i);
      TurnedSame(ring, i + 1);
      head := q.next;
      ApartRotated(queuePool, ring, control, i + 1);
      RingRotated(streams, ids, ring, i + 1);
      QueuesRotated(ring, ids, queues, i + 1);
      TurnedRing(ring, i + 1);
      ring, ids := Turned(ring, i + 1), Rotate(ids, i + 1);
    }
  }
}
