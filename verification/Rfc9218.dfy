/** The RFC 9218 scheduler with its sixteen linked rings and its queue pool,
    proved against Rfc9218Spec (xnet/http2/writesched_priority_rfc9218.go). */
module Rfc9218 {
  import opened Frames
  import opened WriteQueues
  import opened Rfc9218Spec
  import R = RoundRobinSpec

  datatype Metadata = Metadata(location: WriteQueue, priority: Priority)

  /** The streams' queues, the pool and the control queue are apart. */
  ghost predicate Apart(pool: seq<WriteQueue>, repr: set<WriteQueue>, control: WriteQueue) {
    control !in repr && forall q :: q in pool ==> q !in repr && q != control
  }

  /** rings[k] holds the queues of the streams ids[k], whose priority is that of
      slot k. */
  ghost predicate Placed(streams: map<StreamID, Metadata>, ids: seq<seq<StreamID>>, rings: seq<seq<WriteQueue>>) {
    && |ids| == SLOTS && |rings| == SLOTS
    && forall k :: 0 <= k < SLOTS ==> PlacedIn(streams, ids[k], rings[k], k)
  }

  ghost predicate PlacedIn(streams: map<StreamID, Metadata>, ids: seq<StreamID>, ring: seq<WriteQueue>, k: nat) {
    && |ids| == |ring|
    && forall i :: 0 <= i < |ids| ==>
         ids[i] in streams && streams[ids[i]].location == ring[i] && streams[ids[i]].priority.Slot() == k
  }

  /** No two streams share a queue. */
  ghost predicate Injective(streams: map<StreamID, Metadata>) {
    forall a, b :: a in streams && b in streams && a != b ==> streams[a].location != streams[b].location
  }

  ghost predicate ContentsOk(streams: map<StreamID, Metadata>, queues: map<StreamID, seq<FrameWriteRequest>>,
                             repr: set<WriteQueue>)
    reads repr`currQueue, repr`currPos, repr`nextQueue
  {
    && (forall id :: id in streams <==> id in queues)
    && forall id :: id in streams ==> Holds(streams[id].location, queues[id], repr)
  }

  ghost predicate Holds(q: WriteQueue, frames: seq<FrameWriteRequest>, repr: set<WriteQueue>)
    reads repr`currQueue, repr`currPos, repr`nextQueue
  {
    q in repr && q.Ok() && q.Contents() == frames
  }

  ghost predicate RingsOk(rings: seq<seq<WriteQueue>>, repr: set<WriteQueue>)
    reads repr`next, repr`prev
  {
    forall k :: 0 <= k < |rings| ==> RingIn(rings[k], repr)
  }

  ghost predicate RingIn(ring: seq<WriteQueue>, repr: set<WriteQueue>)
    reads repr`next, repr`prev
  {
    (forall q :: q in ring ==> q in repr) && IsRing(ring)
  }

  ghost predicate HeadsOk(heads: array2<WriteQueue?>, rings: seq<seq<WriteQueue>>)
    reads heads
  {
    && heads.Length0 == 8 && heads.Length1 == 2 && |rings| == SLOTS
    && forall u, i :: 0 <= u < 8 && 0 <= i < 2 ==> heads[u, i] == Head(rings[2 * u + i])
  }

  ghost predicate DisjointRings(rings: seq<seq<WriteQueue>>) {
    forall k, l, q :: 0 <= k < |rings| && 0 <= l < |rings| && k != l && q in rings[k] ==> q !in rings[l]
  }

  lemma RingsAreDisjoint(streams: map<StreamID, Metadata>, ids: seq<seq<StreamID>>, rings: seq<seq<WriteQueue>>)
    requires Placed(streams, ids, rings) && Injective(streams)
    ensures DisjointRings(rings)
  {
    forall k, l, q | 0 <= k < SLOTS && 0 <= l < SLOTS && k != l && q in rings[k] ensures q !in rings[l] {
      var i :| 0 <= i < |rings[k]| && rings[k][i] == q;
      assert PlacedIn(streams, ids[k], rings[k], k) && PlacedIn(streams, ids[l], rings[l], l);
    }
  }

  /** Insert a queue into the k-th ring. */
  method InsertIn(head: WriteQueue?, q: WriteQueue, ghost rings: seq<seq<WriteQueue>>, ghost k: nat,
                  ghost repr: set<WriteQueue>)
    returns (head': WriteQueue)
    requires k < |rings| && RingsOk(rings, repr) && DisjointRings(rings) && q !in repr && head == Head(rings[k])
    modifies q`next, q`prev, repr`next, repr`prev
    ensures head' == Head(rings[k] + [q]) && RingsOk(rings[k := rings[k] + [q]], repr + {q})
  {
    assert RingIn(rings[k], repr);
    head' := Insert(head, q, rings[k]);
    forall l | 0 <= l < |rings| && l != k ensures RingIn(rings[l], repr + {q}) {
      assert old(RingIn(rings[l], repr));
      forall i | 0 <= i < |rings[l]| ensures LinkedAt(rings[l], i) {
        assert rings[l][i] in rings[l] && old(LinkedAt(rings[l], i));
      }
    }
    hide IsRing, LinkedAt;
    assert RingIn(rings[k] + [q], repr + {q});
  }

  /** Unlink the j-th queue of the k-th ring. */
  method RemoveFrom(head: WriteQueue, q: WriteQueue, ghost rings: seq<seq<WriteQueue>>, ghost k: nat, ghost j: nat,
                    ghost repr: set<WriteQueue>)
    returns (head': WriteQueue?)
    requires k < |rings| && RingsOk(rings, repr) && DisjointRings(rings)
    requires head == Head(rings[k]) && j < |rings[k]| && rings[k][j] == q
    modifies repr`next, repr`prev
    ensures head' == Head(Cut(rings[k], j)) && RingsOk(rings[k := Cut(rings[k], j)], repr - {q})
  {
    assert RingIn(rings[k], repr);
    RingDistinct(rings[k]);
    hide Cut, DistinctQueues;
    head' := Remove(head, q, rings[k], j);
    forall l | 0 <= l < |rings| && l != k ensures RingIn(rings[l], repr - {q}) {
      assert old(RingIn(rings[l], repr));
      forall i | 0 <= i < |rings[l]| ensures LinkedAt(rings[l], i) {
        assert rings[l][i] in rings[l] && old(LinkedAt(rings[l], i));
      }
    }
    hide IsRing, LinkedAt;
    CutFacts(rings[k], j);
    assert RingIn(Cut(rings[k], j), repr - {q});
  }

  // ---- how the calls change the placement ----

  lemma PlacedGrown(streams: map<StreamID, Metadata>, ids: seq<seq<StreamID>>, rings: seq<seq<WriteQueue>>,
                    id: StreamID, m: Metadata)
    requires Placed(streams, ids, rings) && id !in streams && m.priority.InRange()
    ensures var k := m.priority.Slot();
            && |ids| == SLOTS && |rings| == SLOTS
            && Placed(streams[id := m], Appended(ids, k, id), rings[k := rings[k] + [m.location]])
  {
    var k := m.priority.Slot();
    forall l | 0 <= l < SLOTS
      ensures PlacedIn(streams[id := m], Appended(ids, k, id)[l], rings[k := rings[k] + [m.location]][l], l)
    {
      assert PlacedIn(streams, ids[l], rings[l], l);
    }
  }

  lemma PlacedCut(streams: map<StreamID, Metadata>, ids: seq<seq<StreamID>>, rings: seq<seq<WriteQueue>>,
                  id: StreamID, k: nat, j: nat)
    requires Placed(streams, ids, rings) && k < SLOTS && j < |ids[k]| && ids[k][j] == id && R.Distinct(ids[k])
    ensures PlacedIn(streams, ids[k], rings[k], k)
    ensures Placed(streams - {id}, Dropped(ids, k, id), rings[k := Cut(rings[k], j)])
  {
    hide R.Without, R.Distinct, PlacedIn, Cut;
    assert PlacedIn(streams, ids[k], rings[k], k);
    PlacedLength(streams, ids[k], rings[k], k);
    forall l | 0 <= l < SLOTS
      ensures PlacedIn(streams - {id}, Dropped(ids, k, id)[l], rings[k := Cut(rings[k], j)][l], l)
    {
      assert PlacedIn(streams, ids[l], rings[l], l);
      if l == k {
        PlacedWithout(streams, ids[k], rings[k], id, k, j);
      } else {
        PlacedElsewhere(streams, ids[k], rings[k], id, k, j, ids[l], rings[l], l);
      }
    }
  }

  lemma PlacedLength(streams: map<StreamID, Metadata>, ids: seq<StreamID>, ring: seq<WriteQueue>, k: nat)
    requires PlacedIn(streams, ids, ring, k)
    ensures |ids| == |ring|
  {
  }

  /** The ring that the stream leaves. */
  lemma PlacedWithout(streams: map<StreamID, Metadata>, ids: seq<StreamID>, ring: seq<WriteQueue>, id: StreamID,
                      k: nat, j: nat)
    requires PlacedIn(streams, ids, ring, k) && j < |ids| && ids[j] == id && R.Distinct(ids)
    ensures PlacedIn(streams - {id}, R.Without(ids, id), Cut(ring, j), k)
  {
    hide R.Without;
    R.WithoutAt(ids, id, j);
    var ids', ring' := R.Without(ids, id), Cut(ring, j);
    forall i | 0 <= i < |ids'|
      ensures ids'[i] in streams - {id} && streams[ids'[i]].location == ring'[i]
              && streams[ids'[i]].priority.Slot() == k
    {
      var n := if i < j then i else i + 1;
      assert ids'[i] == ids[n] && ring'[i] == ring[n] && ids[n] != ids[j];
    }
  }

  /** The other rings do not hold the stream. */
  lemma PlacedElsewhere(streams: map<StreamID, Metadata>, ids: seq<StreamID>, ring: seq<WriteQueue>, id: StreamID,
                        k: nat, j: nat, others: seq<StreamID>, ring': seq<WriteQueue>, l: nat)
    requires PlacedIn(streams, ids, ring, k) && j < |ids| && ids[j] == id && PlacedIn(streams, others, ring', l)
             && l != k
    ensures PlacedIn(streams - {id}, others, ring', l)
  {
    assert streams[ids[j]].priority.Slot() == k;
  }

  lemma PlacedRotated(streams: map<StreamID, Metadata>, ids: seq<seq<StreamID>>, rings: seq<seq<WriteQueue>>, k: nat,
                      n: nat)
    requires Placed(streams, ids, rings) && k < SLOTS && n <= |ids[k]|
    ensures PlacedIn(streams, ids[k], rings[k], k)
    ensures Placed(streams, ids[k := R.Rotate(ids[k], n)], rings[k := Turned(rings[k], n)])
  {
    assert PlacedIn(streams, ids[k], rings[k], k);
    var ids', rings' := ids[k := R.Rotate(ids[k], n)], rings[k := Turned(rings[k], n)];
    forall l | 0 <= l < SLOTS ensures PlacedIn(streams, ids'[l], rings'[l], l) {
      assert PlacedIn(streams, ids[l], rings[l], l);
    }
  }

  lemma RingsRotated(rings: seq<seq<WriteQueue>>, repr: set<WriteQueue>, k: nat, n: nat)
    requires RingsOk(rings, repr) && k < |rings| && n <= |rings[k]|
    ensures RingsOk(rings[k := Turned(rings[k], n)], repr)
  {
    hide IsRing;
    assert RingIn(rings[k], repr);
    TurnedRing(rings[k], n);
    TurnedSame(rings[k], n);
    assert RingIn(Turned(rings[k], n), repr);
  }

  lemma ContentsGrown(streams: map<StreamID, Metadata>, queues: map<StreamID, seq<FrameWriteRequest>>,
                      repr: set<WriteQueue>, id: StreamID, m: Metadata)
    requires ContentsOk(streams, queues, repr) && id !in streams && m.location !in repr && m.location.Ok()
    ensures ContentsOk(streams[id := m], queues[id := m.location.Contents()], repr + {m.location})
  {
    var s', q', r' := streams[id := m], queues[id := m.location.Contents()], repr + {m.location};
    forall x | x in s' ensures Holds(s'[x].location, q'[x], r') {
      if x != id { assert Holds(streams[x].location, queues[x], repr); }
    }
  }

  lemma ContentsCut(streams: map<StreamID, Metadata>, queues: map<StreamID, seq<FrameWriteRequest>>,
                    repr: set<WriteQueue>, id: StreamID)
    requires ContentsOk(streams, queues, repr) && id in streams && Injective(streams)
    ensures ContentsOk(streams - {id}, queues - {id}, repr - {streams[id].location}) && Injective(streams - {id})
    ensures Holds(streams[id].location, queues[id], repr)
  {
    var s', q', r' := streams - {id}, queues - {id}, repr - {streams[id].location};
    forall x | x in s' ensures Holds(s'[x].location, q'[x], r') {
      assert Holds(streams[x].location, queues[x], repr);
    }
  }

  lemma InjectiveGrown(streams: map<StreamID, Metadata>, queues: map<StreamID, seq<FrameWriteRequest>>,
                       repr: set<WriteQueue>, id: StreamID, m: Metadata)
    requires ContentsOk(streams, queues, repr) && Injective(streams) && m.location !in repr
    ensures Injective(streams[id := m])
  {
    forall x | x in streams ensures streams[x].location in repr { assert Holds(streams[x].location, queues[x], repr); }
  }

  lemma ApartGrown(pool: seq<WriteQueue>, repr: set<WriteQueue>, control: WriteQueue, q: WriteQueue)
    requires Apart(pool, repr, control) && q !in pool && q != control
    ensures Apart(pool, repr + {q}, control)
  {
  }

  lemma ApartCut(pool: seq<WriteQueue>, repr: set<WriteQueue>, control: WriteQueue, q: WriteQueue)
    requires Apart(pool, repr, control) && q in repr
    ensures Apart(pool, repr - {q}, control) && q !in pool && q != control
  {
  }

  lemma HeadAt(heads: array2<WriteQueue?>, rings: seq<seq<WriteQueue>>, p: Priority)
    requires HeadsOk(heads, rings) && p.InRange()
    ensures heads.Length0 == 8 && heads.Length1 == 2 && |rings| == SLOTS && p.Slot() < SLOTS
    ensures heads[p.urgency, if p.incremental then 1 else 0] == Head(rings[p.Slot()])
  {
  }

  /** push on a stream's queue */
  method PushOn(q: WriteQueue, wr: FrameWriteRequest, ghost streams: map<StreamID, Metadata>,
                ghost queues: map<StreamID, seq<FrameWriteRequest>>, ghost repr: set<WriteQueue>, ghost id: StreamID)
    requires ContentsOk(streams, queues, repr) && Injective(streams) && id in streams && streams[id].location == q
    modifies q`nextQueue
    ensures ContentsOk(streams, queues[id := queues[id] + [wr]], repr)
  {
    assert Holds(q, queues[id], repr);
    q.Push(wr);
    var queues' := queues[id := queues[id] + [wr]];
    forall x | x in streams ensures Holds(streams[x].location, queues'[x], repr) {
      assert old(Holds(streams[x].location, queues[x], repr));
    }
  }

  /** consume on a stream's queue */
  method ConsumeOn(q: WriteQueue, w: Windows, ghost streams: map<StreamID, Metadata>,
                   ghost queues: map<StreamID, seq<FrameWriteRequest>>, ghost repr: set<WriteQueue>,
                   ghost id: StreamID)
    returns (r: Option<FrameWriteRequest>, w': Windows)
    requires ContentsOk(streams, queues, repr) && Injective(streams) && id in streams && streams[id].location == q
    modifies q`currQueue, q`currPos, q`nextQueue
    ensures var c := ConsumeQueue(queues[id], MAX_INT32, w);
            r == c.taken && w' == c.windows && ContentsOk(streams, queues[id := c.queue], repr)
  {
    assert Holds(q, queues[id], repr);
    hide ConsumeQueue;
    r, w' := q.ConsumeUpTo(MAX_INT32, w);
    ghost var queues' := queues[id := ConsumeQueue(queues[id], MAX_INT32, w).queue];
    forall x | x in streams ensures Holds(streams[x].location, queues'[x], repr) {
      assert old(Holds(streams[x].location, queues[x], repr));
    }
  }

  // ---- what the loop of Pop finds ----

  const NO_WINDOWS := Windows(0, map[], 0)

  ghost function Priorities(streams: map<StreamID, Metadata>): map<StreamID, Priority> {
    map id | id in streams :: streams[id].priority
  }

  /** The first n visits of a search find nothing. */
  ghost predicate NotFoundBefore(s: PS, inc: bool, n: nat)
    requires |s.rings| == SLOTS && n <= SLOTS
  {
    forall m :: 0 <= m < n ==> First(s, s.rings[Visit(inc, m)]) == |s.rings[Visit(inc, m)]|
  }

  lemma FirstIs(s: PS, ring: seq<StreamID>, i: nat)
    requires i <= |ring| && (forall j :: 0 <= j < i ==> !ReadyIn(s, ring[j])) && (i < |ring| ==> ReadyIn(s, ring[i]))
    ensures First(s, ring) == i
  {
    hide ReadyIn;
  }

  /** The outcome of the search in ring k, if it finds a stream. */
  ghost predicate FoundIn(s: PS, k: nat, s': PS, r: Option<FrameWriteRequest>) {
    && |s.rings| == SLOTS && k < SLOTS
    && var i := First(s, s.rings[k]);
    i < |s.rings[k]| && s' == Served(s, Found(k, i))
    && r == ConsumeQueue(s.queues[s.rings[k][i]], MAX_INT32, s.windows).taken && r.Some?
  }

  lemma PopFound(s: PS, n: nat, s': PS, r: Option<FrameWriteRequest>)
    requires s.Shape() && s.control == [] && n < SLOTS && NotFoundBefore(s, !s.prioritizeIncremental, n)
    requires FoundIn(s, Visit(!s.prioritizeIncremental, n), s', r)
    ensures Does(s, Pop, s') && r == Popped(s)
  {
    hide First, Served, ConsumeQueue;
    SearchIs(s, n, First(s, s.rings[Visit(!s.prioritizeIncremental, n)]));
    hide Search;
  }

  lemma PopFails(s: PS)
    requires s.Shape() && s.control == [] && NotFoundBefore(s, !s.prioritizeIncremental, SLOTS)
    ensures Does(s, Pop, s.(prioritizeIncremental := !s.prioritizeIncremental)) && Popped(s) == None
  {
    SearchFails(s);
    hide Search;
  }

  lemma SearchIs(s: PS, n: nat, i: nat)
    requires |s.rings| == SLOTS && n < SLOTS && NotFoundBefore(s, !s.prioritizeIncremental, n)
    requires var ring := s.rings[Visit(!s.prioritizeIncremental, n)];
             i < |ring| && ReadyIn(s, ring[i]) && forall j :: 0 <= j < i ==> !ReadyIn(s, ring[j])
    ensures Search(s) == Found(Visit(!s.prioritizeIncremental, n), i)
  {
    hide ReadyIn, First;
    var inc := !s.prioritizeIncremental;
    FirstIs(s, s.rings[Visit(inc, n)], i);
    var m := FirstVisit(s, inc, 0);
    hide FirstVisit;
    assert m >= n;
    assert m <= n;
  }

  lemma SearchFails(s: PS)
    requires |s.rings| == SLOTS && NotFoundBefore(s, !s.prioritizeIncremental, SLOTS)
    ensures Search(s) == Nowhere
  {
    hide First;
    var m := FirstVisit(s, !s.prioritizeIncremental, 0);
    hide FirstVisit;
    assert m == SLOTS;
  }

  /** Put a queue into the ring of a priority. */
  method LinkIn(heads: array2<WriteQueue?>, p: Priority, q: WriteQueue, ghost rings: seq<seq<WriteQueue>>,
                ghost repr: set<WriteQueue>)
    requires HeadsOk(heads, rings) && RingsOk(rings, repr) && DisjointRings(rings) && p.InRange() && q !in repr
    modifies heads, q`next, q`prev, repr`next, repr`prev
    ensures var k := p.Slot();
            |rings| == SLOTS && HeadsOk(heads, rings[k := rings[k] + [q]])
              && RingsOk(rings[k := rings[k] + [q]], repr + {q})
  {
    hide RingsOk, DisjointRings;
    HeadAt(heads, rings, p);
    var i := if p.incremental then 1 else 0;
    var head := InsertIn(heads[p.urgency, i], q, rings, p.Slot(), repr);
    heads[p.urgency, i] := head;
  }

  /** Take the j-th queue out of the ring of a priority. */
  method UnlinkFrom(heads: array2<WriteQueue?>, p: Priority, q: WriteQueue, ghost rings: seq<seq<WriteQueue>>,
                    ghost repr: set<WriteQueue>, ghost j: nat)
    requires HeadsOk(heads, rings) && RingsOk(rings, repr) && DisjointRings(rings) && p.InRange()
    requires |rings| == SLOTS && j < |rings[p.Slot()]| && rings[p.Slot()][j] == q
    modifies heads, repr`next, repr`prev
    ensures var k := p.Slot();
            HeadsOk(heads, rings[k := Cut(rings[k], j)]) && RingsOk(rings[k := Cut(rings[k], j)], repr - {q})
  {
    hide RingsOk, DisjointRings;
    HeadAt(heads, rings, p);
    var i := if p.incremental then 1 else 0;
    var head := RemoveFrom(heads[p.urgency, i], q, rings, p.Slot(), j, repr);
    heads[p.urgency, i] := head;
  }

  /** What the calls do, in terms of the metadata map. */
  ghost function Value(control: seq<FrameWriteRequest>, ids: seq<seq<StreamID>>, streams: map<StreamID, Metadata>,
                       queues: map<StreamID, seq<FrameWriteRequest>>, w: Windows, inc: bool): PS
  {
    PS(control, ids, Priorities(streams), queues, w, inc)
  }

  lemma Ignored(control: seq<FrameWriteRequest>, ids: seq<seq<StreamID>>, streams: map<StreamID, Metadata>,
                queues: map<StreamID, seq<FrameWriteRequest>>, inc: bool, id: StreamID, p: Priority)
    requires Value(control, ids, streams, queues, NO_WINDOWS, inc).Shape() && id !in streams
    ensures forall w ::
              var s := Value(control, ids, streams, queues, w, inc); Does(s, Close(id), s) && Does(s, Adjust(id, p), s)
  {
  }

  lemma CloseSteps(control: seq<FrameWriteRequest>, ids: seq<seq<StreamID>>, streams: map<StreamID, Metadata>,
                   queues: map<StreamID, seq<FrameWriteRequest>>, inc: bool, id: StreamID)
    requires Value(control, ids, streams, queues, NO_WINDOWS, inc).Shape() && id in streams
    ensures |ids| == SLOTS && streams[id].priority.InRange()
    ensures forall w :: Does(Value(control, ids, streams, queues, w, inc), Close(id),
                             Value(control, Dropped(ids, streams[id].priority.Slot(), id), streams - {id},
                               queues - {id}, w, inc))
  {
    assert Priorities(streams - {id}) == Priorities(streams) - {id};
    assert id in Priorities(streams);
  }

  lemma AdjustSteps(control: seq<FrameWriteRequest>, ids: seq<seq<StreamID>>, streams: map<StreamID, Metadata>,
                    queues: map<StreamID, seq<FrameWriteRequest>>, inc: bool, id: StreamID, m: Metadata)
    requires Value(control, ids, streams, queues, NO_WINDOWS, inc).Shape() && id in streams && m.priority.InRange()
    ensures |ids| == SLOTS && streams[id].priority.InRange()
    ensures forall w :: Does(Value(control, ids, streams, queues, w, inc), Adjust(id, m.priority),
                             Value(control,
                               Appended(Dropped(ids, streams[id].priority.Slot(), id), m.priority.Slot(), id),
                                   streams[id := m], queues, w, inc))
  {
    assert Priorities(streams[id := m]) == Priorities(streams)[id := m.priority];
    assert id in Priorities(streams);
  }

  lemma PushSteps(control: seq<FrameWriteRequest>, ids: seq<seq<StreamID>>, streams: map<StreamID, Metadata>,
                  queues: map<StreamID, seq<FrameWriteRequest>>, inc: bool, wr: FrameWriteRequest)
    requires var s := Value(control, ids, streams, queues, NO_WINDOWS, inc); s.Shape() && Legal(s, Push(wr))
    ensures wr.IsControl() || wr.StreamId() !in queues ==>
              forall w :: Does(Value(control, ids, streams, queues, w, inc), Push(wr),
                               Value(control + [wr], ids, streams, queues, w, inc))
    ensures !wr.IsControl() && wr.StreamId() in queues ==>
              forall w :: Does(Value(control, ids, streams, queues, w, inc), Push(wr),
                               Value(control, ids, streams, queues[wr.StreamId() := queues[wr.StreamId()] + [wr]], w,
                                 inc))
  {
  }

  class Scheduler {
    const control: WriteQueue
    const heads: array2<WriteQueue?>
    var streams: map<StreamID, Metadata>
    var queuePool: seq<WriteQueue>
    var prioritizeIncremental: bool
    ghost var frames: seq<FrameWriteRequest>                   // the control frames queued
    ghost var ids: seq<seq<StreamID>>                          // the streams of every ring, from its head on
    ghost var queues: map<StreamID, seq<FrameWriteRequest>>    // what they have queued
    ghost var rings: seq<seq<WriteQueue>>                      // the queues of every ring
    ghost var repr: set<WriteQueue>                            // the streams' queues

    constructor ()
      ensures Valid() && fresh(control) && fresh(heads) && repr == {} && queuePool == []
      ensures forall w :: Abs(w) == PS([], seq(SLOTS, _ => []), map[], map[], w, false)
    {
      control := new WriteQueue();
      heads := new WriteQueue?[8, 2]((_, _) => null);
      streams, queuePool, prioritizeIncremental := map[], [], false;
      frames, ids, queues, rings, repr := [], seq(SLOTS, _ => []), map[], seq(SLOTS, _ => []), {};
    }

    ghost predicate Valid()
      reads this, control, heads, repr, queuePool
    {
      Parts() && Abs(NO_WINDOWS).Valid()
    }

    ghost function Abs(w: Windows): (s: PS)
      reads this`frames, this`ids, this`streams, this`queues, this`prioritizeIncremental
    {
      Value(frames, ids, streams, queues, w, prioritizeIncremental)
    }

    /** The structure, without what concerns the frames. */
    ghost predicate Parts()
      reads this, control, heads, repr, queuePool
    {
      && control.Ok() && control.Contents() == frames
      && Apart(queuePool, repr, control) && PoolOk(queuePool)
      && Placed(streams, ids, rings) && Injective(streams) && ContentsOk(streams, queues, repr)
      && RingsOk(rings, repr) && HeadsOk(heads, rings)
    }

    /** Put a queue and its frames into the ring of the priority. */
    method Link(q: WriteQueue, id: StreamID, p: Priority)
      requires Parts() && id !in streams && p.InRange() && q !in repr && q != control && q !in queuePool && q.Ok()
      modifies this`streams, this`ids, this`queues, this`rings, this`repr, heads, q`next, q`prev, repr`next, repr`prev
      ensures Parts() && repr == old(repr) + {q}
      ensures streams == old(streams)[id := Metadata(q, p)] && ids == Appended(old(ids), p.Slot(), id)
      ensures queues == old(queues)[id := old(q.Contents())]
    {
      hide PoolOk, Apart, Placed, Injective, ContentsOk, RingsOk, HeadsOk, DisjointRings, Appended;
      var m := Metadata(q, p);
      ghost var k := p.Slot();
      InjectiveGrown(streams, queues, repr, id, m);
      ApartGrown(queuePool, repr, control, q);
      RingsAreDisjoint(streams, ids, rings);
      PlacedGrown(streams, ids, rings, id, m);
      ContentsGrown(streams, queues, repr, id, m);
      LinkIn(heads, p, q, rings, repr);
      streams := streams[id := m];
      ids, queues, rings, repr := Appended(ids, k, id), queues[id := q.Contents()], rings[k := rings[k] + [q]],
        repr + {q};
    }

    lemma IndexOf(id: StreamID) returns (j: nat)
      requires Valid() && id in streams
      ensures id in queues && streams[id].priority.InRange()
      ensures var k := streams[id].priority.Slot();
              |rings| == SLOTS && |ids| == SLOTS && j < |ids[k]| == |rings[k]| && ids[k][j] == id
                && rings[k][j] == streams[id].location
              && R.Distinct(ids[k]) && Head(rings[k]) == rings[k][0]
    {
      hide PoolOk, ContentsOk, RingsOk, Apart, HeadsOk, Injective, R.Distinct;
      var s := Abs(NO_WINDOWS);
      assert id in s.priority && id in s.queues;
      var k := streams[id].priority.Slot();
      assert id in ids[k];
      j :| 0 <= j < |ids[k]| && ids[k][j] == id;
      assert PlacedIn(streams, ids[k], rings[k], k);
    }

    /** Take a stream out of its ring and out of the map.  AdjustStream puts it
        back with another priority. */
    method Unlink(q: WriteQueue, id: StreamID, p: Priority, ghost j: nat)
      requires Parts() && id in streams && streams[id] == Metadata(q, p) && p.InRange() && id in queues
      requires var k := p.Slot();
               |rings| == SLOTS && |ids| == SLOTS && j < |ids[k]| == |rings[k]| && ids[k][j] == id && rings[k][j] == q
               && R.Distinct(ids[k]) && Head(rings[k]) == rings[k][0]
      modifies this`streams, this`ids, this`queues, this`rings, this`repr, heads, repr`next, repr`prev
      ensures Parts() && repr == old(repr) - {q} && q in old(repr) && q != control && q !in queuePool
      ensures q.Ok() && q.Contents() == old(queues)[id]
      ensures streams == old(streams) - {id} && ids == Dropped(old(ids), p.Slot(), id) && queues == old(queues) - {id}
    {
      hide PoolOk, Apart, Placed, PlacedIn, Injective, ContentsOk, RingsOk, HeadsOk, DisjointRings, R.Distinct, Cut,
           Dropped;
      ghost var k := p.Slot();
      RingsAreDisjoint(streams, ids, rings);
      PlacedCut(streams, ids, rings, id, k, j);
      ContentsCut(streams, queues, repr, id);
      ApartCut(queuePool, repr, control, q);
      UnlinkFrom(heads, p, q, rings, repr, j);
      streams := streams - {id};
      ids, queues, rings, repr := Dropped(ids, k, id), queues - {id}, rings[k := Cut(rings[k], j)], repr - {q};
    }

    /** OpenStream.  Its panic on an open stream is part of Legal. */
    method OpenStream(id: StreamID, p: Priority)
      requires Valid() && id !in streams && p.InRange()
      modifies this, heads, repr`next, repr`prev, queuePool`next, queuePool`prev
      ensures Valid() && forall w :: Does(old(Abs(w)), Open(id, p), Abs(w))
      ensures forall q :: q in repr ==> fresh(q) || q in old(repr) || q in old(queuePool)
      ensures forall q :: q in queuePool ==> q in old(queuePool)
    {
      hide Parts, PS.Valid;
      OpenFacts(id, p);
      var q := GetQueue();
      Link(q, id, p);
      assert Priorities(streams) == Priorities(old(streams))[id := p];
    }

    lemma OpenFacts(id: StreamID, p: Priority)
      requires Valid() && id !in streams && p.InRange()
      ensures Abs(NO_WINDOWS).Shape() && Legal(Abs(NO_WINDOWS), Open(id, p))
              && Step(Abs(NO_WINDOWS), Open(id, p)).Valid()
    {
      hide PoolOk, RingsOk, Apart, HeadsOk, Injective, Placed;
      StepValid(Abs(NO_WINDOWS), Open(id, p));
    }

    method GetQueue() returns (q: WriteQueue)
      requires Parts()
      modifies this`queuePool
      ensures Parts() && q !in repr && q != control && q !in queuePool && q.Ok() && q.Contents() == []
      ensures fresh(q) || q in old(queuePool)
      ensures forall p :: p in queuePool ==> p in old(queuePool)
    {
      hide PoolOk, Placed, Injective, ContentsOk, RingsOk, HeadsOk;
      q, queuePool := PoolGet(queuePool);
    }

    /** CloseStream; a stream that is not open is ignored. */
    method CloseStream(id: StreamID)
      requires Valid()
      modifies this, heads, repr
      ensures Valid() && forall w :: Does(old(Abs(w)), Close(id), Abs(w))
      ensures forall q :: q in repr || q in queuePool ==> q in old(repr) || q in old(queuePool)
    {
      hide Valid, Does;
      if id in streams {
        CloseOpen(id);
      } else {
        IgnoreFacts(id, Priority(0, false));
      }
    }

    method CloseOpen(id: StreamID)
      requires Valid() && id in streams
      modifies this, heads, repr
      ensures Valid() && forall w :: Does(old(Abs(w)), Close(id), Abs(w))
      ensures forall q :: q in repr || q in queuePool ==> q in old(repr) || q in old(queuePool)
    {
      hide Parts, PS.Valid, PS.Shape, Does, Step, Value, R.Distinct, Dropped;
      StepFacts(Close(id));
      CloseSteps(frames, ids, streams, queues, prioritizeIncremental, id);
      ghost var j := IndexOf(id);
      var Metadata(q, p) := streams[id];
      Unlink(q, id, p, j);
      PutQueue(q);
    }

    /** AdjustStream; a stream that is not open is ignored. */
    method AdjustStream(id: StreamID, p: Priority)
      requires Valid() && (id in streams ==> p.InRange())
      modifies this, heads, repr`next, repr`prev
      ensures Valid() && forall w :: Does(old(Abs(w)), Adjust(id, p), Abs(w))
      ensures repr == old(repr) && queuePool == old(queuePool)
    {
      hide Valid, Does;
      if id in streams {
        AdjustOpen(id, p);
      } else {
        IgnoreFacts(id, p);
      }
    }

    method AdjustOpen(id: StreamID, p: Priority)
      requires Valid() && id in streams && p.InRange()
      modifies this, heads, repr`next, repr`prev
      ensures Valid() && forall w :: Does(old(Abs(w)), Adjust(id, p), Abs(w))
      ensures repr == old(repr) && queuePool == old(queuePool)
    {
      hide Parts, PS.Valid, PS.Shape, Does, Step, Value, R.Distinct, Dropped, Appended;
      StepFacts(Adjust(id, p));
      ghost var j := IndexOf(id);
      var Metadata(q, was) := streams[id];
      AdjustSteps(frames, ids, streams, queues, prioritizeIncremental, id, Metadata(q, p));
      Move(q, id, was, p, j);
    }

    method Move(q: WriteQueue, id: StreamID, was: Priority, p: Priority, ghost j: nat)
      requires Parts() && id in streams && streams[id] == Metadata(q, was) && was.InRange() && p.InRange()
               && id in queues
      requires var k := was.Slot();
               |rings| == SLOTS && |ids| == SLOTS && j < |ids[k]| == |rings[k]| && ids[k][j] == id && rings[k][j] == q
               && R.Distinct(ids[k]) && Head(rings[k]) == rings[k][0]
      modifies this`streams, this`ids, this`queues, this`rings, this`repr, heads, repr`next, repr`prev
      ensures Parts() && repr == old(repr) && queues == old(queues)
      ensures streams == old(streams)[id := Metadata(q, p)]
      ensures ids == Appended(Dropped(old(ids), was.Slot(), id), p.Slot(), id)
    {
      hide Parts, R.Distinct, Head, Appended, Dropped;
      Unlink(q, id, was, j);
      Link(q, id, p);
    }

    lemma IgnoreFacts(id: StreamID, p: Priority)
      requires Valid() && id !in streams
      ensures forall w :: Does(Abs(w), Close(id), Abs(w)) && Does(Abs(w), Adjust(id, p), Abs(w))
    {
      hide Parts;
      Ignored(frames, ids, streams, queues, prioritizeIncremental, id, p);
    }

    lemma StepFacts(op: Op)
      requires Valid() && Legal(Abs(NO_WINDOWS), op)
      ensures Abs(NO_WINDOWS).Shape() && (forall s :: Does(Abs(NO_WINDOWS), op, s) ==> s.Valid())
      ensures forall id :: id in streams <==> id in queues
    {
      hide PoolOk, RingsOk, Apart, HeadsOk, Injective, Placed, Step;
      StepValid(Abs(NO_WINDOWS), op);
    }

    method PutQueue(q: WriteQueue)
      requires Parts() && q !in queuePool && q !in repr && q != control
      modifies this`queuePool, q`currQueue, q`currPos, q`nextQueue
      ensures Parts() && queuePool == old(queuePool) + [q]
    {
      hide PoolOk, Placed, Injective, RingsOk, HeadsOk;
      queuePool := PoolPut(queuePool, q);
      forall x | x in streams ensures Holds(streams[x].location, queues[x], repr) {
        assert old(Holds(streams[x].location, queues[x], repr));
      }
    }

    method Push(wr: FrameWriteRequest)
      requires Valid() && Legal(Abs(NO_WINDOWS), Rfc9218Spec.Push(wr))
      modifies this`frames, this`queues, control`nextQueue, repr`nextQueue
      ensures Valid() && forall w :: Does(old(Abs(w)), Rfc9218Spec.Push(wr), Abs(w))
    {
      hide Parts, PS.Valid, PS.Shape, Does, Value;
      StepFacts(Rfc9218Spec.Push(wr));
      PushSteps(frames, ids, streams, queues, prioritizeIncremental, wr);
      if wr.IsControl() {
        PushControl(wr);
        return;
      }
      if wr.StreamId() !in streams {
        PushControl(wr);
        return;
      }
      PushStream(wr, wr.StreamId());
    }

    method PushControl(wr: FrameWriteRequest)
      requires Parts()
      modifies this`frames, control`nextQueue
      ensures Parts() && frames == old(frames) + [wr]
    {
      hide PoolOk, Placed, Injective, RingsOk, HeadsOk;
      control.Push(wr);
      frames := frames + [wr];
      forall x | x in streams ensures Holds(streams[x].location, queues[x], repr) {
        assert old(Holds(streams[x].location, queues[x], repr));
      }
      assert forall i :: 0 <= i < |queuePool| ==> queuePool[i] in queuePool && queuePool[i] != control;
      assert PoolOk(queuePool);
    }

    method PushStream(wr: FrameWriteRequest, id: StreamID)
      requires Parts() && id in streams && id in queues
      modifies this`queues, repr`nextQueue
      ensures Parts() && queues == old(queues)[id := old(queues)[id] + [wr]]
    {
      hide PoolOk, Placed, Injective, RingsOk, HeadsOk;
      assert Holds(streams[id].location, queues[id], repr);
      PushOn(streams[id].location, wr, streams, queues, repr, id);
      queues := queues[id := queues[id] + [wr]];
    }

    method Pop(w: Windows) returns (r: Option<FrameWriteRequest>, w': Windows)
      requires Valid()
      modifies this`prioritizeIncremental, this`frames, this`ids, this`queues, this`rings, heads,
               control`currQueue, control`currPos, control`nextQueue, repr`currQueue, repr`currPos,
               repr`nextQueue
      ensures Valid() && Does(old(Abs(w)), Rfc9218Spec.Pop, Abs(w')) && r == Popped(old(Abs(w)))
    {
      hide Parts, PS.Valid, PS.Shape, Does, Popped, Priorities;
      PopFacts(w);
      var empty := ControlEmpty();
      if empty {
        r, w' := PopStreams(w);
      } else {
        var wr := ShiftControl();
        r, w' := Some(wr), w;
      }
    }

    lemma PopFacts(w: Windows)
      requires Valid()
      ensures Abs(w).Shape()
      ensures forall s :: Does(Abs(w), Rfc9218Spec.Pop, s) ==> s.(windows := NO_WINDOWS).Valid()
      ensures frames != [] ==>
                && Does(Abs(w), Rfc9218Spec.Pop, Value(frames[1..], ids, streams, queues, w, prioritizeIncremental))
                && Popped(Abs(w)) == Some(frames[0])
    {
      hide Parts, Search, Served, S.Valid, R.Distinct;
      StepValid(Abs(w), Rfc9218Spec.Pop);
    }

    method ControlEmpty() returns (empty: bool)
      requires Parts()
      ensures empty <==> frames == []
    {
      empty := control.Empty();
    }

    method ShiftControl() returns (wr: FrameWriteRequest)
      requires Parts() && frames != []
      modifies this`frames, control`currQueue, control`currPos, control`nextQueue
      ensures Parts() && wr == old(frames)[0] && frames == old(frames)[1..]
    {
      hide PoolOk, Placed, Injective, RingsOk, HeadsOk;
      wr := control.Shift();
      frames := frames[1..];
      forall x | x in streams ensures Holds(streams[x].location, queues[x], repr) {
        assert old(Holds(streams[x].location, queues[x], repr));
      }
      assert forall i :: 0 <= i < |queuePool| ==> queuePool[i] in queuePool && queuePool[i] != control;
      assert PoolOk(queuePool);
    }

    method PopStreams(w: Windows) returns (r: Option<FrameWriteRequest>, w': Windows)
      requires Parts() && frames == [] && Abs(w).Shape()
      modifies this`prioritizeIncremental, this`ids, this`queues, this`rings, heads, repr`currQueue,
               repr`currPos, repr`nextQueue
      ensures Parts() && Does(old(Abs(w)), Rfc9218Spec.Pop, Abs(w')) && r == Popped(old(Abs(w)))
    {
      hide Parts, Does, Served, First, Popped, FoundIn, PS.Shape;
      ghost var s := Abs(w);
      ShapeLength(s);
      Toggle();
      w' := w;
      for u := 0 to 8
        invariant Parts() && w' == w && Abs(w) == s.(prioritizeIncremental := !s.prioritizeIncremental)
        invariant NotFoundBefore(s, !s.prioritizeIncremental, 2 * u)
      {
        for j := 0 to 2
          invariant Parts() && w' == w && Abs(w) == s.(prioritizeIncremental := !s.prioritizeIncremental)
          invariant NotFoundBefore(s, !s.prioritizeIncremental, 2 * u + j)
        {
          var i := if prioritizeIncremental then (j + 1) % 2 else j;
          assert Visit(!s.prioritizeIncremental, 2 * u + j) == 2 * u + i;
          r, w' := TryRing(u, i, w, s);
          if r.Some? {
            PopFound(s, 2 * u + j, Abs(w'), r);
            return;
          }
        }
      }
      PopFails(s);
      return None, w;
    }

    method Toggle()
      requires Parts()
      modifies this`prioritizeIncremental
      ensures Parts() && prioritizeIncremental == !old(prioritizeIncremental)
    {
      prioritizeIncremental := !prioritizeIncremental;
    }

    /** The search in heads[u][i]. */
    method TryRing(u: nat, i: nat, w: Windows, ghost s: PS) returns (r: Option<FrameWriteRequest>, w': Windows)
      requires Parts() && u < 8 && i < 2 && s.Shape() && Abs(w) == s.(prioritizeIncremental := !s.prioritizeIncremental)
      modifies this`ids, this`queues, this`rings, heads, repr`currQueue, repr`currPos, repr`nextQueue
      ensures Parts()
      ensures r.Some? ==> FoundIn(s, 2 * u + i, Abs(w'), r)
      ensures r.None? ==> w' == w && Abs(w) == old(Abs(w)) && First(s, s.rings[2 * u + i]) == |s.rings[2 * u + i]|
    {
      hide Parts, Served, PS.Shape, ReadyIn, First;
      ShapeLength(s);
      ghost var k := 2 * u + i;
      RingShape(u, i);
      var q := heads[u, i];
      ghost var n := 0;
      if q != null {
        var head := q;
        while true
          invariant Parts() && Abs(w) == old(Abs(w)) && rings == old(rings) && heads[u, i] == head
          invariant 0 <= n < |ids[k]| == |rings[k]| && q == rings[k][n]
          invariant forall m :: 0 <= m < n ==> !ReadyIn(s, s.rings[k][m])
          decreases |rings[k]| - n
        {
          r, w' := TryQueue(q, u, i, k, n, w, s);
          if r.Some? {
            return;
          }
          q := q.next;
          n := n + 1;
          if q == heads[u, i] {
            break;
          }
        }
      }
      FirstIs(s, s.rings[k], n);
      return None, w;
    }

    lemma RingShape(u: nat, i: nat)
      requires Parts() && u < 8 && i < 2
      ensures |rings| == SLOTS && |ids| == SLOTS && |ids[2 * u + i]| == |rings[2 * u + i]|
      ensures heads.Length0 == 8 && heads.Length1 == 2 && heads[u, i] == Head(rings[2 * u + i])
    {
      hide PoolOk, Injective, ContentsOk, RingsOk, Apart;
      assert PlacedIn(streams, ids[2 * u + i], rings[2 * u + i], 2 * u + i);
    }

    lemma QueueFacts(k: nat, n: nat)
      requires Parts() && k < SLOTS && |rings| == SLOTS && |ids| == SLOTS && n < |ids[k]| == |rings[k]|
      ensures var id := ids[k][n]; id in queues && id in streams && streams[id].location == rings[k][n]
      ensures rings[k][n] in repr && rings[k][n].next == rings[k][Succ(n, |rings[k]|)]
      ensures rings[k][Succ(n, |rings[k]|)] == rings[k][0] <==> n + 1 == |rings[k]|
      ensures Head(Turned(rings[k], n)) == rings[k][n] && Head(Turned(rings[k], n + 1)) == rings[k][n].next
    {
      hide PoolOk, Injective, Apart;
      assert PlacedIn(streams, ids[k], rings[k], k) && RingIn(rings[k], repr);
      assert LinkedAt(rings[k], n);
    }

    /** consume on the n-th queue of ring k */
    method ConsumeFrom(q: WriteQueue, ghost k: nat, ghost n: nat, w: Windows)
      returns (r: Option<FrameWriteRequest>, w': Windows)
      requires Parts() && k < |ids| && n < |ids[k]|
      requires var id := ids[k][n]; id in queues && id in streams && streams[id].location == q && q in repr
      modifies this`queues, q`currQueue, q`currPos, q`nextQueue
      ensures Parts()
      ensures var c := ConsumeQueue(old(queues)[ids[k][n]], MAX_INT32, w);
              r == c.taken && w' == c.windows && queues == old(queues)[ids[k][n] := c.queue]
    {
      hide PoolOk, Placed, Injective, ContentsOk, RingsOk, HeadsOk, ConsumeQueue;
      r, w' := ConsumeOn(q, w, streams, queues, repr, ids[k][n]);
      assert forall j :: 0 <= j < |queuePool| ==> queuePool[j] in queuePool && queuePool[j] != q;
      assert PoolOk(queuePool);
      queues := queues[ids[k][n] := ConsumeQueue(queues[ids[k][n]], MAX_INT32, w).queue];
    }

    /** heads[u][i] = head, the n-th queue of the ring */
    method TurnTo(u: nat, i: nat, head: WriteQueue, ghost n: nat)
      requires Parts() && u < 8 && i < 2
      requires var k := 2 * u + i;
               |ids| == SLOTS && |rings| == SLOTS && n <= |ids[k]| == |rings[k]| && head == Head(Turned(rings[k], n))
      modifies this`ids, this`rings, heads
      ensures Parts() && ids == old(ids)[2 * u + i := R.Rotate(old(ids)[2 * u + i], n)]
    {
      hide PoolOk, Apart, Placed, PlacedIn, Injective, ContentsOk, RingsOk, Turned, R.Rotate;
      ghost var k := 2 * u + i;
      PlacedRotated(streams, ids, rings, k, n);
      RingsRotated(rings, repr, k, n);
      heads[u, i] := head;
      ids, rings := ids[k := R.Rotate(ids[k], n)], rings[k := Turned(rings[k], n)];
    }

    /** One turn of the loop of Pop. */
    method TryQueue(q: WriteQueue, u: nat, i: nat, ghost k: nat, ghost n: nat, w: Windows, ghost s: PS)
      returns (r: Option<FrameWriteRequest>, w': Windows)
      requires Parts() && u < 8 && i < 2 && s.Shape() && Abs(w) == s.(prioritizeIncremental := !s.prioritizeIncremental)
      requires |ids| == SLOTS && |rings| == SLOTS && k == 2 * u + i && n < |ids[k]| == |rings[k]| && q == rings[k][n]
      requires forall m :: 0 <= m < n ==> !ReadyIn(s, ids[k][m])
      modifies this`ids, this`queues, this`rings, heads, repr`currQueue, repr`currPos, repr`nextQueue
      ensures Parts() && heads.Length0 == 8 && heads.Length1 == 2
      ensures r.Some? ==> FoundIn(s, k, Abs(w'), r)
      ensures r.None? ==>
                && Abs(w) == old(Abs(w)) && !ReadyIn(s, ids[k][n]) && rings == old(rings)
                && heads[u, i] == old(heads[u, i]) && q.next == rings[k][Succ(n, |rings[k]|)]
                && (q.next == heads[u, i] <==> n + 1 == |rings[k]|)
    {
      hide Parts, PS.Shape, ReadyIn, FoundIn, ConsumeQueue, Turned, R.Rotate;
      RingShape(u, i);
      QueueFacts(k, n);
      r, w' := ConsumeFrom(q, k, n, w);
      Parity(u, i);
      ghost var turn := if i == 1 then n + 1 else n;
      Taken(s, k, n, turn);
      if r.Some? {
        var head := if i == 1 then q.next else q;
        TurnTo(u, i, head, turn);
        assert Abs(w') == AfterTaken(s, k, n, turn);
      }
    }
  }

  lemma Parity(u: nat, i: nat)
    requires i < 2
    ensures (2 * u + i) % 2 == i
  {
  }

  /** The state after the n-th stream of ring k was served and the ring turned. */
  ghost function AfterTaken(s: PS, k: nat, n: nat, turn: nat): PS
    requires k < |s.rings| && n < |s.rings[k]| && s.rings[k][n] in s.queues && turn <= |s.rings[k]|
  {
    var c := ConsumeQueue(s.queues[s.rings[k][n]], MAX_INT32, s.windows);
    s.(rings := s.rings[k := R.Rotate(s.rings[k], turn)], queues := s.queues[s.rings[k][n] := c.queue],
       windows := c.windows, prioritizeIncremental := !s.prioritizeIncremental)
  }

  /** What consume on the n-th queue of ring k means for the search. */
  lemma Taken(s: PS, k: nat, n: nat, turn: nat)
    requires s.Shape() && k < SLOTS && n < |s.rings[k]| && s.rings[k][n] in s.queues
    requires forall m :: 0 <= m < n ==> !ReadyIn(s, s.rings[k][m])
    requires turn == if k % 2 == 1 then n + 1 else n
    ensures var id := s.rings[k][n]; var c := ConsumeQueue(s.queues[id], MAX_INT32, s.windows);
            && (c.taken.Some? <==> ReadyIn(s, id))
            && (c.taken.None? ==> c.windows == s.windows && s.queues[id := c.queue] == s.queues)
            && (c.taken.Some? ==> FoundIn(s, k, AfterTaken(s, k, n, turn), c.taken))
  {
    var id := s.rings[k][n];
    assert ConsumeQueue(s.queues[id], MAX_INT32, s.windows).taken.Some? <==> ReadyIn(s, id);
    if ReadyIn(s, id) { FirstIs(s, s.rings[k], n); }
    hide ReadyIn, First;
  }

  lemma ShapeLength(s: PS)
    requires s.Shape()
    ensures |s.rings| == SLOTS
  {
  }
}
