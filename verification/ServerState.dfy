/** What the serve loop of a server connection keeps about its streams
    (xnet/http2/server.go), and facts about it that need no heap. */
module ServerState {
  import opened Frames
  import opened Flow
  import opened Sums
  import S = SchedSpec

  /** The states of a stream in the streams map; every other stream is idle or
      closed. */
  datatype Phase = Open | HalfClosedLocal | HalfClosedRemote

  /** The body pipe (xnet/http2/pipe.go), as far as the serve loop can tell:
      bytes in its buffer (0 once the buffer is gone), bytes that were in it when
      it was broken, and whether it was closed or broken. */
  datatype Pipe = Pipe(len: nat, unread: nat, closed: bool, broken: bool) {
    function Len(): nat { if broken then unread else len }
  }

  datatype Stream = Stream(phase: Phase, resetQueued: bool, gotTrailer: bool, wroteHeaders: bool, body: Option<Pipe>,
                           declBytes: int, bodyBytes: nat, inflow: Inflow)
  {
    function BodyLen(): nat { if body.Some? then body.value.Len() else 0 }

    /** What a handler can still read. */
    function Readable(): nat { if body.Some? && !body.value.broken then body.value.len else 0 }

    predicate AcceptsData() { phase.Open? && !gotTrailer && !resetQueued }

    /** Whether DATA of n bytes can be written to the body. */
    predicate Takes(n: nat) {
      body.Some? && !body.value.closed && !body.value.broken && (declBytes == -1 || bodyBytes + n <= declBytes)
    }
  }

  type Streams = map<StreamID, Stream>

  function Odd(ids: set<StreamID>): set<StreamID> { set i | i in ids && i % 2 == 1 }

  function Even(ids: set<StreamID>): set<StreamID> { set i | i in ids && i % 2 == 0 }

  lemma Added(ids: set<StreamID>, id: StreamID)
    requires id !in ids
    ensures id % 2 == 1 ==> |Odd(ids + {id})| == |Odd(ids)| + 1 && Even(ids + {id}) == Even(ids)
    ensures id % 2 == 0 ==> |Even(ids + {id})| == |Even(ids)| + 1 && Odd(ids + {id}) == Odd(ids)
  {
    if id % 2 == 1 { assert Odd(ids + {id}) == Odd(ids) + {id}; } else { assert Even(ids + {id}) == Even(ids) + {id}; }
  }

  lemma Removed(ids: set<StreamID>, id: StreamID)
    requires id in ids
    ensures id % 2 == 1 ==> |Odd(ids - {id})| == |Odd(ids)| - 1 && Even(ids - {id}) == Even(ids)
    ensures id % 2 == 0 ==> |Even(ids - {id})| == |Even(ids)| - 1 && Odd(ids - {id}) == Odd(ids)
  {
    Added(ids - {id}, id);
    assert ids - {id} + {id} == ids;
  }

  // ---- sums over the streams ----

  ghost function BodyLens(s: Streams): map<nat, nat> { map id | id in s :: s[id].BodyLen() }

  ghost function Buffered(s: Streams): nat { Sum(BodyLens(s)) }

  lemma BufferedSet(s: Streams, id: StreamID, st: Stream)
    ensures Buffered(s[id := st]) == Buffered(s) - (if id in s then s[id].BodyLen() else 0) + st.BodyLen()
  {
    assert BodyLens(s[id := st]) == BodyLens(s)[id := st.BodyLen()];
    SumSet(BodyLens(s), id, st.BodyLen());
  }

  lemma BufferedDrop(s: Streams, id: StreamID)
    requires id in s
    ensures Buffered(s - {id}) == Buffered(s) - s[id].BodyLen()
  {
    assert BodyLens(s - {id}) == BodyLens(s) - {id};
    SumDrop(BodyLens(s), id);
  }

  /** A bound on the frames that a stream can still cause: the RST_STREAM after
      a complete response, and the WINDOW_UPDATE when it is closed. */
  function Weight(st: Stream): nat { if st.phase.Open? then 3 else 2 }

  ghost function Weights(s: Streams): map<nat, nat> { map id | id in s :: Weight(s[id]) }

  ghost function Weighed(s: Streams): nat { Sum(Weights(s)) }

  lemma WeighedSet(s: Streams, id: StreamID, st: Stream)
    ensures Weighed(s[id := st]) == Weighed(s) - (if id in s then Weight(s[id]) else 0) + Weight(st)
  {
    assert Weights(s[id := st]) == Weights(s)[id := Weight(st)];
    SumSet(Weights(s), id, Weight(st));
  }

  lemma WeighedDrop(s: Streams, id: StreamID)
    requires id in s
    ensures Weighed(s - {id}) == Weighed(s) - Weight(s[id])
  {
    assert Weights(s - {id}) == Weights(s) - {id};
    SumDrop(Weights(s), id);
  }

  // ---- the frames of the scheduler ----

  const WINDOW_UPDATE: nat := 8
  const PUSH_PROMISE: nat := 5
  const HEADERS: nat := 1
  const SETTINGS: nat := 4
  const PING: nat := 6
  const GOAWAY: nat := 7
  const CONTINUE_100: nat := 100
  const FLUSH: nat := 101

  predicate IsPush(wr: FrameWriteRequest) { wr.OnStream? && wr.frame.NonData? && wr.frame.tag == PUSH_PROMISE }

  /** writeEndsStream */
  predicate EndsStream(wr: FrameWriteRequest) {
    wr.OnStream? && if wr.frame.Data? then wr.frame.endStream else wr.frame.endsStream
  }

  /** Frames whose writing leaves every stream as it is. */
  predicate Harmless(wr: FrameWriteRequest) {
    match wr
    case Control(ctl) => !ctl.StreamError?
    case OnStream(_, frame, _) => frame == NonData(WINDOW_UPDATE, false)
  }

  function FrameWork(wr: FrameWriteRequest): nat { 1 + wr.DataSize() + if IsPush(wr) then 4 else 0 }

  function QueueWork(q: seq<FrameWriteRequest>): nat { if q == [] then 0 else FrameWork(q[0]) + QueueWork(q[1..]) }

  lemma {:induction false} QueueWorkPush(q: seq<FrameWriteRequest>, wr: FrameWriteRequest)
    ensures QueueWork(q + [wr]) == QueueWork(q) + FrameWork(wr)
  {
    if q == [] {
      assert [wr][1..] == [];
    } else {
      assert (q + [wr])[1..] == q[1..] + [wr];
      QueueWorkPush(q[1..], wr);
    }
  }

  lemma QueueWorkTaken(q: seq<FrameWriteRequest>, w: Windows)
    requires Ready(q, w)
    ensures var r := ConsumeQueue(q, MAX_INT32, w);
              r.taken.Some? && QueueWork(r.queue) + 1 + (if IsPush(r.taken.value) then 4 else 0) <= QueueWork(q)
  {
    var r := ConsumeQueue(q, MAX_INT32, w);
    if Consume(q[0], MAX_INT32, w).Split? { assert r.queue[1..] == q[1..]; }
  }

  ghost function Works(queues: map<StreamID, seq<FrameWriteRequest>>): map<nat, nat> {
    map id | id in queues :: QueueWork(queues[id])
  }

  /** How much the scheduler still has to do. */
  ghost function Work(s: S.Sched): nat { QueueWork(s.control) + Sum(Works(s.queues)) }

  lemma WorkSet(s: S.Sched, id: StreamID, q: seq<FrameWriteRequest>)
    ensures Work(s.(queues := s.queues[id := q])) == Work(s) - (if id in s.queues then QueueWork(s.queues[id]) else 0)
            + QueueWork(q)
  {
    assert Works(s.queues[id := q]) == Works(s.queues)[id := QueueWork(q)];
    SumSet(Works(s.queues), id, QueueWork(q));
  }

  lemma WorkDrop(s: S.Sched, id: StreamID)
    ensures Work(s.(queues := s.queues - {id})) <= Work(s)
  {
    assert Works(s.queues - {id}) == Works(s.queues) - {id};
    SumDrop(Works(s.queues), id);
  }

  lemma WorkPush(s: S.Sched, wr: FrameWriteRequest)
    ensures Work(S.Push(s, wr)) == Work(s) + FrameWork(wr)
  {
    if !wr.IsControl() && wr.StreamId() in s.queues {
      WorkSet(s, wr.StreamId(), s.queues[wr.StreamId()] + [wr]);
      QueueWorkPush(s.queues[wr.StreamId()], wr);
    } else {
      QueueWorkPush(s.control, wr);
    }
  }

  /** Nothing that the scheduler can give out now would change a stream, and the
      streams it is for are in the map. */
  ghost predicate Calm(s: S.Sched, w: Windows, open: set<StreamID>) {
    && (forall i :: 0 <= i < |s.control| ==> Harmless(s.control[i]))
    && forall id :: id in s.queues ==> CalmQueue(s.queues[id], w) && (Ready(s.queues[id], w) ==> id in open)
  }

  predicate CalmQueue(q: seq<FrameWriteRequest>, w: Windows) { !Ready(q, w) || (|q| == 1 && Harmless(q[0])) }

  lemma CalmPush(s: S.Sched, w: Windows, wr: FrameWriteRequest, open: set<StreamID>)
    requires s.control == [] && S.NoneReady(s, w) && Harmless(wr) && (wr.OnStream? ==> wr.stream in open)
    ensures Calm(S.Push(s, wr), w, open)
  {
    if !wr.IsControl() && wr.StreamId() in s.queues {
      var q := s.queues[wr.StreamId()];
      assert q != [] ==> (q + [wr])[0] == q[0];
    }
  }

  // ---- invariants ----

  /** The stream was opened at some time. */
  predicate OpenedBy(id: StreamID, maxClient: nat, maxPush: nat) {
    id > 0 && if id % 2 == 1 then id <= maxClient else id <= maxPush
  }

  /** Where a stream is in its life. */
  datatype Stage = Unopened | Live(phase: Phase) | Over

  function StageIn(s: Streams, id: StreamID, maxClient: nat, maxPush: nat): Stage {
    if id in s then Live(s[id].phase) else if OpenedBy(id, maxClient, maxPush) then Over else Unopened
  }

  /** Section 5.1 of RFC 7540, without the reserved states: idle, open, half closed
      on either side but not on one after the other, closed. */
  predicate MayBecome(a: Stage, b: Stage) {
    match a
    case Unopened => true
    case Live(Open) => !b.Unopened?
    case Live(_) => b == a || b.Over?
    case Over => b.Over?
  }

  /** The streams were opened, and the counters count them. */
  ghost predicate LifeOk(s: Streams, client: int, pushed: int, maxClient: nat, maxPush: nat, closing: set<StreamID>,
                         limit: nat) {
    && (forall id :: id in s ==> OpenedBy(id, maxClient, maxPush))
    && (forall id :: id in closing ==> OpenedBy(id, maxClient, maxPush) && id !in s)
    && maxPush % 2 == 0 && client == |Odd(s.Keys)| && pushed == |Even(s.Keys)| && client <= limit
  }

  /** A stream that cannot go on is reset, or about to be. */
  ghost predicate ResetsOk(s: Streams, resetting: set<StreamID>) {
    forall id :: id in s ==> ResetOk(s[id], id in resetting)
  }

  predicate ResetOk(st: Stream, resetting: bool) {
    st.resetQueued || resetting || (!st.phase.HalfClosedLocal? && (st.phase.Open? ==> st.body.Some?))
  }

  /** The scheduler knows the streams ids. */
  ghost predicate QueuesOk(q: S.Sched, ids: set<StreamID>) {
    q.queues.Keys == ids && S.Valid(q) && forall i :: 0 <= i < |q.control| ==> q.control[i].Control?
  }

  /** The receive ledger of the connection, and of every stream. */
  ghost predicate RecvOk(f: Inflow, s: Streams, bodyReads: map<StreamID, nat>, owed: nat, credit: nat, late: nat,
                         initial: nat) {
    && f.Ok() && f.Total() + Buffered(s) + Sum(bodyReads) + owed == credit + late && credit <= MAX_INT32
    && initial <= MAX_INT32 && forall id :: id in s ==> StreamRecv(s[id], ReadsIn(bodyReads, id), 0, initial)
  }

  function ReadsIn(bodyReads: map<StreamID, nat>, id: StreamID): nat { if id in bodyReads then bodyReads[id] else 0 }

  predicate StreamRecv(st: Stream, reading: nat, more: int, initial: nat) {
    st.inflow.Ok() && st.inflow.Total() + st.BodyLen() + reading + more <= initial
  }

  /** The send ledger. */
  ghost predicate SendOk(w: Windows, ids: set<StreamID>, initial: int, granted: map<StreamID, int>,
                         sent: map<StreamID, int>, grantedAll: int, sentAll: int, flowError: bool)
  {
    && (forall id :: id in ids ==> id in w.streams && id in granted && id in sent && InInt32(w.streams[id]))
    && 0 <= w.conn <= MAX_INT32 && 0 <= initial <= MAX_INT32 && 0 < w.maxFrameSize
    && w.conn == INITIAL_WINDOW + grantedAll - sentAll
    && (!flowError ==> forall id :: id in ids ==> w.streams[id] == initial + granted[id] - sent[id])
  }

  const INITIAL_WINDOW: int := 65535

  // ---- updates keep them ----

  lemma LifeDelete(s: Streams, client: int, pushed: int, maxClient: nat, maxPush: nat, closing: set<StreamID>,
                   limit: nat, id: StreamID)
    requires LifeOk(s, client, pushed, maxClient, maxPush, closing, limit) && id in s
    ensures LifeOk(s - {id}, client - id % 2, pushed - (1 - id % 2), maxClient, maxPush, closing + {id}, limit)
  {
    Removed(s.Keys, id);
    assert (s - {id}).Keys == s.Keys - {id};
    hide Odd, Even;
  }

  lemma LifeForget(s: Streams, client: int, pushed: int, maxClient: nat, maxPush: nat, closing: set<StreamID>,
                   limit: nat, id: StreamID)
    requires LifeOk(s, client, pushed, maxClient, maxPush, closing, limit)
    ensures LifeOk(s, client, pushed, maxClient, maxPush, closing - {id}, limit)
  {
    hide Odd, Even;
  }

  lemma LifeAdd(s: Streams, client: int, pushed: int, maxClient: nat, maxPush: nat, closing: set<StreamID>,
                limit: nat, id: StreamID, st: Stream)
    requires LifeOk(s, client, pushed, maxClient, maxPush, closing, limit)
    requires id !in s && id !in closing && OpenedBy(id, maxClient, maxPush) && client + id % 2 <= limit
    ensures LifeOk(s[id := st], client + id % 2, pushed + (1 - id % 2), maxClient, maxPush, closing, limit)
  {
    Added(s.Keys, id);
    assert s[id := st].Keys == s.Keys + {id};
    hide Odd, Even;
  }

  lemma LifeSet(s: Streams, client: int, pushed: int, maxClient: nat, maxPush: nat, closing: set<StreamID>,
                limit: nat, id: StreamID, st: Stream)
    requires LifeOk(s, client, pushed, maxClient, maxPush, closing, limit) && id in s
    ensures LifeOk(s[id := st], client, pushed, maxClient, maxPush, closing, limit) && s[id := st].Keys == s.Keys
  {
    assert s[id := st].Keys == s.Keys;
    hide Odd, Even;
  }

  lemma ResetsSet(s: Streams, resetting: set<StreamID>, id: StreamID, st: Stream)
    requires ResetsOk(s, resetting) && ResetOk(st, id in resetting)
    ensures ResetsOk(s[id := st], resetting) && ResetsOk(s - {id}, resetting)
  {
    hide ResetOk;
  }

  lemma RecvDelete(f: Inflow, s: Streams, bodyReads: map<StreamID, nat>, owed: nat, credit: nat, late: nat,
                   initial: nat, id: StreamID)
    requires RecvOk(f, s, bodyReads, owed, credit, late, initial) && id in s
    ensures RecvOk(f, s - {id}, bodyReads, owed + s[id].BodyLen(), credit, late, initial)
  {
    BufferedDrop(s, id);
    hide Buffered, Sum, StreamRecv;
  }

  /** A stream whose body holds taken more bytes than before. */
  lemma RecvSet(f: Inflow, s: Streams, bodyReads: map<StreamID, nat>, owed: nat, credit: nat, late: nat, initial: nat,
                id: StreamID, st: Stream, taken: int)
    requires RecvOk(f, s, bodyReads, owed, credit, late, initial) && owed - taken >= 0
    requires StreamRecv(st, ReadsIn(bodyReads, id), 0, initial)
    requires st.BodyLen() == (if id in s then s[id].BodyLen() else 0) + taken
    ensures RecvOk(f, s[id := st], bodyReads, owed - taken, credit, late, initial)
  {
    BufferedSet(s, id, st);
    hide Buffered, Sum, StreamRecv;
  }

  lemma SendGranted(w: Windows, ids: set<StreamID>, initial: int, granted: map<StreamID, int>,
                    sent: map<StreamID, int>, grantedAll: int, sentAll: int, flowError: bool, id: StreamID, n: int)
    requires SendOk(w, ids, initial, granted, sent, grantedAll, sentAll, flowError) && id in ids && 0 < n <= MAX_INT32
    ensures id in w.streams && id in granted && InInt32(w.streams[id])
    ensures w.streams[id] + n <= MAX_INT32 ==>
              SendOk(w.(streams := w.streams[id := w.streams[id] + n]), ids, initial, granted[id := granted[id] + n],
                sent,
                     grantedAll, sentAll, flowError)
  {
  }

  lemma SendAdd(w: Windows, ids: set<StreamID>, initial: int, granted: map<StreamID, int>, sent: map<StreamID, int>,
                grantedAll: int, sentAll: int, flowError: bool, id: StreamID)
    requires SendOk(w, ids, initial, granted, sent, grantedAll, sentAll, flowError)
    ensures SendOk(w.(streams := w.streams[id := initial]), ids + {id}, initial, granted[id := 0], sent[id := 0],
            grantedAll, sentAll, flowError)
  {
  }

  /** A frame from the queue of a stream is paid for. */
  lemma SendTaken(w: Windows, ids: set<StreamID>, initial: int, granted: map<StreamID, int>, sent: map<StreamID, int>,
                  grantedAll: int, sentAll: int, flowError: bool, id: StreamID, q: seq<FrameWriteRequest>)
    requires SendOk(w, ids, initial, granted, sent, grantedAll, sentAll, flowError) && id in ids
    requires ConsumeQueue(q, MAX_INT32, w).taken.Some? && q[0].OnStream? && q[0].stream == id
    ensures var c := ConsumeQueue(q, MAX_INT32, w); var n := c.taken.value.DataSize();
            SendOk(c.windows, ids, initial, granted, sent[id := sent[id] + n], grantedAll, sentAll + n, flowError)
  {
    ConsumeQueueDebit(q, MAX_INT32, w);
    TakenWindows(q, w);
    hide ConsumeQueue, Windows.Of;
  }

  lemma TakenWindows(q: seq<FrameWriteRequest>, w: Windows)
    requires ConsumeQueue(q, MAX_INT32, w).taken.Some? && q[0].OnStream? && q[0].stream in w.streams
    ensures var c := ConsumeQueue(q, MAX_INT32, w); var n := c.taken.value.DataSize(); var id := q[0].stream;
            && c.windows.streams == w.streams[id := w.streams[id] - n] && 0 <= n
               && (n > 0 ==> n <= w.streams[id] && n <= w.conn)
  {
    if !q[0].HasPayload() { assert w.streams[q[0].stream := w.streams[q[0].stream]] == w.streams; }
  }

  // ---- what frame writing leaves alone ----

  /** What the write loop must not disturb. */
  datatype Snap = Snap(streams: Streams, maxPush: nat, closing: set<StreamID>, resetting: set<StreamID>, owed: nat,
                       refreshed: bool, loop: bool, granted: map<StreamID, int>)

  /** Streams only move forward, what was granted to them stays so, and what was
      in progress still is. */
  ghost predicate Kept(a: Snap, b: Snap, maxClient: nat) {
    && Later(a.streams, maxClient, a.maxPush, b.streams, maxClient, b.maxPush)
    && GrantsKept(a.granted, b.granted)
    && a.closing == b.closing && a.resetting == b.resetting && a.owed == b.owed && (a.refreshed ==> b.refreshed)
       && a.loop == b.loop
  }

  ghost predicate GrantsKept(g: map<StreamID, int>, g': map<StreamID, int>) {
    forall id :: id in g ==> id in g' && g'[id] == g[id]
  }

  /** Every stream is as far as it was, or farther. */
  ghost predicate Later(s: Streams, maxClient: nat, maxPush: nat, s': Streams, maxClient': nat, maxPush': nat) {
    forall id: StreamID :: MayBecome(StageIn(s, id, maxClient, maxPush), StageIn(s', id, maxClient', maxPush'))
  }

  lemma KeptTrans(a: Snap, b: Snap, c: Snap, maxClient: nat)
    requires Kept(a, b, maxClient) && Kept(b, c, maxClient)
    ensures Kept(a, c, maxClient)
  {
    hide StageIn, Later;
    LaterTrans(a.streams, maxClient, a.maxPush, b.streams, maxClient, b.maxPush, c.streams, maxClient, c.maxPush);
  }

  lemma KeptSelf(a: Snap, maxClient: nat)
    ensures Kept(a, a, maxClient)
  {
  }

  lemma LaterTrans(s: Streams, c: nat, p: nat, s': Streams, c': nat, p': nat, s'': Streams, c'': nat, p'': nat)
    requires Later(s, c, p, s', c', p') && Later(s', c', p', s'', c'', p'')
    ensures Later(s, c, p, s'', c'', p'')
  {
    hide StageIn;
    forall id: StreamID ensures MayBecome(StageIn(s, id, c, p), StageIn(s'', id, c'', p'')) {
      assert MayBecome(StageIn(s, id, c, p), StageIn(s', id, c', p'))
        && MayBecome(StageIn(s', id, c', p'), StageIn(s'', id, c'', p''));
    }
  }

  lemma LaterAt(s: Streams, c: nat, p: nat, s': Streams, c': nat, p': nat, id: StreamID)
    requires Later(s, c, p, s', c', p')
    ensures MayBecome(StageIn(s, id, c, p), StageIn(s', id, c', p'))
  {
  }

  lemma LaterSelf(s: Streams, c: nat, p: nat)
    ensures Later(s, c, p, s, c, p)
  {
  }

  lemma LaterDelete(s: Streams, maxClient: nat, maxPush: nat, id: StreamID)
    requires OpenedBy(id, maxClient, maxPush)
    ensures Later(s, maxClient, maxPush, s - {id}, maxClient, maxPush)
  {
  }

  lemma LaterSet(s: Streams, maxClient: nat, maxPush: nat, id: StreamID, st: Stream)
    requires id in s && (s[id].phase.Open? || st.phase == s[id].phase)
    ensures Later(s, maxClient, maxPush, s[id := st], maxClient, maxPush)
  {
  }

  /** A new stream has a number that no stream had. */
  lemma LaterNew(s: Streams, maxClient: nat, maxPush: nat, maxClient': nat, maxPush': nat, id: StreamID, st: Stream)
    requires maxClient <= maxClient' && maxPush <= maxPush' && id !in s && !OpenedBy(id, maxClient, maxPush)
    ensures Later(s, maxClient, maxPush, s, maxClient', maxPush')
            && Later(s, maxClient, maxPush, s[id := st], maxClient', maxPush')
  {
  }

  lemma LifeRaise(s: Streams, client: int, pushed: int, maxClient: nat, maxPush: nat, closing: set<StreamID>,
                  limit: nat, maxClient': nat, maxPush': nat)
    requires LifeOk(s, client, pushed, maxClient, maxPush, closing, limit)
    requires maxClient <= maxClient' && maxPush <= maxPush' && maxPush' % 2 == 0
    ensures LifeOk(s, client, pushed, maxClient', maxPush', closing, limit)
  {
    hide Odd, Even;
  }

  lemma KeptParts(a: Snap, b: Snap, maxClient: nat)
    requires Kept(a, b, maxClient)
    ensures a.closing == b.closing && a.resetting == b.resetting && a.owed == b.owed && (a.refreshed ==> b.refreshed)
            && a.loop == b.loop && GrantsKept(a.granted, b.granted)
  {
  }

  lemma KeptReset(a: Snap, b: Snap, during: set<StreamID>, maxClient: nat)
    requires b.resetting == a.resetting && Kept(a.(resetting := during), b.(resetting := during), maxClient)
    ensures Kept(a, b, maxClient)
  {
  }

  lemma KeptInflow(a: Snap, b: Snap, maxClient: nat, id: StreamID)
    requires id in a.streams && id in b.streams
             && b == a.(streams := a.streams[id := a.streams[id].(inflow := b.streams[id].inflow)])
    ensures Kept(a, b, maxClient)
  {
    LaterSet(a.streams, maxClient, a.maxPush, id, b.streams[id]);
  }

  lemma KeptWeaker(a: Snap, b: Snap, maxClient: nat)
    requires Kept(a, b, maxClient)
    ensures Kept(a.(refreshed := false), b, maxClient) && (a.refreshed ==> b.refreshed)
  {
  }

  /** A stream is deleted and its bytes are owed; later it is forgotten and they
      are credited. */
  lemma KeptClose(a: Snap, b: Snap, c: Snap, n: nat, maxClient: nat, id: StreamID)
    requires id in a.streams && id !in a.closing && OpenedBy(id, maxClient, a.maxPush)
    requires b.owed >= n
             && Kept(a.(streams := a.streams - {id}, closing := a.closing + {id}, owed := a.owed + n), b, maxClient)
    requires Kept(b.(owed := b.owed - n, closing := b.closing - {id}, refreshed := false), c, maxClient)
             && (b.refreshed ==> c.refreshed)
    ensures Kept(a, c, maxClient) && id !in c.streams
  {
    var s, p := a.streams - {id}, a.maxPush;
    assert StageIn(s, id, maxClient, p) == Over;
    hide Later;
    LaterDelete(a.streams, maxClient, p, id);
    LaterTrans(s, maxClient, p, b.streams, maxClient, b.maxPush, c.streams, maxClient, c.maxPush);
    LaterTrans(a.streams, maxClient, p, s, maxClient, p, c.streams, maxClient, c.maxPush);
    LaterAt(s, maxClient, p, c.streams, maxClient, c.maxPush, id);
  }

  lemma KeptForget(a: Snap, b: Snap, maxClient: nat, id: StreamID)
    requires Kept(a, b, maxClient)
    ensures Kept(a.(closing := a.closing - {id}), b.(closing := b.closing - {id}), maxClient)
  {
  }

  // ---- frames from the client ----

  /** What the frame reader hands over: the frame, or that it was too large. */
  datatype ClientFrame =
    | SettingsAck
    | Settings(settings: seq<Setting>, bigOrDuplicate: bool)
    | Headers(id: StreamID, ended: bool, selfDependent: bool, wellFormed: bool, declBytes: int, handlerOk: bool)
    | WindowUpdate(id: StreamID, increment: int)
    | Ping(id: StreamID, ack: bool)
    | DataFrame(id: StreamID, length: nat, data: nat, ended: bool)
    | ResetFrame(id: StreamID)
    | PriorityFrame(id: StreamID, selfDependent: bool)
    | GoAwayFrame
    | PushPromiseFrame(id: StreamID)
    | UnknownFrame(id: StreamID)
    | TooLarge
  {
    function StreamId(): StreamID {
      match this
      case Headers(id, _, _, _, _, _) => id
      case WindowUpdate(id, _) => id
      case Ping(id, _) => id
      case DataFrame(id, _, _, _) => id
      case ResetFrame(id) => id
      case PriorityFrame(id, _) => id
      case PushPromiseFrame(id) => id
      case UnknownFrame(id) => id
      case _ => 0
    }

    /** What the frame reader guarantees. */
    predicate Parsed() {
      match this
      case DataFrame(_, length, data, _) => data <= length
      case WindowUpdate(_, increment) => 0 < increment <= MAX_INT32
      case _ => true
    }
  }

  datatype Setting =
    | InitialWindow(val: nat) | MaxFrameSize(val: nat) | MaxStreams(val: nat) | EnablePush(val: nat) | OtherSetting
  {
    /** Setting.Valid */
    predicate Valid() {
      match this
      case InitialWindow(val) => val <= MAX_INT32
      case MaxFrameSize(val) => 16384 <= val < 0x100_0000
      case EnablePush(val) => val <= 1
      case _ => true
    }
  }

  /** The errors of processFrame. */
  datatype Outcome = Fine | StreamFails(id: StreamID) | ConnectionFails | FlowFails

  /** A stream ends its request: the body is closed. */
  function EndRequest(st: Stream): Stream {
    st.(phase := HalfClosedRemote, body := if st.body.Some? then Some(st.body.value.(closed := true)) else None)
  }

  /** While the windows of the streams are adjusted to a new initial size: todo
      still have the old one. */
  ghost predicate Adjusting(w: Windows, ids: set<StreamID>, todo: set<StreamID>, was: int, initial: int,
                            granted: map<StreamID, int>, sent: map<StreamID, int>, flowError: bool)
  {
    && todo <= ids
       && (forall id :: id in ids ==> id in w.streams && id in granted && id in sent && InInt32(w.streams[id]))
    && (!flowError ==> forall id :: id in ids ==>
          w.streams[id] == (if id in todo then was else initial) + granted[id] - sent[id])
  }

  lemma AdjustOne(w: Windows, ids: set<StreamID>, todo: set<StreamID>, was: int, initial: int,
                  granted: map<StreamID, int>, sent: map<StreamID, int>, flowError: bool, id: StreamID)
    requires Adjusting(w, ids, todo, was, initial, granted, sent, flowError) && id in todo
             && InInt32(w.streams[id] + (initial - was))
    ensures Adjusting(w.(streams := w.streams[id := w.streams[id] + (initial - was)]), ids, todo - {id}, was, initial,
            granted, sent, flowError)
  {
  }

  lemma BeginAdjust(w: Windows, ids: set<StreamID>, was: int, initial: int, granted: map<StreamID, int>,
                    sent: map<StreamID, int>, grantedAll: int, sentAll: int, flowError: bool)
    requires SendOk(w, ids, was, granted, sent, grantedAll, sentAll, flowError)
    ensures Adjusting(w, ids, ids, was, initial, granted, sent, flowError) && 0 <= was <= MAX_INT32
  {
  }

  lemma EndAdjust(w: Windows, ids: set<StreamID>, todo: set<StreamID>, was: int, initial: int,
                  granted: map<StreamID, int>, sent: map<StreamID, int>, grantedAll: int, sentAll: int,
                  flowError: bool, w': Windows)
    requires SendOk(w, ids, was, granted, sent, grantedAll, sentAll, flowError) && 0 <= initial <= MAX_INT32
    requires Adjusting(w', ids, todo, was, initial, granted, sent, flowError) && w' == w.(streams := w'.streams)
    ensures SendOk(w', ids, initial, granted, sent, grantedAll, sentAll, true)
    ensures todo == {} ==> SendOk(w', ids, initial, granted, sent, grantedAll, sentAll, flowError)
  {
  }

  lemma AdjustingHas(w: Windows, ids: set<StreamID>, todo: set<StreamID>, was: int, initial: int,
                     granted: map<StreamID, int>, sent: map<StreamID, int>, flowError: bool, id: StreamID)
    requires Adjusting(w, ids, todo, was, initial, granted, sent, flowError) && id in todo
    ensures id in w.streams && InInt32(w.streams[id])
  {
  }
}
