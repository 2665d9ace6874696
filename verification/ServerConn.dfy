/** The serve loop of a server connection, one method per case of its select
    (xnet/http2/server.go).  Goroutines appear as calls in any order: a handler's
    write, read or close is one call, and so is the end of an asynchronous frame
    write.  A panic of the serve goroutine ends the run; the panics that can be
    reached are outcomes, the others are preconditions that every caller meets. */
module ServerConn {
  import opened Frames
  import opened Flow
  import opened Sums
  import opened ServerState
  import S = SchedSpec

  datatype Panic = WindowOverflow | FrameOnClosedStream | FrameOnHalfClosedStream

  class Conn {
    const advMaxStreams: nat
    const initialRecv: nat
    var streams: Streams
    var curClientStreams: int
    var curPushedStreams: int
    var maxClientStreamID: nat
    var maxPushPromiseID: nat
    var clientMaxStreams: nat
    var unackedSettings: int
    var pushEnabled: bool
    var sawFirstSettings: bool
    var inflow: Inflow
    var win: Windows                     // flow, the streams' flow, maxFrameSize
    var initialSend: int
    var sched: S.Sched                   // writeSched
    var writingFrame: bool
    var writingFrameAsync: bool
    var current: FrameWriteRequest       // what writeFrameAsync is writing
    var needsFrameFlush: bool
    var needToSendGoAway: bool
    var needToSendSettingsAck: bool
    var inGoAway: bool
    var goAwayError: bool                // goAwayCode != ErrCodeNo
    var inFrameScheduleLoop: bool
    var panic: Option<Panic>
    var bodyReads: map<StreamID, nat>    // bodyReadCh: the bytes noted for every stream
    var stale: map<StreamID, nat>        // what the bodies of closed streams still hold
    ghost var refunded: nat              // bytes that were still to be read when their stream was closed
    ghost var late: nat                  // bytes that handlers read after their stream was closed
    ghost var credit: nat                // the connection's receive window
    ghost var owed: nat                  // bytes taken from the window and not yet in a body
    ghost var closing: set<StreamID>     // deleted from streams, not yet closed in the scheduler
    ghost var resetting: set<StreamID>   // about to be marked resetQueued
    ghost var granted: map<StreamID, int>
    ghost var sent: map<StreamID, int>
    ghost var grantedAll: int
    ghost var sentAll: int
    ghost var flowError: bool            // a connection error of type FLOW_CONTROL_ERROR occurred

    // ---- invariants ----

    /** Whether the stream was opened at some time. */
    predicate Opened(id: StreamID)
      reads this`maxClientStreamID, this`maxPushPromiseID
    {
      OpenedBy(id, maxClientStreamID, maxPushPromiseID)
    }

    ghost predicate Life()
      reads this`streams, this`curClientStreams, this`curPushedStreams, this`maxClientStreamID,
            this`maxPushPromiseID, this`closing
    {
      LifeOk(streams, curClientStreams, curPushedStreams, maxClientStreamID, maxPushPromiseID, closing, advMaxStreams)
    }

    ghost predicate Resets()
      reads this`streams, this`resetting
    {
      ResetsOk(streams, resetting)
    }

    ghost predicate Queues()
      reads this`streams, this`closing, this`sched
    {
      QueuesOk(sched, streams.Keys + closing)
    }

    function ReadsOf(id: StreamID): nat
      reads this`bodyReads
    {
      ReadsIn(bodyReads, id)
    }

    ghost predicate Recv()
      reads this`inflow, this`streams, this`bodyReads, this`owed, this`credit, this`late
    {
      RecvOk(inflow, streams, bodyReads, owed, credit, late, initialRecv)
    }

    ghost predicate Send()
      reads this`win, this`sched, this`initialSend, this`granted, this`sent, this`grantedAll, this`sentAll,
            this`flowError
    {
      SendOk(win, sched.queues.Keys, initialSend, granted, sent, grantedAll, sentAll, flowError)
    }

    /** Only streams that were opened have readers and grants. */
    ghost predicate Readers()
      reads this`bodyReads, this`granted, this`maxClientStreamID, this`maxPushPromiseID
    {
      (forall id :: id in bodyReads && bodyReads[id] > 0 ==> Opened(id)) && forall id :: id in granted ==> Opened(id)
    }

    /** Late reads are of bytes that were credited when the stream was closed. */
    ghost predicate Refunds()
      reads this`stale, this`refunded, this`late
    {
      late + Sum(stale) == refunded
    }

    ghost predicate Inv()
      reads this`stale, this`refunded, this`streams, this`curClientStreams, this`curPushedStreams,
            this`maxClientStreamID, this`maxPushPromiseID, this`closing, this`resetting, this`sched,
            this`inflow, this`bodyReads, this`owed, this`credit, this`late, this`win, this`initialSend,
            this`granted, this`sent, this`grantedAll, this`sentAll, this`flowError
    {
      Life() && Resets() && Queues() && Recv() && Send() && Readers() && Refunds()
    }

    /** The serve goroutine is running, outside of startFrameWrite. */
    ghost predicate Running()
      reads this
    {
      panic.None? && Inv() && writingFrame == writingFrameAsync
    }

    /** It still is, or it panicked; the window does not overflow unless a handler
        read from a closed stream. */
    ghost predicate Sane()
      reads this
    {
      if panic.None? then Inv() && writingFrame == writingFrameAsync else panic == Some(WindowOverflow) ==> late > 0
    }

    /** The write loop would find nothing to do. */
    ghost predicate Settled()
      reads this`inFrameScheduleLoop, this`writingFrame, this`needToSendGoAway, this`needToSendSettingsAck,
            this`needsFrameFlush, this`inGoAway, this`goAwayError, this`sched, this`win
    {
      || inFrameScheduleLoop || writingFrame
      || (&& !needToSendGoAway && !needToSendSettingsAck && !needsFrameFlush
          && ((inGoAway && goAwayError) || (sched.control == [] && S.NoneReady(sched, win))))
    }

    /** Nothing but the scheduler could have something to write. */
    ghost predicate Quiet()
      reads this`inFrameScheduleLoop, this`writingFrame, this`needToSendGoAway, this`needToSendSettingsAck,
            this`needsFrameFlush
    {
      inFrameScheduleLoop || writingFrame || (!needToSendGoAway && !needToSendSettingsAck && !needsFrameFlush)
    }

    /** The write loop, if it runs, changes no stream. */
    ghost predicate Steady()
      reads this
    {
      inFrameScheduleLoop || writingFrame || (inGoAway && goAwayError) || Calm(sched, win, streams.Keys)
    }

    /** Writing the frame neither changes a stream nor panics. */
    predicate Safe(wr: FrameWriteRequest)
      reads this`streams
    {
      Harmless(wr) && (wr.OnStream? ==> wr.stream in streams)
    }

    /** The bodies of the streams, open and closed, and the window they share. */
    function Inbox(): (Streams, map<StreamID, nat>, Inflow)
      reads this`streams, this`stale, this`inflow
    {
      (streams, stale, inflow)
    }

    /** What bounds the write loop. */
    ghost function Measure(): nat
      reads this`sched, this`streams, this`inGoAway, this`needToSendGoAway, this`needToSendSettingsAck
    {
      Work(sched) + Weighed(streams) + (if inGoAway then 0 else 2) + (if needToSendGoAway then 1 else 0)
      + if needToSendSettingsAck then 1 else 0
    }

    constructor (advMaxStreams: nat, initialRecv: nat)
      requires initialRecv <= MAX_INT32
      ensures panic.None? && Inv() && AtSelect() && streams == map[] && late == 0 && credit == INITIAL_WINDOW
      ensures inflow.Total() == INITIAL_WINDOW && maxClientStreamID == 0
      ensures this.advMaxStreams == advMaxStreams && this.initialRecv == initialRecv
    {
      this.advMaxStreams, this.initialRecv := advMaxStreams, initialRecv;
      streams, curClientStreams, curPushedStreams, maxClientStreamID, maxPushPromiseID := map[], 0, 0, 0, 0;
      clientMaxStreams, unackedSettings, pushEnabled, sawFirstSettings := 0xffff_ffff, 0, true, false;
      inflow, win, initialSend := Inflow(INITIAL_WINDOW, 0), Windows(INITIAL_WINDOW, map[], 16384), INITIAL_WINDOW;
      sched := S.Sched([], map[]);
      writingFrame, writingFrameAsync, current, needsFrameFlush := false, false, BLANK, false;
      needToSendGoAway, needToSendSettingsAck, inGoAway, goAwayError, inFrameScheduleLoop := false, false, false,
        false, false;
      panic := None;
      bodyReads, stale, refunded, late, credit, owed, closing, resetting := map[], map[], 0, 0, INITIAL_WINDOW, 0, {},
        {};
      granted, sent, grantedAll, sentAll, flowError := map[], map[], 0, 0, false;
    }

    /** What holds whenever the serve loop is back at its select. */
    ghost predicate AtSelect()
      reads this
    {
      && closing == {} && resetting == {} && owed == 0 && !inFrameScheduleLoop && writingFrame == writingFrameAsync
      && inflow.Fresh() && Settled()
    }

    // ---- single updates ----

    /** writeSched.Push */
    method Enqueue(wr: FrameWriteRequest)
      requires Inv() && (wr.OnStream? ==> wr.stream in streams)
      modifies this`sched
      ensures Inv() && sched == S.Push(old(sched), wr) && Work(sched) == Work(old(sched)) + FrameWork(wr)
    {
      hide Life, Resets, Recv, Work, FrameWork;
      WorkPush(sched, wr);
      sched := S.Push(sched, wr);
    }

    /** writeSched.Pop.  Which stream is served is up to the scheduler. */
    method PopFrame() returns (r: Option<FrameWriteRequest>)
      requires Inv()
      modifies this`sched, this`win, this`sent, this`sentAll
      ensures Inv()
      ensures r.None? ==> sched == old(sched) && win == old(win) && sent == old(sent) && sentAll == old(sentAll)
      ensures r.None? ==> sched.control == [] && S.NoneReady(sched, win)
      ensures r.Some? ==> Work(sched) + 1 + (if IsPush(r.value) then 4 else 0) <= Work(old(sched))
      ensures r.Some? && r.value.OnStream? ==> r.value.stream in streams || r.value.stream in closing
      ensures r.Some? ==> sentAll == old(sentAll) + r.value.DataSize() && win.conn == old(win).conn - r.value.DataSize()
      ensures r.Some? ==>
                sent == if r.value.Control? then old(sent) else SentMore(old(sent), r.value.stream, r.value.DataSize())
      ensures r.Some? && old(Calm(sched, win, streams.Keys)) ==> Calm(sched, win, streams.Keys) && Safe(r.value)
    {
      hide LifeOk, ResetsOk, RecvOk, QueuesOk, SendOk, Calm, Work, Harmless, Ready;
      if |sched.control| > 0 {
        r := PopControl();
      } else if exists id :: id in sched.queues && Ready(sched.queues[id], win) {
        var id :| id in sched.queues && Ready(sched.queues[id], win);
        KnownQueue(id);
        r := PopStream(id);
      } else {
        r := None;
      }
    }

    method PopControl() returns (r: Option<FrameWriteRequest>)
      requires Queues() && Send() && sched.control != []
      modifies this`sched
      ensures Queues() && Send() && r == Some(old(sched).control[0])
      ensures sched == old(sched).(control := old(sched).control[1..])
      ensures Work(sched) + 1 <= Work(old(sched)) && r.value.Control?
      ensures old(Calm(sched, win, streams.Keys)) ==> Calm(sched, win, streams.Keys) && Safe(r.value)
    {
      hide CalmQueue, Works, QueueWork;
      ControlWork(sched);
      r := Some(sched.control[0]);
      sched := sched.(control := sched.control[1..]);
    }

    method PopStream(id: StreamID) returns (r: Option<FrameWriteRequest>)
      requires Queues() && Send() && sched.control == [] && id in sched.queues && Ready(sched.queues[id], win)
      modifies this`sched, this`win, this`sent, this`sentAll
      ensures Queues() && Send() && r.Some? && r.value.OnStream? && r.value.stream == id
      ensures sentAll == old(sentAll) + r.value.DataSize() && win.conn == old(win).conn - r.value.DataSize()
      ensures sent == SentMore(old(sent), id, r.value.DataSize())
      ensures Work(sched) + 1 + (if IsPush(r.value) then 4 else 0) <= Work(old(sched))
      ensures old(Calm(sched, win, streams.Keys)) ==> Calm(sched, win, streams.Keys) && Safe(r.value)
    {
      hide Calm, Ready, Work, QueueWork, IsPush, Harmless, SendOk, S.Valid;
      QueueWorkTaken(sched.queues[id], win);
      ConsumeQueueDebit(sched.queues[id], MAX_INT32, win);
      QueueOf(sched, id, win);
      CalmTaken(sched, win, id, streams.Keys);
      SendTaken(win, sched.queues.Keys, initialSend, granted, sent, grantedAll, sentAll, flowError, id,
        sched.queues[id]);
      SentOf(id);
      var c := ConsumeQueue(sched.queues[id], MAX_INT32, win);
      WorkSet(sched, id, c.queue);
      hide ConsumeQueue;
      r := c.taken;
      sent := sent[id := sent[id] + c.taken.value.DataSize()];
      sentAll := sentAll + c.taken.value.DataSize();
      assert sched.queues[id := c.queue].Keys == sched.queues.Keys;
      sched, win := sched.(queues := sched.queues[id := c.queue]), c.windows;
    }

    function SentMore(sent: map<StreamID, int>, id: StreamID, n: int): map<StreamID, int> {
      if id in sent then sent[id := sent[id] + n] else sent
    }

    lemma KnownQueue(id: StreamID)
      requires Queues() && id in sched.queues
      ensures id in streams || id in closing
    {
    }

    lemma SentOf(id: StreamID)
      requires Send() && id in sched.queues
      ensures id in sent && id in win.streams
    {
    }

    /** The stream is deleted from the map; the scheduler still knows it. */
    method Delete(id: StreamID)
      requires Inv() && id in streams
      modifies this`streams, this`curClientStreams, this`curPushedStreams, this`closing, this`owed
      ensures Inv() && streams == old(streams) - {id} && closing == old(closing) + {id}
              && owed == old(owed) + old(streams)[id].BodyLen()
      ensures Weighed(streams) + 2 <= Weighed(old(streams))
      ensures Later(old(streams), maxClientStreamID, maxPushPromiseID, streams, maxClientStreamID, maxPushPromiseID)
    {
      hide Later, LifeOk, ResetsOk, RecvOk, QueuesOk, Send, Refunds, Readers, Weighed, ResetOk, Sum;
      StreamFacts(id);
      LifeDelete(streams, curClientStreams, curPushedStreams, maxClientStreamID, maxPushPromiseID, closing,
        advMaxStreams, id);
      ResetsSet(streams, resetting, id, streams[id]);
      RecvDelete(inflow, streams, bodyReads, owed, credit, late, initialRecv, id);
      WeighedDrop(streams, id);
      LaterDelete(streams, maxClientStreamID, maxPushPromiseID, id);
      var rest, n := streams - {id}, streams[id].BodyLen();
      assert rest.Keys + (closing + {id}) == streams.Keys + closing;
      if id % 2 == 0 {
        curPushedStreams := curPushedStreams - 1;
      } else {
        curClientStreams := curClientStreams - 1;
      }
      owed, streams, closing := owed + n, rest, closing + {id};
    }

    /** A handler may go on reading what is in the body of a closed stream. */
    method Leave(id: StreamID)
      requires Inv() && id in streams
      modifies this`stale, this`refunded
      ensures Inv() && Stale(id) == old(Stale(id)) + streams[id].Readable()
              && refunded == old(refunded) + streams[id].Readable()
    {
      hide LifeOk, ResetsOk, QueuesOk, RecvOk, SendOk, Sum;
      SumSet(stale, id, Stale(id) + streams[id].Readable());
      refunded := refunded + streams[id].Readable();
      stale := stale[id := Stale(id) + streams[id].Readable()];
    }

    function Stale(id: StreamID): nat
      reads this`stale
    {
      if id in stale then stale[id] else 0
    }

    lemma IsOpened(id: StreamID)
      requires Life() && (id in streams || id in closing)
      ensures Opened(id) && (id in streams ==> id !in closing)
    {
    }

    lemma StreamFacts(id: StreamID)
      requires Inv() && id in streams
      ensures Opened(id) && id !in closing && id in sched.queues && ResetOk(streams[id], id in resetting)
      ensures StreamRecv(streams[id], ReadsOf(id), 0, initialRecv)
    {
      hide SendOk;
    }

    /** writeSched.CloseStream */
    method Forget(id: StreamID)
      requires Inv() && id in closing
      modifies this`sched, this`closing
      ensures Inv() && closing == old(closing) - {id} && Work(sched) <= Work(old(sched))
      ensures sched == old(sched).(queues := old(sched).queues - {id})
    {
      hide LifeOk, ResetsOk, RecvOk, Work;
      IsOpened(id);
      LifeForget(streams, curClientStreams, curPushedStreams, maxClientStreamID, maxPushPromiseID, closing,
        advMaxStreams, id);
      WorkDrop(sched, id);
      sched, closing := sched.(queues := sched.queues - {id}), closing - {id};
      assert streams.Keys + closing == old(streams.Keys + closing) - {id};
    }

    /** newStream */
    method NewStream(id: StreamID, phase: Phase)
      requires Inv() && Opened(id) && id !in streams && id !in closing && ReadsOf(id) == 0 && id !in granted
      requires curClientStreams + id % 2 <= advMaxStreams && (phase.HalfClosedRemote? || id in resetting)
      modifies this`streams, this`curClientStreams, this`curPushedStreams, this`sched, this`win, this`granted, this`sent
      ensures Inv() && streams == old(streams)[id := NewlyOpened(phase, initialRecv)]
      ensures Work(sched) == Work(old(sched)) && Weighed(streams) <= Weighed(old(streams)) + 3
      ensures phase.HalfClosedRemote? ==> Weighed(streams) == Weighed(old(streams)) + 2
      ensures sched == old(sched).(queues := old(sched).queues[id := []])
              && win == old(win).(streams := old(win).streams[id := initialSend])
      ensures S.Valid(old(sched)) && id !in old(sched).queues && granted == old(granted)[id := 0]
    {
      hide LifeOk, ResetsOk, RecvOk, QueuesOk, SendOk, Weighed, Work;
      AddQueue(id);
      assert streams[id := NewlyOpened(phase, initialRecv)].Keys == streams.Keys + {id};
      assert streams.Keys + closing + {id} == streams.Keys + {id} + closing;
      AddToMap(id, NewlyOpened(phase, initialRecv));
    }

    method AddQueue(id: StreamID)
      requires Queues() && Send() && id !in streams && id !in closing
      modifies this`sched, this`win, this`granted, this`sent
      ensures QueuesOk(sched, streams.Keys + closing + {id}) && Send() && Work(sched) == Work(old(sched))
      ensures sched == old(sched).(queues := old(sched).queues[id := []])
              && win == old(win).(streams := old(win).streams[id := initialSend])
      ensures S.Valid(old(sched)) && id !in old(sched).queues && granted == old(granted)[id := 0]
    {
      hide SendOk, S.Valid, Work;
      SendAdd(win, sched.queues.Keys, initialSend, granted, sent, grantedAll, sentAll, flowError, id);
      WorkSet(sched, id, []);
      NewQueue(sched, id);
      sched := sched.(queues := sched.queues[id := []]);
      win := win.(streams := win.streams[id := initialSend]);
      granted, sent := granted[id := 0], sent[id := 0];
    }

    method AddToMap(id: StreamID, st: Stream)
      requires Life() && Resets() && Recv() && Opened(id) && id !in streams && id !in closing && ReadsOf(id) == 0
      requires curClientStreams + id % 2 <= advMaxStreams && ResetOk(st, id in resetting)
      requires st.BodyLen() == 0 && st.inflow == Inflow(initialRecv, 0)
      modifies this`streams, this`curClientStreams, this`curPushedStreams
      ensures Life() && Resets() && Recv() && streams == old(streams)[id := st]
      ensures Weighed(streams) == Weighed(old(streams)) + Weight(st)
    {
      hide LifeOk, ResetsOk, RecvOk, Weighed;
      LifeAdd(streams, curClientStreams, curPushedStreams, maxClientStreamID, maxPushPromiseID, closing,
        advMaxStreams, id, st);
      ResetsSet(streams, resetting, id, st);
      NewRecv(st, id);
      WeighedSet(streams, id, st);
      streams := streams[id := st];
      if id % 2 == 0 {
        curPushedStreams := curPushedStreams + 1;
      } else {
        curClientStreams := curClientStreams + 1;
      }
    }

    lemma NewRecv(st: Stream, id: StreamID)
      requires Recv() && id !in streams && ReadsOf(id) == 0 && st.BodyLen() == 0 && st.inflow == Inflow(initialRecv, 0)
      ensures RecvOk(inflow, streams[id := st], bodyReads, owed, credit, late, initialRecv)
    {
      RecvSet(inflow, streams, bodyReads, owed, credit, late, initialRecv, id, st, 0);
    }

    /** A change of a stream that does not concern its body's length or its
        receive window. */
    method Update(id: StreamID, st: Stream)
      requires Inv() && id in streams && st.BodyLen() == streams[id].BodyLen() && st.inflow == streams[id].inflow
      requires (streams[id].phase.Open? || st.phase == streams[id].phase) && ResetOk(st, id in resetting)
      modifies this`streams
      ensures Inv() && streams == old(streams)[id := st]
              && Weighed(streams) == Weighed(old(streams)) - Weight(old(streams)[id]) + Weight(st)
      ensures Later(old(streams), maxClientStreamID, maxPushPromiseID, streams, maxClientStreamID, maxPushPromiseID)
    {
      hide Later, LifeOk, ResetsOk, RecvOk, SendOk, QueuesOk, Weighed, ResetOk;
      StreamFacts(id);
      LifeSet(streams, curClientStreams, curPushedStreams, maxClientStreamID, maxPushPromiseID, closing,
        advMaxStreams, id, st);
      ResetsSet(streams, resetting, id, st);
      RecvSet(inflow, streams, bodyReads, owed, credit, late, initialRecv, id, st, 0);
      WeighedSet(streams, id, st);
      LaterSet(streams, maxClientStreamID, maxPushPromiseID, id, st);
      streams := streams[id := st];
    }

    /** inflow.add on the connection: credit that was owed. */
    method CreditConn(n: nat) returns (send: int)
      requires Inv() && n <= owed && panic.None?
      modifies this`inflow, this`owed, this`panic
      ensures panic.None? ==> Inv() && owed == old(owed) - n && inflow.Fresh() && 0 <= send
                               && inflow.Total() == old(inflow).Total() + n
      ensures panic.Some? ==> panic == Some(WindowOverflow) && late > 0
      ensures panic.Some? <==> old(inflow).Total() + n > MAX_INT32
    {
      hide LifeOk, ResetsOk, SendOk, QueuesOk, Sum, Buffered, StreamRecv;
      var r := Credited(inflow, n);
      if r.None? {
        panic := Some(WindowOverflow);
        return 0;
      }
      inflow, owed, send := r.value.0, owed - n, r.value.1;
    }

    /** inflow.add on a stream: within what was taken from it. */
    method CreditStream(id: StreamID, n: nat) returns (send: int)
      requires Inv() && id in streams && StreamRecv(streams[id], ReadsOf(id), n, initialRecv)
      modifies this`streams
      ensures Inv() && 0 <= send && id in streams
              && streams == old(streams)[id := old(streams)[id].(inflow := streams[id].inflow)]
      ensures Weighed(streams) == Weighed(old(streams))
    {
      hide LifeOk, ResetsOk, RecvOk, SendOk, QueuesOk, Weighed;
      StreamFacts(id);
      MaxRecv();
      var r := Credited(streams[id].inflow, n);
      SetInflow(id, r.value.0);
      send := r.value.1;
    }

    lemma MaxRecv()
      requires Recv()
      ensures initialRecv <= MAX_INT32 && inflow.Ok()
    {
    }

    method SetInflow(id: StreamID, f: Inflow)
      requires Inv() && id in streams && StreamRecv(streams[id].(inflow := f), ReadsOf(id), 0, initialRecv)
      modifies this`streams
      ensures Inv() && streams == old(streams)[id := old(streams)[id].(inflow := f)]
      ensures Weighed(streams) == Weighed(old(streams))
    {
      hide LifeOk, ResetsOk, RecvOk, SendOk, QueuesOk, Weighed, StreamRecv;
      var st := streams[id].(inflow := f);
      StreamFacts(id);
      LifeSet(streams, curClientStreams, curPushedStreams, maxClientStreamID, maxPushPromiseID, closing,
        advMaxStreams, id, st);
      ResetsSet(streams, resetting, id, st);
      RecvSet(inflow, streams, bodyReads, owed, credit, late, initialRecv, id, st, 0);
      WeighedSet(streams, id, st);
      streams := streams[id := st];
    }

    /** inflow.take on the connection. */
    method TakeConn(n: nat) returns (ok: bool)
      requires Inv()
      modifies this`inflow, this`owed
      ensures Inv() && owed == old(owed) + (if ok then n else 0) && (ok <==> n <= old(inflow).avail)
      ensures inflow == if ok then Inflow(old(inflow).avail - n, old(inflow).unsent) else old(inflow)
    {
      hide LifeOk, ResetsOk, SendOk, QueuesOk, Sum, Buffered, StreamRecv;
      var r := Debited(inflow, n);
      if r.None? {
        return false;
      }
      inflow, owed := r.value, owed + n;
      return true;
    }

    /** takeInflows */
    method TakeBoth(id: StreamID, n: nat) returns (ok: bool)
      requires Inv() && id in streams
      modifies this`inflow, this`owed, this`streams
      ensures Inv() && owed == old(owed) + (if ok then n else 0)
      ensures ok <==> n <= old(inflow).avail && n <= old(streams)[id].inflow.avail
      ensures !ok ==> inflow == old(inflow) && streams == old(streams)
      ensures ok ==> inflow == Inflow(old(inflow).avail - n, old(inflow).unsent)
      ensures ok ==> id in streams && StreamRecv(streams[id], ReadsOf(id), n, initialRecv)
                     && streams == old(streams)[id := old(streams)[id].(inflow := streams[id].inflow)]
      ensures Later(old(streams), maxClientStreamID, maxPushPromiseID, streams, maxClientStreamID, maxPushPromiseID)
    {
      hide LifeOk, ResetsOk, RecvOk, SendOk, QueuesOk, Weighed;
      StreamFacts(id);
      var q := Debited(streams[id].inflow, n);
      if q.None? {
        return false;
      }
      ok := TakeConn(n);
      if ok {
        SetInflow(id, q.value);
      }
    }

    /** body.Write of n bytes; false if the body is closed. */
    method WriteBody(id: StreamID, n: nat, pad: nat) returns (ok: bool)
      requires Inv() && id in streams && streams[id].body.Some? && n <= owed
               && StreamRecv(streams[id], ReadsOf(id), n + pad, initialRecv)
      modifies this`streams, this`owed
      ensures Inv() && id in streams && streams[id].body.Some?
      ensures ok <==> !old(streams)[id].body.value.closed && !old(streams)[id].body.value.broken
      ensures ok ==> owed == old(owed) - n && StreamRecv(streams[id], ReadsOf(id), pad, initialRecv)
      ensures !ok ==> owed == old(owed)
      ensures streams[id].bodyBytes == old(streams)[id].bodyBytes + n
              && streams[id].BodyLen() == old(streams)[id].BodyLen() + (if ok then n else 0)
              && streams[id].Readable() == old(streams)[id].Readable() + if ok then n else 0
      ensures streams == old(streams)[id := old(streams)[id].(body := streams[id].body,
              bodyBytes := streams[id].bodyBytes)]
      ensures Later(old(streams), maxClientStreamID, maxPushPromiseID, streams, maxClientStreamID, maxPushPromiseID)
    {
      hide LifeOk, ResetsOk, RecvOk, SendOk, QueuesOk;
      var st := streams[id];
      st := st.(bodyBytes := st.bodyBytes + n);
      ok := !st.body.value.closed && !st.body.value.broken;
      if ok {
        st := st.(body := Some(st.body.value.(len := st.body.value.len + n)));
      }
      StreamFacts(id);
      LifeSet(streams, curClientStreams, curPushedStreams, maxClientStreamID, maxPushPromiseID, closing,
        advMaxStreams, id, st);
      ResetsSet(streams, resetting, id, st);
      RecvSet(inflow, streams, bodyReads, owed, credit, late, initialRecv, id, st, if ok then n else 0);
      owed := owed - if ok then n else 0;
      streams := streams[id := st];
    }

    // ---- writing frames ----

    ghost function Now(): Snap
      reads this`streams, this`maxPushPromiseID, this`closing, this`resetting, this`owed, this`inflow,
            this`inFrameScheduleLoop, this`granted
    {
      Snap(streams, maxPushPromiseID, closing, resetting, owed, inflow.Fresh(), inFrameScheduleLoop, granted)
    }

    /** scheduleFrameWrite */
    method ScheduleFrameWrite()
      requires Running()
      modifies this`streams, this`curClientStreams, this`curPushedStreams, this`maxPushPromiseID, this`inflow,
               this`win, this`sched, this`writingFrame, this`writingFrameAsync, this`current,
               this`needsFrameFlush, this`needToSendGoAway, this`needToSendSettingsAck, this`inGoAway,
               this`goAwayError, this`inFrameScheduleLoop, this`panic, this`owed, this`closing, this`resetting,
               this`granted, this`sent, this`sentAll, this`stale, this`refunded
      ensures Sane() && inFrameScheduleLoop == old(inFrameScheduleLoop)
      ensures panic.None? ==> Kept(old(Now()), Now(), maxClientStreamID) && Settled()
      ensures old(inFrameScheduleLoop || writingFrame) ==> unchanged(this)
      ensures old(Steady()) ==> panic.None? && Inbox() == old(Inbox())
      decreases if inFrameScheduleLoop then 0 else 1, 0
    {
      hide Kept, Inv, Work, Weighed, Calm, S.NoneReady;
      KeptSelf(Now(), maxClientStreamID);
      if writingFrame || inFrameScheduleLoop {
        return;
      }
      RunLoop();
    }

    method RunLoop()
      requires Running() && !inFrameScheduleLoop && !writingFrame
      modifies this`streams, this`curClientStreams, this`curPushedStreams, this`maxPushPromiseID, this`inflow,
               this`win, this`sched, this`writingFrame, this`writingFrameAsync, this`current,
               this`needsFrameFlush, this`needToSendGoAway, this`needToSendSettingsAck, this`inGoAway,
               this`goAwayError, this`inFrameScheduleLoop, this`panic, this`owed, this`closing, this`resetting,
               this`granted, this`sent, this`sentAll, this`stale, this`refunded
      ensures Sane() && inFrameScheduleLoop == old(inFrameScheduleLoop)
      ensures panic.None? ==> Kept(old(Now()), Now(), maxClientStreamID) && Settled()
      ensures old(Steady()) ==> panic.None? && Inbox() == old(Inbox())
      decreases 1, 0, 0
    {
      hide Kept, Inv, Work, Weighed, Calm, S.NoneReady;
      inFrameScheduleLoop := true;
      ghost var was := Now();
      KeptSelf(was, maxClientStreamID);
      var more := true;
      while more && !writingFrameAsync
        invariant inFrameScheduleLoop && Sane() && (panic.Some? ==> !more)
        invariant panic.None? ==> Kept(was, Now(), maxClientStreamID) && (!more ==> writingFrame || Idle())
        invariant old(Steady()) ==> panic.None? && Inbox() == old(Inbox()) && LoopSteady()
        decreases more, Measure(), needsFrameFlush
      {
        ghost var before := Now();
        more := ScheduleOne();
        if panic.None? { KeptTrans(was, before, Now(), maxClientStreamID); }
      }
      inFrameScheduleLoop := false;
      if panic.None? { LoopFlag(was, maxClientStreamID); }
    }

    lemma LoopFlag(was: Snap, c: nat)
      requires Kept(was, Now().(loop := true), c) && was.loop
      ensures Kept(was.(loop := false), Now().(loop := false), c)
    {
    }

    /** Nothing is pending. */
    ghost predicate Idle()
      reads this
    {
      && !needToSendGoAway && !needToSendSettingsAck && !needsFrameFlush
      && ((inGoAway && goAwayError) || (sched.control == [] && S.NoneReady(sched, win)))
    }

    ghost predicate LoopSteady()
      reads this
    {
      (inGoAway && goAwayError) || Calm(sched, win, streams.Keys)
    }

    /** One turn of the loop: whether there was something to write. */
    method ScheduleOne() returns (more: bool)
      requires Running() && inFrameScheduleLoop && !writingFrame
      modifies this`streams, this`curClientStreams, this`curPushedStreams, this`maxPushPromiseID, this`inflow,
               this`win, this`sched, this`writingFrame, this`writingFrameAsync, this`current,
               this`needsFrameFlush, this`needToSendGoAway, this`needToSendSettingsAck, this`inGoAway,
               this`goAwayError, this`inFrameScheduleLoop, this`panic, this`owed, this`closing, this`resetting,
               this`granted, this`sent, this`sentAll, this`stale, this`refunded
      ensures Sane() && inFrameScheduleLoop && (panic.Some? ==> !more)
      ensures panic.None? ==> Kept(old(Now()), Now(), maxClientStreamID) && (!more ==> writingFrame || Idle())
      ensures more ==>
                Measure() < old(Measure()) || (Measure() == old(Measure()) && old(needsFrameFlush) && !needsFrameFlush)
      ensures old(LoopSteady()) ==> panic.None? && Inbox() == old(Inbox()) && LoopSteady()
      decreases 0, 6
    {
      hide Kept, Inv, Work, Weighed, Calm, S.NoneReady;
      if needToSendGoAway {
        needToSendGoAway := false;
        StartFrameWrite(Control(ConnFrame(GOAWAY)));
        return panic.None?;
      }
      if needToSendSettingsAck {
        needToSendSettingsAck := false;
        StartFrameWrite(Control(ConnFrame(SETTINGS)));
        return panic.None?;
      }
      if !inGoAway || !goAwayError {
        var popped := WritePopped();
        if popped || panic.Some? {
          return panic.None?;
        }
      }
      if needsFrameFlush {
        StartFrameWrite(Control(ConnFrame(FLUSH)));
        needsFrameFlush := false;
        return panic.None?;
      }
      KeptSelf(Now(), maxClientStreamID);
      return false;
    }

    /** Write what the scheduler gives, if anything. */
    method WritePopped() returns (popped: bool)
      requires Running() && inFrameScheduleLoop && !writingFrame && !needToSendGoAway && !needToSendSettingsAck
      modifies this`streams, this`curClientStreams, this`curPushedStreams, this`maxPushPromiseID, this`inflow,
               this`win, this`sched, this`writingFrame, this`writingFrameAsync, this`current,
               this`needsFrameFlush, this`needToSendGoAway, this`needToSendSettingsAck, this`inGoAway,
               this`goAwayError, this`inFrameScheduleLoop, this`panic, this`owed, this`closing, this`resetting,
               this`granted, this`sent, this`sentAll, this`stale, this`refunded
      ensures Sane() && inFrameScheduleLoop
      ensures panic.None? && popped ==> Kept(old(Now()), Now(), maxClientStreamID) && Measure() < old(Measure())
      ensures panic.None? && !popped ==> unchanged(this) && sched.control == [] && S.NoneReady(sched, win)
      ensures old(Calm(sched, win, streams.Keys)) ==>
                panic.None? && Inbox() == old(Inbox()) && Calm(sched, win, streams.Keys)
      decreases 0, 6, 0
    {
      hide Kept, Inv, Work, Weighed, Calm, S.NoneReady;
      var wr := PopFrame();
      if wr.Some? {
        StartFrameWrite(wr.value);
        return true;
      }
      return false;
    }

    /** startFrameWrite */
    method StartFrameWrite(wr: FrameWriteRequest)
      requires Running() && inFrameScheduleLoop && !writingFrame
      requires wr.OnStream? ==> wr.stream in streams || wr.stream in closing
      modifies this`streams, this`curClientStreams, this`curPushedStreams, this`maxPushPromiseID, this`inflow,
               this`win, this`sched, this`writingFrame, this`writingFrameAsync, this`current,
               this`needsFrameFlush, this`needToSendGoAway, this`needToSendSettingsAck, this`inGoAway,
               this`goAwayError, this`inFrameScheduleLoop, this`panic, this`owed, this`closing, this`resetting,
               this`granted, this`sent, this`sentAll, this`stale, this`refunded
      ensures Sane() && inFrameScheduleLoop
      ensures panic.None? ==>
                Kept(old(Now()), Now(), maxClientStreamID) && Measure() <= old(Measure()) + if IsPush(wr) then 2 else 0
      ensures old(Safe(wr)) ==>
                && panic.None? && Inbox() == old(Inbox()) && sched == old(sched) && win == old(win)
                && Measure() == old(Measure()) && inGoAway == old(inGoAway) && goAwayError == old(goAwayError)
      decreases 0, 5
    {
      hide Kept, Inv, Work, Weighed;
      ghost var was := Now();
      var go := MayWrite(wr);
      if panic.Some? || !go {
        return;
      }
      ghost var mid := Now();
      Begin(wr);
      if panic.None? { KeptTrans(was, mid, Now(), maxClientStreamID); }
    }

    /** The checks of startFrameWrite; false if a push cannot be promised. */
    method MayWrite(wr: FrameWriteRequest) returns (go: bool)
      requires Running() && inFrameScheduleLoop && !writingFrame
      modifies this`streams, this`curClientStreams, this`curPushedStreams, this`maxPushPromiseID, this`inflow,
               this`win, this`sched, this`writingFrame, this`writingFrameAsync, this`current,
               this`needsFrameFlush, this`needToSendGoAway, this`needToSendSettingsAck, this`inGoAway,
               this`goAwayError, this`inFrameScheduleLoop, this`panic, this`owed, this`closing, this`resetting,
               this`granted, this`sent, this`sentAll, this`stale, this`refunded
      ensures Sane() && inFrameScheduleLoop
      ensures panic.None? ==>
                Kept(old(Now()), Now(), maxClientStreamID)
                && Measure() <= old(Measure()) + (if IsPush(wr) then 2 else 0) && !writingFrame
      ensures panic.None? && !IsPush(wr) ==> unchanged(this) && go
      ensures old(Safe(wr)) ==> panic.None?
      decreases 0, 5, 0
    {
      KeptSelf(Now(), maxClientStreamID);
      hide Kept, Inv, Work, Weighed;
      if wr.OnStream? {
        if wr.stream !in streams {
          panic := Some(FrameOnClosedStream);
          return false;
        }
        if streams[wr.stream].phase.HalfClosedLocal? && !(wr.frame.NonData? && wr.frame.tag == WINDOW_UPDATE) {
          panic := Some(FrameOnHalfClosedStream);
          return false;
        }
        if IsPush(wr) {
          go := AllocatePromisedID();
          writingFrameAsync := writingFrameAsync && go;
          return;
        }
      }
      return true;
    }

    /** The frame is handed to the writer, which may be done at once. */
    method Begin(wr: FrameWriteRequest)
      requires Running() && inFrameScheduleLoop && !writingFrame
      modifies this`streams, this`curClientStreams, this`curPushedStreams, this`maxPushPromiseID, this`inflow,
               this`win, this`sched, this`writingFrame, this`writingFrameAsync, this`current,
               this`needsFrameFlush, this`needToSendGoAway, this`needToSendSettingsAck, this`inGoAway,
               this`goAwayError, this`inFrameScheduleLoop, this`panic, this`owed, this`closing, this`resetting,
               this`granted, this`sent, this`sentAll, this`stale, this`refunded
      ensures Sane() && inFrameScheduleLoop
      ensures panic.None? ==> Kept(old(Now()), Now(), maxClientStreamID) && Measure() <= old(Measure())
      ensures Harmless(wr) ==>
                && panic.None? && Inbox() == old(Inbox()) && sched == old(sched) && win == old(win)
                && Measure() == old(Measure()) && inGoAway == old(inGoAway) && goAwayError == old(goAwayError)
      decreases 0, 5, 0
    {
      hide Kept, Inv, Work, Weighed, Settled, Measure, S.NoneReady;
      KeptSelf(Now(), maxClientStreamID);
      writingFrame, needsFrameFlush, current := true, true, wr;
      var stays := *;
      if stays && wr != Control(ConnFrame(FLUSH)) && wr != Control(ConnFrame(GOAWAY)) {
        writingFrameAsync := false;
        WroteFrame();
      } else {
        writingFrameAsync := true;
      }
    }

    /** allocatePromisedID, with the newStream in it. */
    method AllocatePromisedID() returns (ok: bool)
      requires Running() && inFrameScheduleLoop && !writingFrame
      modifies this`streams, this`curClientStreams, this`curPushedStreams, this`maxPushPromiseID, this`inflow,
               this`win, this`sched, this`writingFrame, this`writingFrameAsync, this`current,
               this`needsFrameFlush, this`needToSendGoAway, this`needToSendSettingsAck, this`inGoAway,
               this`goAwayError, this`inFrameScheduleLoop, this`panic, this`owed, this`closing, this`resetting,
               this`granted, this`sent, this`sentAll, this`stale, this`refunded
      ensures Sane() && inFrameScheduleLoop
      ensures panic.None? ==>
                Kept(old(Now()), Now(), maxClientStreamID) && Measure() <= old(Measure()) + 2 && !writingFrame
      decreases 0, 3
    {
      KeptSelf(Now(), maxClientStreamID);
      hide Kept, Inv, Work, Weighed;
      if !pushEnabled || curPushedStreams + 1 > clientMaxStreams {
        return false;
      }
      if maxPushPromiseID + 2 >= 0x8000_0000 {
        GoAway(false);
        return false;
      }
      PromiseStream();
      return true;
    }

    method PromiseStream()
      requires Inv() && !writingFrame
      modifies this`maxPushPromiseID, this`streams, this`curClientStreams, this`curPushedStreams, this`sched,
               this`win, this`granted, this`sent
      ensures Inv() && Kept(old(Now()), Now(), maxClientStreamID) && Measure() == old(Measure()) + 2
    {
      hide LifeOk, ResetsOk, Recv, Queues, Send, Refunds, Work, Weighed;
      var id := maxPushPromiseID + 2;
      EvenMax();
      Unopened(id);
      LifeRaise(streams, curClientStreams, curPushedStreams, maxClientStreamID, maxPushPromiseID, closing,
        advMaxStreams,
                maxClientStreamID, id);
      LaterNew(streams, maxClientStreamID, maxPushPromiseID, maxClientStreamID, id, id,
        NewlyOpened(HalfClosedRemote, initialRecv));
      maxPushPromiseID := id;
      NewStream(id, HalfClosedRemote);
    }

    lemma EvenMax()
      requires Life()
      ensures maxPushPromiseID % 2 == 0 && curClientStreams <= advMaxStreams
    {
    }

    lemma Unopened(id: StreamID)
      requires Inv() && !Opened(id)
      ensures id !in streams && id !in closing && ReadsOf(id) == 0 && id !in granted
    {
      hide RecvOk, SendOk, QueuesOk, ResetsOk;
    }

    /** wroteFrame, for the frame that was being written. */
    method WroteFrame()
      requires panic.None? && Inv() && writingFrame
      modifies this`streams, this`curClientStreams, this`curPushedStreams, this`maxPushPromiseID, this`inflow,
               this`win, this`sched, this`writingFrame, this`writingFrameAsync, this`current,
               this`needsFrameFlush, this`needToSendGoAway, this`needToSendSettingsAck, this`inGoAway,
               this`goAwayError, this`inFrameScheduleLoop, this`panic, this`owed, this`closing, this`resetting,
               this`granted, this`sent, this`sentAll, this`stale, this`refunded
      ensures Sane() && inFrameScheduleLoop == old(inFrameScheduleLoop)
      ensures panic.None? ==> Kept(old(Now()), Now(), maxClientStreamID) && Settled()
      ensures panic.None? && inFrameScheduleLoop ==> Measure() <= old(Measure()) && !writingFrame
      ensures inFrameScheduleLoop && old(Harmless(current)) ==>
                && panic.None? && Inbox() == old(Inbox()) && sched == old(sched) && win == old(win)
                && Measure() == old(Measure()) && inGoAway == old(inGoAway) && goAwayError == old(goAwayError)
      decreases if inFrameScheduleLoop then 0 else 1, 4
    {
      hide Kept, Inv, Work, Weighed, S.NoneReady, Calm, Settled, Measure;
      ghost var was := Now();
      KeptSelf(was, maxClientStreamID);
      writingFrame, writingFrameAsync := false, false;
      var wr := current;
      if EndsStream(wr) {
        if wr.stream in streams {
          ResponseDone(wr.stream);
        }
      } else if wr.Control? && wr.ctl.StreamError? && wr.ctl.streamID in streams {
        CloseStream(wr.ctl.streamID);
      }
      if panic.Some? {
        return;
      }
      ghost var mid := Now();
      ScheduleFrameWrite();
      if panic.None? { KeptTrans(was, mid, Now(), maxClientStreamID); }
    }

    /** The end of a complete response was written. */
    method ResponseDone(id: StreamID)
      requires Running() && !writingFrame && id in streams
      modifies this`streams, this`curClientStreams, this`curPushedStreams, this`maxPushPromiseID, this`inflow,
               this`win, this`sched, this`writingFrame, this`writingFrameAsync, this`current,
               this`needsFrameFlush, this`needToSendGoAway, this`needToSendSettingsAck, this`inGoAway,
               this`goAwayError, this`inFrameScheduleLoop, this`panic, this`owed, this`closing, this`resetting,
               this`granted, this`sent, this`sentAll, this`stale, this`refunded
      ensures Sane() && inFrameScheduleLoop == old(inFrameScheduleLoop)
      ensures panic.None? ==> Kept(old(Now()), Now(), maxClientStreamID)
      ensures panic.None? && inFrameScheduleLoop ==> Measure() <= old(Measure()) && !writingFrame
      decreases if inFrameScheduleLoop then 0 else 1, 4, 0
    {
      hide Kept, Inv, Work, Weighed, S.NoneReady;
      ghost var was := Now();
      KeptSelf(was, maxClientStreamID);
      match streams[id].phase {
        case Open =>
          HalfCloseLocal(id);
          ghost var mid := Now();
          ResetStream(id);
          if panic.Some? { return; }
          KeptTrans(was.(resetting := mid.resetting), mid, Now(), maxClientStreamID);
          KeptParts(mid, Now(), maxClientStreamID);
          MarkedReset(id, was.resetting);
          KeptReset(was, Now(), mid.resetting, maxClientStreamID);
        case HalfClosedRemote =>
          CloseStream(id);
        case HalfClosedLocal =>
      }
    }

    method HalfCloseLocal(id: StreamID)
      requires Inv() && id in streams && streams[id].phase.Open?
      modifies this`streams, this`resetting
      ensures Inv() && resetting == old(resetting) + {id} && id in streams
              && Weighed(streams) + 1 == Weighed(old(streams))
      ensures Kept(old(Now()).(resetting := resetting), Now(), maxClientStreamID)
    {
      hide LifeOk, RecvOk, QueuesOk, SendOk, Weighed;
      resetting := resetting + {id};
      Update(id, streams[id].(phase := HalfClosedLocal));
    }

    method MarkedReset(ghost id: StreamID, ghost before: set<StreamID>)
      requires Inv() && resetting == before + {id} && (id in streams ==> streams[id].resetQueued)
      modifies this`resetting
      ensures Inv() && resetting == before
    {
      hide LifeOk, RecvOk, QueuesOk, SendOk;
      resetting := before;
    }

    /** resetStream */
    method ResetStream(id: StreamID)
      requires Running()
      modifies this`streams, this`curClientStreams, this`curPushedStreams, this`maxPushPromiseID, this`inflow,
               this`win, this`sched, this`writingFrame, this`writingFrameAsync, this`current,
               this`needsFrameFlush, this`needToSendGoAway, this`needToSendSettingsAck, this`inGoAway,
               this`goAwayError, this`inFrameScheduleLoop, this`panic, this`owed, this`closing, this`resetting,
               this`granted, this`sent, this`sentAll, this`stale, this`refunded
      ensures Sane() && inFrameScheduleLoop == old(inFrameScheduleLoop)
      ensures panic.None? ==>
                Kept(old(Now()), Now(), maxClientStreamID) && Settled() && (id in streams ==> streams[id].resetQueued)
      ensures panic.None? && inFrameScheduleLoop ==>
                Measure() <= old(Measure()) + 1 && writingFrame == old(writingFrame)
      decreases if inFrameScheduleLoop then 0 else 1, 2
    {
      hide Kept, Inv, Work, Weighed, S.NoneReady;
      WriteFrame(Control(StreamError(id)));
      if panic.Some? || id !in streams {
        return;
      }
      ghost var mid := Now();
      MarkReset(id);
      KeptTrans(old(Now()), mid, Now(), maxClientStreamID);
    }

    method MarkReset(id: StreamID)
      requires Inv() && id in streams
      modifies this`streams
      ensures Inv() && id in streams && streams[id].resetQueued && Weighed(streams) == Weighed(old(streams))
      ensures Kept(old(Now()), Now(), maxClientStreamID)
    {
      hide LifeOk, ResetsOk, RecvOk, QueuesOk, SendOk, Weighed;
      Update(id, streams[id].(resetQueued := true));
    }

    /** writeFrame */
    method WriteFrame(wr: FrameWriteRequest)
      requires Running() && (wr.OnStream? ==> Opened(wr.stream))
      modifies this`streams, this`curClientStreams, this`curPushedStreams, this`maxPushPromiseID, this`inflow,
               this`win, this`sched, this`writingFrame, this`writingFrameAsync, this`current,
               this`needsFrameFlush, this`needToSendGoAway, this`needToSendSettingsAck, this`inGoAway,
               this`goAwayError, this`inFrameScheduleLoop, this`panic, this`owed, this`closing, this`resetting,
               this`granted, this`sent, this`sentAll, this`stale, this`refunded
      ensures Sane() && inFrameScheduleLoop == old(inFrameScheduleLoop)
      ensures panic.None? ==> Kept(old(Now()), Now(), maxClientStreamID) && Settled()
      ensures panic.None? && inFrameScheduleLoop ==>
                Measure() <= old(Measure()) + FrameWork(wr) && writingFrame == old(writingFrame)
      ensures old(Settled()) && Harmless(wr) ==> panic.None? && Inbox() == old(Inbox())
      ensures old(writingFrame) && wr.Control? ==> panic.None? && sched == S.Push(old(sched), wr) && writingFrame
      decreases if inFrameScheduleLoop then 0 else 1, 1
    {
      hide Kept, Inv, Work, Weighed, S.NoneReady, Calm, FrameWork, Harmless;
      if wr.OnStream? && (wr.stream !in streams || (IsContinue(wr) && streams[wr.stream].wroteHeaders)) {
        if Settled() { SettledIsSteady(); }
        ScheduleFrameWrite();
        return;
      }
      Submit(wr);
    }

    method Submit(wr: FrameWriteRequest)
      requires Running() && (wr.OnStream? ==> wr.stream in streams)
      modifies this`streams, this`curClientStreams, this`curPushedStreams, this`maxPushPromiseID, this`inflow,
               this`win, this`sched, this`writingFrame, this`writingFrameAsync, this`current,
               this`needsFrameFlush, this`needToSendGoAway, this`needToSendSettingsAck, this`inGoAway,
               this`goAwayError, this`inFrameScheduleLoop, this`panic, this`owed, this`closing, this`resetting,
               this`granted, this`sent, this`sentAll, this`stale, this`refunded
      ensures Sane() && inFrameScheduleLoop == old(inFrameScheduleLoop)
      ensures panic.None? ==> Kept(old(Now()), Now(), maxClientStreamID) && Settled()
      ensures panic.None? && inFrameScheduleLoop ==>
                Measure() <= old(Measure()) + FrameWork(wr) && writingFrame == old(writingFrame)
      ensures old(Settled()) && Harmless(wr) ==> panic.None? && Inbox() == old(Inbox())
      ensures old(writingFrame) && wr.Control? ==> panic.None? && sched == S.Push(old(sched), wr) && writingFrame
      decreases if inFrameScheduleLoop then 0 else 1, 1, 1
    {
      hide Kept, Inv, Work, Weighed, S.NoneReady, Calm, FrameWork, Harmless, Settled, Measure;
      if IsHeaders(wr) {
        HeadersMatter(wr);
        ghost var was := Now();
        MeasureIs();
        NoteHeaders(wr.stream);
        MeasureIs();
        ghost var mid := Now();
        Queue(wr);
        if panic.None? { KeptTrans(was, mid, Now(), maxClientStreamID); }
        return;
      }
      Queue(wr);
    }

    /** writeSched.Push and scheduleFrameWrite */
    method Queue(wr: FrameWriteRequest)
      requires Running() && (wr.OnStream? ==> wr.stream in streams)
      modifies this`streams, this`curClientStreams, this`curPushedStreams, this`maxPushPromiseID, this`inflow,
               this`win, this`sched, this`writingFrame, this`writingFrameAsync, this`current,
               this`needsFrameFlush, this`needToSendGoAway, this`needToSendSettingsAck, this`inGoAway,
               this`goAwayError, this`inFrameScheduleLoop, this`panic, this`owed, this`closing, this`resetting,
               this`granted, this`sent, this`sentAll, this`stale, this`refunded
      ensures Sane() && inFrameScheduleLoop == old(inFrameScheduleLoop)
      ensures panic.None? ==> Kept(old(Now()), Now(), maxClientStreamID) && Settled()
      ensures panic.None? && inFrameScheduleLoop ==>
                Measure() <= old(Measure()) + FrameWork(wr) && writingFrame == old(writingFrame)
      ensures old(Settled()) && Harmless(wr) ==> panic.None? && Inbox() == old(Inbox())
      ensures old(writingFrame) && wr.Control? ==> panic.None? && sched == S.Push(old(sched), wr) && writingFrame
      decreases if inFrameScheduleLoop then 0 else 1, 1, 0
    {
      hide Kept, Inv, Work, Weighed, S.NoneReady, Calm, FrameWork, Harmless;
      if Settled() && Harmless(wr) { SettledPush(wr); }
      Enqueue(wr);
      ScheduleFrameWrite();
    }

    lemma MeasureIs()
      ensures Measure() == Work(sched) + Weighed(streams) + (if inGoAway then 0 else 2)
                           + (if needToSendGoAway then 1 else 0) + if needToSendSettingsAck then 1 else 0
    {
    }

    method NoteHeaders(id: StreamID)
      requires Inv() && id in streams
      modifies this`streams
      ensures Inv() && streams.Keys == old(streams.Keys) && Weighed(streams) == Weighed(old(streams))
      ensures Kept(old(Now()), Now(), maxClientStreamID)
    {
      hide LifeOk, ResetsOk, RecvOk, QueuesOk, SendOk, Weighed;
      StreamFacts(id);
      Update(id, streams[id].(wroteHeaders := true));
    }

    lemma SettledIsQuiet()
      requires Settled()
      ensures Quiet()
    {
    }

    lemma SettledIsSteady()
      requires Settled()
      ensures Steady()
    {
    }

    lemma SettledPush(wr: FrameWriteRequest)
      requires Settled() && Safe(wr)
      ensures || inFrameScheduleLoop || writingFrame || (inGoAway && goAwayError)
              || Calm(S.Push(sched, wr), win, streams.Keys)
    {
      if sched.control == [] && S.NoneReady(sched, win) { CalmPush(sched, win, wr, streams.Keys); }
    }

    /** sendWindowUpdate on the connection */
    method SendConnUpdate(n: nat)
      requires Running() && n <= owed
      modifies this`streams, this`curClientStreams, this`curPushedStreams, this`maxPushPromiseID, this`inflow,
               this`win, this`sched, this`writingFrame, this`writingFrameAsync, this`current,
               this`needsFrameFlush, this`needToSendGoAway, this`needToSendSettingsAck, this`inGoAway,
               this`goAwayError, this`inFrameScheduleLoop, this`panic, this`owed, this`closing, this`resetting,
               this`granted, this`sent, this`sentAll, this`stale, this`refunded
      ensures Sane() && inFrameScheduleLoop == old(inFrameScheduleLoop)
      ensures panic.None? ==> Kept(old(Now()).(owed := old(owed) - n, refreshed := true), Now(), maxClientStreamID)
      ensures panic.None? && old(Settled()) ==>
                && Settled() && streams == old(streams) && stale == old(stale)
                && inflow.Total() == old(inflow).Total() + n
      ensures panic.None? && inFrameScheduleLoop ==>
                Measure() <= old(Measure()) + 1 && writingFrame == old(writingFrame)
      ensures old(inflow).Total() + n > MAX_INT32 ==> panic == Some(WindowOverflow)
      ensures old(Settled()) ==> (panic.Some? <==> old(inflow).Total() + n > MAX_INT32)
      decreases if inFrameScheduleLoop then 0 else 1, 2
    {
      hide Kept, Inv, Work, Weighed, S.NoneReady;
      var send := CreditConn(n);
      if panic.Some? {
        return;
      }
      KeptSelf(Now(), maxClientStreamID);
      if send == 0 {
        return;
      }
      WriteFrame(Control(ConnFrame(WINDOW_UPDATE)));
    }

    /** sendWindowUpdate on a stream */
    method SendStreamUpdate(id: StreamID, n: nat)
      requires Running() && id in streams && StreamRecv(streams[id], ReadsOf(id), n, initialRecv)
      modifies this`streams, this`curClientStreams, this`curPushedStreams, this`maxPushPromiseID, this`inflow,
               this`win, this`sched, this`writingFrame, this`writingFrameAsync, this`current,
               this`needsFrameFlush, this`needToSendGoAway, this`needToSendSettingsAck, this`inGoAway,
               this`goAwayError, this`inFrameScheduleLoop, this`panic, this`owed, this`closing, this`resetting,
               this`granted, this`sent, this`sentAll, this`stale, this`refunded
      ensures Sane() && inFrameScheduleLoop == old(inFrameScheduleLoop)
      ensures panic.None? ==> Kept(old(Now()), Now(), maxClientStreamID)
      ensures old(Settled()) ==>
                && panic.None? && Settled() && stale == old(stale) && inflow == old(inflow) && id in streams
                && streams == old(streams)[id := old(streams)[id].(inflow := streams[id].inflow)]
      decreases if inFrameScheduleLoop then 0 else 1, 2
    {
      hide Kept, Inv, Work, Weighed, S.NoneReady;
      ghost var was := Now();
      StreamFacts(id);
      var send := CreditStream(id, n);
      ghost var mid := Now();
      KeptInflow(was, mid, maxClientStreamID, id);
      if send == 0 {
        return;
      }
      WriteFrame(OnStream(id, NonData(WINDOW_UPDATE, false), None));
      if panic.None? { KeptTrans(was, mid, Now(), maxClientStreamID); }
    }

    /** goAway */
    method GoAway(err: bool)
      requires Running()
      modifies this`streams, this`curClientStreams, this`curPushedStreams, this`maxPushPromiseID, this`inflow,
               this`win, this`sched, this`writingFrame, this`writingFrameAsync, this`current,
               this`needsFrameFlush, this`needToSendGoAway, this`needToSendSettingsAck, this`inGoAway,
               this`goAwayError, this`inFrameScheduleLoop, this`panic, this`owed, this`closing, this`resetting,
               this`granted, this`sent, this`sentAll, this`stale, this`refunded
      ensures Sane() && inFrameScheduleLoop == old(inFrameScheduleLoop)
      ensures panic.None? ==> Kept(old(Now()), Now(), maxClientStreamID)
      ensures old(Settled()) ==> Settled() && panic.None? && Inbox() == old(Inbox())
      ensures panic.None? && err && old(Quiet()) ==> Settled()
      ensures panic.None? && inFrameScheduleLoop ==> Measure() <= old(Measure()) && writingFrame == old(writingFrame)
      decreases if inFrameScheduleLoop then 0 else 1, 1
    {
      hide Kept, Inv, Work, Weighed, S.NoneReady, Calm;
      KeptSelf(Now(), maxClientStreamID);
      if inGoAway {
        if !goAwayError {
          goAwayError := err;
        }
        return;
      }
      if Settled() { SettledIsSteady(); }
      inGoAway, needToSendGoAway, goAwayError := true, true, err;
      ScheduleFrameWrite();
    }

    /** closeStream */
    method CloseStream(id: StreamID)
      requires Running() && id in streams
      modifies this`streams, this`curClientStreams, this`curPushedStreams, this`maxPushPromiseID, this`inflow,
               this`win, this`sched, this`writingFrame, this`writingFrameAsync, this`current,
               this`needsFrameFlush, this`needToSendGoAway, this`needToSendSettingsAck, this`inGoAway,
               this`goAwayError, this`inFrameScheduleLoop, this`panic, this`owed, this`closing, this`resetting,
               this`granted, this`sent, this`sentAll, this`stale, this`refunded
      ensures Sane() && inFrameScheduleLoop == old(inFrameScheduleLoop)
      ensures panic.None? ==> Kept(old(Now()), Now(), maxClientStreamID) && id !in streams
      ensures panic.None? && old(Settled()) ==>
                && Settled() && streams == old(streams) - {id}
                && Stale(id) == old(Stale(id)) + old(streams[id]).Readable()
                && inflow.Total() == old(inflow).Total() + old(streams[id]).BodyLen()
      ensures old(Settled()) ==> (panic.Some? <==> old(inflow).Total() + old(streams[id]).BodyLen() > MAX_INT32)
      ensures panic.None? && inFrameScheduleLoop ==> Measure() <= old(Measure()) && writingFrame == old(writingFrame)
      decreases if inFrameScheduleLoop then 0 else 1, 3
    {
      hide Kept, Inv, Work, Weighed, S.NoneReady, Later, Settled, Measure;
      ghost var was, n := Now(), streams[id].BodyLen();
      var body := streams[id].body;
      StreamFacts(id);
      InflowOk();
      Withdraw(id);
      if panic.Some? {
        return;
      }
      ghost var mid := Now();
      KeptParts(was.(streams := was.streams - {id}, closing := was.closing + {id}, owed := was.owed + n), mid,
        maxClientStreamID);
      Depart(id, body);
      if panic.Some? {
        return;
      }
      KeptClose(was, mid, Now(), n, maxClientStreamID, id);
    }

    /** The first half of closeStream. */
    method Withdraw(id: StreamID)
      requires Running() && id in streams
      modifies this`streams, this`curClientStreams, this`curPushedStreams, this`maxPushPromiseID, this`inflow,
               this`win, this`sched, this`writingFrame, this`writingFrameAsync, this`current,
               this`needsFrameFlush, this`needToSendGoAway, this`needToSendSettingsAck, this`inGoAway,
               this`goAwayError, this`inFrameScheduleLoop, this`panic, this`owed, this`closing, this`resetting,
               this`granted, this`sent, this`sentAll, this`stale, this`refunded
      ensures Sane() && inFrameScheduleLoop == old(inFrameScheduleLoop)
      ensures panic.None? ==>
                Kept(old(Now()).(streams := old(streams) - {id}, closing := old(closing) + {id},
                                 owed := old(owed) + old(streams[id]).BodyLen()), Now(), maxClientStreamID)
      ensures old(Settled()) ==>
                && panic.None? && Settled() && streams == old(streams) - {id} && inflow == old(inflow)
                && Stale(id) == old(Stale(id)) + old(streams[id]).Readable()
      ensures panic.None? && inFrameScheduleLoop ==>
                Measure() + 2 <= old(Measure()) && writingFrame == old(writingFrame)
      decreases if inFrameScheduleLoop then 0 else 1, 3, 0
    {
      hide Kept, Inv, Work, Weighed, S.NoneReady, Later, Settled, Measure;
      RemoveStream(id);
      LastStreamGone();
    }

    /** The stream leaves the map, and what its body holds is owed. */
    method RemoveStream(id: StreamID)
      requires Running() && id in streams
      modifies this`streams, this`curClientStreams, this`curPushedStreams, this`closing, this`owed, this`stale,
               this`refunded
      ensures Running() && streams == old(streams) - {id} && Measure() + 2 <= old(Measure())
      ensures Later(old(streams), maxClientStreamID, maxPushPromiseID, streams, maxClientStreamID, maxPushPromiseID)
      ensures Now() == old(Now()).(streams := streams, closing := old(closing) + {id},
                                   owed := old(owed) + old(streams[id]).BodyLen())
      ensures (old(Settled()) ==> Settled()) && Stale(id) == old(Stale(id)) + old(streams[id]).Readable()
    {
      hide Inv, Work, Weighed, Later, Settled, Measure;
      MeasureIs();
      Leave(id);
      Delete(id);
      MeasureIs();
    }

    /** The second half of closeStream. */
    method Depart(id: StreamID, body: Option<Pipe>)
      requires Running() && id in closing && (body.Some? ==> body.value.Len() <= owed)
      modifies this`streams, this`curClientStreams, this`curPushedStreams, this`maxPushPromiseID, this`inflow,
               this`win, this`sched, this`writingFrame, this`writingFrameAsync, this`current,
               this`needsFrameFlush, this`needToSendGoAway, this`needToSendSettingsAck, this`inGoAway,
               this`goAwayError, this`inFrameScheduleLoop, this`panic, this`owed, this`closing, this`resetting,
               this`granted, this`sent, this`sentAll, this`stale, this`refunded
      ensures Sane() && inFrameScheduleLoop == old(inFrameScheduleLoop)
      ensures panic.None? ==>
                && Kept(old(Now()).(owed := old(owed) - (if body.Some? then body.value.Len() else 0),
                   closing := old(closing) - {id},
                                    refreshed := false), Now(), maxClientStreamID)
                && (old(inflow.Fresh()) ==> inflow.Fresh())
      ensures panic.None? && old(Settled()) ==>
                && Settled() && streams == old(streams) && stale == old(stale)
                && inflow.Total() == old(inflow).Total() + if body.Some? then body.value.Len() else 0
      ensures old(Settled()) ==>
                (panic.Some? <==> body.Some? && old(inflow).Total() + body.value.Len() > MAX_INT32)
      ensures panic.None? && inFrameScheduleLoop ==>
                Measure() <= old(Measure()) + 1 && writingFrame == old(writingFrame)
      decreases if inFrameScheduleLoop then 0 else 1, 3, 1
    {
      hide Kept, Inv, Work, Weighed, S.NoneReady;
      ghost var was := Now();
      Refund(body);
      if panic.Some? {
        return;
      }
      ghost var n := if body.Some? then body.value.Len() else 0;
      KeptParts(was.(owed := was.owed - n, refreshed := false), Now(), maxClientStreamID);
      KeptForget(was.(owed := was.owed - n, refreshed := false), Now(), maxClientStreamID, id);
      ForgetSettled(id);
      Forget(id);
    }

    /** The unread bytes of the body go back to the connection's window. */
    method Refund(body: Option<Pipe>)
      requires Running() && (body.Some? ==> body.value.Len() <= owed)
      modifies this`streams, this`curClientStreams, this`curPushedStreams, this`maxPushPromiseID, this`inflow,
               this`win, this`sched, this`writingFrame, this`writingFrameAsync, this`current,
               this`needsFrameFlush, this`needToSendGoAway, this`needToSendSettingsAck, this`inGoAway,
               this`goAwayError, this`inFrameScheduleLoop, this`panic, this`owed, this`closing, this`resetting,
               this`granted, this`sent, this`sentAll, this`stale, this`refunded
      ensures Sane() && inFrameScheduleLoop == old(inFrameScheduleLoop)
      ensures panic.None? ==>
                && Kept(old(Now()).(owed := old(owed) - (if body.Some? then body.value.Len() else 0),
                   refreshed := false), Now(), maxClientStreamID)
                && (old(inflow.Fresh()) ==> inflow.Fresh())
      ensures panic.None? && old(Settled()) ==>
                && Settled() && streams == old(streams) && stale == old(stale)
                && inflow.Total() == old(inflow).Total() + if body.Some? then body.value.Len() else 0
      ensures old(Settled()) ==>
                (panic.Some? <==> body.Some? && old(inflow).Total() + body.value.Len() > MAX_INT32)
      ensures panic.None? && inFrameScheduleLoop ==>
                Measure() <= old(Measure()) + 1 && writingFrame == old(writingFrame)
      decreases if inFrameScheduleLoop then 0 else 1, 3, 0
    {
      hide Kept, Inv, Work, Weighed, S.NoneReady;
      ghost var was := Now();
      if body.Some? {
        var n := body.value.Len();
        SendConnUpdate(n);
        if panic.None? { KeptWeaker(was.(owed := was.owed - n, refreshed := true), Now(), maxClientStreamID); }
      } else {
        KeptSelf(was, maxClientStreamID);
        KeptWeaker(was, was, maxClientStreamID);
      }
    }

    /** If that was the last stream and keep-alives are disabled, shut down. */
    method LastStreamGone()
      requires Running()
      modifies this`streams, this`curClientStreams, this`curPushedStreams, this`maxPushPromiseID, this`inflow,
               this`win, this`sched, this`writingFrame, this`writingFrameAsync, this`current,
               this`needsFrameFlush, this`needToSendGoAway, this`needToSendSettingsAck, this`inGoAway,
               this`goAwayError, this`inFrameScheduleLoop, this`panic, this`owed, this`closing, this`resetting,
               this`granted, this`sent, this`sentAll, this`stale, this`refunded
      ensures Sane() && inFrameScheduleLoop == old(inFrameScheduleLoop)
      ensures panic.None? ==> Kept(old(Now()), Now(), maxClientStreamID)
      ensures old(Settled()) ==> Settled() && panic.None? && Inbox() == old(Inbox())
      ensures panic.None? && inFrameScheduleLoop ==> Measure() <= old(Measure()) && writingFrame == old(writingFrame)
      decreases if inFrameScheduleLoop then 0 else 1, 2
    {
      KeptSelf(Now(), maxClientStreamID);
      hide Kept, Inv, Work, Weighed, S.NoneReady;
      var keepAlivesDisabled := *;
      if |streams| == 0 && keepAlivesDisabled {
        GoAway(false);
      }
    }

    lemma ForgetSettled(id: StreamID)
      ensures S.NoneReady(sched, win) ==> S.NoneReady(sched.(queues := sched.queues - {id}), win)
    {
      hide Ready;
    }

    // ---- the cases of the select ----

    /** The serve loop is back at its select, or it panicked. */
    ghost predicate Boundary()
      reads this
    {
      if panic.None? then Inv() && AtSelect() else panic == Some(WindowOverflow) ==> late > 0
    }

    ghost predicate Since(s: Streams, maxClient: nat, maxPush: nat)
      reads this
    {
      panic.None? ==> Later(s, maxClient, maxPush, streams, maxClientStreamID, maxPushPromiseID)
    }

    /** wantWriteFrameCh: a handler of a stream that was opened writes a frame. */
    method HandlerWrite(wr: FrameWriteRequest)
      requires panic.None? && Inv() && AtSelect() && (wr.OnStream? ==> Opened(wr.stream))
      modifies this`streams, this`curClientStreams, this`curPushedStreams, this`maxPushPromiseID, this`inflow,
               this`win, this`sched, this`writingFrame, this`writingFrameAsync, this`current,
               this`needsFrameFlush, this`needToSendGoAway, this`needToSendSettingsAck, this`inGoAway,
               this`goAwayError, this`inFrameScheduleLoop, this`panic, this`owed, this`closing, this`resetting,
               this`granted, this`sent, this`sentAll, this`stale, this`refunded
      ensures Boundary() && Since(old(streams), old(maxClientStreamID), old(maxPushPromiseID))
    {
      hide Kept, Inv, S.NoneReady;
      if wr.Control? && wr.ctl.StreamError? {
        ResetStream(wr.ctl.streamID);
      } else {
        WriteFrame(wr);
      }
      if panic.None? { BackAtSelect(old(Now())); }
    }

    lemma BackAtSelect(was: Snap)
      requires Kept(was, Now(), maxClientStreamID) && Settled() && writingFrame == writingFrameAsync
      requires was.closing == {} && was.resetting == {} && was.owed == 0 && !was.loop && was.refreshed
      ensures AtSelect()
              && Later(was.streams, maxClientStreamID, was.maxPush, streams, maxClientStreamID, maxPushPromiseID)
    {
      hide Later, S.NoneReady;
    }

    /** wroteFrameCh */
    method FrameWritten()
      requires panic.None? && Inv() && AtSelect() && writingFrame
      modifies this`streams, this`curClientStreams, this`curPushedStreams, this`maxPushPromiseID, this`inflow,
               this`win, this`sched, this`writingFrame, this`writingFrameAsync, this`current,
               this`needsFrameFlush, this`needToSendGoAway, this`needToSendSettingsAck, this`inGoAway,
               this`goAwayError, this`inFrameScheduleLoop, this`panic, this`owed, this`closing, this`resetting,
               this`granted, this`sent, this`sentAll, this`stale, this`refunded
      ensures Boundary() && Since(old(streams), old(maxClientStreamID), old(maxPushPromiseID))
    {
      hide Kept, Inv, S.NoneReady;
      WroteFrame();
      if panic.None? { BackAtSelect(old(Now())); }
    }

    /** The timers, and a graceful shutdown. */
    method Shutdown()
      requires panic.None? && Inv() && AtSelect()
      modifies this`streams, this`curClientStreams, this`curPushedStreams, this`maxPushPromiseID, this`inflow,
               this`win, this`sched, this`writingFrame, this`writingFrameAsync, this`current,
               this`needsFrameFlush, this`needToSendGoAway, this`needToSendSettingsAck, this`inGoAway,
               this`goAwayError, this`inFrameScheduleLoop, this`panic, this`owed, this`closing, this`resetting,
               this`granted, this`sent, this`sentAll, this`stale, this`refunded
      ensures Boundary() && Since(old(streams), old(maxClientStreamID), old(maxPushPromiseID))
    {
      hide Kept, Inv, S.NoneReady;
      GoAway(false);
      if panic.None? { BackAtSelect(old(Now())); }
    }

    /** startPush */
    method StartPush(parent: StreamID, done: nat)
      requires panic.None? && Inv() && AtSelect() && Opened(parent)
      modifies this`streams, this`curClientStreams, this`curPushedStreams, this`maxPushPromiseID, this`inflow,
               this`win, this`sched, this`writingFrame, this`writingFrameAsync, this`current,
               this`needsFrameFlush, this`needToSendGoAway, this`needToSendSettingsAck, this`inGoAway,
               this`goAwayError, this`inFrameScheduleLoop, this`panic, this`owed, this`closing, this`resetting,
               this`granted, this`sent, this`sentAll, this`stale, this`refunded
      ensures Boundary() && Since(old(streams), old(maxClientStreamID), old(maxPushPromiseID))
    {
      hide Kept, Inv, S.NoneReady;
      KeptSelf(Now(), maxClientStreamID);
      if parent in streams && !streams[parent].phase.HalfClosedLocal? && pushEnabled {
        WriteFrame(OnStream(parent, NonData(PUSH_PROMISE, false), Some(done)));
      }
      if panic.None? { BackAtSelect(old(Now())); }
    }

    /** bodyReadCh: noteBodyRead */
    method BodyRead(id: StreamID, n: nat)
      requires panic.None? && Inv() && AtSelect() && 0 < n <= ReadsOf(id)
      modifies this
      ensures Boundary() && Since(old(streams), old(maxClientStreamID), old(maxPushPromiseID)) && late == old(late)
              && credit == old(credit)
      ensures panic == if old(inflow).Total() + n > MAX_INT32 then Some(WindowOverflow) else None
    {
      hide Kept, Inv, S.NoneReady;
      TakeRead(id, n);
      ghost var was := Now();
      SendConnUpdate(n);
      if panic.Some? {
        return;
      }
      ghost var mid := Now();
      if id in streams && !streams[id].phase.HalfClosedRemote? {
        SendStreamUpdate(id, n);
        KeptTrans(was.(owed := 0, refreshed := true), mid, Now(), maxClientStreamID);
      }
      BackAtSelect(was.(owed := 0, refreshed := true));
    }

    /** The message leaves the channel; its bytes are owed to the windows. */
    method TakeRead(id: StreamID, n: nat)
      requires Inv() && 0 < n <= ReadsOf(id)
      modifies this`bodyReads, this`owed
      ensures Inv() && owed == old(owed) + n && (id in streams ==> StreamRecv(streams[id], ReadsOf(id), n, initialRecv))
    {
      hide LifeOk, ResetsOk, QueuesOk, SendOk, Sum, Buffered;
      SumSet(bodyReads, id, bodyReads[id] - n);
      bodyReads, owed := bodyReads[id := bodyReads[id] - n], owed + n;
    }

    /** A handler reads from the body of its stream. */
    method ReadBody(id: StreamID, n: nat)
      requires panic.None? && Inv() && AtSelect() && id in streams && streams[id].body.Some?
      requires !streams[id].body.value.broken && 0 < n <= streams[id].body.value.len
      modifies this`streams, this`bodyReads
      ensures Boundary() && Since(old(streams), old(maxClientStreamID), old(maxPushPromiseID))
              && ReadsOf(id) == old(ReadsOf(id)) + n
    {
      hide LifeOk, ResetsOk, QueuesOk, SendOk, RecvOk, S.NoneReady, Sum;
      var st := streams[id];
      st := st.(body := Some(st.body.value.(len := st.body.value.len - n)));
      StreamFacts(id);
      ReadMoves(id, st, n);
      LifeSet(streams, curClientStreams, curPushedStreams, maxClientStreamID, maxPushPromiseID, closing,
        advMaxStreams, id, st);
      ResetsSet(streams, resetting, id, st);
      LaterSet(streams, maxClientStreamID, maxPushPromiseID, id, st);
      streams, bodyReads := streams[id := st], bodyReads[id := ReadsOf(id) + n];
    }

    lemma ReadMoves(id: StreamID, st: Stream, n: nat)
      requires Recv() && id in streams
      requires st == streams[id].(body := st.body) && st.BodyLen() == streams[id].BodyLen() - n
      ensures RecvOk(inflow, streams[id := st], bodyReads[id := ReadsOf(id) + n], owed, credit, late, initialRecv)
    {
      BufferedSet(streams, id, st);
      SumSet(bodyReads, id, ReadsOf(id) + n);
      hide Sum, Buffered;
    }

    /** A handler reads from the body of a stream that is already closed. */
    method LateRead(id: StreamID, n: nat)
      requires panic.None? && Inv() && AtSelect() && Opened(id) && id !in streams && 0 < n <= Stale(id)
      modifies this`bodyReads, this`late, this`stale
      ensures Boundary() && late == old(late) + n && late <= refunded && Stale(id) == old(Stale(id)) - n
              && ReadsOf(id) == old(ReadsOf(id)) + n
    {
      hide Inv, Settled;
      NoteLate(id, n);
    }

    method NoteLate(id: StreamID, n: nat)
      requires Inv() && Opened(id) && id !in streams && 0 < n <= Stale(id)
      modifies this`bodyReads, this`late, this`stale
      ensures Inv() && late == old(late) + n && late <= refunded && Stale(id) == old(Stale(id)) - n
              && ReadsOf(id) == old(ReadsOf(id)) + n
    {
      hide LifeOk, ResetsOk, QueuesOk, SendOk, Buffered, Sum;
      SumSet(bodyReads, id, ReadsOf(id) + n);
      SumSet(stale, id, Stale(id) - n);
      bodyReads, late, stale := bodyReads[id := ReadsOf(id) + n], late + n, stale[id := Stale(id) - n];
    }

    /** A handler closes the body of its stream, or its read deadline passes. */
    method CloseBody(id: StreamID, breaks: bool)
      requires panic.None? && Inv() && AtSelect() && id in streams && streams[id].body.Some?
      modifies this`streams
      ensures Boundary() && Since(old(streams), old(maxClientStreamID), old(maxPushPromiseID))
    {
      hide Inv, S.NoneReady, ResetOk;
      var p := streams[id].body.value;
      p := if !breaks then p.(closed := true) else if p.broken then p
        else p.(unread := p.len, len := 0, broken := true);
      StreamFacts(id);
      BodyResets(streams[id], p, id in resetting);
      Update(id, streams[id].(body := Some(p)));
    }

    // ---- frames from the client ----

    /** A DATA frame whose payload nobody wants: the window is checked and given
        back. */
    method DiscardData(id: StreamID, length: nat) returns (r: Outcome)
      requires Running() && AtSelect()
      modifies this`streams, this`curClientStreams, this`curPushedStreams, this`maxPushPromiseID, this`inflow,
               this`win, this`sched, this`writingFrame, this`writingFrameAsync, this`current,
               this`needsFrameFlush, this`needToSendGoAway, this`needToSendSettingsAck, this`inGoAway,
               this`goAwayError, this`inFrameScheduleLoop, this`panic, this`owed, this`closing, this`resetting,
               this`granted, this`sent, this`sentAll, this`stale, this`refunded
      ensures Boundary() && Since(old(streams), old(maxClientStreamID), old(maxPushPromiseID))
      ensures panic.None? && streams == old(streams) && inflow.Total() == old(inflow).Total()
      ensures r == if length > old(inflow).avail then StreamFails(id) else Fine
    {
      hide Kept, Inv, Later, S.NoneReady;
      LaterSelf(streams, maxClientStreamID, maxPushPromiseID);
      InflowOk();
      var ok := TakeConn(length);
      if !ok {
        return StreamFails(id);
      }
      ghost var was := Now();
      SendConnUpdate(length);
      BackAtSelect(was.(owed := 0, refreshed := true));
      return Fine;
    }

    lemma NoStreams()
      requires Inv() && streams == map[]
      ensures curClientStreams == 0
    {
      hide RecvOk, QueuesOk, SendOk, Sum;
      assert Odd(streams.Keys) == {};
    }

    lemma InflowOk()
      requires Inv()
      ensures inflow.Ok()
    {
      hide LifeOk, ResetsOk, QueuesOk, SendOk, Sum, Buffered;
    }

    /** processData, for a stream that takes it. */
    method TakeData(id: StreamID, length: nat, data: nat, ended: bool) returns (r: Outcome)
      requires Running() && AtSelect() && id in streams && streams[id].phase.Open? && streams[id].body.Some?
               && data <= length
      modifies this`streams, this`curClientStreams, this`curPushedStreams, this`maxPushPromiseID, this`inflow,
               this`win, this`sched, this`writingFrame, this`writingFrameAsync, this`current,
               this`needsFrameFlush, this`needToSendGoAway, this`needToSendSettingsAck, this`inGoAway,
               this`goAwayError, this`inFrameScheduleLoop, this`panic, this`owed, this`closing, this`resetting,
               this`granted, this`sent, this`sentAll, this`stale, this`refunded
      ensures Boundary() && Since(old(streams), old(maxClientStreamID), old(maxPushPromiseID))
      ensures panic.None?
      ensures old(streams)[id].Takes(data) && length <= old(inflow).avail && length <= old(streams)[id].inflow.avail ==>
                && r.Fine? && id in streams && streams[id].Readable() == old(streams)[id].Readable() + data
                && inflow.Total() == old(inflow).Total() - data
      ensures (r.Fine? || r == StreamFails(id)) && (length > old(inflow).avail ==> r == StreamFails(id))
    {
      hide Kept, Inv, Later, S.NoneReady;
      LaterSelf(streams, maxClientStreamID, maxPushPromiseID);
      InflowOk();
      if streams[id].declBytes != -1 && streams[id].bodyBytes + data > streams[id].declBytes {
        r := DiscardData(id, length);
        if r.StreamFails? {
          return;
        }
        ghost var s, p := streams, maxPushPromiseID;
        CloseBody(id, false);
        LaterTrans(old(streams), maxClientStreamID, old(maxPushPromiseID), s, maxClientStreamID, p, streams,
          maxClientStreamID, maxPushPromiseID);
        return StreamFails(id);
      }
      if length > 0 {
        var stored;
        r, stored := StoreData(id, length, data);
        if !stored {
          return;
        }
      }
      if ended {
        ghost var s, p := streams, maxPushPromiseID;
        EndStream(id);
        LaterTrans(old(streams), maxClientStreamID, old(maxPushPromiseID), s, maxClientStreamID, p, streams,
          maxClientStreamID, maxPushPromiseID);
      }
      return Fine;
    }

    /** The windows are charged, the payload goes into the body, and the padding
        is given back.  The stream is still open afterwards: the write loop found
        nothing to do before, and WINDOW_UPDATEs close no stream. */
    method StoreData(id: StreamID, length: nat, data: nat) returns (r: Outcome, stored: bool)
      requires Running() && AtSelect() && id in streams && streams[id].phase.Open? && streams[id].body.Some?
               && data <= length
      modifies this`streams, this`curClientStreams, this`curPushedStreams, this`maxPushPromiseID, this`inflow,
               this`win, this`sched, this`writingFrame, this`writingFrameAsync, this`current,
               this`needsFrameFlush, this`needToSendGoAway, this`needToSendSettingsAck, this`inGoAway,
               this`goAwayError, this`inFrameScheduleLoop, this`panic, this`owed, this`closing, this`resetting,
               this`granted, this`sent, this`sentAll, this`stale, this`refunded
      ensures Boundary() && Since(old(streams), old(maxClientStreamID), old(maxPushPromiseID))
      ensures r == if length > old(inflow).avail
              || length > old(streams)[id].inflow.avail then StreamFails(id) else Fine
      ensures panic.None? && (stored ==> r.Fine?)
      ensures old(streams)[id].Takes(data) && r.Fine? ==> stored
      ensures stored ==>
                && id in streams && streams[id].phase.Open? && streams[id].body.Some?
                && streams[id].BodyLen() == old(streams)[id].BodyLen() + data
                && streams[id].Readable() == old(streams)[id].Readable() + data
                && inflow.Total() == old(inflow).Total() - data
    {
      hide Kept, Inv, Later, S.NoneReady;
      LaterSelf(streams, maxClientStreamID, maxPushPromiseID);
      InflowOk();
      var ok := TakeBoth(id, length);
      if !ok {
        return StreamFails(id), false;
      }
      ghost var s := streams;
      if data > 0 {
        ok := WriteBody(id, data, length - data);
        LaterTrans(old(streams), maxClientStreamID, maxPushPromiseID, s, maxClientStreamID, maxPushPromiseID,
                   streams, maxClientStreamID, maxPushPromiseID);
      }
      ghost var mid := Now();
      if !ok {
        SendConnUpdate(length);
      } else {
        RefundPadding(id, length - data);
      }
      BackAtSelect(mid.(owed := 0, refreshed := true));
      LaterTrans(old(streams), maxClientStreamID, mid.maxPush, mid.streams, maxClientStreamID, mid.maxPush,
                 streams, maxClientStreamID, maxPushPromiseID);
      return Fine, ok;
    }

    method RefundPadding(id: StreamID, pad: nat)
      requires Running() && Settled() && owed == pad && id in streams
               && StreamRecv(streams[id], ReadsOf(id), pad, initialRecv)
      modifies this`streams, this`curClientStreams, this`curPushedStreams, this`maxPushPromiseID, this`inflow,
               this`win, this`sched, this`writingFrame, this`writingFrameAsync, this`current,
               this`needsFrameFlush, this`needToSendGoAway, this`needToSendSettingsAck, this`inGoAway,
               this`goAwayError, this`inFrameScheduleLoop, this`panic, this`owed, this`closing, this`resetting,
               this`granted, this`sent, this`sentAll, this`stale, this`refunded
      ensures Sane() && inFrameScheduleLoop == old(inFrameScheduleLoop)
      ensures panic.None? ==> Kept(old(Now()).(owed := 0, refreshed := true), Now(), maxClientStreamID) && Settled()
      ensures panic.None? ==>
                && id in streams && streams == old(streams)[id := old(streams)[id].(inflow := streams[id].inflow)]
                && inflow.Total() == old(inflow).Total() + pad
      ensures panic.Some? ==> old(inflow).Total() + pad > MAX_INT32
    {
      hide Kept, Inv, S.NoneReady;
      ghost var was := Now();
      SendConnUpdate(pad);
      if panic.Some? {
        return;
      }
      ghost var mid := Now();
      SendStreamUpdate(id, pad);
      if panic.None? { KeptTrans(was.(owed := 0, refreshed := true), mid, Now(), maxClientStreamID); }
    }

    /** endStream */
    method EndStream(id: StreamID)
      requires Running() && AtSelect() && id in streams && streams[id].phase.Open? && streams[id].body.Some?
      modifies this`streams
      ensures Boundary() && Since(old(streams), old(maxClientStreamID), old(maxPushPromiseID))
      ensures streams == old(streams)[id := EndRequest(old(streams)[id])]
    {
      hide Inv, S.NoneReady, Later;
      StreamFacts(id);
      Update(id, EndRequest(streams[id]));
    }

    /** processData */
    method ProcessData(id: StreamID, length: nat, data: nat, ended: bool) returns (r: Outcome)
      requires Running() && AtSelect() && data <= length
      modifies this`streams, this`curClientStreams, this`curPushedStreams, this`maxPushPromiseID, this`inflow,
               this`win, this`sched, this`writingFrame, this`writingFrameAsync, this`current,
               this`needsFrameFlush, this`needToSendGoAway, this`needToSendSettingsAck, this`inGoAway,
               this`goAwayError, this`inFrameScheduleLoop, this`panic, this`owed, this`closing, this`resetting,
               this`granted, this`sent, this`sentAll, this`stale, this`refunded
      ensures Boundary() && Since(old(streams), old(maxClientStreamID), old(maxPushPromiseID))
      ensures r.ConnectionFails? <==> id == 0 || (id !in old(streams) && !old(Opened(id)))
      ensures length > old(inflow).avail && !r.ConnectionFails? ==> r == StreamFails(id)
      ensures r.Fine? || r.ConnectionFails? || r == StreamFails(id)
      ensures panic.None?
      ensures id > 0 && id in old(streams) && old(streams[id]).AcceptsData() && old(streams[id]).Takes(data)
              && length <= old(inflow).avail && length <= old(streams[id]).inflow.avail ==>
                && r.Fine? && id in streams && streams[id].Readable() == old(streams[id]).Readable() + data
                && inflow.Total() == old(inflow).Total() - data
    {
      hide Inv, Later, S.NoneReady;
      LaterSelf(streams, maxClientStreamID, maxPushPromiseID);
      if id == 0 || (id !in streams && !Opened(id)) {
        return ConnectionFails;
      }
      if id !in streams || !streams[id].AcceptsData() {
        r := DiscardData(id, length);
        if r.StreamFails? {
          return;
        }
        return if id in streams && streams[id].resetQueued then Fine else StreamFails(id);
      }
      StreamFacts(id);
      r := TakeData(id, length, data, ended);
    }

    /** processResetStream */
    method ProcessReset(id: StreamID) returns (r: Outcome)
      requires Running() && AtSelect()
      modifies this`streams, this`curClientStreams, this`curPushedStreams, this`maxPushPromiseID, this`inflow,
               this`win, this`sched, this`writingFrame, this`writingFrameAsync, this`current,
               this`needsFrameFlush, this`needToSendGoAway, this`needToSendSettingsAck, this`inGoAway,
               this`goAwayError, this`inFrameScheduleLoop, this`panic, this`owed, this`closing, this`resetting,
               this`granted, this`sent, this`sentAll, this`stale, this`refunded
      ensures Boundary() && Since(old(streams), old(maxClientStreamID), old(maxPushPromiseID))
      ensures r == if id in old(streams) || old(Opened(id)) then Fine else ConnectionFails
      ensures panic.None? ==> id !in streams
      ensures panic.Some? <==> id in old(streams) && old(inflow).Total() + old(streams)[id].BodyLen() > MAX_INT32
      ensures panic.None? && id in old(streams) ==>
                && Stale(id) == old(Stale(id)) + old(streams[id]).Readable()
                && inflow.Total() == old(inflow).Total() + old(streams[id]).BodyLen()
    {
      hide Kept, Inv, Later, S.NoneReady;
      LaterSelf(streams, maxClientStreamID, maxPushPromiseID);
      if id !in streams {
        return if Opened(id) then Fine else ConnectionFails;
      }
      CloseStream(id);
      if panic.None? { BackAtSelect(old(Now())); }
      return Fine;
    }

    /** processWindowUpdate */
    method ProcessWindowUpdate(id: StreamID, increment: int) returns (r: Outcome)
      requires Running() && AtSelect() && 0 < increment <= MAX_INT32
      modifies this
      ensures Boundary() && Since(old(streams), old(maxClientStreamID), old(maxPushPromiseID)) && late == old(late)
              && credit == old(credit)
      ensures r == if id == 0 then (if old(win).conn + increment <= MAX_INT32 then Fine else FlowFails)
                   else if id !in old(streams) then (if old(Opened(id)) then Fine else ConnectionFails)
                   else if old(win).Of(id) + increment <= MAX_INT32 then Fine else StreamFails(id)
      ensures grantedAll == old(grantedAll) + if id == 0 && r.Fine? then increment else 0
      ensures panic.None? && id != 0 && id in old(streams) && r.Fine? ==>
                id in old(granted) && id in granted && granted[id] == old(granted)[id] + increment
      ensures panic.None? && (id == 0 || !r.Fine? || id !in old(streams)) ==> GrantsKept(old(granted), granted)
    {
      hide Kept, Inv, Later, S.NoneReady, Settled, Measure;
      LaterSelf(streams, maxClientStreamID, maxPushPromiseID);
      if id != 0 {
        if id !in streams {
          return if Opened(id) then Fine else ConnectionFails;
        }
        var ok := GrantStream(id, increment);
        if !ok {
          return StreamFails(id);
        }
      } else {
        var ok := GrantConn(increment);
        if !ok {
          return FlowFails;
        }
      }
      ghost var mid := Now();
      ScheduleFrameWrite();
      if panic.None? {
        BackAtSelect(mid);
        KeptParts(mid, Now(), maxClientStreamID);
      }
      return Fine;
    }

    /** flow.add on a stream; a window that would overflow stays as it is. */
    method GrantStream(id: StreamID, n: int) returns (ok: bool)
      requires Inv() && id in streams && 0 < n <= MAX_INT32
      modifies this`win, this`granted
      ensures Inv() && id in old(win).streams && id in old(granted)
      ensures ok <==> old(win).streams[id] + n <= MAX_INT32
      ensures granted == if ok then old(granted)[id := old(granted)[id] + n] else old(granted)
      ensures win == if ok then old(win).(streams := old(win).streams[id := old(win).streams[id] + n]) else old(win)
    {
      hide LifeOk, ResetsOk, RecvOk, QueuesOk, Sum, SendOk, ResetOk, StreamRecv;
      StreamFacts(id);
      SendGranted(win, sched.queues.Keys, initialSend, granted, sent, grantedAll, sentAll, flowError, id, n);
      var r := Raised(win.streams[id], n);
      if r.None? {
        return false;
      }
      win := win.(streams := win.streams[id := r.value]);
      granted := granted[id := granted[id] + n];
      return true;
    }

    /** flow.add on the connection */
    method GrantConn(n: int) returns (ok: bool)
      requires Inv() && 0 < n <= MAX_INT32
      modifies this`win, this`grantedAll
      ensures Inv() && (ok <==> old(win).conn + n <= MAX_INT32) && grantedAll == old(grantedAll) + (if ok then n else 0)
      ensures win == if ok then old(win).(conn := old(win).conn + n) else old(win)
    {
      hide LifeOk, ResetsOk, RecvOk, QueuesOk;
      var r := Raised(win.conn, n);
      if r.None? {
        return false;
      }
      win, grantedAll := win.(conn := r.value), grantedAll + n;
      return true;
    }

    /** processTrailerHeaders */
    method ProcessTrailers(id: StreamID, ended: bool, wellFormed: bool) returns (r: Outcome)
      requires Running() && AtSelect() && id in streams && streams[id].phase.Open? && streams[id].body.Some?
      modifies this`streams
      ensures Boundary() && Since(old(streams), old(maxClientStreamID), old(maxPushPromiseID))
      ensures r == if old(streams)[id].gotTrailer then ConnectionFails
                   else if ended && wellFormed then Fine else StreamFails(id)
      ensures var st := old(streams)[id].(gotTrailer := true);
              streams == if r.ConnectionFails? then old(streams)
                         else old(streams)[id := if r.Fine? then EndRequest(st) else st]
    {
      hide Inv, Later, S.NoneReady;
      LaterSelf(streams, maxClientStreamID, maxPushPromiseID);
      if streams[id].gotTrailer {
        return ConnectionFails;
      }
      StreamFacts(id);
      Update(id, streams[id].(gotTrailer := true));
      if !ended || !wellFormed {
        return StreamFails(id);
      }
      ghost var s := streams;
      EndStream(id);
      LaterTrans(old(streams), maxClientStreamID, maxPushPromiseID, s, maxClientStreamID, maxPushPromiseID,
                 streams, maxClientStreamID, maxPushPromiseID);
      return Fine;
    }

    /** What processFrame leaves behind: the select, but for a new stream whose
        reset is about to be queued. */
    ghost predicate Handled(r: Outcome)
      reads this
    {
      if panic.Some? then panic == Some(WindowOverflow) ==> late > 0
      else
        && Inv() && writingFrame == writingFrameAsync && closing == {} && owed == 0 && !inFrameScheduleLoop
           && inflow.Fresh()
        && (if r.StreamFails? then resetting <= {r.id} else resetting == {})
        && if r.ConnectionFails? then Quiet() else Settled()
    }

    /** processHeaders */
    method ProcessHeaders(id: StreamID, ended: bool, selfDependent: bool, wellFormed: bool, declBytes: int,
                          handlerOk: bool)
      returns (r: Outcome)
      requires Running() && AtSelect()
      modifies this`streams, this`curClientStreams, this`curPushedStreams, this`maxClientStreamID, this`sched,
               this`win, this`granted, this`sent, this`resetting
      ensures Handled(r) && Since(old(streams), old(maxClientStreamID), old(maxPushPromiseID))
      ensures id % 2 == 1 && id !in old(streams) && id > old(maxClientStreamID)
              && old(curClientStreams) < advMaxStreams ==>
                && streams == old(streams)[id := NewRequest(ended, selfDependent, wellFormed, declBytes, initialRecv)]
                && maxClientStreamID == id
                && r == if selfDependent || !wellFormed then StreamFails(id)
                        else if handlerOk then Fine else ConnectionFails
    {
      hide Inv, Later, S.NoneReady;
      LaterSelf(streams, maxClientStreamID, maxPushPromiseID);
      if id % 2 != 1 {
        return ConnectionFails;
      }
      if id in streams {
        if streams[id].resetQueued {
          return Fine;
        }
        if streams[id].phase.HalfClosedRemote? {
          return StreamFails(id);
        }
        StreamFacts(id);
        r := ProcessTrailers(id, ended, wellFormed);
        return;
      }
      if id <= maxClientStreamID {
        return ConnectionFails;
      }
      Advance(id);
      if curClientStreams + 1 > advMaxStreams {
        return StreamFails(id);
      }
      r := OpenRequest(id, ended, selfDependent, wellFormed, declBytes, handlerOk);
      LaterNew(old(streams), old(maxClientStreamID), maxPushPromiseID, maxClientStreamID, maxPushPromiseID, id,
        streams[id]);
    }

    /** maxClientStreamID = id */
    method Advance(id: StreamID)
      requires Inv() && id > maxClientStreamID
      modifies this`maxClientStreamID
      ensures Inv() && maxClientStreamID == id && Since(streams, old(maxClientStreamID), maxPushPromiseID)
      ensures id % 2 == 1 ==> id !in streams && id !in closing && ReadsOf(id) == 0 && id !in granted
    {
      hide LifeOk, ResetsOk, RecvOk, QueuesOk, SendOk;
      EvenMax();
      if id % 2 == 1 { Unopened(id); }
      LifeRaise(streams, curClientStreams, curPushedStreams, maxClientStreamID, maxPushPromiseID, closing,
        advMaxStreams,
                id, maxPushPromiseID);
      maxClientStreamID := id;
    }

    /** The rest of processHeaders: a new request. */
    method OpenRequest(id: StreamID, ended: bool, selfDependent: bool, wellFormed: bool, declBytes: int,
                       handlerOk: bool)
      returns (r: Outcome)
      requires Running() && AtSelect() && id % 2 == 1 && id == maxClientStreamID && id !in streams
               && ReadsOf(id) == 0 && id !in granted
      requires curClientStreams + 1 <= advMaxStreams
      modifies this`streams, this`curClientStreams, this`curPushedStreams, this`sched, this`win, this`granted,
               this`sent, this`resetting
      ensures panic == old(panic) && Handled(r)
      ensures streams == old(streams)[id := NewRequest(ended, selfDependent, wellFormed, declBytes, initialRecv)]
      ensures r == if selfDependent || !wellFormed then StreamFails(id) else if handlerOk then Fine else ConnectionFails
    {
      hide Inv, S.NoneReady;
      AddRequest(id, if ended then HalfClosedRemote else Open);
      if selfDependent || !wellFormed {
        return StreamFails(id);
      }
      SetRequest(id, declBytes);
      return if handlerOk then Fine else ConnectionFails;
    }

    method AddRequest(id: StreamID, phase: Phase)
      requires Running() && AtSelect() && id % 2 == 1 && Opened(id) && id !in streams && ReadsOf(id) == 0
               && id !in granted && !phase.HalfClosedLocal?
      requires curClientStreams + 1 <= advMaxStreams
      modifies this`streams, this`curClientStreams, this`curPushedStreams, this`sched, this`win, this`granted,
               this`sent, this`resetting
      ensures Inv() && Settled() && resetting == (if phase.Open? then {id} else {})
      ensures streams == old(streams)[id := NewlyOpened(phase, initialRecv)]
    {
      hide Inv, S.NoneReady, S.Valid, Work, Weighed, Opened, ReadsIn;
      if phase.Open? {
        StartResetting(id);
      }
      NewStream(id, phase);
      NewQueueNotReady(old(sched), old(win), id, initialSend);
    }

    /** The request is complete: its body, and its declared length. */
    method SetRequest(id: StreamID, declBytes: int)
      requires Inv() && id in streams && resetting <= {id} && !streams[id].phase.HalfClosedLocal?
               && streams[id].body.None?
      modifies this`streams, this`resetting
      ensures Inv() && resetting == {} && streams == old(streams)[id := Requested(old(streams)[id], declBytes)]
    {
      hide Inv;
      Update(id, Requested(streams[id], declBytes));
      StopResetting(id);
    }

    method StartResetting(ghost id: StreamID)
      requires Inv() && resetting == {}
      modifies this`resetting
      ensures Inv() && resetting == {id}
    {
      hide LifeOk, RecvOk, QueuesOk, SendOk;
      resetting := {id};
    }

    method StopResetting(ghost id: StreamID)
      requires Inv() && resetting <= {id} && (id in streams ==> ResetOk(streams[id], false))
      modifies this`resetting
      ensures Inv() && resetting == {}
    {
      hide LifeOk, RecvOk, QueuesOk, SendOk;
      resetting := {};
    }

    /** processSettingInitialWindowSize; false if a window would overflow. */
    method ProcessInitialWindow(val: nat) returns (ok: bool)
      requires Inv() && closing == {} && val <= MAX_INT32
      modifies this`win, this`initialSend, this`flowError
      ensures Inv() && (ok ==> flowError == old(flowError)) && initialSend == val
    {
      hide LifeOk, ResetsOk, Recv, QueuesOk, SendOk, Refunds, Readers, Adjusting;
      KnownStreams();
      BeginAdjust(win, sched.queues.Keys, initialSend, val, granted, sent, grantedAll, sentAll, flowError);
      ghost var todo: set<StreamID>;
      var w;
      w, ok, todo := AdjustAll(win, streams.Keys, initialSend, val, granted, sent, flowError);
      EndAdjust(win, sched.queues.Keys, todo, initialSend, val, granted, sent, grantedAll, sentAll, flowError, w);
      initialSend, win, flowError := val, w, flowError || !ok;
    }

    lemma KnownStreams()
      requires Queues() && closing == {}
      ensures sched.queues.Keys == streams.Keys
    {
    }

    /** processSetting */
    method ProcessSetting(s: Setting) returns (r: Outcome)
      requires Inv() && closing == {}
      modifies this`win, this`initialSend, this`flowError, this`clientMaxStreams, this`pushEnabled
      ensures Inv() && (r.Fine? || r.ConnectionFails?) && (r.Fine? ==> flowError == old(flowError))
    {
      hide LifeOk, ResetsOk, RecvOk, QueuesOk;
      if !s.Valid() {
        return ConnectionFails;
      }
      match s {
        case InitialWindow(val) =>
          var ok := ProcessInitialWindow(val);
          return if ok then Fine else ConnectionFails;
        case MaxFrameSize(val) =>
          win := win.(maxFrameSize := val);
        case MaxStreams(val) =>
          clientMaxStreams := val;
        case EnablePush(val) =>
          pushEnabled := val != 0;
        case OtherSetting =>
      }
      return Fine;
    }

    /** processSettings */
    method ProcessSettings(settings: seq<Setting>, bigOrDuplicate: bool) returns (r: Outcome)
      requires Running() && AtSelect()
      modifies this
      ensures Handled(r) && Since(old(streams), old(maxClientStreamID), old(maxPushPromiseID)) && late == old(late)
              && credit == old(credit)
    {
      hide Kept, Inv, Later, S.NoneReady, Measure, Settled, Quiet, Steady;
      LaterSelf(streams, maxClientStreamID, maxPushPromiseID);
      SettledIsQuiet();
      if bigOrDuplicate {
        return ConnectionFails;
      }
      r := ApplySettings(settings);
      if !r.Fine? {
        return;
      }
      needToSendSettingsAck := true;
      ScheduleFrameWrite();
      if panic.None? { BackAtSelect(old(Now())); }
      return Fine;
    }

    /** ForeachSetting */
    method ApplySettings(settings: seq<Setting>) returns (r: Outcome)
      requires Inv() && closing == {}
      modifies this`win, this`initialSend, this`flowError, this`clientMaxStreams, this`pushEnabled
      ensures Inv() && (r.Fine? || r.ConnectionFails?)
    {
      hide Inv;
      for i := 0 to |settings|
        invariant Inv()
      {
        r := ProcessSetting(settings[i]);
        if !r.Fine? {
          return;
        }
      }
      return Fine;
    }

    /** processFrame */
    method ProcessFrame(f: ClientFrame) returns (r: Outcome)
      requires Running() && AtSelect() && f.Parsed() && !f.TooLarge?
      modifies this
      ensures Handled(r) && Since(old(streams), old(maxClientStreamID), old(maxPushPromiseID)) && late == old(late)
              && credit == old(credit)
    {
      hide Kept, Inv, Later, S.NoneReady, Settled, Measure;
      LaterSelf(streams, maxClientStreamID, maxPushPromiseID);
      SettledIsQuiet();
      if !sawFirstSettings {
        if !f.SettingsAck? && !f.Settings? {
          return ConnectionFails;
        }
        sawFirstSettings := true;
      }
      if inGoAway && (goAwayError || f.StreamId() > maxClientStreamID) {
        if f.DataFrame? {
          r := DiscardData(f.id, f.length);
          return;
        }
        return Fine;
      }
      r := Dispatch(f);
    }

    /** The switch of processFrame. */
    method Dispatch(f: ClientFrame) returns (r: Outcome)
      requires Running() && AtSelect() && f.Parsed() && !f.TooLarge?
      modifies this
      ensures Handled(r) && Since(old(streams), old(maxClientStreamID), old(maxPushPromiseID)) && late == old(late)
              && credit == old(credit)
    {
      hide Kept, Inv, Later, S.NoneReady, Settled, Measure, Inbox, Stale;
      LaterSelf(streams, maxClientStreamID, maxPushPromiseID);
      SettledIsQuiet();
      match f {
        case SettingsAck =>
          unackedSettings := unackedSettings - 1;
          return if unackedSettings < 0 then ConnectionFails else Fine;
        case Settings(settings, bigOrDuplicate) =>
          r := ProcessSettings(settings, bigOrDuplicate);
        case Headers(id, ended, selfDependent, wellFormed, declBytes, handlerOk) =>
          r := ProcessHeaders(id, ended, selfDependent, wellFormed, declBytes, handlerOk);
        case WindowUpdate(id, increment) =>
          r := ProcessWindowUpdate(id, increment);
          if panic.None? { SettledIsQuiet(); }
        case DataFrame(id, length, data, ended) =>
          r := ProcessData(id, length, data, ended);
          if panic.None? { SettledIsQuiet(); }
        case ResetFrame(id) =>
          r := ProcessReset(id);
          if panic.None? { SettledIsQuiet(); }
        case Ping(id, ack) =>
          r := ProcessPing(id, ack);
          if panic.None? { SettledIsQuiet(); }
        case PriorityFrame(id, selfDependent) =>
          return if selfDependent then StreamFails(id) else Fine;
        case GoAwayFrame =>
          Shutdown();
          pushEnabled := false;
          return Fine;
        case PushPromiseFrame(_) =>
          return ConnectionFails;
        case UnknownFrame(_) =>
          return Fine;
      }
    }

    /** processPing */
    method ProcessPing(id: StreamID, ack: bool) returns (r: Outcome)
      requires Running() && AtSelect()
      modifies this`streams, this`curClientStreams, this`curPushedStreams, this`maxPushPromiseID, this`inflow,
               this`win, this`sched, this`writingFrame, this`writingFrameAsync, this`current,
               this`needsFrameFlush, this`needToSendGoAway, this`needToSendSettingsAck, this`inGoAway,
               this`goAwayError, this`inFrameScheduleLoop, this`panic, this`owed, this`closing, this`resetting,
               this`granted, this`sent, this`sentAll, this`stale, this`refunded
      ensures Boundary() && Since(old(streams), old(maxClientStreamID), old(maxPushPromiseID))
      ensures r == if !ack && id != 0 then ConnectionFails else Fine
      ensures panic.None? && Inbox() == old(Inbox())
      ensures ack || id != 0 ==> sched == old(sched) && writingFrame == old(writingFrame)
      ensures !ack && id == 0 && old(writingFrame) ==>
                sched == S.Push(old(sched), Control(ConnFrame(PING))) && writingFrame
    {
      hide Kept, Inv, Later, S.NoneReady;
      LaterSelf(streams, maxClientStreamID, maxPushPromiseID);
      if ack {
        return Fine;
      }
      if id != 0 {
        return ConnectionFails;
      }
      WriteFrame(Control(ConnFrame(PING)));
      BackAtSelect(old(Now()));
      return Fine;
    }

    /** readFrameCh: processFrameFromReader, as long as the connection stays
        open. */
    method FrameRead(f: ClientFrame)
      requires Running() && AtSelect() && f.Parsed()
      modifies this
      ensures Boundary() && Since(old(streams), old(maxClientStreamID), old(maxPushPromiseID)) && late == old(late)
              && credit == old(credit)
    {
      hide Kept, Inv, Later, S.NoneReady;
      var r := ConnectionFails;
      LaterSelf(streams, maxClientStreamID, maxPushPromiseID);
      if !f.TooLarge? {
        r := ProcessFrame(f);
        if panic.Some? {
          return;
        }
        if r.ConnectionFails? && f.StreamId() > maxClientStreamID {
          ghost var c := maxClientStreamID;
          Advance(f.StreamId());
          LaterTrans(old(streams), old(maxClientStreamID), old(maxPushPromiseID), streams, c, maxPushPromiseID,
                     streams, maxClientStreamID, maxPushPromiseID);
        }
      }
      ghost var s, p := streams, maxPushPromiseID;
      Answer(r);
      if panic.None? {
        LaterTrans(old(streams), old(maxClientStreamID), old(maxPushPromiseID), s, maxClientStreamID, p,
                   streams, maxClientStreamID, maxPushPromiseID);
      }
    }

    /** What processFrameFromReader does about an error. */
    method Answer(r: Outcome)
      requires panic.None? && Handled(r)
      modifies this`streams, this`curClientStreams, this`curPushedStreams, this`maxPushPromiseID, this`inflow,
               this`win, this`sched, this`writingFrame, this`writingFrameAsync, this`current,
               this`needsFrameFlush, this`needToSendGoAway, this`needToSendSettingsAck, this`inGoAway,
               this`goAwayError, this`inFrameScheduleLoop, this`panic, this`owed, this`closing, this`resetting,
               this`granted, this`sent, this`sentAll, this`stale, this`refunded
      ensures Boundary() && Since(old(streams), maxClientStreamID, old(maxPushPromiseID))
    {
      hide Kept, Inv, Later, S.NoneReady;
      LaterSelf(streams, maxClientStreamID, maxPushPromiseID);
      match r {
        case Fine =>
        case StreamFails(id) =>
          AnswerStream(id);
        case ConnectionFails =>
          GoAway(true);
          if panic.None? { BackAtSelect(old(Now())); }
        case FlowFails =>
          GoAway(true);
          if panic.None? { BackAtSelect(old(Now())); }
      }
    }

    method AnswerStream(id: StreamID)
      requires panic.None? && Handled(StreamFails(id))
      modifies this`streams, this`curClientStreams, this`curPushedStreams, this`maxPushPromiseID, this`inflow,
               this`win, this`sched, this`writingFrame, this`writingFrameAsync, this`current,
               this`needsFrameFlush, this`needToSendGoAway, this`needToSendSettingsAck, this`inGoAway,
               this`goAwayError, this`inFrameScheduleLoop, this`panic, this`owed, this`closing, this`resetting,
               this`granted, this`sent, this`sentAll, this`stale, this`refunded
      ensures Boundary() && Since(old(streams), maxClientStreamID, old(maxPushPromiseID))
    {
      hide Kept, Inv, Later, S.NoneReady;
      ghost var was := Now();
      ResetStream(id);
      if panic.Some? {
        return;
      }
      KeptParts(was, Now(), maxClientStreamID);
      StopResetting(id);
      KeptReset(was.(resetting := {}), Now(), was.resetting, maxClientStreamID);
      BackAtSelect(was.(resetting := {}));
    }

    // ---- what holds at the select ----

    /** Connection receive credit is conserved: what the client may send, what is
        not announced yet, what bodies hold and what handlers read make up the
        window, and what was read from closed streams on top.  A client is never
        left with an empty window while there is credit to announce. */
    lemma ReceiveLedger()
      requires Running() && AtSelect()
      ensures inflow.avail + inflow.unsent + Buffered(streams) + Sum(bodyReads) == credit + late
      ensures inflow.avail + inflow.unsent + Buffered(streams) + Sum(bodyReads) == credit <==> late == 0
      ensures inflow.avail == 0 ==> inflow.unsent == 0
    {
      hide LifeOk, ResetsOk, QueuesOk, SendOk, Sum, Buffered;
    }

    /** When no frame is being written, no GOAWAY, SETTINGS acknowledgement or
        flush is pending, and after no error GOAWAY the scheduler has nothing to
        give. */
    lemma NoLostWakeup()
      requires Running() && AtSelect() && !writingFrame
      ensures !needToSendGoAway && !needToSendSettingsAck && !needsFrameFlush
      ensures !(inGoAway && goAwayError) ==> sched.control == [] && S.NoneReady(sched, win)
    {
    }

    /** The counters count the streams of the map, the scheduler knows exactly
        those, and a half-closed (local) stream is being reset. */
    lemma Lifecycle()
      requires Running() && AtSelect()
      ensures curClientStreams == |Odd(streams.Keys)| <= advMaxStreams && curPushedStreams == |Even(streams.Keys)|
      ensures sched.queues.Keys == streams.Keys
      ensures forall id :: id in streams && streams[id].phase.HalfClosedLocal? ==> streams[id].resetQueued
      ensures forall id :: id in streams ==> Opened(id)
    {
      hide RecvOk, SendOk;
    }

    /** Section 6.9.2 of RFC 7540: a stream's window is the initial window plus
        what was granted less what was sent, also after the initial window
        changed; the connection's window is never negative. */
    lemma SendLedger(id: StreamID)
      requires Running() && AtSelect()
      ensures win.conn == INITIAL_WINDOW + grantedAll - sentAll && win.conn >= 0
      ensures id in streams ==> id in win.streams && id in granted && id in sent
      ensures id in streams && !flowError ==> win.streams[id] == initialSend + granted[id] - sent[id]
    {
      hide RecvOk, LifeOk, ResetsOk;
    }

    // ---- whole runs ----

    /** serve, up to its loop. */
    method Start(maxUpload: int)
      requires Running() && AtSelect() && late == 0 && credit == INITIAL_WINDOW && maxUpload <= MAX_INT32
      modifies this
      ensures panic.None? && Inv() && AtSelect() && late == 0
      ensures credit == if maxUpload > INITIAL_WINDOW then maxUpload else INITIAL_WINDOW
      ensures inflow.Total() - old(inflow).Total() == credit - old(credit)
      ensures streams == old(streams) && maxClientStreamID == old(maxClientStreamID)
    {
      hide Kept, Inv, S.NoneReady;
      WriteFrame(Control(ConnFrame(SETTINGS)));
      BackAtSelect(old(Now()));
      unackedSettings := unackedSettings + 1;
      if maxUpload - INITIAL_WINDOW > 0 {
        var n := maxUpload - INITIAL_WINDOW;
        Lend(n);
        ghost var was := Now();
        SendConnUpdate(n);
        BackAtSelect(was.(owed := 0, refreshed := true));
      }
    }

    /** The connection's window is raised by n, which is owed to the client. */
    method Lend(ghost n: nat)
      requires Inv() && credit + n <= MAX_INT32
      modifies this`credit, this`owed
      ensures Inv() && credit == old(credit) + n && owed == old(owed) + n
    {
      hide LifeOk, ResetsOk, QueuesOk, SendOk, Sum, Buffered, StreamRecv;
      credit, owed := credit + n, owed + n;
    }

    /** Whether an event can happen now. */
    predicate CanHappen(e: Event)
      reads this
    {
      match e
      case Writes(wr) => wr.OnStream? ==> Opened(wr.stream)
      case Written => writingFrame
      case Reads(id, n) => id in streams && streams[id].body.Some? && !streams[id].body.value.broken
        && 0 < n <= streams[id].body.value.len
      case ReadsLate(id, n) => Opened(id) && id !in streams && 0 < n <= Stale(id)
      case Noted(id, n) => 0 < n <= ReadsOf(id)
      case Closes(id, _) => id in streams && streams[id].body.Some?
      case Pushes(parent, _) => Opened(parent)
      case ShutsDown => true
      case Receives(f) => f.Parsed()
    }
  }

  /** flow.add of the difference on every stream, in any order, up to the first
      one whose window would overflow. */
  method AdjustAll(w: Windows, ids: set<StreamID>, was: int, val: int, ghost granted: map<StreamID, int>,
                   ghost sent: map<StreamID, int>, ghost flowError: bool)
    returns (w': Windows, ok: bool, ghost left: set<StreamID>)
    requires Adjusting(w, ids, ids, was, val, granted, sent, flowError) && 0 <= was <= MAX_INT32
             && 0 <= val <= MAX_INT32
    ensures Adjusting(w', ids, left, was, val, granted, sent, flowError) && w' == w.(streams := w'.streams)
            && (ok ==> left == {})
    ensures !ok ==> exists id :: id in left && id in w'.streams && !InInt32(w'.streams[id] + (val - was))
  {
    hide Adjusting;
    w' := w;
    var todo := ids;
    while todo != {}
      invariant Adjusting(w', ids, todo, was, val, granted, sent, flowError) && w' == w.(streams := w'.streams)
    {
      var id :| id in todo;
      AdjustingHas(w', ids, todo, was, val, granted, sent, flowError, id);
      var n := Raised(w'.streams[id], val - was);
      if n.None? {
        return w', false, todo;
      }
      AdjustOne(w', ids, todo, was, val, granted, sent, flowError, id);
      w' := w'.(streams := w'.streams[id := n.value]);
      todo := todo - {id};
    }
    return w', true, todo;
  }

  /** What can happen to a connection: a handler writes, reads, closes or pushes,
      a frame write ends, a note about a read arrives, a timer fires, or the
      client sends a frame. */
  datatype Event =
    | Writes(wr: FrameWriteRequest)
    | Written
    | Reads(id: StreamID, n: nat)
    | ReadsLate(id: StreamID, n: nat)
    | Noted(id: StreamID, n: nat)
    | Closes(id: StreamID, breaks: bool)
    | Pushes(parent: StreamID, done: nat)
    | ShutsDown
    | Receives(f: ClientFrame)

  method Happen(c: Conn, e: Event)
    requires c.Running() && c.AtSelect() && c.CanHappen(e)
    modifies c
    ensures c.Boundary() && c.Since(old(c.streams), old(c.maxClientStreamID), old(c.maxPushPromiseID))
    ensures c.late == old(c.late) + if e.ReadsLate? then e.n else 0
    ensures c.credit == old(c.credit)
  {
    hide Conn.Inv, Later, S.NoneReady;
    LaterSelf(c.streams, c.maxClientStreamID, c.maxPushPromiseID);
    match e {
      case Writes(wr) => c.HandlerWrite(wr);
      case Written => c.FrameWritten();
      case Reads(id, n) => c.ReadBody(id, n);
      case ReadsLate(id, n) => c.LateRead(id, n);
      case Noted(id, n) => c.BodyRead(id, n);
      case Closes(id, breaks) => c.CloseBody(id, breaks);
      case Pushes(parent, done) => c.StartPush(parent, done);
      case ShutsDown => c.Shutdown();
      case Receives(f) => c.FrameRead(f);
    }
  }

  /** Any run of a connection: its invariants hold whenever the serve loop is at
      its select, every stream only moves forward, and the receive window does
      not overflow unless a handler read from a closed stream. */
  method Serve(c: Conn, es: seq<Event>) returns (n: nat)
    requires c.Running() && c.AtSelect() && c.late == 0
    modifies c
    ensures n <= |es| && c.Boundary() && c.Since(old(c.streams), old(c.maxClientStreamID), old(c.maxPushPromiseID))
    ensures c.credit == old(c.credit) && (c.panic.None? ==> n == |es|)
    ensures (forall i :: 0 <= i < |es| ==> !es[i].ReadsLate?) ==> c.late == 0 && c.panic != Some(WindowOverflow)
  {
    hide Conn.Inv, Later, S.NoneReady;
    LaterSelf(c.streams, c.maxClientStreamID, c.maxPushPromiseID);
    n := 0;
    while n < |es| && c.panic.None?
      invariant n <= |es| && c.Boundary() && c.Since(old(c.streams), old(c.maxClientStreamID), old(c.maxPushPromiseID))
      invariant c.credit == old(c.credit)
      invariant (forall i :: 0 <= i < n ==> !es[i].ReadsLate?) ==> c.late == 0
      decreases |es| - n, c.panic.None?
    {
      if c.CanHappen(es[n]) {
        ghost var s, mc, mp := c.streams, c.maxClientStreamID, c.maxPushPromiseID;
        Happen(c, es[n]);
        if c.panic.Some? {
          return;
        }
        LaterTrans(old(c.streams), old(c.maxClientStreamID), old(c.maxPushPromiseID), s, mc, mp,
                   c.streams, c.maxClientStreamID, c.maxPushPromiseID);
      }
      n := n + 1;
    }
  }

  /** A connection with the largest window, on which n bytes of a request body
      have arrived. */
  method Uploading(n: nat) returns (c: Conn)
    requires 0 < n <= INITIAL_WINDOW
    ensures fresh(c) && c.Running() && c.AtSelect() && c.late == 0 && c.Opened(1)
    ensures 1 in c.streams && c.streams[1].Readable() == n && c.inflow.Total() == MAX_INT32 - n
  {
    hide Conn.Inv, Later, S.NoneReady, Conn.Settled, Conn.Inbox;
    c := new Conn(1, n);
    c.Start(MAX_INT32);
    c.NoStreams();
    var r := c.ProcessHeaders(1, false, false, true, -1, true);
    r := c.ProcessData(1, n, n, false);
  }

  /** A run that overflows.  The client resets the stream, and the unread bytes
      are credited to the connection; then the handler reads them, and they are
      credited again. */
  method CreditedTwice(n: nat) returns (c: Conn)
    requires 0 < n <= INITIAL_WINDOW
    ensures fresh(c) && c.late == n && c.panic == Some(WindowOverflow)
  {
    hide Conn.Inv, Later, S.NoneReady, Conn.Settled, Conn.Inbox;
    c := Uploading(n);
    var r := c.ProcessReset(1);
    c.LateRead(1, n);
    c.BodyRead(1, n);
  }

  lemma ControlWork(s: S.Sched)
    requires s.control != []
    ensures Work(s.(control := s.control[1..])) + 1 <= Work(s)
  {
  }

  /** What comes from the queue of a stream belongs to it. */
  lemma QueueOf(s: S.Sched, id: StreamID, w: Windows)
    requires S.Valid(s) && id in s.queues && Ready(s.queues[id], w)
    ensures var c := ConsumeQueue(s.queues[id], MAX_INT32, w);
            && c.taken.Some? && c.taken.value.OnStream? && c.taken.value.stream == id
            && s.queues[id][0].OnStream? && s.queues[id][0].stream == id
            && S.Valid(s.(queues := s.queues[id := c.queue]))
  {
  }

  lemma CalmTaken(s: S.Sched, w: Windows, id: StreamID, open: set<StreamID>)
    requires id in s.queues && Ready(s.queues[id], w)
    ensures var c := ConsumeQueue(s.queues[id], MAX_INT32, w);
            Calm(s, w, open) && c.taken.Some? ==>
              && c.windows == w && Harmless(c.taken.value) && id in open
              && Calm(s.(queues := s.queues[id := c.queue]), w, open)
  {
  }

  lemma NewQueue(q: S.Sched, id: StreamID)
    requires S.Valid(q)
    ensures S.Valid(q.(queues := q.queues[id := []])) && q.queues[id := []].Keys == q.queues.Keys + {id}
  {
  }

  /** The stream of a request: it has a body if more is to come. */
  function Requested(st: Stream, declBytes: int): Stream {
    st.(body := if st.phase.Open? then Some(Pipe(0, 0, false, false)) else None, declBytes := declBytes)
  }

  function NewRequest(ended: bool, selfDependent: bool, wellFormed: bool, declBytes: int, initialRecv: nat): Stream {
    var st := NewlyOpened(if ended then HalfClosedRemote else Open, initialRecv);
    if selfDependent || !wellFormed then st else Requested(st, declBytes)
  }

  function NewlyOpened(phase: Phase, initialRecv: nat): Stream {
    Stream(phase, false, false, false, None, -1, 0, Inflow(initialRecv, 0))
  }

  predicate IsHeaders(wr: FrameWriteRequest) { wr.OnStream? && wr.frame.NonData? && wr.frame.tag == HEADERS }

  predicate IsContinue(wr: FrameWriteRequest) { wr.OnStream? && wr.frame.NonData? && wr.frame.tag == CONTINUE_100 }

  lemma HeadersMatter(wr: FrameWriteRequest)
    requires IsHeaders(wr)
    ensures !Harmless(wr)
  {
  }

  lemma BodyResets(st: Stream, p: Pipe, resetting: bool)
    requires ResetOk(st, resetting) && st.body.Some?
    ensures ResetOk(st.(body := Some(p)), resetting)
  {
  }

  lemma NewQueueNotReady(q: S.Sched, w: Windows, id: StreamID, n: int)
    requires S.Valid(q) && id !in q.queues
    ensures S.NoneReady(q, w) ==> S.NoneReady(q.(queues := q.queues[id := []]), w.(streams := w.streams[id := n]))
  {
    if S.NoneReady(q, w) {
      var w' := w.(streams := w.streams[id := n]);
      forall x | x in q.queues ensures !Ready(q.queues[x], w') {
        if q.queues[x] != [] { SameConsume(q.queues[x][0], w, w'); }
      }
    }
  }

  lemma SameConsume(wr: FrameWriteRequest, w: Windows, w': Windows)
    requires wr.OnStream? && w'.conn == w.conn && w'.maxFrameSize == w.maxFrameSize
             && w'.Of(wr.stream) == w.Of(wr.stream)
    ensures Consume(wr, MAX_INT32, w).Nothing? == Consume(wr, MAX_INT32, w').Nothing?
  {
  }
}
