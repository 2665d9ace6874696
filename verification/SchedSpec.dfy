/** What a write scheduler promises, whatever its order of service: a queue of
    control frames, one queue per open stream, and Pops that take from the front
    of some queue (the WriteScheduler interface, xnet/http2/writesched.go:9-38). */
module SchedSpec {
  import opened Frames

  datatype Sched = Sched(control: seq<FrameWriteRequest>, queues: map<StreamID, seq<FrameWriteRequest>>)

  datatype State = State(sched: Sched, windows: Windows)

  /** One call on the scheduler, or a change of the send windows between two
      calls.  A Pop that returned a frame says which queue it came from. */
  datatype Event =
    | Opened(id: StreamID)
    | Closed(id: StreamID)
    | Pushed(wr: FrameWriteRequest)
    | PoppedControl
    | PoppedStream(id: StreamID)
    | PopFailed
    | WindowsSet(windows: Windows)

  /** The queue of a stream only holds frames of that stream. */
  ghost predicate Valid(s: Sched) {
    forall id, i :: id in s.queues && 0 <= i < |s.queues[id]| ==>
        s.queues[id][i].OnStream? && s.queues[id][i].stream == id
  }

  predicate NoneReady(s: Sched, w: Windows) {
    forall id :: id in s.queues ==> !Ready(s.queues[id], w)
  }

  /** The calls the interface allows, and the outcomes it allows for a Pop. */
  ghost predicate Enabled(st: State, e: Event) {
    var Sched(control, queues) := st.sched;
    match e
    case Opened(id) => id !in queues
    case Closed(_) => true
    case Pushed(wr) => !wr.IsControl() && wr.StreamId() !in queues ==> wr.DataSize() == 0
    case PoppedControl => control != []
    case PoppedStream(id) => control == [] && id in queues && Ready(queues[id], st.windows)
    case PopFailed => control == [] && NoneReady(st.sched, st.windows)
    case WindowsSet(_) => true
  }

  function Push(s: Sched, wr: FrameWriteRequest): Sched {
    if !wr.IsControl() && wr.StreamId() in s.queues then
      s.(queues := s.queues[wr.StreamId() := s.queues[wr.StreamId()] + [wr]])
    else
      s.(control := s.control + [wr])
  }

  function Taken(st: State, id: StreamID): (r: QueueResult)
    requires id in st.sched.queues
  {
    ConsumeQueue(st.sched.queues[id], MAX_INT32, st.windows)
  }

  ghost function Next(st: State, e: Event): State
    requires Enabled(st, e)
  {
    var State(s, w) := st;
    match e
    case Opened(id) => State(s.(queues := s.queues[id := []]), w)
    case Closed(id) => State(s.(queues := s.queues - {id}), w)
    case Pushed(wr) => State(Push(s, wr), w)
    case PoppedControl => State(s.(control := s.control[1..]), w)
    case PoppedStream(id) => var r := Taken(st, id); State(s.(queues := s.queues[id := r.queue]), r.windows)
    case PopFailed => st
    case WindowsSet(w') => State(s, w')
  }

  /** The frame that a Pop returned. */
  ghost function Output(st: State, e: Event): seq<FrameWriteRequest>
    requires Enabled(st, e)
  {
    match e
    case PoppedControl => [st.sched.control[0]]
    case PoppedStream(id) => [Taken(st, id).taken.value]
    case _ => []
  }

  // ---- runs ----

  ghost predicate Runs(st: State, es: seq<Event>)
    decreases es
  {
    es == [] || (Enabled(st, es[0]) && Runs(Next(st, es[0]), es[1..]))
  }

  ghost function Final(st: State, es: seq<Event>): State
    requires Runs(st, es)
    decreases es
  {
    if es == [] then st else Final(Next(st, es[0]), es[1..])
  }

  ghost function Outputs(st: State, es: seq<Event>): seq<FrameWriteRequest>
    requires Runs(st, es)
    decreases es
  {
    if es == [] then [] else Output(st, es[0]) + Outputs(Next(st, es[0]), es[1..])
  }

  function PushedFrames(es: seq<Event>): seq<FrameWriteRequest> {
    if es == [] then [] else (if es[0].Pushed? then [es[0].wr] else []) + PushedFrames(es[1..])
  }

  /** The frames of q that belong to the stream. */
  function OfStream(q: seq<FrameWriteRequest>, id: StreamID): seq<FrameWriteRequest> {
    if q == [] then []
    else (if q[0].OnStream? && q[0].stream == id then [q[0]] else []) + OfStream(q[1..], id)
  }

  lemma {:induction false} OfStreamConcat(p: seq<FrameWriteRequest>, q: seq<FrameWriteRequest>, id: StreamID)
    ensures OfStream(p + q, id) == OfStream(p, id) + OfStream(q, id)
  {
    if p == [] {
      assert p + q == q;
    } else {
      assert (p + q)[1..] == p[1..] + q;
      OfStreamConcat(p[1..], q, id);
    }
  }

  lemma OfStreamOne(wr: FrameWriteRequest, id: StreamID)
    ensures OfStream([wr], id) == if wr.OnStream? && wr.stream == id then [wr] else []
  {
    assert OfStream([wr][1..], id) == [];
  }

  /** What is still to be sent on a stream: its frames among the control frames
      (queued there before the stream was open), then its own queue. */
  ghost function Pending(s: Sched, id: StreamID): seq<Token>
    requires id in s.queues
  {
    Flatten(OfStream(s.control, id)) + Flatten(s.queues[id])
  }

  ghost function Sent(q: seq<FrameWriteRequest>, id: StreamID): seq<Token> { Flatten(OfStream(q, id)) }

  lemma SentConcat(p: seq<FrameWriteRequest>, q: seq<FrameWriteRequest>, id: StreamID)
    ensures Sent(p + q, id) == Sent(p, id) + Sent(q, id)
  {
    OfStreamConcat(p, q, id);
    FlattenConcat(OfStream(p, id), OfStream(q, id));
  }

  lemma SentOne(wr: FrameWriteRequest, id: StreamID)
    ensures Sent([wr], id) == if wr.OnStream? && wr.stream == id then Tokens(wr) else []
  {
    OfStreamOne(wr, id);
    FlattenOne(wr);
  }

  lemma NextValid(st: State, e: Event)
    requires Valid(st.sched) && Enabled(st, e)
    ensures Valid(Next(st, e).sched)
  {
  }

  lemma PushFidelity(s: Sched, wr: FrameWriteRequest, id: StreamID)
    requires id in s.queues
    ensures id in Push(s, wr).queues && Pending(Push(s, wr), id) == Pending(s, id) + Sent([wr], id)
  {
    hide Tokens;
    SentOne(wr, id);
    if wr.IsControl() || wr.StreamId() !in s.queues {
      SentConcat(s.control, [wr], id);
    } else if wr.StreamId() == id {
      FlattenConcat(s.queues[id], [wr]);
      FlattenOne(wr);
    }
  }

  lemma ControlFidelity(s: Sched, id: StreamID)
    requires id in s.queues && s.control != []
    ensures Sent([s.control[0]], id) + Pending(s.(control := s.control[1..]), id) == Pending(s, id)
  {
    hide OfStream, Flatten;
    SentConcat([s.control[0]], s.control[1..], id);
    assert s.control == [s.control[0]] + s.control[1..];
  }

  lemma StreamFidelity(st: State, from: StreamID, id: StreamID)
    requires Valid(st.sched) && Enabled(st, PoppedStream(from)) && id in st.sched.queues
    ensures var r := Taken(st, from);
            r.taken.Some?
              && Sent([r.taken.value], id) + Pending(Next(st, PoppedStream(from)).sched, id) == Pending(st.sched, id)
  {
    hide Tokens, Consume, ConsumeQueue, Ready, Flatten, OfStream;
    ConsumeKeepsTokens(st.sched.queues[from], MAX_INT32, st.windows);
    SentOne(Taken(st, from).taken.value, id);
    SentNone(id);
  }

  lemma SentNone(id: StreamID)
    ensures Sent([], id) == []
  {
  }

  /** One call moves tokens from the caller to the queues or from the queues to
      the wire, and never past another token of the same stream. */
  lemma NextFidelity(st: State, e: Event, id: StreamID)
    requires Valid(st.sched) && Enabled(st, e) && id in st.sched.queues && e != Closed(id)
    ensures id in Next(st, e).sched.queues
    ensures Sent(Output(st, e), id) + Pending(Next(st, e).sched, id)
            == Pending(st.sched, id) + Sent(if e.Pushed? then [e.wr] else [], id)
  {
    hide Flatten, OfStream, Taken, Ready, Tokens;
    SentNone(id);
    match e {
      case Pushed(wr) => PushFidelity(st.sched, wr, id);
      case PoppedControl => ControlFidelity(st.sched, id);
      case PoppedStream(from) => StreamFidelity(st, from, id);
      case _ =>
    }
  }

  /** Frame fidelity: over any run during which the stream is not closed, the
      bytes, END_STREAM flags, done channels and whole frames that were sent on
      it, followed by those still queued, are those that were queued at first,
      followed by those pushed, in order. */
  lemma {:induction false} Fidelity(st: State, es: seq<Event>, id: StreamID)
    requires Valid(st.sched) && Runs(st, es) && id in st.sched.queues && Closed(id) !in es
    ensures id in Final(st, es).sched.queues
    ensures Sent(Outputs(st, es), id) + Pending(Final(st, es).sched, id)
            == Pending(st.sched, id) + Sent(PushedFrames(es), id)
    decreases es
  {
    if es == [] {
    } else {
      hide Pending, Sent, Next, Output, Valid, Enabled;
      var st1, tl := Next(st, es[0]), es[1..];
      var pushed := if es[0].Pushed? then [es[0].wr] else [];
      NextFidelity(st, es[0], id);
      NextValid(st, es[0]);
      Fidelity(st1, tl, id);
      SentConcat(Output(st, es[0]), Outputs(st1, tl), id);
      SentConcat(pushed, PushedFrames(tl), id);
      Chain(Sent(Output(st, es[0]), id), Pending(st1.sched, id), Pending(st.sched, id), Sent(pushed, id),
            Sent(Outputs(st1, tl), id), Pending(Final(st1, tl).sched, id), Sent(PushedFrames(tl), id));
    }
  }

  lemma Chain(a: seq<Token>, p1: seq<Token>, p: seq<Token>, b: seq<Token>, c: seq<Token>, p2: seq<Token>, d: seq<Token>)
    requires a + p1 == p + b && c + p2 == p1 + d
    ensures (a + c) + p2 == p + (b + d)
  {
    assert (a + c) + p2 == a + (c + p2) == (a + p1) + d == (p + b) + d == p + (b + d);
  }

  function TotalData(q: seq<FrameWriteRequest>): nat {
    if q == [] then 0 else q[0].DataSize() + TotalData(q[1..])
  }

  /** While nobody else changes the windows and no DATA is among the control
      frames, the connection window loses exactly the payload sent. */
  lemma {:induction false} WindowsPayForData(st: State, es: seq<Event>)
    requires Runs(st, es) && (forall e :: e in es ==> !e.WindowsSet?)
    requires forall i :: 0 <= i < |st.sched.control| ==> st.sched.control[i].DataSize() == 0
    ensures Final(st, es).windows.conn == st.windows.conn - TotalData(Outputs(st, es))
    ensures st.windows.conn >= 0 ==> Final(st, es).windows.conn >= 0
    decreases es
  {
    if es != [] {
      var st1, out := Next(st, es[0]), Output(st, es[0]);
      if es[0].PoppedStream? { ConsumeQueueDebit(st.sched.queues[es[0].id], MAX_INT32, st.windows); }
      WindowsPayForData(st1, es[1..]);
      assert out == [] ==> Outputs(st, es) == Outputs(st1, es[1..]);
      assert out != [] ==> Outputs(st, es)[1..] == Outputs(st1, es[1..]) && Outputs(st, es)[0] == out[0];
    }
  }
}
