/** Write requests, flow-control windows and the splitting of DATA frames
    (xnet/http2/writesched.go, the value half of it).

    A write request either is a control frame, which has no stream (isControl),
    or belongs to a stream.  The Go code refers to the stream and
    through it reaches the stream's and the connection's send windows; here a
    request carries the stream's id and the windows are passed in and out. */
module Frames {

  datatype Option<+T> = None | Some(value: T)

  type StreamID = nat
  type Byte = b: int | 0 <= b < 256

  const MAX_INT32: int := 0x7fff_ffff

  predicate InInt32(x: int) { -0x8000_0000 <= x <= MAX_INT32 }

  /** 32-bit signed wrap-around. */
  function Wrap32(x: int): (r: int)
    ensures InInt32(r) && (InInt32(x) ==> r == x)
  {
    (x + 0x8000_0000) % 0x1_0000_0000 - 0x8000_0000
  }

  /** Frames queued without a stream.  A StreamError (RST_STREAM) names its
      stream itself.  Blank is a queue slot that was overwritten with a zero
      FrameWriteRequest. */
  datatype ControlFrame = StreamError(streamID: StreamID) | ConnFrame(tag: nat) | Blank

  /** Frames queued on a stream: DATA, or anything else (HEADERS,
      WINDOW_UPDATE, PUSH_PROMISE, ...), which is never split. */
  datatype StreamFrame = Data(p: seq<Byte>, endStream: bool) | NonData(tag: nat, endsStream: bool)

  /** done is the channel that the waiting handler listens on, if any. */
  datatype FrameWriteRequest =
    | Control(ctl: ControlFrame)
    | OnStream(stream: StreamID, frame: StreamFrame, done: Option<nat>)
  {
    predicate IsControl() { Control? }

    function StreamId(): StreamID {
      match this
      case Control(StreamError(id)) => id
      case Control(_) => 0
      case OnStream(id, _, _) => id
    }

    predicate HasPayload() { OnStream? && frame.Data? && frame.p != [] }

    function DataSize(): nat { if HasPayload() then |frame.p| else 0 }
  }

  const BLANK: FrameWriteRequest := Control(Blank)

  /** The send windows that Consume looks at: the connection's, each stream's
      own, and the peer's SETTINGS_MAX_FRAME_SIZE. */
  datatype Windows = Windows(conn: int, streams: map<StreamID, int>, maxFrameSize: int) {
    function Of(id: StreamID): int { if id in streams then streams[id] else 0 }

    /** outflow.available */
    function Available(id: StreamID): int { if conn < Of(id) then conn else Of(id) }

    /** outflow.take on the stream, which also debits the connection */
    function Take(id: StreamID, n: int): Windows {
      Windows(conn - n, streams[id := Of(id) - n], maxFrameSize)
    }
  }

  datatype ConsumeResult =
    | Nothing
    | Whole(windows: Windows)
    | Split(consumed: FrameWriteRequest, rest: FrameWriteRequest, windows: Windows)

  function Allowed(wr: FrameWriteRequest, n: int, w: Windows): int
    requires wr.OnStream?
  {
    var available := w.Available(wr.stream);
    var capped := if n < available then n else available;
    if w.maxFrameSize < capped then w.maxFrameSize else capped
  }

  /** FrameWriteRequest.Consume */
  function Consume(wr: FrameWriteRequest, n: int, w: Windows): (r: ConsumeResult)
    ensures r.Split? ==> r.consumed.HasPayload() && r.rest.HasPayload() && r.rest.DataSize() < wr.DataSize()
    ensures r.Split? ==> r.consumed.stream == r.rest.stream == wr.StreamId()
    ensures r.Split? ==> wr.HasPayload() && r.consumed.frame.p + r.rest.frame.p == wr.frame.p
    ensures r.Split? ==> r.consumed == OnStream(wr.stream, Data(r.consumed.frame.p, false), None)
    ensures r.Split? ==> r.rest == OnStream(wr.stream, Data(r.rest.frame.p, wr.frame.endStream), wr.done)
    ensures r.Split? ==> r.consumed.DataSize() == Allowed(wr, n, w)
    ensures !r.Nothing? && wr.HasPayload() ==>
              var piece := if r.Split? then r.consumed else wr;
              && 0 < piece.DataSize() <= n && piece.DataSize() <= w.maxFrameSize
              && piece.DataSize() <= w.Of(wr.stream) && piece.DataSize() <= w.conn
              && r.windows == w.Take(wr.stream, piece.DataSize())
    ensures !wr.HasPayload() ==> r == Whole(w)
    ensures r.Nothing? <==> wr.HasPayload() && (n <= 0 || w.maxFrameSize <= 0 || w.Available(wr.stream) <= 0)
  {
    if !wr.HasPayload() then Whole(w)
    else
      var allowed := Allowed(wr, n, w);
      if allowed <= 0 then Nothing
      else if |wr.frame.p| > allowed then
        var p := wr.frame.p;
        var consumed := OnStream(wr.stream, Data(p[..allowed], false), None);
        var rest := OnStream(wr.stream, Data(p[allowed..], wr.frame.endStream), wr.done);
        Split(consumed, rest, w.Take(wr.stream, allowed))
      else
        Whole(w.Take(wr.stream, |wr.frame.p|))
  }

  /** What a list of frames means to the peer and to the waiting handlers,
      independently of how DATA payload is cut: single payload bytes, the
      END_STREAM flag and the done channel (which follow the last byte of their
      frame), and all other frames as units. */
  datatype Token =
    | PayloadByte(b: Byte)
    | Tail(endStream: bool, done: Option<nat>)
    | Unit(wr: FrameWriteRequest)

  function Bytes(p: seq<Byte>): seq<Token> {
    if p == [] then [] else [PayloadByte(p[0])] + Bytes(p[1..])
  }

  function Tokens(wr: FrameWriteRequest): seq<Token> {
    if wr.HasPayload() then
      Bytes(wr.frame.p) + if wr.frame.endStream || wr.done.Some? then [Tail(wr.frame.endStream, wr.done)] else []
    else [Unit(wr)]
  }

  function Flatten(q: seq<FrameWriteRequest>): seq<Token> {
    if q == [] then [] else Tokens(q[0]) + Flatten(q[1..])
  }

  lemma {:induction false} BytesConcat(p: seq<Byte>, q: seq<Byte>)
    ensures Bytes(p + q) == Bytes(p) + Bytes(q)
  {
    if p == [] {
      assert p + q == q;
    } else {
      assert (p + q)[1..] == p[1..] + q;
      BytesConcat(p[1..], q);
    }
  }

  lemma {:induction false} FlattenConcat(p: seq<FrameWriteRequest>, q: seq<FrameWriteRequest>)
    ensures Flatten(p + q) == Flatten(p) + Flatten(q)
  {
    if p == [] {
      assert p + q == q;
    } else {
      assert (p + q)[1..] == p[1..] + q;
      FlattenConcat(p[1..], q);
    }
  }

  lemma FlattenOne(wr: FrameWriteRequest)
    ensures Flatten([wr]) == Tokens(wr)
  {
    assert Flatten([wr][1..]) == [];
  }

  /** A queue is ready if its first frame can be consumed, in whole or in part. */
  predicate Ready(q: seq<FrameWriteRequest>, w: Windows) {
    q != [] && !Consume(q[0], MAX_INT32, w).Nothing?
  }

  datatype QueueResult = QueueResult(taken: Option<FrameWriteRequest>, queue: seq<FrameWriteRequest>, windows: Windows)

  /** writeQueue.consume on the abstract contents of a queue. */
  function ConsumeQueue(q: seq<FrameWriteRequest>, n: int, w: Windows): (r: QueueResult)
    ensures r.taken.None? ==> r.queue == q && r.windows == w
    ensures r.taken.Some? ==> q != [] && r.taken.value.StreamId() == q[0].StreamId()
                              && r.taken.value.IsControl() == q[0].IsControl()
    ensures n > 0 ==> (r.taken.Some? <==> Ready(q, w))
  {
    if q == [] then QueueResult(None, q, w)
    else
      match Consume(q[0], n, w)
      case Nothing => QueueResult(None, q, w)
      case Whole(w') => QueueResult(Some(q[0]), q[1..], w')
      case Split(consumed, rest, w') =>
        QueueResult(Some(consumed), q[0 := rest], w')
  }

  /** Splitting a DATA frame loses, repeats and reorders nothing. */
  lemma SplitKeepsTokens(wr: FrameWriteRequest, n: int, w: Windows)
    requires Consume(wr, n, w).Split?
    ensures var r := Consume(wr, n, w); Tokens(r.consumed) + Tokens(r.rest) == Tokens(wr)
  {
    hide Bytes;
    var r, p, allowed := Consume(wr, n, w), wr.frame.p, Allowed(wr, n, w);
    assert r.consumed == OnStream(wr.stream, Data(p[..allowed], false), None);
    assert r.rest == OnStream(wr.stream, Data(p[allowed..], wr.frame.endStream), wr.done);
    hide Consume;
    BytesConcat(p[..allowed], p[allowed..]);
    assert p[..allowed] + p[allowed..] == p;
  }

  /** What is dequeued, followed by what stays queued, is what was queued. */
  lemma ConsumeKeepsTokens(q: seq<FrameWriteRequest>, n: int, w: Windows)
    ensures var r := ConsumeQueue(q, n, w);
            r.taken.Some? ==> Tokens(r.taken.value) + Flatten(r.queue) == Flatten(q)
  {
    hide Tokens;
    var r := ConsumeQueue(q, n, w);
    if r.taken.Some? && Consume(q[0], n, w).Split? {
      SplitKeepsTokens(q[0], n, w);
      assert r.queue[1..] == q[1..];
    }
  }

  /** What a dequeued frame costs: it fits every limit and the windows lose
      exactly its payload. */
  lemma ConsumeQueueDebit(q: seq<FrameWriteRequest>, n: int, w: Windows)
    ensures var r := ConsumeQueue(q, n, w);
            r.taken.Some? ==>
              var wr := r.taken.value;
              && r.windows.conn == w.conn - wr.DataSize()
              && (forall id ::
                   r.windows.Of(id) == w.Of(id) - (if wr.HasPayload() && id == wr.stream then wr.DataSize() else 0))
              && r.windows.maxFrameSize == w.maxFrameSize
              && (wr.HasPayload() ==> wr.DataSize() <= n && wr.DataSize() <= w.conn
                                      && wr.DataSize() <= w.Of(wr.stream) && wr.DataSize() <= w.maxFrameSize)
  {
  }
}
