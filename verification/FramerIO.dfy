/** The Framer: frames written to and read from a byte stream, and header blocks
    split over frames (xnet/http2/frame.go, xnet/http2/write.go). */
module FramerIO {
  import opened Frames
  import opened Framing

  // ---- reading a byte stream ----

  /** What is left to read, and the stream whose header block is open. */
  datatype Input = Input(bytes: Octets, last: nat)

  datatype ReadResult = ReadResult(input: Input, frame: Parsed<Frame>)

  /** ReadFrame.  A short read takes all there was. */
  function Read(inp: Input, max: nat): (r: ReadResult)
    ensures r.frame.Ok? ==> |r.input.bytes| < |inp.bytes|
  {
    var b := inp.bytes;
    if |b| < 9 then ReadResult(inp.(bytes := []), Err(EOF))
    else
      var h := ParseHeader(b);
      if h.length > max then ReadResult(inp.(bytes := b[9..]), Err(TooLarge))
      else match CheckOrder(inp.last, h)
        case None => ReadResult(inp.(bytes := b[9..]), Err(ConnectionError(PROTOCOL_ERROR)))
        case Some(last) =>
          if |b| - 9 < h.length then ReadResult(Input([], last), Err(EOF))
          else ReadResult(Input(b[9 + h.length..], last), Parse(h.kind, h.flags, h.id, b[9..9 + h.length]))
  }

  datatype Session = Session(frames: seq<Frame>, error: ReadError)

  /** Read until the first error. */
  function ReadAll(inp: Input, max: nat): Session
    decreases |inp.bytes|
  {
    var r := Read(inp, max);
    match r.frame
    case Err(e) => Session([], e)
    case Ok(f) => var rest := ReadAll(r.input, max); rest.(frames := [f] + rest.frames)
  }

  ghost predicate AllFit(fs: seq<Frame>, max: nat) { forall i :: 0 <= i < |fs| ==> Fits(fs[i], max) }

  lemma HeaderBack(f: Frame, rest: Octets)
    requires Fits(f, MAX_FRAME_SIZE)
    ensures var b := Encode(f) + rest; var n := |Payload(f)|;
            |b| == 9 + n + |rest| && ParseHeader(b) == FrameHeader(n, f.Kind(), FlagsOf(f), f.StreamId())
            && b[9..9 + n] == Payload(f) && b[9 + n..] == rest
  {
    hide Payload, FlagsOf, U24, U32, FromU24, FromU32;
    var p := Payload(f);
    var b := Encode(f) + rest;
    U24Back(|p|);
    U32Back(f.StreamId());
    var start := U24(|p|) + [f.Kind(), FlagsOf(f)];
    assert b == start + (U32(f.StreamId()) + p + rest);
    assert b[3] == start[3] && b[4] == start[4];
    assert b[..3] == U24(|p|) && b[3] == f.Kind() && b[4] == FlagsOf(f) && b[5..9] == U32(f.StreamId());
  }

  lemma OrderBack(last: nat, f: Frame)
    requires Legal(f)
    ensures CheckOrder(last, FrameHeader(|Payload(f)|, f.Kind(), FlagsOf(f), f.StreamId())) == After(last, f)
  {
    hide Payload;
    if f.Headers? { BitsBack(f.endStream, f.endHeaders, f.padding != 0, f.priority.Some?); }
    if f.Continuation? { BitsBack(false, f.endHeaders, false, false); }
  }

  lemma OneReadsBack(f: Frame, last: nat, rest: Octets, max: nat)
    requires Fits(f, max) && After(last, f).Some?
    ensures Read(Input(Encode(f) + rest, last), max) == ReadResult(Input(rest, After(last, f).value), Ok(f))
  {
    hide Payload, FlagsOf, Encode, Parse, CheckOrder, After, ParseHeader, Legal;
    HeaderBack(f, rest);
    OrderBack(last, f);
    PayloadBack(f);
  }

  ghost function Written(fs: seq<Frame>): Octets
    requires AllFit(fs, MAX_FRAME_SIZE)
  {
    if fs == [] then [] else Encode(fs[0]) + Written(fs[1..])
  }

  /** Any sequence of frames that may follow one another, written one after the
      other and no longer than the reader's limit, is read back as it is, up to
      the end of the input. */
  lemma {:induction false} AllReadBack(fs: seq<Frame>, last: nat, max: nat)
    requires AllFit(fs, max) && max <= MAX_FRAME_SIZE && InOrder(last, fs)
    ensures ReadAll(Input(Written(fs), last), max) == Session(fs, EOF)
    decreases fs
  {
    hide Read, Encode, Legal, Payload, After;
    if fs == [] {
      NothingToRead(last, max);
    } else {
      OneReadsBack(fs[0], last, Written(fs[1..]), max);
      AllReadBack(fs[1..], After(last, fs[0]).value, max);
      assert fs == [fs[0]] + fs[1..];
    }
  }

  lemma NothingToRead(last: nat, max: nat)
    ensures Read(Input([], last), max) == ReadResult(Input([], last), Err(EOF))
  {
  }

  // ---- header blocks over several frames ----

  const MAX_FRAGMENT: nat := 16384

  function Fragment(block: Octets): (frag: Octets)
    ensures frag <= block && |frag| <= MAX_FRAGMENT && (block != [] ==> frag != [])
  {
    if |block| > MAX_FRAGMENT then block[..MAX_FRAGMENT] else block
  }

  function Continuations(id: nat, block: Octets): seq<Frame>
    decreases |block|
  {
    if block == [] then []
    else
      var frag := Fragment(block);
      [Continuation(id, |frag| == |block|, frag)] + Continuations(id, block[|frag|..])
  }

  /** The frames of a response header block.  An empty block has none. */
  function HeaderFrames(id: nat, endStream: bool, block: Octets): seq<Frame> {
    if block == [] then []
    else
      var frag := Fragment(block);
      [Headers(id, endStream, |frag| == |block|, None, frag, 0)] + Continuations(id, block[|frag|..])
  }

  /** The frames of a pushed request's header block. */
  function PromiseFrames(id: nat, promised: nat, block: Octets): seq<Frame> {
    if block == [] then []
    else
      var frag := Fragment(block);
      [PushPromise(id, promised, |frag| == |block|, frag, 0)] + Continuations(id, block[|frag|..])
  }

  /** What goes through one connection: header blocks, and other frames. */
  datatype Item = Block(id: nat, endStream: bool, block: Octets) | Other(frame: Frame)

  ghost predicate ItemOk(it: Item, max: nat) {
    match it
    case Block(id, _, block) => 0 < id && IsU31(id) && block != []
    case Other(f) => Fits(f, max) && !f.Headers? && !f.Continuation?
  }

  function FramesOf(it: Item): seq<Frame> {
    if it.Block? then HeaderFrames(it.id, it.endStream, it.block) else [it.frame]
  }

  function AllFrames(items: seq<Item>): seq<Frame> {
    if items == [] then [] else FramesOf(items[0]) + AllFrames(items[1..])
  }

  /** The fragments that readMetaFrame feeds to the decoder after the first. */
  function Gathered(fs: seq<Frame>): Octets {
    if fs == [] || !fs[0].Continuation? then []
    else fs[0].frag + if fs[0].endHeaders then [] else Gathered(fs[1..])
  }

  function GatheredFrames(fs: seq<Frame>): (n: nat)
    ensures n <= |fs|
  {
    if fs == [] || !fs[0].Continuation? then 0 else 1 + if fs[0].endHeaders then 0 else GatheredFrames(fs[1..])
  }

  /** Frames put together as readMetaFrame does. */
  function Collect(fs: seq<Frame>): seq<Item>
    decreases |fs|
  {
    if fs == [] then []
    else
      var tl := fs[1..];
      match fs[0]
      case Headers(id, endStream, endHeaders, _, frag, _) =>
        if endHeaders then [Block(id, endStream, frag)] + Collect(tl)
        else [Block(id, endStream, frag + Gathered(tl))] + Collect(tl[GatheredFrames(tl)..])
      case _ => [Other(fs[0])] + Collect(tl)
  }

  lemma {:induction false} ContinuationsFacts(id: nat, block: Octets, rest: seq<Frame>, max: nat)
    requires 0 < id && IsU31(id) && block != [] && InOrder(0, rest) && AllFit(rest, max)
    requires MAX_FRAGMENT <= max <= MAX_FRAME_SIZE
    ensures var fs := Continuations(id, block);
            InOrder(id, fs + rest) && AllFit(fs + rest, max)
            && Gathered(fs + rest) == block && GatheredFrames(fs + rest) == |fs|
    decreases |block|
  {
    hide Legal, Payload;
    var frag := Fragment(block);
    var fs, more := Continuations(id, block), Continuations(id, block[|frag|..]);
    ContinuationFits(id, |frag| == |block|, frag, max);
    assert block == frag + block[|frag|..];
    assert (fs + rest)[0] == Continuation(id, |frag| == |block|, frag) && (fs + rest)[1..] == more + rest;
    if |frag| < |block| {
      ContinuationsFacts(id, block[|frag|..], rest, max);
    } else {
      assert more + rest == rest;
    }
  }

  lemma ContinuationFits(id: nat, end: bool, frag: Octets, max: nat)
    requires 0 < id && IsU31(id) && |frag| <= MAX_FRAGMENT <= max <= MAX_FRAME_SIZE
    ensures Fits(Continuation(id, end, frag), max)
  {
  }

  lemma HeadersFits(id: nat, endStream: bool, end: bool, frag: Octets, max: nat)
    requires 0 < id && IsU31(id) && |frag| <= MAX_FRAGMENT <= max <= MAX_FRAME_SIZE
    ensures Fits(Headers(id, endStream, end, None, frag, 0), max)
  {
  }

  lemma ItemFacts(it: Item, rest: seq<Frame>, max: nat)
    requires ItemOk(it, max) && InOrder(0, rest) && AllFit(rest, max) && MAX_FRAGMENT <= max <= MAX_FRAME_SIZE
    ensures var fs := FramesOf(it) + rest;
            InOrder(0, fs) && AllFit(fs, max) && Collect(fs) == [it] + Collect(rest)
  {
    hide Legal, Payload, Gathered, GatheredFrames, Continuations;
    var fs := FramesOf(it) + rest;
    if it.Block? {
      var frag := Fragment(it.block);
      var more := Continuations(it.id, it.block[|frag|..]);
      HeadersFits(it.id, it.endStream, |frag| == |it.block|, frag, max);
      assert fs[0] == Headers(it.id, it.endStream, |frag| == |it.block|, None, frag, 0) && fs[1..] == more + rest;
      if |frag| < |it.block| {
        ContinuationsFacts(it.id, it.block[|frag|..], rest, max);
        assert (more + rest)[|more|..] == rest;
        assert it.block == frag + it.block[|frag|..];
      } else {
        NoContinuations(it.id);
        assert more + rest == rest;
      }
    } else {
      assert fs[1..] == rest;
    }
  }

  lemma NoContinuations(id: nat)
    ensures Continuations(id, []) == []
  {
  }

  lemma {:induction false} ItemsFacts(items: seq<Item>, max: nat)
    requires MAX_FRAGMENT <= max <= MAX_FRAME_SIZE && forall i :: 0 <= i < |items| ==> ItemOk(items[i], max)
    ensures var fs := AllFrames(items); InOrder(0, fs) && AllFit(fs, max) && Collect(fs) == items
  {
    if items != [] {
      hide ItemOk, FramesOf, Collect, InOrder, AllFit;
      ItemsFacts(items[1..], max);
      ItemFacts(items[0], AllFrames(items[1..]), max);
      assert items == [items[0]] + items[1..];
    } else {
      assert AllFrames(items) == [];
    }
  }

  /** Any mix of header blocks, and of other frames that are not too long for the
      reader, written one after the other and read by a peer with any frame size
      that it may ask for: no frame is refused, and every header block comes back whole, in its place, with its
      stream and its END_STREAM. */
  lemma ItemsReadBack(items: seq<Item>, max: nat)
    requires forall i :: 0 <= i < |items| ==> ItemOk(items[i], max)
    requires MAX_FRAGMENT <= max <= MAX_FRAME_SIZE
    ensures AllFit(AllFrames(items), MAX_FRAME_SIZE)
    ensures var s := ReadAll(Input(Written(AllFrames(items)), 0), max); s.error == EOF && Collect(s.frames) == items
  {
    hide InOrder, Collect, Written, ReadAll, AllFrames, ItemOk;
    ItemsFacts(items, max);
    AllReadBack(AllFrames(items), 0, max);
  }

  /** A promise is different: the reader of this package accepts its frames only
      if the block fits into one, since checkFrameOrder does not know that a
      PUSH_PROMISE may be continued. */
  lemma PromiseInOrder(id: nat, promised: nat, block: Octets)
    requires 0 < id && IsU31(id)
    ensures InOrder(0, PromiseFrames(id, promised, block)) <==> |block| <= MAX_FRAGMENT
  {
    var fs := PromiseFrames(id, promised, block);
    if block != [] {
      var frag := Fragment(block);
      var more := Continuations(id, block[|frag|..]);
      assert fs[1..] == more;
      assert |block| > MAX_FRAGMENT ==> more != [] && more[0].Continuation?;
    }
  }

  /** And a PUSH_PROMISE is four bytes longer than its fragment: it keeps to the
      least frame size that a peer may ask for exactly if the block has at most
      16380 bytes. */
  lemma PromiseFits(id: nat, promised: nat, block: Octets)
    requires 0 < id && IsU31(id) && 0 < promised && IsU31(promised)
    ensures AllFit(PromiseFrames(id, promised, block), MAX_FRAGMENT) <==> |block| <= MAX_FRAGMENT - 4
  {
    hide U32, Zeros;
    var fs := PromiseFrames(id, promised, block);
    if block != [] {
      var frag := Fragment(block);
      assert fs[0] == PushPromise(id, promised, |frag| == |block|, frag, 0) && |Payload(fs[0])| == 4 + |frag|;
      if |block| <= MAX_FRAGMENT - 4 {
        NoContinuations(id);
        assert fs == [fs[0]];
      } else {
        assert !Fits(fs[0], MAX_FRAGMENT);
      }
    }
  }

  // ---- the Framer ----

  datatype WriteError =
    | NoError | BadStreamID | BadDependency | BadPadLength | BadPadBytes | BadIncrement | FrameTooLarge

  /** A PriorityParam as callers fill it in. */
  datatype FullPriority = FullPriority(wire: PriorityParam, urgency: Byte, incremental: Byte) {
    predicate IsZero() { this == FullPriority(PriorityParam(0, false, 0), 0, 0) }
  }

  predicate ValidStreamID(id: nat) { 0 < id && IsU31(id) }

  function Size(n: nat): WriteError { if n > MAX_FRAME_SIZE then FrameTooLarge else NoError }

  function PadLength(pad: Option<Octets>): Option<nat> { if pad.Some? then Some(|pad.value|) else None }

  function OnWire(p: FullPriority): Option<PriorityParam> { if p.IsZero() then None else Some(p.wire) }

  lemma EncodeIs(f: Frame)
    requires Fits(f, MAX_FRAME_SIZE)
    ensures Encode(f) == Wire(f.Kind(), FlagsOf(f), f.StreamId(), Payload(f))
  {
  }

  lemma {:induction false} SettingsSnoc(s: seq<Setting>, x: Setting)
    requires forall i :: 0 <= i < |s| ==> s[i].id < 0x1_0000 && IsU32(s[i].val)
    requires x.id < 0x1_0000 && IsU32(x.val)
    ensures SettingsBytes(s + [x]) == SettingsBytes(s) + U16(x.id) + U32(x.val)
  {
    hide U16, U32;
    if s == [] {
      assert s + [x] == [x] && [x][1..] == [];
    } else {
      SettingsSnoc(s[1..], x);
      assert (s + [x])[1..] == s[1..] + [x];
    }
  }

  function OneFrame(id: nat, endStream: bool, frag: Octets, first: bool, end: bool): Frame {
    if first then Headers(id, endStream, end, None, frag, 0) else Continuation(id, end, frag)
  }

  function FramesLeft(id: nat, endStream: bool, block: Octets, first: bool): seq<Frame> {
    if first then HeaderFrames(id, endStream, block) else Continuations(id, block)
  }

  lemma SplitStep(id: nat, endStream: bool, block: Octets, first: bool)
    requires block != []
    ensures var frag := Fragment(block); var rest := block[|frag|..];
            FramesLeft(id, endStream, block, first) == [OneFrame(id, endStream, frag, first, |rest| == 0)]
              + FramesLeft(id, endStream, rest, false)
  {
  }

  lemma LeftAtFirst(id: nat, endStream: bool, block: Octets)
    ensures FramesLeft(id, endStream, block, true) == HeaderFrames(id, endStream, block)
  {
  }

  lemma NothingLeft(id: nat, endStream: bool, first: bool)
    ensures FramesLeft(id, endStream, [], first) == [] && Written([]) == []
  {
  }

  lemma {:induction false} WrittenSnoc(fs: seq<Frame>, f: Frame)
    requires AllFit(fs, MAX_FRAME_SIZE) && Fits(f, MAX_FRAME_SIZE)
    ensures Written(fs + [f]) == Written(fs) + Encode(f)
  {
    hide Encode, Legal, Payload;
    if fs == [] {
      assert fs + [f] == [f] && [f][1..] == [];
    } else {
      WrittenSnoc(fs[1..], f);
      assert (fs + [f])[1..] == fs[1..] + [f];
    }
  }

  /** Some frames, then what a later session reads. */
  function Then(fs: seq<Frame>, s: Session): Session { s.(frames := fs + s.frames) }

  lemma NoneYet(s: Session)
    ensures Then([], s) == s && Gathered([]) == [] && Open([])
  {
  }

  lemma ReadAllStep(inp: Input, max: nat)
    ensures var r := Read(inp, max);
            ReadAll(inp, max) == if r.frame.Err? then Session([], r.frame.error)
              else Then([r.frame.value], ReadAll(r.input, max))
  {
  }

  /** While a header block is open, only its continuation can be read: the type
      assertion in readMetaFrame does not fail. */
  lemma ReadContinues(inp: Input, max: nat)
    requires inp.last != 0 && Read(inp, max).frame.Ok?
    ensures var r := Read(inp, max); var f := r.frame.value;
            f.Continuation? && f.id == inp.last && r.input.last == if f.endHeaders then 0 else inp.last
  {
  }

  /** CONTINUATION frames none of which ends its block. */
  predicate Open(fs: seq<Frame>) { forall i :: 0 <= i < |fs| ==> fs[i].Continuation? && !fs[i].endHeaders }

  lemma {:induction false} GatherOne(fs: seq<Frame>, f: Frame)
    requires Open(fs) && f.Continuation?
    ensures Gathered(fs + [f]) == Gathered(fs) + f.frag && GatheredFrames(fs + [f]) == |fs| + 1
    ensures !f.endHeaders ==> Open(fs + [f])
  {
    if fs == [] {
      assert fs + [f] == [f] && [f][1..] == [];
    } else {
      GatherOne(fs[1..], f);
      assert (fs + [f])[1..] == fs[1..] + [f];
    }
  }

  class Framer {
    var wbuf: Octets
    var out: Octets              // what the connection was given
    var input: Octets            // what the connection has yet to give
    var lastHeaderStream: nat
    var maxReadSize: nat

    ghost function In(): Input
      reads this`input, this`lastHeaderStream
    {
      Input(input, lastHeaderStream)
    }

    method StartWrite(kind: Byte, flags: Byte, id: Uint32)
      modifies this`wbuf
      ensures wbuf == [0, 0, 0, kind, flags] + U32(id)
    {
      wbuf := [0, 0, 0, kind, flags] + U32(id);
    }

    /** writeByte, writeBytes, writeUint16 and writeUint32: more payload. */
    method WriteBytes(v: Octets, ghost head: Octets, ghost p: Octets)
      requires wbuf == head + p
      modifies this`wbuf
      ensures wbuf == head + (p + v)
    {
      wbuf := wbuf + v;
    }

    method EndWrite(ghost kind: Byte, ghost flags: Byte, ghost id: Uint32, ghost p: Octets) returns (err: WriteError)
      requires wbuf == [0, 0, 0, kind, flags] + U32(id) + p
      modifies this`wbuf, this`out
      ensures err == if |p| > MAX_FRAME_SIZE then FrameTooLarge else NoError
      ensures out == if err.NoError? then old(out) + Wire(kind, flags, id, p) else old(out)
    {
      var length := |wbuf| - 9;
      if length >= 0x100_0000 {
        return FrameTooLarge;
      }
      wbuf := U24(length) + wbuf[3..];
      out := out + wbuf;
      assert wbuf == Wire(kind, flags, id, p);
      return NoError;
    }

    /** WriteData and WriteDataPadded */
    method WriteDataPadded(id: Uint32, endStream: bool, data: Octets, pad: Option<Octets>) returns (err: WriteError)
      modifies this`wbuf, this`out
      ensures err == if !ValidStreamID(id) then BadStreamID
                     else if pad.Some? && |pad.value| > 255 then BadPadLength
                     else if pad.Some? && pad.value != Zeros(|pad.value|) then BadPadBytes
                     else Size(|data| + if pad.Some? then 1 + |pad.value| else 0)
      ensures out == if err.NoError? then old(out) + Encode(Frame.Data(id, endStream, data, PadLength(pad)))
              else old(out)
    {
      if id == 0 || id >= 0x8000_0000 {
        return BadStreamID;
      }
      if pad.Some? {
        if |pad.value| > 255 {
          return BadPadLength;
        }
        for i := 0 to |pad.value|
          invariant forall j :: 0 <= j < i ==> pad.value[j] == 0
        {
          if pad.value[i] != 0 {
            return BadPadBytes;
          }
        }
        assert pad.value == Zeros(|pad.value|);
      }
      ghost var f := Frame.Data(id, endStream, data, PadLength(pad));
      var flags := Bit(endStream, 0x1) + Bit(pad.Some?, 0x8);
      StartWrite(0, flags, id);
      if pad.Some? {
        wbuf := wbuf + [|pad.value|];
      }
      wbuf := wbuf + data;
      if pad.Some? {
        wbuf := wbuf + pad.value;
      }
      err := EndWrite(0, flags, id, Payload(f));
    }

    method WriteHeaders(id: Uint32, endStream: bool, endHeaders: bool, priority: FullPriority, frag: Octets,
                        padding: Byte)
        returns (err: WriteError)
      requires priority.wire.dep < 0x1_0000_0000
      modifies this`wbuf, this`out
      ensures err == if !ValidStreamID(id) then BadStreamID
                     else if !IsU31(priority.wire.dep) then BadDependency
                     else Size((if padding != 0 then 1 + padding else 0) + (if priority.IsZero() then 0 else 5)
                       + |frag|)
      ensures out == if err.NoError? then old(out)
              + Encode(Headers(id, endStream, endHeaders, OnWire(priority), frag, padding)) else old(out)
    {
      hide Encode, Wire, U32, Zeros;
      if id == 0 || id >= 0x8000_0000 {
        return BadStreamID;
      }
      var flags := Bit(endStream, 0x1) + Bit(endHeaders, 0x4) + Bit(padding != 0, 0x8) + Bit(!priority.IsZero(), 0x20);
      StartWrite(1, flags, id);
      ghost var head, p := wbuf, [];
      if padding != 0 {
        WriteBytes([padding], head, p);
        p := p + [padding];
      }
      if !priority.IsZero() {
        var v := priority.wire.dep;
        if v >= 0x8000_0000 {
          return BadDependency;
        }
        if priority.wire.exclusive {
          v := v + 0x8000_0000;
        }
        WriteBytes(U32(v), head, p);
        WriteBytes([priority.wire.weight], head, p + U32(v));
        p := p + PriorityBytes(priority.wire);
      }
      WriteBytes(frag, head, p);
      WriteBytes(Zeros(padding), head, p + frag);
      ghost var f := Headers(id, endStream, endHeaders, OnWire(priority), frag, padding);
      assert p + frag + Zeros(padding) == Payload(f);
      err := EndWrite(1, flags, id, Payload(f));
      if err.NoError? { EncodeIs(f); }
    }

    method WritePriority(id: Uint32, p: PriorityParam) returns (err: WriteError)
      requires p.dep < 0x1_0000_0000
      modifies this`wbuf, this`out
      ensures err == if !ValidStreamID(id) then BadStreamID else if !IsU31(p.dep) then BadDependency else NoError
      ensures out == if err.NoError? then old(out) + Encode(Priority(id, p)) else old(out)
    {
      if id == 0 || id >= 0x8000_0000 {
        return BadStreamID;
      }
      if p.dep >= 0x8000_0000 {
        return BadDependency;
      }
      StartWrite(2, 0, id);
      var v := p.dep;
      if p.exclusive {
        v := v + 0x8000_0000;
      }
      wbuf := wbuf + U32(v);
      wbuf := wbuf + [p.weight];
      err := EndWrite(2, 0, id, PriorityBytes(p));
    }

    method WriteRSTStream(id: Uint32, code: Uint32) returns (err: WriteError)
      modifies this`wbuf, this`out
      ensures err == if !ValidStreamID(id) then BadStreamID else NoError
      ensures out == if err.NoError? then old(out) + Encode(RstStream(id, code)) else old(out)
    {
      if id == 0 || id >= 0x8000_0000 {
        return BadStreamID;
      }
      StartWrite(3, 0, id);
      wbuf := wbuf + U32(code);
      err := EndWrite(3, 0, id, U32(code));
    }

    /** Nothing is checked: the frame is one that the reader accepts if its first
        initial window size is. */
    method WriteSettings(settings: seq<Setting>) returns (err: WriteError)
      requires forall i :: 0 <= i < |settings| ==> settings[i].id < 0x1_0000 && IsU32(settings[i].val)
      modifies this`wbuf, this`out
      ensures err == Size(6 * |settings|)
      ensures out == if err.NoError? then old(out) + Wire(4, 0, 0, SettingsBytes(settings)) else old(out)
      ensures err.NoError? && WindowOk(settings) ==> out == old(out) + Encode(Settings(settings))
    {
      StartWrite(4, 0, 0);
      ghost var head := wbuf;
      for i := 0 to |settings|
        invariant wbuf == head + SettingsBytes(settings[..i]) && out == old(out)
      {
        var s := settings[i];
        wbuf := wbuf + U16(s.id);
        wbuf := wbuf + U32(s.val);
        SettingsSnoc(settings[..i], s);
        assert settings[..i + 1] == settings[..i] + [s];
      }
      assert settings[..|settings|] == settings;
      err := EndWrite(4, 0, 0, SettingsBytes(settings));
    }

    method WriteSettingsAck() returns (err: WriteError)
      modifies this`wbuf, this`out
      ensures err.NoError? && out == old(out) + Encode(SettingsAck)
    {
      StartWrite(4, 0x1, 0);
      err := EndWrite(4, 0x1, 0, []);
    }

    method WritePing(ack: bool, data: Octets) returns (err: WriteError)
      requires |data| == 8
      modifies this`wbuf, this`out
      ensures err.NoError? && out == old(out) + Encode(Ping(ack, data))
    {
      var flags := Bit(ack, 0x1);
      StartWrite(6, flags, 0);
      wbuf := wbuf + data;
      err := EndWrite(6, flags, 0, data);
    }

    method WriteGoAway(maxStreamID: Uint32, code: Uint32, debug: Octets) returns (err: WriteError)
      modifies this`wbuf, this`out
      ensures err == Size(8 + |debug|)
      ensures out == if err.NoError? then old(out) + Encode(GoAway(Low31(maxStreamID), code, debug)) else old(out)
    {
      StartWrite(7, 0, 0);
      wbuf := wbuf + U32(Low31(maxStreamID));
      wbuf := wbuf + U32(code);
      wbuf := wbuf + debug;
      ghost var f := GoAway(Low31(maxStreamID), code, debug);
      err := EndWrite(7, 0, 0, Payload(f));
    }

    /** The stream number is not checked. */
    method WriteWindowUpdate(id: Uint32, increment: Uint32) returns (err: WriteError)
      modifies this`wbuf, this`out
      ensures err == if increment == 0 || !IsU31(increment) then BadIncrement else NoError
      ensures out == if err.NoError? then old(out) + Wire(8, 0, id, U32(increment)) else old(out)
      ensures err.NoError? && IsU31(id) ==> out == old(out) + Encode(WindowUpdate(id, increment))
    {
      if increment < 1 || increment > 2147483647 {
        return BadIncrement;
      }
      StartWrite(8, 0, id);
      wbuf := wbuf + U32(increment);
      err := EndWrite(8, 0, id, U32(increment));
    }

    method WriteContinuation(id: Uint32, endHeaders: bool, frag: Octets) returns (err: WriteError)
      modifies this`wbuf, this`out
      ensures err == if !ValidStreamID(id) then BadStreamID else Size(|frag|)
      ensures out == if err.NoError? then old(out) + Encode(Continuation(id, endHeaders, frag)) else old(out)
    {
      if id == 0 || id >= 0x8000_0000 {
        return BadStreamID;
      }
      var flags := Bit(endHeaders, 0x4);
      StartWrite(9, flags, id);
      wbuf := wbuf + frag;
      err := EndWrite(9, flags, id, frag);
    }

    method WritePushPromise(id: Uint32, promised: Uint32, endHeaders: bool, frag: Octets, padding: Byte)
      returns (err: WriteError)
      modifies this`wbuf, this`out
      ensures err == if !ValidStreamID(id) || !ValidStreamID(promised) then BadStreamID
                     else Size(4 + |frag| + if padding != 0 then 1 + padding else 0)
      ensures out == if err.NoError? then old(out) + Encode(PushPromise(id, promised, endHeaders, frag, padding))
              else old(out)
    {
      hide Encode, Wire, U32, Zeros;
      if id == 0 || id >= 0x8000_0000 {
        return BadStreamID;
      }
      var flags := Bit(endHeaders, 0x4) + Bit(padding != 0, 0x8);
      StartWrite(5, flags, id);
      ghost var head, p := wbuf, [];
      if padding != 0 {
        WriteBytes([padding], head, p);
        p := p + [padding];
      }
      if promised == 0 || promised >= 0x8000_0000 {
        return BadStreamID;
      }
      WriteBytes(U32(promised), head, p);
      WriteBytes(frag, head, p + U32(promised));
      WriteBytes(Zeros(padding), head, p + U32(promised) + frag);
      ghost var f := PushPromise(id, promised, endHeaders, frag, padding);
      assert p + U32(promised) + frag + Zeros(padding) == Payload(f);
      err := EndWrite(5, flags, id, Payload(f));
      if err.NoError? { EncodeIs(f); }
    }

    method WriteRawFrame(kind: Byte, flags: Byte, id: Uint32, payload: Octets) returns (err: WriteError)
      modifies this`wbuf, this`out
      ensures err == Size(|payload|)
      ensures out == if err.NoError? then old(out) + Wire(kind, flags, id, payload) else old(out)
      ensures err.NoError? && kind > 9 && IsU31(id) ==> out == old(out) + Encode(Unknown(kind, flags, id, payload))
    {
      StartWrite(kind, flags, id);
      wbuf := wbuf + payload;
      err := EndWrite(kind, flags, id, payload);
    }

    /** writeHeaderBlock of a response. */
    method WriteFragment(id: Uint32, endStream: bool, frag: Octets, first: bool, end: bool) returns (err: WriteError)
      requires |frag| <= MAX_FRAGMENT
      modifies this`wbuf, this`out
      ensures err == if !ValidStreamID(id) then BadStreamID else NoError
      ensures err.NoError? ==>
                var f := OneFrame(id, endStream, frag, first, end);
                  Fits(f, MAX_FRAME_SIZE) && out == old(out) + Encode(f)
      ensures !err.NoError? ==> out == old(out)
    {
      if first {
        err := WriteHeaders(id, endStream, end, FullPriority(PriorityParam(0, false, 0), 0, 0), frag, 0);
      } else {
        err := WriteContinuation(id, end, frag);
      }
    }

    /** splitHeaderBlock with the writeHeaderBlock of a response. */
    method WriteHeaderBlock(id: Uint32, endStream: bool, headerBlock: Octets) returns (err: WriteError)
      modifies this`wbuf, this`out
      ensures err == if headerBlock != [] && !ValidStreamID(id) then BadStreamID else NoError
      ensures err.NoError? ==> AllFit(HeaderFrames(id, endStream, headerBlock), MAX_FRAME_SIZE)
                               && out == old(out) + Written(HeaderFrames(id, endStream, headerBlock))
      ensures !err.NoError? ==> out == old(out)
    {
      hide Encode, Fits, Written, HeaderFrames, FramesLeft, OneFrame;
      var block, first := headerBlock, true;
      ghost var done: seq<Frame> := [];
      NothingLeft(id, endStream, true);
      NothingLeft(id, endStream, false);
      LeftAtFirst(id, endStream, headerBlock);
      while |block| > 0
        invariant first ==> block == headerBlock
        invariant !first ==> ValidStreamID(id) && headerBlock != []
        invariant HeaderFrames(id, endStream, headerBlock) == done + FramesLeft(id, endStream, block, first)
        invariant AllFit(done, MAX_FRAME_SIZE) && out == old(out) + Written(done)
        decreases |block|
      {
        var frag := block;
        if |frag| > MAX_FRAGMENT {
          frag := frag[..MAX_FRAGMENT];
        }
        SplitStep(id, endStream, block, first);
        block := block[|frag|..];
        err := WriteFragment(id, endStream, frag, first, |block| == 0);
        if !err.NoError? {
          return;
        }
        ghost var f := OneFrame(id, endStream, frag, first, |block| == 0);
        WrittenSnoc(done, f);
        done := done + [f];
        first := false;
      }
      assert block == [] && done + [] == done;
      return NoError;
    }

    method CheckFrameOrder(h: FrameHeader) returns (ok: bool)
      modifies this`lastHeaderStream
      ensures var r := CheckOrder(old(lastHeaderStream), h);
              ok == r.Some? && lastHeaderStream == if ok then r.value else old(lastHeaderStream)
    {
      if lastHeaderStream != 0 {
        if h.kind != 9 {
          return false;
        }
        if h.id != lastHeaderStream {
          return false;
        }
      } else if h.kind == 9 {
        return false;
      }
      if h.kind == 1 || h.kind == 9 {
        if Has(h.flags, 0x4) {
          lastHeaderStream := 0;
        } else {
          lastHeaderStream := h.id;
        }
      }
      return true;
    }

    method ReadFrame() returns (r: Parsed<Frame>)
      modifies this`input, this`lastHeaderStream
      ensures ReadResult(In(), r) == Read(old(In()), maxReadSize)
    {
      if |input| < 9 {
        input := [];
        return Err(EOF);
      }
      var h := ParseHeader(input);
      input := input[9..];
      if h.length > maxReadSize {
        return Err(TooLarge);
      }
      var ok := CheckFrameOrder(h);
      if !ok {
        return Err(ConnectionError(PROTOCOL_ERROR));
      }
      if |input| < h.length {
        input := [];
        return Err(EOF);
      }
      var payload := input[..h.length];
      input := input[h.length..];
      assert payload == old(input)[9..9 + h.length] && input == old(input)[9 + h.length..];
      return Parse(h.kind, h.flags, h.id, payload);
    }

    /** The loop of readMetaFrame, without the decoder: the block of a HEADERS
        frame is gathered from the frames that follow, and what is left to read
        is what comes after them. */
    method GatherBlock(hf: Frame) returns (block: Octets, err: Option<ReadError>, ghost frames: seq<Frame>)
      requires hf.Headers? && 0 < hf.id && lastHeaderStream == if hf.endHeaders then 0 else hf.id
      modifies this`input, this`lastHeaderStream
      ensures err.None? ==> lastHeaderStream == 0 && block == hf.frag + if hf.endHeaders then [] else Gathered(frames)
      ensures err.None? ==> GatheredFrames(frames) == |frames| && (hf.endHeaders <==> frames == [])
      ensures forall i :: 0 <= i < |frames| ==> frames[i].Continuation? && frames[i].id == hf.id
      ensures err.None? ==> ReadAll(old(In()), maxReadSize) == Then(frames, ReadAll(In(), maxReadSize))
      ensures err.Some? ==> ReadAll(old(In()), maxReadSize) == Session(frames, err.value)
    {
      hide Read, ReadAll, Gathered, GatheredFrames, Open;
      block, frames := hf.frag, [];
      var ended := hf.endHeaders;
      NoneYet(ReadAll(In(), maxReadSize));
      while !ended
        invariant lastHeaderStream == if ended then 0 else hf.id
        invariant hf.endHeaders ==> ended && frames == [] && block == hf.frag
        invariant !ended ==> Open(frames) && block == hf.frag + Gathered(frames)
        invariant ended && !hf.endHeaders ==>
                    frames != [] && block == hf.frag + Gathered(frames) && GatheredFrames(frames) == |frames|
        invariant forall i :: 0 <= i < |frames| ==> frames[i].Continuation? && frames[i].id == hf.id
        invariant ReadAll(old(In()), maxReadSize) == Then(frames, ReadAll(In(), maxReadSize))
        decreases !ended, |input|
      {
        ghost var before := In();
        var f := ReadFrame();
        ReadAllStep(before, maxReadSize);
        if f.Err? {
          return block, Some(f.error), frames;
        }
        ReadContinues(before, maxReadSize);
        GatherOne(frames, f.value);
        frames := frames + [f.value];
        block := block + f.value.frag;
        ended := f.value.endHeaders;
      }
      return block, None, frames;
    }
  }
}
