/** HTTP/2 frames on the wire (xnet/http2/frame.go; sections 4.1 and 6 of RFC
    7540). */
module Framing {
  import opened Frames

  type Octets = seq<Byte>

  // ---- integers ----

  type Uint32 = v: int | 0 <= v < 0x1_0000_0000

  const MAX_FRAME_SIZE: nat := 0xff_ffff

  predicate IsU31(v: nat) { v < 0x8000_0000 }

  predicate IsU32(v: nat) { v < 0x1_0000_0000 }

  function U24(v: nat): (b: Octets)
    requires v < 0x100_0000
    ensures |b| == 3
  {
    [v / 0x1_0000, v / 0x100 % 0x100, v % 0x100]
  }

  function U16(v: nat): (b: Octets)
    requires v < 0x1_0000
    ensures |b| == 2
  {
    [v / 0x100, v % 0x100]
  }

  function U32(v: nat): (b: Octets)
    requires IsU32(v)
    ensures |b| == 4
  {
    [v / 0x100_0000, v / 0x1_0000 % 0x100, v / 0x100 % 0x100, v % 0x100]
  }

  function FromU16(b: Octets): (v: nat)
    requires |b| >= 2
    ensures v < 0x1_0000
  {
    b[0] as int * 0x100 + b[1]
  }

  function FromU24(b: Octets): (v: nat)
    requires |b| >= 3
    ensures v < 0x100_0000
  {
    b[0] as int * 0x1_0000 + b[1] as int * 0x100 + b[2]
  }

  function FromU32(b: Octets): (v: nat)
    requires |b| >= 4
    ensures IsU32(v)
  {
    b[0] as int * 0x100_0000 + b[1] as int * 0x1_0000 + b[2] as int * 0x100 + b[3]
  }

  lemma U16Back(v: nat)
    requires v < 0x1_0000
    ensures FromU16(U16(v)) == v
  {
  }

  lemma U24Back(v: nat)
    requires v < 0x100_0000
    ensures FromU24(U24(v)) == v
  {
  }

  lemma U32Back(v: nat)
    requires IsU32(v)
    ensures FromU32(U32(v)) == v
  {
  }

  // ---- frames ----

  datatype PriorityParam = PriorityParam(dep: nat, exclusive: bool, weight: Byte)

  datatype Setting = Setting(id: nat, val: nat)

  datatype Frame =
    | Data(id: nat, endStream: bool, data: Octets, pad: Option<nat>)
    | Headers(id: nat, endStream: bool, endHeaders: bool, priority: Option<PriorityParam>, frag: Octets, padding: nat)
    | Priority(id: nat, param: PriorityParam)
    | RstStream(id: nat, code: nat)
    | Settings(settings: seq<Setting>)
    | SettingsAck
    | PushPromise(id: nat, promised: nat, endHeaders: bool, frag: Octets, padding: nat)
    | Ping(ack: bool, payload: Octets)
    | GoAway(last: nat, code: nat, debug: Octets)
    | WindowUpdate(id: nat, increment: nat)
    | Continuation(id: nat, endHeaders: bool, frag: Octets)
    | Unknown(kind: Byte, flags: Byte, id: nat, payload: Octets)
  {
    function StreamId(): nat {
      match this
      case Settings(_) => 0
      case SettingsAck => 0
      case Ping(_, _) => 0
      case GoAway(_, _, _) => 0
      case Data(id, _, _, _) => id
      case Headers(id, _, _, _, _, _) => id
      case Priority(id, _) => id
      case RstStream(id, _) => id
      case PushPromise(id, _, _, _, _) => id
      case WindowUpdate(id, _) => id
      case Continuation(id, _, _) => id
      case Unknown(_, _, id, _) => id
    }

    function Kind(): Byte {
      match this
      case Data(_, _, _, _) => 0
      case Headers(_, _, _, _, _, _) => 1
      case Priority(_, _) => 2
      case RstStream(_, _) => 3
      case Settings(_) => 4
      case SettingsAck => 4
      case PushPromise(_, _, _, _, _) => 5
      case Ping(_, _) => 6
      case GoAway(_, _, _) => 7
      case WindowUpdate(_, _) => 8
      case Continuation(_, _, _) => 9
      case Unknown(kind, _, _, _) => kind
    }
  }

  /** A flag bit, if on. */
  function Bit(on: bool, value: Byte): Byte { if on then value else 0 }

  /** Flags.Has, for a single bit. */
  predicate Has(flags: Byte, value: Byte)
    requires value > 0
  {
    flags / value % 2 == 1
  }

  function FlagsOf(f: Frame): Byte {
    match f
    case Data(_, endStream, _, pad) => Bit(endStream, 0x1) + Bit(pad.Some?, 0x8)
    case Headers(_, endStream, endHeaders, priority, _, padding) =>
      Bit(endStream, 0x1) + Bit(endHeaders, 0x4) + Bit(padding != 0, 0x8) + Bit(priority.Some?, 0x20)
    case SettingsAck => 0x1
    case PushPromise(_, _, endHeaders, _, padding) => Bit(endHeaders, 0x4) + Bit(padding != 0, 0x8)
    case Ping(ack, _) => Bit(ack, 0x1)
    case Continuation(_, endHeaders, _) => Bit(endHeaders, 0x4)
    case Unknown(_, flags, _, _) => flags
    case _ => 0
  }

  /** Section 6.5.2: the first initial window size, which the reader checks, is
      within bounds. */
  predicate WindowOk(s: seq<Setting>) {
    if s == [] then true else if s[0].id == 4 then s[0].val < 0x8000_0000 else WindowOk(s[1..])
  }

  predicate ParamOk(p: PriorityParam) { IsU31(p.dep) }

  /** What the Write methods accept, with stream numbers of 31 bits. */
  predicate Legal(f: Frame) {
    match f
    case Data(id, _, _, pad) => 0 < id && IsU31(id) && (pad.Some? ==> pad.value < 256)
    case Headers(id, _, _, priority, _, padding) =>
      0 < id && IsU31(id) && padding < 256 && (priority.Some? ==> ParamOk(priority.value))
    case Priority(id, param) => 0 < id && IsU31(id) && ParamOk(param)
    case RstStream(id, code) => 0 < id && IsU31(id) && IsU32(code)
    case Settings(s) => WindowOk(s) && forall i :: 0 <= i < |s| ==> s[i].id < 0x1_0000 && IsU32(s[i].val)
    case SettingsAck => true
    case PushPromise(id, promised, _, _, padding) => 0 < id && IsU31(id) && 0 < promised && IsU31(promised)
      && padding < 256
    case Ping(_, payload) => |payload| == 8
    case GoAway(last, code, _) => IsU31(last) && IsU32(code)
    case WindowUpdate(id, increment) => IsU31(id) && 0 < increment && IsU31(increment)
    case Continuation(id, _, _) => 0 < id && IsU31(id)
    case Unknown(kind, _, id, _) => kind > 9 && IsU31(id)
  }

  function Zeros(n: nat): (z: Octets)
    ensures |z| == n
  {
    seq(n, _ => 0)
  }

  function PriorityBytes(p: PriorityParam): (b: Octets)
    requires ParamOk(p)
    ensures |b| == 5
  {
    U32(p.dep + if p.exclusive then 0x8000_0000 else 0) + [p.weight]
  }

  function SettingsBytes(s: seq<Setting>): (b: Octets)
    requires forall i :: 0 <= i < |s| ==> s[i].id < 0x1_0000 && IsU32(s[i].val)
    ensures |b| == 6 * |s|
  {
    if s == [] then [] else U16(s[0].id) + U32(s[0].val) + SettingsBytes(s[1..])
  }

  /** The payload, between startWrite and endWrite. */
  function Payload(f: Frame): Octets
    requires Legal(f)
  {
    match f
    case Data(_, _, data, pad) => (if pad.Some? then [pad.value] else []) + data + if pad.Some? then Zeros(pad.value)
      else []
    case Headers(_, _, _, priority, frag, padding) =>
      (if padding != 0 then [padding] else []) + (if priority.Some? then PriorityBytes(priority.value) else []) + frag
        + Zeros(padding)
    case Priority(_, param) => PriorityBytes(param)
    case RstStream(_, code) => U32(code)
    case Settings(s) => SettingsBytes(s)
    case SettingsAck => []
    case PushPromise(_, promised, _, frag, padding) => (if padding != 0 then [padding] else []) + U32(promised) + frag
      + Zeros(padding)
    case Ping(_, payload) => payload
    case GoAway(last, code, debug) => U32(last) + U32(code) + debug
    case WindowUpdate(_, increment) => U32(increment)
    case Continuation(_, _, frag) => frag
    case Unknown(_, _, _, payload) => payload
  }

  /** A frame on the wire: what startWrite and endWrite make of a payload. */
  function Wire(kind: Byte, flags: Byte, id: Uint32, p: Octets): (b: Octets)
    requires |p| <= MAX_FRAME_SIZE
    ensures |b| == 9 + |p|
  {
    U24(|p|) + [kind, flags] + U32(id) + p
  }

  predicate Fits(f: Frame, max: nat) { Legal(f) && |Payload(f)| <= max <= MAX_FRAME_SIZE }

  function Encode(f: Frame): Octets
    requires Fits(f, MAX_FRAME_SIZE)
  {
    Wire(f.Kind(), FlagsOf(f), f.StreamId(), Payload(f))
  }

  // ---- reading ----

  datatype ReadError =
    | EOF
    | TooLarge
    | ConnectionError(code: nat)
    | BadStream(id: nat, code: nat)

  const PROTOCOL_ERROR: nat := 0x1
  const FLOW_CONTROL_ERROR: nat := 0x3
  const FRAME_SIZE_ERROR: nat := 0x6

  datatype Parsed<T> = Ok(value: T) | Err(error: ReadError)

  function Low31(v: nat): (r: nat)
    requires IsU32(v)
    ensures IsU31(r)
  {
    if v >= 0x8000_0000 then v - 0x8000_0000 else v
  }

  function ParsePriorityParam(p: Octets): (r: PriorityParam)
    requires |p| == 5
    ensures ParamOk(r)
  {
    var v := FromU32(p[..4]);
    PriorityParam(Low31(v), v != Low31(v), p[4])
  }

  function ParseSettings(p: Octets): (s: seq<Setting>)
    requires |p| % 6 == 0
    ensures forall i :: 0 <= i < |s| ==> s[i].id < 0x1_0000 && IsU32(s[i].val)
  {
    if p == [] then [] else [Setting(FromU16(p[..2]), FromU32(p[2..6]))] + ParseSettings(p[6..])
  }

  function ParseData(flags: Byte, id: nat, p: Octets): Parsed<Frame> {
    if id == 0 then Err(ConnectionError(PROTOCOL_ERROR))
    else if !Has(flags, 0x8) then Ok(Frame.Data(id, Has(flags, 0x1), p, None))
    else if p == [] then Err(EOF)
    else if p[0] > |p| - 1 then Err(ConnectionError(PROTOCOL_ERROR))
    else Ok(Frame.Data(id, Has(flags, 0x1), p[1..|p| - p[0]], Some(p[0])))
  }

  /** What follows the padding length: an optional priority, the fragment and the
      padding. */
  function ParseHeadersRest(flags: Byte, id: nat, p: Octets, padding: Byte): Parsed<Frame> {
    if Has(flags, 0x20) then
      if |p| < 5 then Err(EOF)
      else if |p| - 5 < padding then Err(BadStream(id, PROTOCOL_ERROR))
      else Ok(Headers(id, Has(flags, 0x1), Has(flags, 0x4), Some(ParsePriorityParam(p[..5])), p[5..|p| - padding],
        padding))
    else if |p| < padding then Err(BadStream(id, PROTOCOL_ERROR))
    else Ok(Headers(id, Has(flags, 0x1), Has(flags, 0x4), None, p[..|p| - padding], padding))
  }

  function ParseHeaders(flags: Byte, id: nat, p: Octets): Parsed<Frame> {
    if id == 0 then Err(ConnectionError(PROTOCOL_ERROR))
    else if !Has(flags, 0x8) then ParseHeadersRest(flags, id, p, 0)
    else if p == [] then Err(EOF)
    else ParseHeadersRest(flags, id, p[1..], p[0])
  }

  function ParsePushRest(flags: Byte, id: nat, p: Octets, padding: Byte): Parsed<Frame> {
    if |p| < 4 then Err(EOF)
    else if padding > |p| - 4 then Err(ConnectionError(PROTOCOL_ERROR))
    else Ok(PushPromise(id, Low31(FromU32(p[..4])), Has(flags, 0x4), p[4..|p| - padding], padding))
  }

  function ParsePushPromise(flags: Byte, id: nat, p: Octets): Parsed<Frame> {
    if id == 0 then Err(ConnectionError(PROTOCOL_ERROR))
    else if !Has(flags, 0x8) then ParsePushRest(flags, id, p, 0)
    else if p == [] then Err(EOF)
    else ParsePushRest(flags, id, p[1..], p[0])
  }

  function ParseSettingsFrame(flags: Byte, id: nat, p: Octets): Parsed<Frame> {
    if Has(flags, 0x1) && |p| > 0 then Err(ConnectionError(FRAME_SIZE_ERROR))
    else if id != 0 then Err(ConnectionError(PROTOCOL_ERROR))
    else if |p| % 6 != 0 then Err(ConnectionError(FRAME_SIZE_ERROR))
    else if !WindowOk(ParseSettings(p)) then Err(ConnectionError(FLOW_CONTROL_ERROR))
    else if Has(flags, 0x1) then Ok(SettingsAck)
    else Ok(Settings(ParseSettings(p)))
  }

  /** typeFrameParser and the parsers. */
  function Parse(kind: Byte, flags: Byte, id: nat, p: Octets): Parsed<Frame> {
    match kind
    case 0 => ParseData(flags, id, p)
    case 1 => ParseHeaders(flags, id, p)
    case 2 =>
      if id == 0 then Err(ConnectionError(PROTOCOL_ERROR))
      else if |p| != 5 then Err(ConnectionError(FRAME_SIZE_ERROR))
      else Ok(Priority(id, ParsePriorityParam(p)))
    case 3 =>
      if |p| != 4 then Err(ConnectionError(FRAME_SIZE_ERROR))
      else if id == 0 then Err(ConnectionError(PROTOCOL_ERROR))
      else Ok(RstStream(id, FromU32(p)))
    case 4 => ParseSettingsFrame(flags, id, p)
    case 5 => ParsePushPromise(flags, id, p)
    case 6 =>
      if |p| != 8 then Err(ConnectionError(FRAME_SIZE_ERROR))
      else if id != 0 then Err(ConnectionError(PROTOCOL_ERROR))
      else Ok(Ping(Has(flags, 0x1), p))
    case 7 =>
      if id != 0 then Err(ConnectionError(PROTOCOL_ERROR))
      else if |p| < 8 then Err(ConnectionError(FRAME_SIZE_ERROR))
      else Ok(GoAway(Low31(FromU32(p[..4])), FromU32(p[4..8]), p[8..]))
    case 8 =>
      if |p| != 4 then Err(ConnectionError(FRAME_SIZE_ERROR))
      else if Low31(FromU32(p)) == 0 then
        if id == 0 then Err(ConnectionError(PROTOCOL_ERROR)) else Err(BadStream(id, PROTOCOL_ERROR))
      else Ok(WindowUpdate(id, Low31(FromU32(p))))
    case 9 =>
      if id == 0 then Err(ConnectionError(PROTOCOL_ERROR)) else Ok(Continuation(id, Has(flags, 0x4), p))
    case _ => Ok(Unknown(kind, flags, id, p))
  }

  datatype FrameHeader = FrameHeader(length: nat, kind: Byte, flags: Byte, id: nat)

  /** readFrameHeader */
  function ParseHeader(b: Octets): (h: FrameHeader)
    requires |b| >= 9
    ensures IsU31(h.id)
  {
    FrameHeader(FromU24(b[..3]), b[3], b[4], Low31(FromU32(b[5..9])))
  }

  // ---- a frame reads back ----

  lemma BitsBack(a: bool, b: bool, c: bool, d: bool)
    ensures var f := Bit(a, 0x1) + Bit(b, 0x4) + Bit(c, 0x8) + Bit(d, 0x20);
            (Has(f, 0x1) <==> a) && (Has(f, 0x4) <==> b) && (Has(f, 0x8) <==> c) && (Has(f, 0x20) <==> d)
  {
  }

  lemma PriorityBack(p: PriorityParam)
    requires ParamOk(p)
    ensures ParsePriorityParam(PriorityBytes(p)) == p
  {
    var v := p.dep + if p.exclusive then 0x8000_0000 else 0;
    U32Back(v);
    assert PriorityBytes(p)[..4] == U32(v);
  }

  lemma {:induction false} SettingsBack(s: seq<Setting>)
    requires forall i :: 0 <= i < |s| ==> s[i].id < 0x1_0000 && IsU32(s[i].val)
    ensures ParseSettings(SettingsBytes(s)) == s
  {
    hide U16, U32, FromU16, FromU32;
    if s != [] {
      var p := SettingsBytes(s);
      SettingsBack(s[1..]);
      U16Back(s[0].id);
      U32Back(s[0].val);
      assert p[..2] == U16(s[0].id) && p[2..6] == U32(s[0].val) && p[6..] == SettingsBytes(s[1..]);
      assert s == [s[0]] + s[1..];
    }
  }

  lemma DataBack(f: Frame)
    requires Legal(f) && f.Data?
    ensures Parse(f.Kind(), FlagsOf(f), f.StreamId(), Payload(f)) == Ok(f)
  {
    BitsBack(f.endStream, false, f.pad.Some?, false);
    var p := Payload(f);
    if f.pad.Some? {
      assert p[1..|p| - p[0]] == f.data;
    } else {
      assert p == f.data;
    }
  }

  lemma HeadersRestBack(f: Frame, p: Octets)
    requires Legal(f) && f.Headers?
    requires p == (if f.priority.Some? then PriorityBytes(f.priority.value) else []) + f.frag + Zeros(f.padding)
    ensures ParseHeadersRest(FlagsOf(f), f.id, p, f.padding) == Ok(f)
  {
    hide PriorityBytes, ParsePriorityParam;
    BitsBack(f.endStream, f.endHeaders, f.padding != 0, f.priority.Some?);
    if f.priority.Some? {
      PriorityBack(f.priority.value);
      assert p[..5] == PriorityBytes(f.priority.value) && p[5..|p| - f.padding] == f.frag;
    } else {
      assert p[..|p| - f.padding] == f.frag;
    }
  }

  lemma HeadersBack(f: Frame)
    requires Legal(f) && f.Headers?
    ensures Parse(f.Kind(), FlagsOf(f), f.StreamId(), Payload(f)) == Ok(f)
  {
    hide PriorityBytes, ParsePriorityParam, ParseHeadersRest;
    BitsBack(f.endStream, f.endHeaders, f.padding != 0, f.priority.Some?);
    var p := (if f.priority.Some? then PriorityBytes(f.priority.value) else []) + f.frag + Zeros(f.padding);
    HeadersRestBack(f, p);
    assert f.padding == 0 ==> Payload(f) == p;
    assert f.padding != 0 ==> Payload(f) == [f.padding] + p;
  }

  lemma PushBack(f: Frame)
    requires Legal(f) && f.PushPromise?
    ensures Parse(f.Kind(), FlagsOf(f), f.StreamId(), Payload(f)) == Ok(f)
  {
    hide FromU32, U32;
    BitsBack(false, f.endHeaders, f.padding != 0, false);
    var p := U32(f.promised) + f.frag + Zeros(f.padding);
    assert f.padding == 0 ==> Payload(f) == p;
    assert f.padding != 0 ==> Payload(f) == [f.padding] + p;
    U32Back(f.promised);
    assert p[..4] == U32(f.promised) && p[4..|p| - f.padding] == f.frag;
  }

  lemma GoAwayBack(f: Frame)
    requires Legal(f) && f.GoAway?
    ensures Parse(f.Kind(), FlagsOf(f), f.StreamId(), Payload(f)) == Ok(f)
  {
    hide FromU32, U32;
    var p := Payload(f);
    U32Back(f.last);
    U32Back(f.code);
    assert p[..4] == U32(f.last) && p[4..8] == U32(f.code) && p[8..] == f.debug;
  }

  /** Every parser undoes its writer. */
  lemma PayloadBack(f: Frame)
    requires Legal(f)
    ensures Parse(f.Kind(), FlagsOf(f), f.StreamId(), Payload(f)) == Ok(f)
  {
    hide FromU32, U32, Legal, Payload, FlagsOf, Parse;
    match f {
      case Data(_, _, _, _) => DataBack(f);
      case Headers(_, _, _, _, _, _) => HeadersBack(f);
      case PushPromise(_, _, _, _, _) => PushBack(f);
      case GoAway(_, _, _) => GoAwayBack(f);
      case _ => SmallBack(f);
    }
  }

  lemma SmallBack(f: Frame)
    requires Legal(f) && !f.Data? && !f.Headers? && !f.PushPromise? && !f.GoAway?
    ensures Parse(f.Kind(), FlagsOf(f), f.StreamId(), Payload(f)) == Ok(f)
  {
    hide FromU32, U32, PriorityBytes, ParsePriorityParam, ParseSettings, SettingsBytes;
    match f {
      case Priority(_, param) => PriorityBack(param);
      case RstStream(_, code) => U32Back(code);
      case Settings(s) => SettingsFrameBack(s);
      case SettingsAck => AckBack();
      case WindowUpdate(_, increment) => U32Back(increment);
      case _ =>
    }
  }

  lemma SettingsFrameBack(s: seq<Setting>)
    requires Legal(Settings(s))
    ensures ParseSettingsFrame(0, 0, SettingsBytes(s)) == Ok(Settings(s))
  {
    hide SettingsBytes, ParseSettings;
    SettingsBack(s);
  }

  lemma AckBack()
    ensures ParseSettingsFrame(1, 0, []) == Ok(SettingsAck)
  {
  }

  /** What a parser accepts is what the writers could have written, except that
      nobody rejects a PUSH_PROMISE that promises stream 0 (section 6.6 of RFC 7540
      requires a stream that is idle). */
  lemma ParsedIsLegal(kind: Byte, flags: Byte, id: nat, p: Octets)
    requires IsU31(id) && Parse(kind, flags, id, p).Ok?
    ensures var f := Parse(kind, flags, id, p).value; Legal(f) <==> !(f.PushPromise? && f.promised == 0)
    ensures Parse(kind, flags, id, p).value.Kind() == kind && Parse(kind, flags, id, p).value.StreamId() == id
  {
    hide FromU32, FromU16, WindowOk;
  }

  /** Such promises are read on every stream. */
  lemma PromiseOfZero(id: nat, frag: Octets)
    requires 0 < id && IsU31(id)
    ensures Parse(5, 0x4, id, [0, 0, 0, 0] + frag) == Ok(PushPromise(id, 0, true, frag, 0))
    ensures !Legal(PushPromise(id, 0, true, frag, 0))
  {
    var p := [0, 0, 0, 0] + frag;
    assert p[..4] == [0, 0, 0, 0] && p[4..|p| - 0] == frag;
  }

  // ---- the order of frames ----

  /** checkFrameOrder: the stream whose header block is open afterwards, or 0. */
  function CheckOrder(last: nat, h: FrameHeader): (r: Option<nat>) {
    if (if last != 0 then h.kind != 9 || h.id != last else h.kind == 9) then None
    else if h.kind == 1 || h.kind == 9 then Some(if Has(h.flags, 0x4) then 0 else h.id)
    else Some(last)
  }

  /** The same on whole frames. */
  function After(last: nat, f: Frame): Option<nat> {
    if (if last != 0 then !f.Continuation? || f.id != last else f.Continuation?) then None
    else if f.Headers? || f.Continuation? then Some(if f.endHeaders then 0 else f.id)
    else Some(last)
  }

  predicate InOrder(last: nat, fs: seq<Frame>)
    decreases fs
  {
    fs == [] || (After(last, fs[0]).Some? && InOrder(After(last, fs[0]).value, fs[1..]))
  }

  function LastAfter(last: nat, fs: seq<Frame>): nat
    requires InOrder(last, fs)
    decreases fs
  {
    if fs == [] then last else LastAfter(After(last, fs[0]).value, fs[1..])
  }

  /** The frame leaves its header block open. */
  predicate Opens(f: Frame) { (f.Headers? || f.Continuation?) && !f.endHeaders }

  /** Sections 4.3 and 6.10 of RFC 7540: a CONTINUATION comes next exactly after
      a frame that leaves its header block open, and on the same stream. */
  predicate MayFollow(before: Frame, f: Frame) {
    if Opens(before) then f.Continuation? && f.StreamId() == before.StreamId() else !f.Continuation?
  }

  /** The rule for a whole connection, without any state. */
  predicate Contiguous(fs: seq<Frame>) {
    (fs != [] ==> !fs[0].Continuation?) && Chained(fs)
  }

  predicate Chained(fs: seq<Frame>) { forall i :: 0 < i < |fs| ==> MayFollow(fs[i - 1], fs[i]) }

  ghost predicate AllLegal(fs: seq<Frame>) { forall i :: 0 <= i < |fs| ==> Legal(fs[i]) }

  lemma ChainedTail(fs: seq<Frame>)
    requires fs != []
    ensures Chained(fs) <==> (|fs| > 1 ==> MayFollow(fs[0], fs[1])) && Chained(fs[1..])
  {
    hide MayFollow;
    var tl := fs[1..];
    if (|fs| > 1 ==> MayFollow(fs[0], fs[1])) && Chained(tl) {
      forall i | 0 < i < |fs| ensures MayFollow(fs[i - 1], fs[i]) {
        if i > 1 { assert MayFollow(tl[i - 2], tl[i - 1]); }
      }
    }
  }

  lemma {:induction false} OrderFrom(prev: Frame, fs: seq<Frame>)
    requires Legal(prev) && AllLegal(fs)
    ensures InOrder(if Opens(prev) then prev.StreamId() else 0, fs) <==>
              (fs != [] ==> MayFollow(prev, fs[0])) && Chained(fs)
    decreases fs
  {
    if fs != [] {
      hide Chained;
      OrderFrom(fs[0], fs[1..]);
      ChainedTail(fs);
      var last := if Opens(prev) then prev.StreamId() else 0;
      assert After(last, fs[0]).Some? ==> After(last, fs[0]).value == if Opens(fs[0]) then fs[0].StreamId() else 0;
    }
  }

  /** The reader's one register decides exactly the rule. */
  lemma OrderIsContiguity(fs: seq<Frame>)
    requires AllLegal(fs)
    ensures InOrder(0, fs) <==> Contiguous(fs)
  {
    OrderFrom(SettingsAck, fs);
  }
}
