/** The state behind the client's header lock: requests on one connection, the
    two locks that a request holds while it opens its stream, and the frames
    handed to the writer (xnet/http2/transport.go:1463-1539). */
module ClientState {
  import opened Frames
  import opened Framing
  import opened FramerIO

  type RequestId = nat

  /** Where the goroutine of a request is. */
  datatype Phase =
    | Queued        // wants reqHeaderMu
    | Locked        // holds it, wants mu
    | Waiting       // in cond.Wait for a slot
    | Opened        // has a stream, wants wmu
    | Starting      // holds wmu, nothing written
    | Writing       // holds wmu, HEADERS written
    | HeadersOut    // the header block is out
    | Leaving       // failed, about to release reqHeaderMu
    | Body          // released reqHeaderMu
    | Trailing      // holds wmu to write trailers
    | Cleaning      // in cleanupWriteRequest
    | Gone

  datatype Request = Request(phase: Phase, id: nat)

  /** A header block on its way out, for the holder of wmu. */
  datatype Job = Job(req: RequestId, id: nat, endStream: bool, hdrs: Octets, first: bool, max: nat)

  /** What addStreamLocked found: the slots in use with the new stream, and the
      peer's limit. */
  datatype Opening = Opening(id: nat, inUse: nat, limit: nat)

  predicate Critical(p: Phase) {
    p.Locked? || p.Waiting? || p.Opened? || p.Starting? || p.Writing? || p.HeadersOut? || p.Leaving?
  }

  predicate Writes(p: Phase) { p.Starting? || p.Writing? || p.Trailing? }

  // ---- the locks ----

  ghost predicate LocksOk(reqs: map<RequestId, Request>, headerMu: Option<RequestId>, wmu: Option<Job>) {
    (forall r :: r in reqs ==> (Critical(reqs[r].phase) <==> headerMu == Some(r)))
    && (forall r :: r in reqs ==> (Writes(reqs[r].phase) <==> wmu.Some? && wmu.value.req == r))
    && (headerMu.Some? ==> headerMu.value in reqs)
    && (wmu.Some? ==> wmu.value.req in reqs && JobOk(reqs[wmu.value.req], wmu.value))
  }

  ghost predicate JobOk(q: Request, j: Job) {
    j.id == q.id && 16384 <= j.max <= MAX_FRAME_SIZE
    && (q.phase.Starting? ==> j.first && j.hdrs != []) && (q.phase.Writing? ==> !j.first) && (j.first ==> j.hdrs != [])
  }

  predicate SameOrOf(r: RequestId, h: Option<RequestId>, h': Option<RequestId>) {
    h' == h || ((h.None? || h == Some(r)) && (h'.None? || h' == Some(r)))
  }

  predicate SameOrBy(r: RequestId, w: Option<Job>, w': Option<Job>) {
    w' == w || ((w.None? || w.value.req == r) && (w'.None? || w'.value.req == r))
  }

  /** One request moves on, and takes or releases locks. */
  lemma LocksMoved(reqs: map<RequestId, Request>, h: Option<RequestId>, w: Option<Job>, r: RequestId, q: Request,
                   h': Option<RequestId>, w': Option<Job>)
    requires LocksOk(reqs, h, w) && r in reqs && SameOrOf(r, h, h') && SameOrBy(r, w, w')
    requires Critical(q.phase) <==> h' == Some(r)
    requires Writes(q.phase) <==> w'.Some? && w'.value.req == r
    requires w'.Some? && w'.value.req == r ==> JobOk(q, w'.value)
    ensures LocksOk(reqs[r := q], h', w')
  {
    hide JobOk, Critical, Writes;
  }

  lemma LocksQueued(reqs: map<RequestId, Request>, h: Option<RequestId>, w: Option<Job>, r: RequestId)
    requires LocksOk(reqs, h, w) && r !in reqs
    ensures LocksOk(reqs[r := Request(Queued, 0)], h, w)
  {
    hide JobOk;
  }

  /** At most one request waits for a slot: the holder of reqHeaderMu. */
  ghost predicate PendingOk(reqs: map<RequestId, Request>, h: Option<RequestId>, pending: nat) {
    pending == if h.Some? && h.value in reqs && reqs[h.value].phase.Waiting? then 1 else 0
  }

  // ---- the streams ----

  /** Before addStreamLocked. */
  predicate Early(p: Phase) { p.Queued? || p.Locked? || p.Waiting? }

  predicate HasStream(q: Request) { q.id != 0 && !q.phase.Gone? }

  /** The streams map holds exactly the streams of the requests that are not gone. */
  ghost predicate StreamsOk(reqs: map<RequestId, Request>, streams: map<nat, RequestId>, next: nat) {
    next % 2 == 1 && next < 0x8000_0000
    && (forall r :: r in reqs && Early(reqs[r].phase) ==> reqs[r].id == 0)
    && (forall r :: r in reqs ==> reqs[r].id < next && (reqs[r].id != 0 ==> reqs[r].id % 2 == 1))
    && (forall r :: r in reqs && HasStream(reqs[r]) ==> reqs[r].id in streams && streams[reqs[r].id] == r)
    && (forall id ::
         id in streams ==> streams[id] in reqs && HasStream(reqs[streams[id]]) && reqs[streams[id]].id == id)
  }

  lemma StreamAdded(reqs: map<RequestId, Request>, streams: map<nat, RequestId>, next: nat, r: RequestId, p: Phase)
    requires StreamsOk(reqs, streams, next) && r in reqs && reqs[r].id == 0 && !p.Gone? && !Early(p)
             && next + 2 < 0x8000_0000
    ensures StreamsOk(reqs[r := Request(p, next)], streams[next := r], next + 2) && next !in streams
  {
  }

  lemma StreamForgotten(reqs: map<RequestId, Request>, streams: map<nat, RequestId>, next: nat, r: RequestId)
    requires StreamsOk(reqs, streams, next) && r in reqs && HasStream(reqs[r])
    ensures reqs[r].id in streams
    ensures StreamsOk(reqs[r := reqs[r].(phase := Gone)], streams - {reqs[r].id}, next)
  {
    var reqs' := reqs[r := reqs[r].(phase := Gone)];
    forall s | s in reqs' && HasStream(reqs'[s]) ensures reqs'[s].id in streams - {reqs[r].id} {
      assert streams[reqs[s].id] == s;
    }
  }

  lemma StreamsKept(reqs: map<RequestId, Request>, streams: map<nat, RequestId>, next: nat, r: RequestId, p: Phase)
    requires StreamsOk(reqs, streams, next) && r in reqs && (p.Gone? ==> reqs[r].id == 0)
             && (reqs[r].phase.Gone? ==> reqs[r].id == 0)
    requires Early(p) ==> Early(reqs[r].phase)
    ensures StreamsOk(reqs[r := reqs[r].(phase := p)], streams, next)
  {
  }

  lemma RequestAdded(reqs: map<RequestId, Request>, streams: map<nat, RequestId>, next: nat, r: RequestId)
    requires StreamsOk(reqs, streams, next) && r !in reqs
    ensures StreamsOk(reqs[r := Request(Queued, 0)], streams, next)
  {
  }

  // ---- the wire ----

  /** Streams in the order of their first HEADERS. */
  function Starts(wire: seq<Frame>): (ids: seq<nat>) {
    if wire == [] then []
    else
      var before, f := Starts(wire[..|wire| - 1]), wire[|wire| - 1];
      if f.Headers? && f.id !in before then before + [f.id] else before
  }

  lemma StartsSnoc(wire: seq<Frame>, f: Frame)
    ensures Starts(wire + [f]) == if f.Headers? && f.id !in Starts(wire) then Starts(wire) + [f.id] else Starts(wire)
  {
    assert (wire + [f])[..|wire|] == wire;
  }

  ghost predicate Increasing(ids: seq<nat>) { forall i, j :: 0 <= i < j < |ids| ==> ids[i] < ids[j] }

  ghost predicate AllBelow(ids: seq<nat>, bound: nat) { forall i :: 0 <= i < |ids| ==> ids[i] < bound }

  ghost predicate AllOdd(ids: seq<nat>) { forall i :: 0 <= i < |ids| ==> ids[i] % 2 == 1 }

  /** The header blocks so far are whole, but for the one that the holder of wmu
      is writing.  After a write error nothing more is written. */
  ghost predicate WireOk(wire: seq<Frame>, wmu: Option<Job>, werr: bool) {
    AllFit(wire, MAX_FRAME_SIZE) && InOrder(0, wire)
    && (!werr ==>
         LastAfter(0, wire) == if wmu.Some? && !wmu.value.first && wmu.value.hdrs != [] then wmu.value.id else 0)
  }

  lemma {:induction false} InOrderSnoc(last: nat, wire: seq<Frame>, f: Frame)
    requires InOrder(last, wire) && After(LastAfter(last, wire), f).Some?
    ensures InOrder(last, wire + [f]) && LastAfter(last, wire + [f]) == After(LastAfter(last, wire), f).value
    decreases wire
  {
    hide After;
    if wire == [] {
      assert wire + [f] == [f] && [f][1..] == [];
    } else {
      InOrderSnoc(After(last, wire[0]).value, wire[1..], f);
      assert (wire + [f])[1..] == wire[1..] + [f];
    }
  }

  // ---- who has started on the wire ----

  /** The request may write HEADERS, but has not. */
  predicate Fresh(p: Phase) { p.Opened? || p.Starting? }

  /** The request wrote its HEADERS. */
  predicate Started(p: Phase) { p.Writing? || p.HeadersOut? || p.Body? || p.Trailing? }

  /** A stream that is yet to be started is above all that were. */
  ghost predicate StartsOk(reqs: map<RequestId, Request>, wire: seq<Frame>, next: nat) {
    var ids := Starts(wire);
    Increasing(ids) && AllOdd(ids) && AllBelow(ids, next)
    && (forall r :: r in reqs && Fresh(reqs[r].phase) ==> reqs[r].id != 0 && AllBelow(ids, reqs[r].id))
    && (forall r :: r in reqs && Started(reqs[r].phase) ==> reqs[r].id in ids)
  }

  lemma StartsKept(reqs: map<RequestId, Request>, wire: seq<Frame>, next: nat, r: RequestId, p: Phase)
    requires StartsOk(reqs, wire, next) && r in reqs
    requires Fresh(p) ==> Fresh(reqs[r].phase)
    requires Started(p) ==> Started(reqs[r].phase)
    ensures StartsOk(reqs[r := reqs[r].(phase := p)], wire, next)
  {
    hide Starts;
  }

  lemma StartsOpened(reqs: map<RequestId, Request>, wire: seq<Frame>, next: nat, r: RequestId)
    requires StartsOk(reqs, wire, next) && r in reqs && next > 0
    ensures StartsOk(reqs[r := Request(Opened, next)], wire, next + 2)
  {
    hide Starts;
  }

  lemma StartsQueued(reqs: map<RequestId, Request>, wire: seq<Frame>, next: nat, r: RequestId)
    requires StartsOk(reqs, wire, next) && r !in reqs
    ensures StartsOk(reqs[r := Request(Queued, 0)], wire, next)
  {
    hide Starts;
  }

  /** The first HEADERS of a stream. */
  lemma StartsBegun(reqs: map<RequestId, Request>, wire: seq<Frame>, next: nat, r: RequestId, f: Frame)
    requires StartsOk(reqs, wire, next) && r in reqs && reqs[r].phase.Starting? && f.Headers? && f.id == reqs[r].id
    requires reqs[r].id % 2 == 1 && reqs[r].id < next
    requires forall s :: s in reqs && Fresh(reqs[s].phase) ==> s == r
    ensures StartsOk(reqs[r := reqs[r].(phase := Writing)], wire + [f], next)
    ensures Starts(wire + [f]) == Starts(wire) + [f.id]
  {
    StartsSnoc(wire, f);
    hide Starts;
    var ids := Starts(wire);
    assert f.id !in ids;
    var reqs' := reqs[r := reqs[r].(phase := Writing)];
    forall s | s in reqs' && Started(reqs'[s].phase) ensures reqs'[s].id in ids + [f.id] {
      if s != r { assert reqs[s].id in ids; }
    }
  }

  /** Any other frame. */
  lemma StartsSame(reqs: map<RequestId, Request>, wire: seq<Frame>, next: nat, f: Frame)
    requires StartsOk(reqs, wire, next) && (f.Headers? ==> f.id in Starts(wire))
    ensures StartsOk(reqs, wire + [f], next) && Starts(wire + [f]) == Starts(wire)
  {
    StartsSnoc(wire, f);
    hide Starts;
  }

  /** Every stream was opened within the peer's limit of that moment. */
  ghost predicate WithinLimit(log: seq<Opening>) { forall i :: 0 <= i < |log| ==> log[i].inUse <= log[i].limit }

  lemma LimitKept(log: seq<Opening>, o: Opening)
    requires WithinLimit(log) && o.inUse <= o.limit
    ensures WithinLimit(log + [o])
  {
  }

  // ---- header blocks on the wire ----

  function NextChunk(j: Job): (chunk: Octets)
    requires j.max > 0
    ensures chunk <= j.hdrs && |chunk| <= j.max
  {
    if |j.hdrs| > j.max then j.hdrs[..j.max] else j.hdrs
  }

  /** The frame that writeHeaders writes next. */
  function NextFrame(j: Job): Frame
    requires j.max > 0
  {
    var chunk := NextChunk(j);
    if j.first then Headers(j.id, j.endStream, |chunk| == |j.hdrs|, None, chunk, 0)
      else Continuation(j.id, |chunk| == |j.hdrs|, chunk)
  }

  function AfterChunk(j: Job): Job
    requires j.max > 0
  {
    j.(hdrs := j.hdrs[|NextChunk(j)|..], first := false)
  }

  lemma NextFrameFits(j: Job)
    requires 0 < j.max <= MAX_FRAME_SIZE && 0 < j.id < 0x8000_0000
    ensures Fits(NextFrame(j), MAX_FRAME_SIZE)
  {
  }

  lemma WireChunk(wire: seq<Frame>, j: Job)
    requires WireOk(wire, Some(j), false) && j.hdrs != [] && 0 < j.max <= MAX_FRAME_SIZE && 0 < j.id < 0x8000_0000
    ensures WireOk(wire + [NextFrame(j)], Some(AfterChunk(j)), false)
  {
    hide InOrder, LastAfter, Fits;
    NextFrameFits(j);
    InOrderSnoc(0, wire, NextFrame(j));
  }

  lemma WireOther(wire: seq<Frame>, f: Frame)
    requires WireOk(wire, None, false) && Fits(f, MAX_FRAME_SIZE) && !f.Headers? && !f.Continuation?
    ensures WireOk(wire + [f], None, false)
  {
    hide InOrder, LastAfter, Fits;
    InOrderSnoc(0, wire, f);
  }

  /** wmu changes hands between header blocks. */
  lemma WireBetween(wire: seq<Frame>, w: Option<Job>, w': Option<Job>, werr: bool)
    requires WireOk(wire, w, werr)
    requires w.None? || w.value.first || w.value.hdrs == [] || werr
    requires w'.None? || w'.value.first || w'.value.hdrs == []
    ensures WireOk(wire, w', werr)
  {
  }

  lemma WireFailed(wire: seq<Frame>, w: Option<Job>, werr: bool)
    requires WireOk(wire, w, werr)
    ensures WireOk(wire, w, true)
  {
  }
}
