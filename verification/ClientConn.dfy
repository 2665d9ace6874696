/** The client connection as concurrent requests drive it.  A method is what one
    goroutine does without letting go of a lock that others could take: mu is
    never held from one method to the next, reqHeaderMu and wmu are
    (xnet/http2/transport.go). */
module ClientConn {
  import opened Frames
  import opened Framing
  import opened FramerIO
  import opened ClientState

  class Conn {
    const singleUse: bool
    const strictMaxConcurrentStreams: bool
    var nextStreamID: nat
    var streams: map<nat, RequestId>
    var streamsReserved: nat
    var pendingRequests: nat
    var pendingResets: nat
    var maxConcurrentStreams: nat
    var maxFrameSize: nat
    var closed: bool
    var closedOnIdle: bool
    var closing: bool
    var doNotReuse: bool
    var goAway: bool
    var rstStreamPingsBlocked: bool
    var werr: bool
    var reqHeaderMu: Option<RequestId>
    var wmu: Option<Job>
    var reqs: map<RequestId, Request>
    var wire: seq<Frame>             // what the Framer was told to write
    ghost var openings: seq<Opening>
    ghost var highest: nat              // the largest limit of the peer so far
    ghost var tickets: nat              // reservations whose request has not arrived
    ghost var unspent: set<RequestId>   // requests that have not used theirs
    ghost var deficit: int              // reservations that are not counted any more

    constructor (single: bool, strict: bool)
      ensures Inv() && wire == [] && reqs == map[] && fresh(this) && !closed && streamsReserved == 0 && tickets == 0
              && unspent == {}
      ensures singleUse == single && strictMaxConcurrentStreams == strict && CanTakeNewRequest(false)
              && maxConcurrentStreams == 100
      ensures reqHeaderMu.None? && streams == map[] && nextStreamID == 1 && pendingRequests == 0 && pendingResets == 0
      ensures !goAway && !closing && !doNotReuse
    {
      singleUse, strictMaxConcurrentStreams := single, strict;
      nextStreamID, streams, streamsReserved, pendingRequests, pendingResets := 1, map[], 0, 0, 0;
      maxConcurrentStreams, maxFrameSize := 100, 16384;
      closed, closedOnIdle, closing, doNotReuse, goAway, rstStreamPingsBlocked, werr := false, false, false, false,
        false, false, false;
      reqHeaderMu, wmu, reqs, wire, openings := None, None, map[], [], [];
      highest, tickets, unspent, deficit := 100, 0, {}, 0;
    }

    ghost predicate Inv()
      reads this`nextStreamID, this`streams, this`pendingRequests, this`maxConcurrentStreams,
            this`maxFrameSize, this`werr, this`reqHeaderMu, this`wmu, this`reqs, this`wire, this`openings,
            this`highest, this`streamsReserved, this`tickets, this`unspent, this`deficit
    {
      LocksOk(reqs, reqHeaderMu, wmu) && PendingOk(reqs, reqHeaderMu, pendingRequests)
      && StreamsOk(reqs, streams, nextStreamID) && WireOk(wire, wmu, werr)
      && StartsOk(reqs, wire, nextStreamID) && WithinLimit(openings)
      && 16384 <= maxFrameSize <= MAX_FRAME_SIZE
      && |streams| <= highest && maxConcurrentStreams <= highest && Ledger()
    }

    /** Reservations: what streamsReserved counts, and what it has lost count of. */
    ghost predicate Ledger()
      reads this`reqs, this`streamsReserved, this`tickets, this`unspent, this`deficit
    {
      unspent <= reqs.Keys && 0 <= deficit && streamsReserved + deficit == tickets + |unspent|
    }

    /** Header blocks are whole: never interleaved with other frames, on any
        stream. */
    lemma BlocksAreContiguous()
      requires Inv()
      ensures Contiguous(wire)
    {
      hide Contiguous, LocksOk, StreamsOk, StartsOk, InOrder, LastAfter;
      OrderIsContiguity(wire);
    }

    /** What the server reads, once all is through, is what was written. */
    lemma WireReadsBack()
      requires Inv()
      ensures ReadAll(Input(Written(wire), 0), MAX_FRAME_SIZE) == Session(wire, EOF)
    {
      hide LocksOk, StreamsOk, StartsOk, InOrder, LastAfter;
      AllReadBack(wire, 0, MAX_FRAME_SIZE);
    }

    /** Section 5.1.1 of RFC 7540: streams start in increasing odd numbers of 31
        bits. */
    lemma Facts()
      requires Inv()
      ensures Increasing(Starts(wire)) && AllOdd(Starts(wire)) && AllBelow(Starts(wire), 0x8000_0000)
      ensures WithinLimit(openings) && AllFit(wire, MAX_FRAME_SIZE) && |streams| <= highest
      ensures streamsReserved == tickets + |unspent| <==> deficit == 0
    {
      hide LocksOk, Starts;
    }

    // ---- the slots ----

    function CurrentRequestCount(): nat
      reads this`streams, this`streamsReserved, this`pendingResets
    {
      |streams| + streamsReserved + pendingResets
    }

    /** idleStateLocked; tooIdle is what the clock says. */
    predicate CanTakeNewRequest(tooIdle: bool)
      reads this
    {
      if singleUse && nextStreamID > 1 then false
      else
        (!goAway && !closed && !closing && (strictMaxConcurrentStreams || CurrentRequestCount() < maxConcurrentStreams)
         && !doNotReuse && nextStreamID + 2 * pendingRequests < 0x7fff_ffff && !tooIdle)
        || (nextStreamID == 1 && streamsReserved == 0 && closed && !closedOnIdle)
    }

    method ReserveNewRequest(tooIdle: bool) returns (ok: bool)
      requires Inv()
      modifies this`streamsReserved, this`tickets
      ensures Inv() && ok == old(CanTakeNewRequest(tooIdle))
              && streamsReserved == old(streamsReserved) + if ok then 1 else 0
      ensures tickets == old(tickets) + if ok then 1 else 0
      ensures ok && !strictMaxConcurrentStreams && !closed ==> CurrentRequestCount() <= maxConcurrentStreams
    {
      hide LocksOk, StreamsOk, StartsOk, WireOk;
      ok := CanTakeNewRequest(tooIdle);
      if ok {
        streamsReserved, tickets := streamsReserved + 1, tickets + 1;
      }
    }

    /** decrStreamReservationsLocked, on behalf of r.  The count falls below the
        reservations that are still there if and only if r has none to give back
        and there are some. */
    method Unreserve(ghost r: RequestId)
      requires Inv()
      modifies this`streamsReserved, this`unspent, this`deficit
      ensures Inv() && unspent == old(unspent) - {r}
      ensures streamsReserved == if old(streamsReserved) > 0 then old(streamsReserved) - 1 else 0
      ensures deficit == old(deficit) + (if r in old(unspent) then 0 else 1) - if old(streamsReserved) > 0 then 0 else 1
      ensures deficit > old(deficit) <==> r !in old(unspent) && old(streamsReserved) > 0
    {
      hide LocksOk, StreamsOk, StartsOk, WireOk;
      deficit := deficit + (if r in unspent then 0 else 1) - (if streamsReserved > 0 then 0 else 1);
      unspent := unspent - {r};
      if streamsReserved > 0 {
        streamsReserved := streamsReserved - 1;
      }
    }

    // ---- a request up to its stream ----

    /** RoundTrip; reserved says whether the caller has a reservation. */
    method Arrive(r: RequestId, ghost reserved: bool)
      requires Inv() && r !in reqs && (reserved ==> tickets > 0)
      modifies this`reqs, this`tickets, this`unspent
      ensures Inv() && reqs == old(reqs)[r := Request(Queued, 0)]
      ensures unspent == (if reserved then old(unspent) + {r} else old(unspent))
              && tickets == old(tickets) - if reserved then 1 else 0
    {
      hide LocksOk, StreamsOk, StartsOk, WireOk;
      LocksQueued(reqs, reqHeaderMu, wmu, r);
      RequestAdded(reqs, streams, nextStreamID, r);
      StartsQueued(reqs, wire, nextStreamID, r);
      HolderKnown();
      reqs := reqs[r := Request(Queued, 0)];
      if reserved {
        tickets, unspent := tickets - 1, unspent + {r};
      }
    }

    lemma HolderKnown()
      requires LocksOk(reqs, reqHeaderMu, wmu)
      ensures reqHeaderMu.Some? ==> reqHeaderMu.value in reqs
    {
    }

    /** A move that neither opens nor starts a stream: new locks, new phase. */
    method Move(r: RequestId, p: Phase, mu: Option<RequestId>, w: Option<Job>)
      requires Inv() && r in reqs && !reqs[r].phase.Waiting? && !p.Waiting?
      requires SameOrOf(r, reqHeaderMu, mu) && SameOrBy(r, wmu, w)
      requires Critical(p) <==> mu == Some(r)
      requires Writes(p) <==> w.Some? && w.value.req == r
      requires w.Some? && w.value.req == r ==> JobOk(reqs[r].(phase := p), w.value)
      requires WireOk(wire, w, werr)
      requires (p.Gone? ==> reqs[r].id == 0) && !reqs[r].phase.Gone? && (Early(p) ==> Early(reqs[r].phase))
      requires (Fresh(p) ==> Fresh(reqs[r].phase)) && (Started(p) ==> Started(reqs[r].phase))
      modifies this`reqs, this`reqHeaderMu, this`wmu
      ensures Inv() && reqs == old(reqs)[r := old(reqs[r]).(phase := p)] && reqHeaderMu == mu && wmu == w
    {
      hide LocksOk, StreamsOk, StartsOk, WireOk, JobOk, Critical, Writes, Fresh, Started;
      LocksMoved(reqs, reqHeaderMu, wmu, r, reqs[r].(phase := p), mu, w);
      StreamsKept(reqs, streams, nextStreamID, r, p);
      StartsKept(reqs, wire, nextStreamID, r, p);
      reqs, reqHeaderMu, wmu := reqs[r := reqs[r].(phase := p)], mu, w;
    }

    /** reqHeaderMu <- struct{}{} */
    method Acquire(r: RequestId)
      requires Inv() && r in reqs && reqs[r].phase.Queued? && reqHeaderMu.None?
      modifies this`reqs, this`reqHeaderMu, this`wmu
      ensures Inv() && reqs == old(reqs)[r := old(reqs[r]).(phase := Locked)] && reqHeaderMu == Some(r)
    {
      NotWriting(r);
      Move(r, Locked, Some(r), wmu);
    }

    method CancelQueued(r: RequestId)
      requires Inv() && r in reqs && reqs[r].phase.Queued?
      modifies this`reqs, this`reqHeaderMu, this`wmu
      ensures Inv() && reqs == old(reqs)[r := old(reqs[r]).(phase := Cleaning)] && reqHeaderMu == old(reqHeaderMu)
    {
      NotWriting(r);
      NotHolding(r);
      Move(r, Cleaning, reqHeaderMu, wmu);
    }

    /** <-reqHeaderMu, on either way out. */
    method Release(r: RequestId)
      requires Inv() && r in reqs && (reqs[r].phase.HeadersOut? || reqs[r].phase.Leaving?)
      modifies this`reqs, this`reqHeaderMu, this`wmu
      ensures Inv() && reqHeaderMu == None
      ensures reqs == old(reqs)[r := old(reqs[r]).(phase := if old(reqs[r].phase.Leaving?) then Cleaning else Body)]
    {
      NotWriting(r);
      Holding(r);
      Move(r, if reqs[r].phase.Leaving? then Cleaning else Body, None, wmu);
    }

    lemma NotWriting(r: RequestId)
      requires Inv() && r in reqs && !Writes(reqs[r].phase)
      ensures wmu.Some? ==> wmu.value.req != r
    {
      hide StreamsOk, StartsOk, WireOk, JobOk;
    }

    lemma NotHolding(r: RequestId)
      requires Inv() && r in reqs && !Critical(reqs[r].phase)
      ensures reqHeaderMu != Some(r)
    {
      hide StreamsOk, StartsOk, WireOk, JobOk;
    }

    lemma Holding(r: RequestId)
      requires Inv() && r in reqs && Critical(reqs[r].phase)
      ensures reqHeaderMu == Some(r)
    {
      hide StreamsOk, StartsOk, WireOk, JobOk;
    }

    /** The first pass of awaitOpenSlotForStreamLocked. */
    method EnterSlot(r: RequestId, tooIdle: bool, closeRequested: bool)
      requires Inv() && r in reqs && reqs[r].phase.Locked?
      modifies this`reqs, this`reqHeaderMu, this`wmu, this`pendingRequests, this`nextStreamID, this`streams,
               this`openings, this`doNotReuse, this`streamsReserved, this`unspent, this`deficit
      ensures Inv() && old(openings) <= openings && unspent == old(unspent) - {r}
      ensures streamsReserved == if old(streamsReserved) > 0 then old(streamsReserved) - 1 else 0
      ensures deficit > old(deficit) <==> r !in old(unspent) && old(streamsReserved) > 0
      ensures old(closed) ==> reqs == old(reqs)[r := old(reqs[r]).(phase := Leaving)]
    {
      hide Inv;
      Unreserve(r);
      TrySlot(r, tooIdle, closeRequested);
    }

    /** cond.Wait returns. */
    method Wake(r: RequestId, aborted: bool, tooIdle: bool, closeRequested: bool)
      requires Inv() && r in reqs && reqs[r].phase.Waiting?
      modifies this`reqs, this`reqHeaderMu, this`wmu, this`pendingRequests, this`nextStreamID, this`streams,
               this`openings, this`doNotReuse
      ensures Inv() && old(openings) <= openings
      ensures aborted ==> r in reqs && reqs[r].phase.Leaving?
    {
      hide Inv;
      Unwait(r);
      if aborted {
        Give(r);
        return;
      }
      TrySlot(r, tooIdle, closeRequested);
    }

    method Unwait(r: RequestId)
      requires Inv() && r in reqs && reqs[r].phase.Waiting?
      modifies this`reqs, this`pendingRequests
      ensures Inv() && reqs == old(reqs)[r := old(reqs[r]).(phase := Locked)]
    {
      hide LocksOk, StreamsOk, StartsOk, WireOk, JobOk;
      NotWriting(r);
      Holding(r);
      LocksMoved(reqs, reqHeaderMu, wmu, r, reqs[r].(phase := Locked), reqHeaderMu, wmu);
      StreamsKept(reqs, streams, nextStreamID, r, Locked);
      StartsKept(reqs, wire, nextStreamID, r, Locked);
      pendingRequests := pendingRequests - 1;
      reqs := reqs[r := reqs[r].(phase := Locked)];
    }

    method Wait(r: RequestId)
      requires Inv() && r in reqs && reqs[r].phase.Locked?
      modifies this`reqs, this`pendingRequests
      ensures Inv() && reqs == old(reqs)[r := old(reqs[r]).(phase := Waiting)]
    {
      hide LocksOk, StreamsOk, StartsOk, WireOk, JobOk;
      NotWriting(r);
      Holding(r);
      LocksMoved(reqs, reqHeaderMu, wmu, r, reqs[r].(phase := Waiting), reqHeaderMu, wmu);
      StreamsKept(reqs, streams, nextStreamID, r, Waiting);
      StartsKept(reqs, wire, nextStreamID, r, Waiting);
      pendingRequests := pendingRequests + 1;
      reqs := reqs[r := reqs[r].(phase := Waiting)];
    }

    /** One turn of the loop, and addStreamLocked if there is a slot. */
    method TrySlot(r: RequestId, tooIdle: bool, closeRequested: bool)
      requires Inv() && r in reqs && reqs[r].phase.Locked?
      modifies this`reqs, this`reqHeaderMu, this`wmu, this`pendingRequests, this`nextStreamID, this`streams,
               this`openings, this`doNotReuse
      ensures Inv() && r in reqs && old(openings) <= openings
      ensures reqs[r].phase.Leaving? ==> reqs == old(reqs)[r := old(reqs[r]).(phase := Leaving)]
      ensures reqs[r].phase ==
                if old(closed || !CanTakeNewRequest(tooIdle)) then Leaving
                else if old(CurrentRequestCount() < maxConcurrentStreams) then Opened else Waiting
      ensures reqs[r].phase.Opened? ==> |streams| == old(|streams|) + 1 && CurrentRequestCount() <= maxConcurrentStreams
      ensures reqs[r].phase.Opened? ==> reqs[r].id == old(nextStreamID) && nextStreamID == old(nextStreamID) + 2
      ensures !reqs[r].phase.Opened? ==> streams == old(streams) && nextStreamID == old(nextStreamID)
    {
      hide Inv;
      if closed && nextStreamID == 1 && streamsReserved == 0 {
        Give(r);
        return;
      }
      if closed || !CanTakeNewRequest(tooIdle) {
        Give(r);
        return;
      }
      if CurrentRequestCount() < maxConcurrentStreams {
        AddStream(r);
        if closeRequested {
          doNotReuse := true;
        }
        return;
      }
      Wait(r);
    }

    method Give(r: RequestId)
      requires Inv() && r in reqs && reqs[r].phase.Locked?
      modifies this`reqs, this`reqHeaderMu, this`wmu
      ensures Inv() && reqs == old(reqs)[r := old(reqs[r]).(phase := Leaving)]
    {
      NotWriting(r);
      Holding(r);
      Move(r, Leaving, reqHeaderMu, wmu);
    }

    lemma NoIdYet(r: RequestId)
      requires Inv() && r in reqs && Early(reqs[r].phase)
      ensures reqs[r].id == 0 && nextStreamID % 2 == 1
    {
      hide LocksOk, StartsOk, WireOk;
    }

    method AddStream(r: RequestId)
      requires Inv() && r in reqs && reqs[r].phase.Locked?
      requires nextStreamID + 2 * pendingRequests < 0x7fff_ffff && CurrentRequestCount() < maxConcurrentStreams
      modifies this`nextStreamID, this`streams, this`reqs, this`openings
      ensures Inv() && reqs == old(reqs)[r := Request(Opened, old(nextStreamID))] && old(openings) <= openings
      ensures nextStreamID == old(nextStreamID) + 2 && streams == old(streams)[old(nextStreamID) := r]
              && |streams| == old(|streams|) + 1
    {
      hide LocksOk, StreamsOk, StartsOk, WireOk, JobOk, Fits, InOrder;
      NotWriting(r);
      Holding(r);
      NoIdYet(r);
      LocksMoved(reqs, reqHeaderMu, wmu, r, Request(Opened, nextStreamID), reqHeaderMu, wmu);
      StreamAdded(reqs, streams, nextStreamID, r, Opened);
      StartsOpened(reqs, wire, nextStreamID, r);
      var id := nextStreamID;
      reqs, streams, nextStreamID := reqs[r := Request(Opened, id)], streams[id := r], id + 2;
      LimitKept(openings, Opening(id, CurrentRequestCount(), maxConcurrentStreams));
      openings := openings + [Opening(id, CurrentRequestCount(), maxConcurrentStreams)];
    }

    // ---- header blocks ----

    /** encodeAndWriteHeaders up to writeHeaders: wmu is taken, and released if
        the request was cancelled or its headers do not encode. */
    method BeginHeaders(r: RequestId, fails: bool, endStream: bool, hdrs: Octets)
      requires Inv() && r in reqs && reqs[r].phase.Opened? && wmu.None? && (fails || hdrs != [])
      modifies this`reqs, this`reqHeaderMu, this`wmu
      ensures Inv() && reqs == old(reqs)[r := old(reqs[r]).(phase := if fails then Leaving else Starting)]
      ensures wmu == if fails then None else Some(Job(r, old(reqs[r]).id, endStream, hdrs, true, maxFrameSize))
    {
      Holding(r);
      if fails {
        Move(r, Leaving, reqHeaderMu, wmu);
      } else {
        var j := Job(r, reqs[r].id, endStream, hdrs, true, maxFrameSize);
        WireBetween(wire, None, Some(j), werr);
        Move(r, Starting, reqHeaderMu, Some(j));
      }
    }

    /** Trailers, after the body; max was read when the body was begun. */
    method BeginTrailers(r: RequestId, trls: Octets, max: nat)
      requires Inv() && r in reqs && reqs[r].phase.Body? && wmu.None? && trls != [] && 16384 <= max <= MAX_FRAME_SIZE
      modifies this`reqs, this`reqHeaderMu, this`wmu
      ensures Inv() && reqs == old(reqs)[r := old(reqs[r]).(phase := Trailing)]
      ensures wmu == Some(Job(r, old(reqs[r]).id, true, trls, true, max))
    {
      NotHolding(r);
      var j := Job(r, reqs[r].id, true, trls, true, max);
      WireBetween(wire, None, Some(j), werr);
      Move(r, Trailing, reqHeaderMu, Some(j));
    }

    lemma JobFacts()
      requires Inv() && wmu.Some?
      ensures var j := wmu.value;
              j.req in reqs && Writes(reqs[j.req].phase) && JobOk(reqs[j.req], j) && 0 < j.id < 0x8000_0000
                && j.id % 2 == 1 && j.id < nextStreamID
      ensures reqs[wmu.value.req].phase.Starting? ==>
                forall s :: s in reqs && Fresh(reqs[s].phase) ==> s == wmu.value.req
      ensures !reqs[wmu.value.req].phase.Starting? ==> wmu.value.id in Starts(wire)
    {
      hide WireOk, Starts;
      var r := wmu.value.req;
      assert r in reqs && JobOk(reqs[r], wmu.value) && Writes(reqs[r].phase);
      if reqs[r].phase.Starting? {
        assert Critical(reqs[r].phase);
        forall s | s in reqs && Fresh(reqs[s].phase) ensures s == r {
          assert Critical(reqs[s].phase);
        }
      } else {
        assert Started(reqs[r].phase);
      }
    }

    /** One turn of the loop in writeHeaders. */
    method WriteChunk()
      requires Inv() && wmu.Some? && wmu.value.hdrs != [] && !werr
      modifies this`reqs, this`wmu, this`wire
      ensures Inv() && wmu.Some? && old(wmu.value.max) > 0
      ensures wire == old(wire) + [NextFrame(old(wmu.value))] && wmu.value == AfterChunk(old(wmu.value))
      ensures reqs.Keys == old(reqs.Keys)
    {
      hide LocksOk, StreamsOk, StartsOk, WireOk, Starts;
      JobFacts();
      var j := wmu.value;
      var chunk := j.hdrs;
      if |chunk| > j.max {
        chunk := chunk[..j.max];
      }
      var hdrs := j.hdrs[|chunk|..];
      var endHeaders := |hdrs| == 0;
      WireChunk(wire, j);
      if reqs[j.req].phase.Starting? {
        StartsBegun(reqs, wire, nextStreamID, j.req, NextFrame(j));
        StartedLocks(j, reqs[j.req].(phase := Writing));
        StreamsKept(reqs, streams, nextStreamID, j.req, Writing);
        reqs := reqs[j.req := reqs[j.req].(phase := Writing)];
      } else {
        StartsSame(reqs, wire, nextStreamID, NextFrame(j));
        StartedLocks(j, reqs[j.req]);
        assert reqs[j.req := reqs[j.req]] == reqs;
      }
      if j.first {
        wire := wire + [Headers(j.id, j.endStream, endHeaders, None, chunk, 0)];
      } else {
        wire := wire + [Continuation(j.id, endHeaders, chunk)];
      }
      wmu := Some(j.(hdrs := hdrs, first := false));
    }

    lemma StartedLocks(j: Job, q: Request)
      requires Inv() && wmu == Some(j) && j.req in reqs && q.id == reqs[j.req].id && JobOk(reqs[j.req], j) && j.max > 0
      requires q.phase == if reqs[j.req].phase.Starting? then Writing else reqs[j.req].phase
      requires Writes(reqs[j.req].phase)
      ensures LocksOk(reqs[j.req := q], reqHeaderMu, Some(AfterChunk(j)))
      ensures PendingOk(reqs[j.req := q], reqHeaderMu, pendingRequests)
    {
      hide StreamsOk, StartsOk, WireOk;
      LocksMoved(reqs, reqHeaderMu, wmu, j.req, q, reqHeaderMu, Some(AfterChunk(j)));
    }

    /** The loop is over, or a write failed: wmu is released. */
    method EndBlock()
      requires Inv() && wmu.Some? && (wmu.value.hdrs == [] || werr)
      modifies this`reqs, this`reqHeaderMu, this`wmu
      ensures Inv() && wmu.None? && old(wmu.value.req in reqs)
      ensures reqs == old(reqs)[old(wmu.value.req) := old(reqs[wmu.value.req]).(phase :=
                if old(reqs[wmu.value.req].phase.Trailing?) then (if werr then Cleaning else Body)
                else if werr then Leaving else HeadersOut)]
    {
      JobFacts();
      var r := wmu.value.req;
      WireBetween(wire, wmu, None, werr);
      EndPhase(r);
      Move(r, if reqs[r].phase.Trailing? then (if werr then Cleaning else Body) else if werr then Leaving
        else HeadersOut, reqHeaderMu, None);
    }

    lemma EndPhase(r: RequestId)
      requires Inv() && r in reqs
      ensures Critical(reqs[r].phase) <==> reqHeaderMu == Some(r)
    {
      hide StreamsOk, StartsOk, WireOk, JobOk;
    }

    /** Any frame but HEADERS and CONTINUATION, written by whoever takes wmu. */
    method WriteOther(f: Frame)
      requires Inv() && wmu.None? && Fits(f, MAX_FRAME_SIZE) && !f.Headers? && !f.Continuation?
      modifies this`wire
      ensures Inv() && wire == if werr then old(wire) else old(wire) + [f]
    {
      hide LocksOk, StreamsOk, StartsOk, WireOk, Fits, Starts;
      if !werr {
        WireOther(wire, f);
        StartsSame(reqs, wire, nextStreamID, f);
        wire := wire + [f];
      }
    }

    // ---- the end of a request ----

    method Finish(r: RequestId)
      requires Inv() && r in reqs && reqs[r].phase.Body?
      modifies this`reqs, this`reqHeaderMu, this`wmu
      ensures Inv() && reqs == old(reqs)[r := old(reqs[r]).(phase := Cleaning)]
    {
      NotWriting(r);
      NotHolding(r);
      Move(r, Cleaning, reqHeaderMu, wmu);
    }

    /** A request that is cancelled keeps its slot until a PING is answered. */
    method CountReset(r: RequestId)
      requires Inv() && r in reqs && reqs[r].phase.Cleaning? && reqs[r].id != 0
      modifies this`pendingResets
      ensures Inv() && pendingResets == old(pendingResets) + if rstStreamPingsBlocked then 0 else 1
    {
      hide Inv;
      if !rstStreamPingsBlocked {
        pendingResets := pendingResets + 1;
      }
    }

    /** cleanupWriteRequest without a stream. */
    method GiveBack(r: RequestId)
      requires Inv() && r in reqs && reqs[r].phase.Cleaning? && reqs[r].id == 0
      modifies this`reqs, this`reqHeaderMu, this`wmu, this`streamsReserved, this`unspent, this`deficit
      ensures Inv() && reqs == old(reqs)[r := Request(Gone, 0)]
      ensures unspent == old(unspent) - {r}
              && streamsReserved == if old(streamsReserved) > 0 then old(streamsReserved) - 1 else 0
      ensures deficit > old(deficit) <==> r !in old(unspent) && old(streamsReserved) > 0
    {
      NotWriting(r);
      NotHolding(r);
      hide LocksOk, StreamsOk, StartsOk, WireOk;
      Unreserve(r);
      Move(r, Gone, reqHeaderMu, wmu);
    }

    /** forgetStreamID.  Its panic on an unknown stream does not happen. */
    method Forget(r: RequestId, disableKeepAlives: bool)
      requires Inv() && r in reqs && reqs[r].phase.Cleaning? && reqs[r].id != 0
      modifies this`reqs, this`streams, this`closed
      ensures Inv() && reqs == old(reqs)[r := old(reqs[r]).(phase := Gone)]
      ensures old(reqs[r].id in streams) && streams == old(streams) - {old(reqs[r]).id}
              && |streams| == old(|streams|) - 1
      ensures closed == (old(closed)
              || ((singleUse || doNotReuse || disableKeepAlives || goAway) && streamsReserved == 0 && streams == map[]))
    {
      hide LocksOk, StreamsOk, StartsOk, WireOk, JobOk;
      NotWriting(r);
      NotHolding(r);
      LocksMoved(reqs, reqHeaderMu, wmu, r, reqs[r].(phase := Gone), reqHeaderMu, wmu);
      StreamForgotten(reqs, streams, nextStreamID, r);
      StartsKept(reqs, wire, nextStreamID, r, Gone);
      var id := reqs[r].id;
      MapSmaller(streams, id);
      reqs, streams := reqs[r := reqs[r].(phase := Gone)], streams - {id};
      if (singleUse || doNotReuse || disableKeepAlives || goAway) && streamsReserved == 0 && |streams| == 0 {
        closed := true;
      }
    }

    lemma MapSmaller(m: map<nat, RequestId>, id: nat)
      requires id in m
      ensures |m - {id}| == |m| - 1
    {
      assert m == (m - {id})[id := m[id]];
    }

    // ---- the connection ----

    method PingAck()
      requires Inv()
      modifies this`pendingResets, this`rstStreamPingsBlocked
      ensures Inv() && pendingResets == 0
    {
      hide Inv;
      if pendingResets > 0 {
        pendingResets := 0;
        rstStreamPingsBlocked := true;
      }
    }

    /** HEADERS or DATA arrive for a stream. */
    method HeadersOrData()
      requires Inv()
      modifies this`rstStreamPingsBlocked
      ensures Inv() && !rstStreamPingsBlocked
    {
      hide Inv;
      rstStreamPingsBlocked := false;
    }

    /** SETTINGS, with a frame size that section 6.5.2 of RFC 7540 allows; both mu
        and wmu are held. */
    method Configure(maxConcurrent: nat, frameSize: nat)
      requires Inv() && wmu.None? && 16384 <= frameSize <= MAX_FRAME_SIZE
      modifies this`maxConcurrentStreams, this`maxFrameSize, this`highest
      ensures Inv() && maxConcurrentStreams == maxConcurrent && maxFrameSize == frameSize
      ensures highest == if maxConcurrent > old(highest) then maxConcurrent else old(highest)
    {
      hide LocksOk, StreamsOk, StartsOk, WireOk;
      maxConcurrentStreams, maxFrameSize := maxConcurrent, frameSize;
      highest := if maxConcurrent > highest then maxConcurrent else highest;
    }

    /** GOAWAY, SetDoNotReuse and Shutdown. */
    method Mark(away: bool, noReuse: bool, shut: bool)
      requires Inv()
      modifies this`goAway, this`doNotReuse, this`closing
      ensures Inv() && goAway == (old(goAway) || away) && doNotReuse == (old(doNotReuse) || noReuse)
              && closing == (old(closing) || shut)
    {
      hide Inv;
      goAway, doNotReuse, closing := goAway || away, doNotReuse || noReuse, closing || shut;
    }

    /** Close, and closeIfIdle. */
    method Close(ifIdle: bool)
      requires Inv()
      modifies this`closed, this`closedOnIdle
      ensures Inv() && closed == (old(closed) || !ifIdle || (streams == map[] && streamsReserved == 0))
      ensures closedOnIdle == (old(closedOnIdle) || (ifIdle && streams == map[] && streamsReserved == 0))
    {
      hide Inv;
      if !ifIdle {
        closed := true;
      } else if |streams| == 0 && streamsReserved == 0 {
        closed, closedOnIdle := true, true;
      }
    }

    method WriteFails()
      requires Inv()
      modifies this`werr
      ensures Inv() && werr
    {
      WireFailed(wire, wmu, werr);
      werr := true;
    }
  }

  /** What may happen on a connection, in any order. */
  datatype Event =
    | Reserving(tooIdle: bool)
    | Arriving(r: RequestId, reserved: bool)
    | Acquiring(r: RequestId)
    | Cancelling(r: RequestId)
    | Entering(r: RequestId, tooIdle: bool, closeRequested: bool)
    | Waking(r: RequestId, aborted: bool, tooIdle: bool, closeRequested: bool)
    | Beginning(r: RequestId, fails: bool, endStream: bool, hdrs: Octets)
    | Trailers(r: RequestId, hdrs: Octets, max: nat)
    | Chunk
    | BlockEnd
    | Releasing(r: RequestId)
    | OtherFrame(f: Frame)
    | Finishing(r: RequestId)
    | Resetting(r: RequestId)
    | Forgetting(r: RequestId, disableKeepAlives: bool)
    | PingAcked
    | Answered
    | Configured(maxConcurrent: nat, frameSize: nat)
    | Marked(away: bool, noReuse: bool, shut: bool)
    | Closed(ifIdle: bool)
    | Failed

  /** An event whose goroutine is not there yet, or which has to wait for a lock,
      does not happen. */
  method Happen(c: Conn, e: Event)
    requires c.Inv()
    modifies c
    ensures c.Inv() && old(c.wire) <= c.wire && old(c.openings) <= c.openings
  {
    hide Conn.Inv, Fits, NextFrame, AfterChunk;
    match e {
      case Reserving(tooIdle) => var _ := c.ReserveNewRequest(tooIdle);
      case Arriving(r, reserved) => if r !in c.reqs { c.Arrive(r, reserved && c.tickets > 0); }
      case Acquiring(r) => if r in c.reqs && c.reqs[r].phase.Queued? && c.reqHeaderMu.None? { c.Acquire(r); }
      case Cancelling(r) => if r in c.reqs && c.reqs[r].phase.Queued? { c.CancelQueued(r); }
      case Entering(r, tooIdle, closeRequested) =>
        if r in c.reqs && c.reqs[r].phase.Locked? { c.EnterSlot(r, tooIdle, closeRequested); }
      case Waking(r, aborted, tooIdle, closeRequested) =>
        if r in c.reqs && c.reqs[r].phase.Waiting? { c.Wake(r, aborted, tooIdle, closeRequested); }
      case Chunk => if c.wmu.Some? && c.wmu.value.hdrs != [] && !c.werr { c.WriteChunk(); }
      case BlockEnd => if c.wmu.Some? && (c.wmu.value.hdrs == [] || c.werr) { c.EndBlock(); }
      case OtherFrame(f) => if c.wmu.None? && Fits(f, MAX_FRAME_SIZE) && !f.Headers?
        && !f.Continuation? { c.WriteOther(f); }
      case PingAcked => c.PingAck();
      case Answered => c.HeadersOrData();
      case Configured(maxConcurrent, frameSize) =>
        if c.wmu.None? && 16384 <= frameSize <= MAX_FRAME_SIZE { c.Configure(maxConcurrent, frameSize); }
      case Marked(away, noReuse, shut) => c.Mark(away, noReuse, shut);
      case Closed(ifIdle) => c.Close(ifIdle);
      case Failed => c.WriteFails();
      case _ => Proceed(c, e);
    }
  }

  /** The rest of a request. */
  method Proceed(c: Conn, e: Event)
    requires c.Inv()
    modifies c
    ensures c.Inv() && old(c.wire) == c.wire && old(c.openings) == c.openings
  {
    hide Conn.Inv;
    match e {
      case Beginning(r, fails, endStream, hdrs) =>
        if r in c.reqs && c.reqs[r].phase.Opened? && c.wmu.None?
          && (fails || hdrs != []) { c.BeginHeaders(r, fails, endStream, hdrs); }
      case Trailers(r, hdrs, max) =>
        if r in c.reqs && c.reqs[r].phase.Body? && c.wmu.None? && hdrs != []
          && 16384 <= max <= MAX_FRAME_SIZE { c.BeginTrailers(r, hdrs, max); }
      case Releasing(r) =>
        if r in c.reqs && (c.reqs[r].phase.HeadersOut? || c.reqs[r].phase.Leaving?) { c.Release(r); }
      case Finishing(r) => if r in c.reqs && c.reqs[r].phase.Body? { c.Finish(r); }
      case Resetting(r) => if r in c.reqs && c.reqs[r].phase.Cleaning? && c.reqs[r].id != 0 { c.CountReset(r); }
      case Forgetting(r, disableKeepAlives) =>
        if r in c.reqs && c.reqs[r].phase.Cleaning? {
          if c.reqs[r].id == 0 { c.GiveBack(r); } else { c.Forget(r, disableKeepAlives); }
        }
      case _ =>
    }
  }

  /** Any interleaving of requests, cancellations, waits, other writers and
      failures: header blocks come out whole, streams start in increasing odd
      numbers below 2^31, and each was opened within the peer's limit. */
  method Run(single: bool, strict: bool, es: seq<Event>) returns (c: Conn)
    ensures fresh(c) && c.Inv()
    ensures Contiguous(c.wire) && AllFit(c.wire, MAX_FRAME_SIZE)
    ensures Increasing(Starts(c.wire)) && AllOdd(Starts(c.wire)) && AllBelow(Starts(c.wire), 0x8000_0000)
    ensures WithinLimit(c.openings) && |c.streams| <= c.highest
    ensures c.streamsReserved == c.tickets + |c.unspent| <==> c.deficit == 0
  {
    hide Conn.Inv, Contiguous, Starts, Fits;
    c := new Conn(single, strict);
    for i := 0 to |es|
      invariant c.Inv() && fresh(c)
    {
      Happen(c, es[i]);
    }
    c.BlocksAreContiguous();
    c.Facts();
  }

  /** Two callers reserve, one request arrives and takes reqHeaderMu, and the
      connection is closed. */
  method TwoReservations() returns (c: Conn)
    ensures fresh(c) && c.Inv() && c.tickets == 1 && c.unspent == {1} && c.streamsReserved == 2 && c.closed
    ensures 1 in c.reqs && c.reqs[1] == Request(Locked, 0)
  {
    hide Conn.Inv;
    c := new Conn(false, false);
    var _ := c.ReserveNewRequest(false);
    var _ := c.ReserveNewRequest(false);
    c.Arrive(1, true);
    c.Acquire(1);
    c.Close(false);
  }

  /** The request that fails to get a slot gives its reservation back twice, and so
      takes that of the other caller. */
  method ReservationTakenTwice() returns (c: Conn)
    ensures c.Inv() && c.tickets == 1 && c.unspent == {} && c.streamsReserved == 0
  {
    hide Conn.Inv, Conn.CanTakeNewRequest;
    c := TwoReservations();
    c.EnterSlot(1, false, false);
    c.Release(1);
    c.GiveBack(1);
  }
}
