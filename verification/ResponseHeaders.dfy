/** The frames of a response's header block on their way through the connection's
    buffered writer (xnet/http2/write.go, xnet/http2/http2.go). */
module ResponseHeaders {
  import opened Frames
  import opened Framing
  import opened FramerIO
  import opened MarkerRing
  import opened BufferedWriter

  /** What a fragment put into the ring. */
  ghost predicate OneMarker(was: seq<Marker>, lost: nat, now: seq<Marker>, lost': nat, m: Marker) {
    (now == was + [m] && lost' == lost) || (now == was && lost' == lost + 1)
  }

  /** writeHeaderBlock, with the frame that the Framer hands to the writer. */
  method WriteFragment(f: Framer, w: Writer, trace: Option<Trace>, id: Uint32, endStream: bool, frag: Octets,
                       first: bool, last: bool)
    returns (err: bool)
    requires w.Valid() && w.pending == None && |frag| <= MAX_FRAGMENT
    modifies f`wbuf, f`out, w, w.markers, w.markers.buf
    ensures w.Valid() && w.pending == None && w.idle == old(w.idle) && (!ValidStreamID(id) ==> err)
    ensures !ValidStreamID(id) || !last || trace.None? ==> w.queued == old(w.queued) && w.overflow == old(w.overflow)
    ensures ValidStreamID(id) ==> Fits(OneFrame(id, endStream, frag, first, last), MAX_FRAME_SIZE)
    ensures !err ==> w.written == old(w.written) + Encode(OneFrame(id, endStream, frag, first, last))
    ensures ValidStreamID(id) && last && trace.Some? ==>
              OneMarker(old(w.queued), old(w.overflow), w.queued, w.overflow,
                Marker(|old(w.written)| + |Encode(OneFrame(id, endStream, frag, first, last))|, trace))
  {
    hide Encode, Fits, Writer.Book, Writer.Order;
    var n := |f.out|;
    var e := f.WriteFragment(id, endStream, frag, first, last);
    if ValidStreamID(id) { HeaderBack(OneFrame(id, endStream, frag, first, last), []); }
    err := w.WriteHeaderBlock(trace, last, if e.NoError? then Some(f.out[n..]) else None);
  }

  /** writeResHeaders.writeFrame, once the block is encoded.  However many frames
      the block takes, a traced response gets one marker, which is at the end of
      the last of them, and no marker is left for a later frame. */
  method WriteResponse(f: Framer, w: Writer, trace: Option<Trace>, id: Uint32, endStream: bool, headerBlock: Octets)
    returns (err: bool)
    requires w.Valid() && w.pending == None
    modifies f`wbuf, f`out, w, w.markers, w.markers.buf
    ensures w.Valid() && w.pending == None && w.idle == old(w.idle)
    ensures headerBlock != [] && !ValidStreamID(id) ==> err
    ensures err || trace.None? || headerBlock == [] ==>
              |old(w.queued)| + old(w.overflow) <= |w.queued| + w.overflow
                <= |old(w.queued)| + old(w.overflow) + if err && trace.Some? then 1 else 0
    ensures !err ==> AllFit(HeaderFrames(id, endStream, headerBlock), MAX_FRAME_SIZE)
                     && w.written == old(w.written) + Written(HeaderFrames(id, endStream, headerBlock))
    ensures !err && trace.Some? && headerBlock != [] ==>
              OneMarker(old(w.queued), old(w.overflow), w.queued, w.overflow,
                Marker(|old(w.written) + Written(HeaderFrames(id, endStream, headerBlock))|, trace))
  {
    hide Encode, Fits, Written, HeaderFrames, FramesLeft, OneFrame, Writer.Valid;
    var block, first := headerBlock, true;
    ghost var done: seq<Frame> := [];
    NothingLeft(id, endStream, true);
    NothingLeft(id, endStream, false);
    LeftAtFirst(id, endStream, headerBlock);
    while |block| > 0
      invariant first ==> block == headerBlock
      invariant !first ==> ValidStreamID(id) && headerBlock != []
      invariant HeaderFrames(id, endStream, headerBlock) == done + FramesLeft(id, endStream, block, first)
      invariant w.Valid() && w.pending == None && w.idle == old(w.idle)
      invariant AllFit(done, MAX_FRAME_SIZE) && w.written == old(w.written) + Written(done)
      invariant |block| > 0 || trace.None? || headerBlock == [] ==>
                  w.queued == old(w.queued) && w.overflow == old(w.overflow)
      invariant |block| == 0 && trace.Some? && headerBlock != [] ==>
                  OneMarker(old(w.queued), old(w.overflow), w.queued, w.overflow, Marker(|w.written|, trace))
      decreases |block|
    {
      var frag := block;
      if |frag| > MAX_FRAGMENT {
        frag := frag[..MAX_FRAGMENT];
      }
      SplitStep(id, endStream, block, first);
      block := block[|frag|..];
      err := WriteFragment(f, w, trace, id, endStream, frag, first, |block| == 0);
      if err {
        return;
      }
      ghost var one := OneFrame(id, endStream, frag, first, |block| == 0);
      WrittenSnoc(done, one);
      done := done + [one];
      first := false;
    }
    assert block == [] && done + [] == done;
    return false;
  }
}
