/** The connection's buffered writer and the accounting of response headers
    (xnet/http2/http2.go:251-424).  bufio.Writer is the in-order 4096-byte buffer
    of the Go standard library; the socket decides by itself how much of a write
    it accepts. */
module BufferedWriter {
  import opened Frames
  import opened MarkerRing

  const BUF_SIZE: nat := 4096

  /** ResponseHeadersFlushedEvent, without its time stamp. */
  datatype Event = Flushed(stream: StreamID, request: nat, batch: nat, err: bool)

  /** How many of the oldest markers lie within the first accepted bytes. */
  function Settled(s: seq<Marker>, accepted: nat): (b: nat)
    ensures b <= |s| && forall i :: 0 <= i < b ==> s[i].endOffset <= accepted
    ensures b < |s| ==> s[b].endOffset > accepted
  {
    if s == [] || s[0].endOffset > accepted then 0
    else
      var b := Settled(s[1..], accepted);
      assert forall i :: 0 < i < |s| ==> s[i] == s[1..][i - 1];
      b + 1
  }

  ghost predicate Ascending(s: seq<Marker>) { forall i, j :: 0 <= i < j < |s| ==> s[i].endOffset <= s[j].endOffset }

  /** Every marker still waits for a byte. */
  ghost predicate Tight(s: seq<Marker>, accepted: nat) { forall i :: 0 <= i < |s| ==> s[i].endOffset > accepted }

  lemma RestIsTight(s: seq<Marker>, k: nat, accepted: nat)
    requires Ascending(s) && k <= |s| && (k < |s| ==> s[k].endOffset > accepted)
    ensures Tight(s[k..], accepted)
  {
  }

  lemma SomeWaits(s: seq<Marker>, k: nat, accepted: nat)
    requires k < |s| && Tight(s[k..], accepted)
    ensures exists i :: 0 <= i < |s| && s[i].endOffset > accepted
  {
    assert s[k] == s[k..][0];
  }

  /** What was sent on the sink, of the markers settled so far. */
  function Events(o: seq<Option<Event>>): seq<Event> {
    if o == [] then [] else (if o[0].Some? then [o[0].value] else []) + Events(o[1..])
  }

  function Losses(o: seq<Option<Event>>): nat {
    if o == [] then 0 else (if o[0].Some? then 0 else 1) + Losses(o[1..])
  }

  lemma {:induction false} EventsAndLosses(o: seq<Option<Event>>)
    ensures |Events(o)| + Losses(o) == |o|
  {
    if o != [] { EventsAndLosses(o[1..]); }
  }

  lemma Regrouped(a: seq<Event>, b: seq<Event>, c: seq<Event>)
    ensures a + (b + c) == (a + b) + c
  {
  }

  lemma {:induction false} EventAdded(o: seq<Option<Event>>, e: Option<Event>)
    ensures Events(o + [e]) == Events(o) + (if e.Some? then [e.value] else [])
  {
    if o == [] {
      assert o + [e] == [e] && [e][1..] == [];
    } else {
      assert (o + [e])[1..] == o[1..] + [e];
      EventAdded(o[1..], e);
      Regrouped(if o[0].Some? then [o[0].value] else [], Events(o[1..]), if e.Some? then [e.value] else []);
    }
  }

  lemma {:induction false} LossAdded(o: seq<Option<Event>>, e: Option<Event>)
    ensures Losses(o + [e]) == Losses(o) + (if e.Some? then 0 else 1)
  {
    if o == [] {
      assert o + [e] == [e] && [e][1..] == [];
    } else {
      assert (o + [e])[1..] == o[1..] + [e];
      LossAdded(o[1..], e);
    }
  }

  /** The event, if any, is about the marker's response. */
  ghost predicate Reports(m: Marker, e: Option<Event>) {
    m.trace.Some? && (e.Some? ==> e.value.request == m.trace.value.id && e.value.stream == m.trace.value.stream)
  }

  class Writer {
    const sinkOn: bool
    const markers: Ring
    var hasBuf: bool             // bw != nil
    var buf: seq<Byte>           // the bytes in bw
    var bufErr: bool             // the error bw remembers
    var produced: nat
    var accepted: nat
    var pending: Option<Trace>
    var sent: seq<Event>         // what went into the sink
    var drops: nat               // what this connection added to responseHeadersFlushedDrops
    var accountingErrors: nat    // what it added to wAccountingErrors
    ghost var wire: seq<Byte>                 // the bytes the socket accepted
    ghost var written: seq<Byte>              // the bytes bw took
    ghost var lost: nat                       // the bytes that failing Flushes threw away
    ghost var broken: bool                    // a write on the socket failed
    ghost var idle: bool                      // an armed frame was empty, with nothing buffered
    ghost var queued: seq<Marker>             // the markers that entered the ring
    ghost var done: seq<Marker>               // those that left it
    ghost var outcomes: seq<Option<Event>>    // what became of them
    ghost var overflow: nat                   // the markers that found the ring full

    constructor (sinkOn: bool)
      ensures Valid() && fresh(markers) && fresh(markers.buf) && this.sinkOn == sinkOn
      ensures written == [] && queued == [] && pending == None && !broken && !idle && drops == 0
              && accountingErrors == 0
    {
      this.sinkOn := sinkOn;
      markers := new Ring();
      hasBuf, buf, bufErr, produced, accepted, pending := false, [], false, 0, 0, None;
      sent, drops, accountingErrors := [], 0, 0;
      wire, written, lost, broken, idle := [], [], 0, false, false;
      queued, done, outcomes, overflow := [], [], [], 0;
    }

    ghost predicate Valid()
      reads this, markers, markers.buf
    {
      Book() && Stream() && Order()
    }

    /** Every marker that entered the ring is still there or was settled, and
        every settled one was reported or dropped, after its bytes were
        accepted. */
    ghost predicate Book()
      reads this`accepted, this`wire, this`sent, this`drops, this`queued, this`done, this`outcomes,
            this`overflow, markers, markers.buf
    {
      && markers.Valid() && queued == done + markers.Contents() && |outcomes| == |done|
      && (forall i :: 0 <= i < |queued| ==> queued[i].trace.Some?)
      && (forall i :: 0 <= i < |done| ==> done[i].endOffset <= accepted && Reports(done[i], outcomes[i]))
      && sent == Events(outcomes) && (sinkOn || sent == [])
      && drops == overflow + (if sinkOn then Losses(outcomes) else 0)
      && accepted == |wire|
    }

    ghost predicate Stream()
      reads this`hasBuf, this`buf, this`bufErr, this`produced, this`accepted, this`wire, this`written,
            this`lost, this`broken
    {
      && |buf| <= BUF_SIZE && (!hasBuf ==> buf == [] && !bufErr) && (bufErr || lost > 0 ==> broken)
      && produced == |written| == accepted + |buf| + lost
      && (lost == 0 ==> wire + buf == written)
    }

    ghost predicate Order()
      requires markers.Valid()
      reads this`produced, this`accepted, this`broken, this`idle, this`queued, markers, markers.buf
    {
      !broken ==>
        && Ascending(queued) && (forall i :: 0 <= i < |queued| ==> queued[i].endOffset <= produced)
        && (!idle ==> Tight(markers.Contents(), accepted))
    }

    /** Every response header block that reached Write is one event, one counted
        drop or one marker in the ring. */
    lemma Conservation()
      requires Book() && sinkOn
      ensures |queued| + overflow == |sent| + drops + markers.n
    {
      EventsAndLosses(outcomes);
    }

    /** No event is early, and without a socket error none is late. */
    lemma Punctual(i: nat)
      requires Valid() && i < |queued|
      ensures i < |done| ==> queued[i] == done[i] && queued[i].endOffset <= accepted
      ensures !broken && !idle ==> (i < |done| <==> queued[i].endOffset <= accepted)
    {
      if i >= |done| { assert queued[i] == markers.Contents()[i - |done|]; }
    }

    method Arm(tr: Option<Trace>)
      modifies this`pending
      ensures pending == tr
    {
      pending := tr;
    }

    /** The first loop of settleMarkers. */
    method CountBatch() returns (batch: nat)
      requires markers.Valid()
      ensures batch == Settled(markers.Contents(), accepted)
    {
      batch := 0;
      while batch < markers.n
        invariant batch <= Settled(markers.Contents(), accepted)
      {
        var m := markers.Get(batch);
        if m.endOffset > accepted {
          return;
        }
        batch := batch + 1;
      }
    }

    /** settleMarkers */
    method SettleMarkers(writeErr: bool)
      requires Book()
      modifies this`sent, this`drops, this`done, this`outcomes, markers, markers.buf
      ensures Book() && markers.Valid()
              && done == old(done) + old(markers.Contents())[..Settled(old(markers.Contents()), accepted)]
      ensures Ascending(queued) ==> Tight(markers.Contents(), accepted)
      ensures |old(sent)| <= |sent| && sent[..|old(sent)|] == old(sent)
      ensures forall j :: |old(sent)| <= j < |sent| ==> sent[j].batch == |done| - |old(done)| && sent[j].err == writeErr
    {
      hide Book, Ascending, Tight;
      BookValid();
      ghost var was := markers.Contents();
      var batch := CountBatch();
      for i := 0 to batch
        invariant Book() && markers.Valid() && |markers.Contents()| == |was| - i && |queued| == |old(done)| + |was|
        invariant done == old(done) + was[..i] && queued == old(queued)
        invariant |old(sent)| <= |sent| && sent[..|old(sent)|] == old(sent)
        invariant forall j :: |old(sent)| <= j < |sent| ==> sent[j].batch == batch && sent[j].err == writeErr
      {
        BookValid();
        assert queued[|old(done)|..][i] == queued[|done|..][0];
        SettleOne(batch, writeErr);
      }
      BookValid();
      assert |done| < |queued| ==> queued[|old(done)|..][batch] == queued[|done|];
      if Ascending(queued) { RestIsTight(queued, |done|, accepted); }
    }

    /** One marker leaves the ring. */
    method SettleOne(batch: nat, writeErr: bool)
      requires Book() && markers.n > 0 && markers.Contents()[0].endOffset <= accepted
      modifies this`sent, this`drops, this`done, this`outcomes, markers, markers.buf
      ensures Book() && markers.Valid() && |markers.Contents()| == old(markers.n) - 1
      ensures done == old(done) + [old(markers.Contents())[0]]
      ensures sent == old(sent) || exists e: Event :: e.batch == batch && e.err == writeErr && sent == old(sent) + [e]
    {
      ghost var was := markers.Contents();
      assert queued[|done|] == was[0];
      var m := markers.Pop();
      assert markers.Contents() == was[1..];
      assert queued == (done + [m]) + markers.Contents();
      ghost var outcome: Option<Event> := None;
      if m.trace.Some? && sinkOn {
        var ev := Flushed(m.trace.value.stream, m.trace.value.id, batch, writeErr);
        var room := *;
        if room {
          sent := sent + [ev];
          outcome := Some(ev);
        } else {
          drops := drops + 1;
        }
      }
      EventAdded(outcomes, outcome);
      LossAdded(outcomes, outcome);
      done, outcomes := done + [m], outcomes + [outcome];
    }

    /** bufferedWriterTimeoutWriter.Write: the write on the socket.  A socket
        that takes less than everything reports an error. */
    method SocketWrite(p: seq<Byte>) returns (n: nat, err: bool)
      requires Book()
      modifies this`accepted, this`sent, this`drops, this`wire, this`broken, this`done, this`outcomes, markers,
               markers.buf
      ensures Book() && markers.Valid() && n <= |p| && (n < |p| ==> err) && broken == (old(broken) || err)
      ensures wire == old(wire) + p[..n] && accepted == old(accepted) + n
      ensures Ascending(queued) ==> Tight(markers.Contents(), accepted)
    {
      hide Book, Ascending, Tight, Settled;
      n, err := Socket(|p|);
      Accept(p[..n], err);
      SettleDue(err);
    }

    /** The socket took p. */
    method Accept(p: seq<Byte>, err: bool)
      requires Book()
      modifies this`accepted, this`wire, this`broken
      ensures Book() && wire == old(wire) + p && accepted == old(accepted) + |p| && broken == (old(broken) || err)
    {
      hide Events, Losses, Reports;
      accepted, wire, broken := accepted + |p|, wire + p, broken || err;
    }

    /** The markers that the socket has passed are settled. */
    method SettleDue(err: bool)
      requires Book()
      modifies this`sent, this`drops, this`done, this`outcomes, markers, markers.buf
      ensures Book() && markers.Valid() && (Ascending(queued) ==> Tight(markers.Contents(), accepted))
    {
      hide Book, Ascending, Tight;
      BookValid();
      var m := markers.Peek();
      if m.Some? && accepted >= m.value.endOffset {
        SettleMarkers(err);
      } else if Ascending(queued) {
        RestIsTight(queued, |done|, accepted);
      }
    }

    /** bufio.Writer.Flush */
    method BufioFlush(ghost was: seq<Marker>, ghost at: nat) returns (err: bool)
      requires Book() && markers.Valid() && Sound() && KeptTight(was, at)
      modifies this`buf, this`bufErr, this`accepted, this`sent, this`drops, this`wire, this`broken, this`done,
               this`outcomes, markers, markers.buf
      ensures Book() && markers.Valid() && Sound() && KeptTight(was, at) && err == bufErr && (old(broken) ==> broken)
              && (old(bufErr) ==> bufErr)
      ensures wire + buf == old(wire + buf) && |buf| <= |old(buf)| && (!err ==> buf == [])
      ensures !old(bufErr) && old(buf) != [] && Ascending(queued) ==> Tight(markers.Contents(), accepted)
      ensures old(buf) == [] ==> markers.Contents() == old(markers.Contents()) && broken == old(broken)
    {
      hide Book, Ascending, Tight;
      if bufErr {
        return true;
      }
      if |buf| == 0 {
        return false;
      }
      var n, e := SocketWrite(buf);
      err := e || n < |buf|;
      buf := buf[n..];
      bufErr := err;
    }

    /** bufio.Writer.Write */
    method BufioWrite(p: seq<Byte>, ghost was: seq<Marker>, ghost at: nat) returns (nn: nat, err: bool)
      requires Book() && markers.Valid() && Sound() && KeptTight(was, at)
      modifies this`buf, this`bufErr, this`accepted, this`sent, this`drops, this`wire, this`broken, this`done,
               this`outcomes, markers, markers.buf
      ensures Book() && markers.Valid() && Sound() && KeptTight(was, at) && err == bufErr && (old(broken) ==> broken)
              && (!err ==> nn == |p|)
      ensures nn <= |p| && wire + buf == old(wire + buf) + p[..nn]
    {
      hide Book, KeptTight;
      nn := 0;
      while |p| - nn > BUF_SIZE - |buf| && !bufErr
        invariant Book() && markers.Valid() && Sound() && KeptTight(was, at) && nn <= |p| && (old(broken) ==> broken)
        invariant wire + buf == old(wire + buf) + p[..nn]
        decreases !bufErr, |p| - nn, |buf|
      {
        var n := WriteChunk(p[nn..], was, at);
        assert p[..nn + n] == p[..nn] + p[nn..][..n];
        nn := nn + n;
      }
      if bufErr {
        return nn, true;
      }
      Buffer(p[nn..]);
      assert p[..|p|] == p[..nn] + p[nn..];
      return |p|, false;
    }

    /** The rest of a write goes into the buffer. */
    method Buffer(p: seq<Byte>)
      requires |buf| + |p| <= BUF_SIZE
      modifies this`buf
      ensures |buf| <= BUF_SIZE && wire + buf == old(wire + buf) + p
    {
      buf := buf + p;
    }

    /** One turn of the loop: a write that does not fit goes straight to the
        socket if the buffer is empty, and fills and flushes it otherwise. */
    method WriteChunk(p: seq<Byte>, ghost was: seq<Marker>, ghost at: nat) returns (n: nat)
      requires Book() && markers.Valid() && Sound() && KeptTight(was, at) && !bufErr && |p| > BUF_SIZE - |buf|
      modifies this`buf, this`bufErr, this`accepted, this`sent, this`drops, this`wire, this`broken, this`done,
               this`outcomes, markers, markers.buf
      ensures Book() && markers.Valid() && Sound() && KeptTight(was, at) && n <= |p| && (old(broken) ==> broken)
      ensures !bufErr ==> n > 0 || |buf| < |old(buf)|
      ensures wire + buf == old(wire + buf) + p[..n]
    {
      hide Book, Ascending, Tight;
      if |buf| == 0 {
        n, bufErr := SocketWrite(p);
      } else {
        n := BUF_SIZE - |buf|;
        Buffer(p[..n]);
        var _ := BufioFlush(was, at);
      }
    }

    /** If the markers are in order, every one in the ring waits for a byte, or
        nothing happened since they were was and the count was at. */
    ghost predicate KeptTight(was: seq<Marker>, at: nat)
      reads this`queued, this`accepted, markers, markers.buf
    {
      Ascending(queued) ==>
        markers.Valid() && (Tight(markers.Contents(), accepted) || (markers.Contents() == was && accepted == at))
    }

    /** The buffer is within bounds and its error is a socket error. */
    ghost predicate Sound()
      reads this`buf, this`bufErr, this`broken
    {
      |buf| <= BUF_SIZE && (bufErr ==> broken)
    }

    method Write(p: seq<Byte>) returns (n: nat, err: bool)
      requires Valid()
      modifies this, markers, markers.buf
      ensures Valid() && pending == None && n <= |p| && (!err ==> n == |p|) && (old(broken) || err ==> broken)
      ensures written == old(written) + p[..n] && lost == old(lost) && accountingErrors == old(accountingErrors)
      ensures queued == old(queued) + Queued(old(pending), old(produced) + |p|, old(markers.n))
      ensures |queued| + overflow == |old(queued)| + old(overflow) + if old(pending).Some? then 1 else 0
      ensures idle == (old(idle) || (old(pending).Some? && p == [] && old(buf) == []))
    {
      hide Book, Ascending, Tight, Queued;
      hasBuf := true;
      PushPending(p);
      n, err := WriteBuffered(p);
    }

    /** The frame itself, once its marker is queued. */
    method WriteBuffered(p: seq<Byte>) returns (n: nat, err: bool)
      requires Book() && markers.Valid() && Stream() && hasBuf
      requires !broken ==> Ascending(queued) && (!idle ==> Tight(markers.Contents(), accepted))
      requires !broken ==> forall i :: 0 <= i < |queued| ==> queued[i].endOffset <= produced + |p|
      modifies this`buf, this`bufErr, this`accepted, this`sent, this`drops, this`wire, this`broken, this`done,
               this`outcomes, this`written, this`produced, markers, markers.buf
      ensures Valid() && n <= |p| && (!err ==> n == |p|) && (old(broken) || err ==> broken)
              && written == old(written) + p[..n]
    {
      hide Book, Ascending, Tight;
      BookValid();
      n, err := BufioWrite(p, markers.Contents(), accepted);
      BookValid();
      assert |wire + buf| == |old(wire + buf)| + n;
      written, produced := written + p[..n], produced + n;
    }

    /** Flush.  Unless a write on the socket failed, a successful Flush empties
        the ring and finds nothing to complain about, except when a marker was
        queued by an empty frame with nothing buffered. */
    method Flush() returns (err: bool)
      requires Valid()
      modifies this, markers, markers.buf
      ensures Valid() && !hasBuf && buf == [] && pending == old(pending) && idle == old(idle)
      ensures queued == old(queued) && overflow == old(overflow) && written == old(written)
              && (old(broken) || err ==> broken)
      ensures !err && !old(broken) ==> lost == 0 && wire == written && produced == accepted
      ensures !err && !broken && !idle ==> markers.n == 0 && accountingErrors == old(accountingErrors)
      ensures !err && !broken ==>
                accountingErrors == old(accountingErrors) + if old(hasBuf && buf == [] && markers.n != 0) then 1 else 0
    {
      hide Book, Ascending, Tight;
      BookValid();
      if !hasBuf {
        if !broken && !idle { AllSettled(); }
        return false;
      }
      err := FlushBuffered();
      if !err && (markers.n != 0 || produced != accepted) {
        accountingErrors := accountingErrors + 1;
      }
      Discard();
    }

    method FlushBuffered() returns (err: bool)
      requires Valid() && hasBuf
      modifies this`buf, this`bufErr, this`accepted, this`sent, this`drops, this`wire, this`broken, this`done,
               this`outcomes, markers, markers.buf
      ensures Valid() && (old(broken) || err ==> broken) && (!err ==> buf == [] && !bufErr)
      ensures !err && !broken && (!idle || old(buf) != []) ==> markers.n == 0
      ensures !err && !broken && old(buf) == [] ==> markers.n == old(markers.n)
    {
      hide Book, Ascending, Tight;
      BookValid();
      err := BufioFlush(markers.Contents(), accepted);
      BookValid();
      assert |wire + buf| == |old(wire + buf)|;
      if !err && !broken && (!idle || old(buf) != []) { AllSettled(); }
    }

    /** With every byte accepted, no marker can wait for one. */
    lemma AllSettled()
      requires Book() && markers.Valid() && produced == accepted && Tight(markers.Contents(), accepted)
      requires forall i :: 0 <= i < |queued| ==> queued[i].endOffset <= produced
      ensures markers.n == 0
    {
      BookValid();
      hide Book, Tight;
      if |done| < |queued| { SomeWaits(queued, |done|, accepted); }
    }

    /** Reset(nil): what is still buffered is gone. */
    method Discard()
      requires Valid()
      modifies this`hasBuf, this`buf, this`bufErr, this`lost, this`broken
      ensures Valid() && !hasBuf && buf == [] && broken == (old(broken) || old(buf) != [])
              && lost == old(lost) + |old(buf)|
    {
      hide Book, Ascending, Tight;
      lost, broken := lost + |buf|, broken || buf != [];
      hasBuf, buf, bufErr := false, [], false;
    }

    /** writeResHeaders.writeHeaderBlock.  The frame is what the Framer hands to
        the writer, or None if it rejects its arguments; whatever happens, the
        marker does not stay armed for the next frame. */
    method WriteHeaderBlock(trace: Option<Trace>, last: bool, frame: Option<seq<Byte>>) returns (err: bool)
      requires Valid() && pending == None
      modifies this, markers, markers.buf
      ensures Valid() && pending == None && (frame.None? ==> err)
      ensures frame.None? ==> queued == old(queued) && overflow == old(overflow) && written == old(written)
      ensures frame.Some? && !err ==> written == old(written) + frame.value
      ensures frame.Some? && !(last && trace.Some?) ==> queued == old(queued) && overflow == old(overflow)
      ensures frame.Some? && last && trace.Some? ==>
                && |queued| + overflow == |old(queued)| + old(overflow) + 1
                && queued == old(queued) + Queued(trace, old(produced) + |frame.value|, old(markers.n))
      ensures frame != Some([]) ==> idle == old(idle)
    {
      hide Book, Ascending, Tight;
      if last && trace.Some? {
        Arm(trace);
      }
      if frame.Some? {
        var _, e := Write(frame.value);
        err := e;
      } else {
        err := true;
      }
      if err {
        Arm(None);
      }
    }

    /** The marker that a Write ending at offset puts into a ring of n. */
    static function Queued(pending: Option<Trace>, offset: nat, n: nat): seq<Marker> {
      if pending.Some? && n < RING_SIZE then [Marker(offset, pending)] else []
    }

    /** The pending trace becomes a marker before bufio sees the frame. */
    method PushPending(p: seq<Byte>)
      requires Valid()
      modifies this`pending, this`drops, this`overflow, this`queued, this`idle, markers, markers.buf
      ensures Book() && markers.Valid() && Stream() && pending == None
      ensures queued == old(queued) + Queued(old(pending), produced + |p|, old(markers.n))
      ensures |queued| + overflow == |old(queued)| + old(overflow) + if old(pending).Some? then 1 else 0
      ensures idle == (old(idle) || (old(pending).Some? && p == [] && buf == []))
      ensures !broken ==> Ascending(queued) && (!idle ==> Tight(markers.Contents(), accepted))
      ensures !broken ==> forall i :: 0 <= i < |queued| ==> queued[i].endOffset <= produced + |p|
    {
      hide Book, Ascending, Tight, Ring.Contents;
      BookValid();
      if pending.None? {
        return;
      }
      var m := Marker(produced + |p|, pending);
      if !broken {
        AscendingGrown(queued, m);
        TightGrown(markers.Contents(), m, accepted);
      }
      PushMarker(m);
      idle := idle || (p == [] && buf == []);
      pending := None;
    }

    lemma BookValid()
      requires Book()
      ensures markers.Valid() && |markers.Contents()| == markers.n && accepted == |wire|
      ensures |done| <= |queued| && queued[|done|..] == markers.Contents()
    {
    }

    method PushMarker(m: Marker)
      requires Book() && m.trace.Some?
      modifies this`drops, this`overflow, this`queued, markers, markers.buf
      ensures Book() && markers.Valid() && |queued| + overflow == |old(queued)| + old(overflow) + 1
      ensures queued == if old(markers.n) < RING_SIZE then old(queued) + [m] else old(queued)
      ensures markers.Contents() == if old(markers.n) < RING_SIZE then old(markers.Contents()) + [m]
              else old(markers.Contents())
    {
      hide Events, Losses, Reports;
      var ok := markers.Push(m);
      if ok {
        assert (done + old(markers.Contents())) + [m] == done + markers.Contents();
        queued := queued + [m];
      } else {
        drops, overflow := drops + 1, overflow + 1;
      }
    }
  }

  lemma AscendingGrown(s: seq<Marker>, m: Marker)
    requires Ascending(s) && forall i :: 0 <= i < |s| ==> s[i].endOffset <= m.endOffset
    ensures Ascending(s + [m])
  {
  }

  lemma TightGrown(s: seq<Marker>, m: Marker, accepted: nat)
    ensures Tight(s + [m], accepted) <==> Tight(s, accepted) && m.endOffset > accepted
  {
    if Tight(s + [m], accepted) {
      assert forall i :: 0 <= i < |s| ==> s[i] == (s + [m])[i];
      assert (s + [m])[|s|] == m;
    }
  }

  /** The outcome of a write on the socket. */
  method Socket(len: nat) returns (n: nat, err: bool)
    ensures n <= len && (n < len ==> err)
  {
    n :| 0 <= n <= len;
    err := *;
    if n < len {
      err := true;
    }
  }
}
