/** The ring of response-header markers (xnet/http2/instrument_server.go:231-281). */
module MarkerRing {
  import opened Frames

  /** What a ServerRequestTrace says about the response. */
  datatype Trace = Trace(id: nat, stream: StreamID)

  /** endOffset is one past the last header byte of the response, counted over
      the life of the connection. */
  datatype Marker = Marker(endOffset: nat, trace: Option<Trace>)

  const RING_SIZE: nat := 256

  const NO_MARKER := Marker(0, None)

  /** x % RING_SIZE, for an index that went past the end at most once. */
  function Wrap(x: nat): nat
    requires x < 2 * RING_SIZE
  {
    if x < RING_SIZE then x else x - RING_SIZE
  }

  /** A fixed-capacity queue in an array. */
  class Ring {
    const buf: array<Marker>
    var head: nat
    var n: nat

    constructor ()
      ensures Valid() && Contents() == [] && fresh(buf)
    {
      buf := new Marker[RING_SIZE](_ => NO_MARKER);
      head, n := 0, 0;
    }

    ghost predicate Valid()
      reads this
    {
      buf.Length == RING_SIZE && head < RING_SIZE && n <= RING_SIZE
    }

    /** The markers, the oldest first. */
    ghost function Contents(): (s: seq<Marker>)
      requires Valid()
      reads this, buf
      ensures |s| == n && forall i :: 0 <= i < n ==> s[i] == buf[Wrap(head + i)]
    {
      seq(n, i requires Valid() && 0 <= i < n reads this, buf => buf[Wrap(head + i)])
    }

    method Push(m: Marker) returns (ok: bool)
      requires Valid()
      modifies this`n, buf
      ensures Valid() && ok == (|old(Contents())| < RING_SIZE)
      ensures Contents() == if ok then old(Contents()) + [m] else old(Contents())
    {
      if n == RING_SIZE {
        return false;
      }
      buf[Wrap(head + n)] := m;
      n := n + 1;
      return true;
    }

    method Peek() returns (m: Option<Marker>)
      requires Valid()
      ensures m == if Contents() == [] then None else Some(Contents()[0])
    {
      if n == 0 {
        return None;
      }
      return Some(buf[head]);
    }

    method Get(i: nat) returns (m: Marker)
      requires Valid() && i < n
      ensures m == Contents()[i]
    {
      m := buf[Wrap(head + i)];
    }

    method Pop() returns (m: Marker)
      requires Valid() && n > 0
      modifies this`head, this`n, buf
      ensures Valid() && [m] + Contents() == old(Contents())
    {
      ghost var was := Contents();
      m := buf[head];
      buf[head] := NO_MARKER;
      head := Wrap(head + 1);
      n := n - 1;
      forall i | 0 <= i < n ensures Contents()[i] == was[i + 1] {
        assert was[i + 1] == old(buf[Wrap(head + (i + 1))]);
      }
    }
  }
}
