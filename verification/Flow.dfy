/** Flow control windows (xnet/http2/flow.go). */
module Flow {
  import opened Frames

  const MIN_REFRESH: int := 4096

  /** inflow: what the peer may still send, and credit not announced yet. */
  datatype Inflow = Inflow(avail: int, unsent: int) {
    predicate Ok() { 0 <= avail && 0 <= unsent && avail + unsent <= MAX_INT32 }

    function Total(): int { avail + unsent }

    /** No credit is held back from a peer that could need it. */
    predicate Fresh() { unsent == 0 || (unsent < MIN_REFRESH && unsent < avail) }
  }

  /** inflow.add: None if it panics. */
  function Credited(f: Inflow, n: nat): (r: Option<(Inflow, int)>)
    requires f.Ok()
    ensures r.None? <==> f.Total() + n > MAX_INT32
    ensures r.Some? ==>
              && r.value.0.Ok() && r.value.0.Total() == f.Total() + n && r.value.0.Fresh()
              && r.value.1 == r.value.0.avail - f.avail >= 0
              && (r.value.0.unsent > 0 ==> r.value.1 == 0)
  {
    var unsent := f.unsent + n;
    if unsent + f.avail > MAX_INT32 then None
    else if unsent < MIN_REFRESH && unsent < f.avail then Some((Inflow(f.avail, unsent), 0))
    else Some((Inflow(f.avail + unsent, 0), unsent))
  }

  /** inflow.take: None if the peer exceeds the window. */
  function Debited(f: Inflow, n: nat): (r: Option<Inflow>)
    requires f.Ok()
    ensures r.None? <==> n > f.avail
    ensures r.Some? ==> r.value == Inflow(f.avail - n, f.unsent)
  {
    if n > f.avail then None else Some(Inflow(f.avail - n, f.unsent))
  }

  /** outflow.add: the comparison of the wrapped sum detects exactly the sums
      that do not fit. */
  function Raised(n: int, d: int): (r: Option<int>)
    requires InInt32(n) && InInt32(d)
    ensures r == if InInt32(n + d) then Some(n + d) else None
  {
    var sum := Wrap32(n + d);
    if (sum > d) == (n > 0) then Some(sum) else None
  }
}
