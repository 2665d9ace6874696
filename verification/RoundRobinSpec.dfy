/** The round-robin scheduler as a value: the ring of open streams, read from
    the head (xnet/http2/writesched_roundrobin.go). */
module RoundRobinSpec {
  import opened Frames
  import S = SchedSpec

  datatype RR = RR(control: seq<FrameWriteRequest>, order: seq<StreamID>, queues: map<StreamID, seq<FrameWriteRequest>>,
                   windows: Windows)
  {
    ghost function Abs(): S.State { S.State(S.Sched(control, queues), windows) }

    ghost predicate Valid() {
      && Distinct(order)
      && (forall id :: id in order <==> id in queues)
      && S.Valid(S.Sched(control, queues))
    }
  }

  ghost predicate Distinct(s: seq<StreamID>) { forall i, j :: 0 <= i < j < |s| ==> s[i] != s[j] }

  datatype Op =
    | Open(id: StreamID) | Close(id: StreamID) | Push(wr: FrameWriteRequest) | Pop | SetWindows(windows: Windows)

  predicate ReadyAt(s: RR, i: nat)
    requires i < |s.order|
  {
    s.order[i] in s.queues && Ready(s.queues[s.order[i]], s.windows)
  }

  /** The first ready stream at or after position k; |order| if there is none. */
  function FirstReady(s: RR, k: nat): (i: nat)
    requires k <= |s.order|
    ensures k <= i <= |s.order|
    ensures forall j :: k <= j < i ==> !ReadyAt(s, j)
    ensures i < |s.order| ==> ReadyAt(s, i)
    decreases |s.order| - k
  {
    if k == |s.order| || ReadyAt(s, k) then k else FirstReady(s, k + 1)
  }

  function Rotate(order: seq<StreamID>, i: nat): (r: seq<StreamID>)
    requires i <= |order|
    ensures |r| == |order|
    ensures forall j :: 0 <= j < |order| ==> r[j] == order[if j + i < |order| then j + i else j + i - |order|]
  {
    order[i..] + order[..i]
  }

  /** The panics of OpenStream and Push. */
  predicate Legal(s: RR, op: Op) {
    match op
    case Open(id) => id !in s.queues
    case Push(wr) => !wr.IsControl() && wr.StreamId() !in s.queues ==> wr.DataSize() == 0
    case _ => true
  }

  function Without(order: seq<StreamID>, id: StreamID): (r: seq<StreamID>) {
    if order == [] then [] else if order[0] == id then order[1..] else [order[0]] + Without(order[1..], id)
  }

  function Step(s: RR, op: Op): (s': RR) {
    match op
    case Open(id) => s.(order := s.order + [id], queues := s.queues[id := []])
    case Close(id) => s.(order := Without(s.order, id), queues := s.queues - {id})
    case Push(wr) => var t := S.Push(S.Sched(s.control, s.queues), wr); s.(control := t.control, queues := t.queues)
    case SetWindows(w) => s.(windows := w)
    case Pop =>
      if s.control != [] then s.(control := s.control[1..])
      else
        var i := FirstReady(s, 0);
        if i == |s.order| then s
        else
          var r := ConsumeQueue(s.queues[s.order[i]], MAX_INT32, s.windows);
          RR(s.control, Rotate(s.order, i + 1), s.queues[s.order[i] := r.queue], r.windows)
  }

  /** The frame a Pop returns. */
  function Popped(s: RR): (r: Option<FrameWriteRequest>) {
    if s.control != [] then Some(s.control[0])
    else
      var i := FirstReady(s, 0);
      if i == |s.order| then None else ConsumeQueue(s.queues[s.order[i]], MAX_INT32, s.windows).taken
  }

  function EventOf(s: RR, op: Op): S.Event {
    match op
    case Open(id) => S.Opened(id)
    case Close(id) => S.Closed(id)
    case Push(wr) => S.Pushed(wr)
    case SetWindows(w) => S.WindowsSet(w)
    case Pop =>
      if s.control != [] then S.PoppedControl
      else
        var i := FirstReady(s, 0);
        if i == |s.order| then S.PopFailed else S.PoppedStream(s.order[i])
  }

  lemma {:induction false} WithoutFacts(order: seq<StreamID>, id: StreamID)
    requires Distinct(order)
    ensures Distinct(Without(order, id))
    ensures forall x :: x in Without(order, id) <==> x in order && x != id
  {
    if order != [] {
      WithoutFacts(order[1..], id);
      if order[0] == id {
        assert forall x :: x in order[1..] ==> x != id;
      } else {
        assert forall x :: x in Without(order[1..], id) ==> x != order[0];
      }
    }
  }

  lemma {:induction false} WithoutAt(order: seq<StreamID>, id: StreamID, k: nat)
    requires Distinct(order) && k < |order| && order[k] == id
    ensures Without(order, id) == order[..k] + order[k + 1..]
  {
    if k == 0 {
      assert order[..0] + order[1..] == order[1..];
    } else {
      WithoutAt(order[1..], id, k - 1);
      assert order[..k] + order[k + 1..] == [order[0]] + (order[1..][..k - 1] + order[1..][k..]);
    }
  }

  lemma {:induction false} WithoutAbsent(order: seq<StreamID>, id: StreamID)
    requires id !in order
    ensures Without(order, id) == order
  {
    if order != [] { WithoutAbsent(order[1..], id); }
  }

  lemma RotateFacts(order: seq<StreamID>, i: nat)
    requires Distinct(order) && i <= |order|
    ensures Distinct(Rotate(order, i)) && forall x :: x in Rotate(order, i) <==> x in order
  {
    assert order == order[..i] + order[i..];
  }

  /** A search that reaches the end of the ring has seen every open stream. */
  lemma NothingFound(s: RR)
    requires s.Valid() && FirstReady(s, 0) == |s.order|
    ensures S.NoneReady(S.Sched(s.control, s.queues), s.windows)
  {
    hide Ready;
    forall id | id in s.queues ensures !Ready(s.queues[id], s.windows) {
      var j :| 0 <= j < |s.order| && s.order[j] == id;
      assert !ReadyAt(s, j);
    }
  }

  lemma PopRefines(s: RR)
    requires s.Valid()
    ensures S.Enabled(s.Abs(), EventOf(s, Pop)) && Step(s, Pop).Abs() == S.Next(s.Abs(), EventOf(s, Pop))
    ensures S.Output(s.Abs(), EventOf(s, Pop)) == if Popped(s).Some? then [Popped(s).value] else []
    ensures Distinct(Step(s, Pop).order) && forall id :: id in Step(s, Pop).order <==> id in s.order
  {
    hide Ready, ConsumeQueue, Distinct, Consume;
    if s.control == [] {
      var i := FirstReady(s, 0);
      if i < |s.order| {
        RotateFacts(s.order, i + 1);
        hide Rotate;
      } else {
        NothingFound(s);
      }
    }
  }

  /** Every call is one that the scheduler interface allows, with the outcome it
      allows. */
  lemma StepRefines(s: RR, op: Op)
    requires s.Valid() && Legal(s, op)
    ensures S.Enabled(s.Abs(), EventOf(s, op)) && Step(s, op).Abs() == S.Next(s.Abs(), EventOf(s, op))
    ensures op.Pop? ==> S.Output(s.Abs(), EventOf(s, op)) == if Popped(s).Some? then [Popped(s).value] else []
  {
    if op.Pop? {
      PopRefines(s);
    }
  }

  /** Every call keeps the ring equal to the set of open streams. */
  lemma StepValid(s: RR, op: Op)
    requires s.Valid() && Legal(s, op)
    ensures Step(s, op).Valid()
  {
    hide S.Valid, Without, Ready, ConsumeQueue;
    StepRefines(s, op);
    S.NextValid(s.Abs(), EventOf(s, op));
    match op {
      case Pop => PopRefines(s);
      case Close(id) => WithoutFacts(s.order, id);
      case _ =>
    }
  }

  // ---- runs ----

  ghost predicate Runs(s: RR, ops: seq<Op>)
    requires s.Valid()
    decreases ops
  {
    ops == [] || (Legal(s, ops[0]) && (StepValid(s, ops[0]); Runs(Step(s, ops[0]), ops[1..])))
  }

  ghost function Final(s: RR, ops: seq<Op>): RR
    requires s.Valid() && Runs(s, ops)
    decreases ops
  {
    if ops == [] then s else StepValid(s, ops[0]); Final(Step(s, ops[0]), ops[1..])
  }

  ghost function Outputs(s: RR, ops: seq<Op>): seq<FrameWriteRequest>
    requires s.Valid() && Runs(s, ops)
    decreases ops
  {
    if ops == [] then []
    else
      StepValid(s, ops[0]);
      (if ops[0].Pop? && Popped(s).Some? then [Popped(s).value] else []) + Outputs(Step(s, ops[0]), ops[1..])
  }

  ghost function Events(s: RR, ops: seq<Op>): (es: seq<S.Event>)
    requires s.Valid() && Runs(s, ops)
    decreases ops
  {
    if ops == [] then [] else StepValid(s, ops[0]); [EventOf(s, ops[0])] + Events(Step(s, ops[0]), ops[1..])
  }

  function PushedFrames(ops: seq<Op>): seq<FrameWriteRequest> {
    if ops == [] then [] else (if ops[0].Push? then [ops[0].wr] else []) + PushedFrames(ops[1..])
  }

  lemma {:induction false} RunRefines(s: RR, ops: seq<Op>)
    requires s.Valid() && Runs(s, ops)
    ensures S.Runs(s.Abs(), Events(s, ops))
    ensures Final(s, ops).Abs() == S.Final(s.Abs(), Events(s, ops))
    ensures Outputs(s, ops) == S.Outputs(s.Abs(), Events(s, ops))
    ensures PushedFrames(ops) == S.PushedFrames(Events(s, ops))
    ensures forall id :: S.Closed(id) in Events(s, ops) ==> Close(id) in ops
    decreases ops
  {
    if ops != [] {
      hide S.Next, S.Enabled, S.Output, Step;
      StepValid(s, ops[0]);
      StepRefines(s, ops[0]);
      RunRefines(Step(s, ops[0]), ops[1..]);
      var es := Events(s, ops);
      assert es[0] == EventOf(s, ops[0]) && es[1..] == Events(Step(s, ops[0]), ops[1..]);
      if !ops[0].Pop? { NoOutput(s, ops[0]); }
    }
  }

  /** Frame fidelity of the round-robin scheduler (see SchedSpec.Fidelity). */
  lemma RoundRobinFidelity(s: RR, ops: seq<Op>, id: StreamID)
    requires s.Valid() && Runs(s, ops) && id in s.queues && Close(id) !in ops
    ensures id in Final(s, ops).queues
    ensures S.Sent(Outputs(s, ops), id) + S.Pending(Final(s, ops).Abs().sched, id)
            == S.Pending(s.Abs().sched, id) + S.Sent(PushedFrames(ops), id)
  {
    hide S.Pending, S.Sent;
    RunRefines(s, ops);
    S.Fidelity(s.Abs(), Events(s, ops), id);
  }

  lemma NoOutput(s: RR, op: Op)
    requires s.Valid() && Legal(s, op) && S.Enabled(s.Abs(), EventOf(s, op)) && !op.Pop?
    ensures S.Output(s.Abs(), EventOf(s, op)) == [] && (EventOf(s, op).Pushed? <==> op.Push?)
  {
  }

  // ---- bounded waiting ----

  /** How many streams are in front of id, counted from the head. */
  function Place(order: seq<StreamID>, id: StreamID): (i: nat)
    requires id in order
    ensures i < |order| && order[i] == id
  {
    if order[0] == id then 0 else 1 + Place(order[1..], id)
  }

  lemma PlaceUnique(order: seq<StreamID>, id: StreamID, i: nat)
    requires Distinct(order) && i < |order| && order[i] == id
    ensures Place(order, id) == i
  {
  }

  lemma {:induction false} PlaceWithout(order: seq<StreamID>, id: StreamID, gone: StreamID)
    requires Distinct(order) && id in order && gone != id
    ensures id in Without(order, gone) && Place(Without(order, gone), id) <= Place(order, id)
  {
    if order[0] == gone || order[0] == id {
    } else {
      PlaceWithout(order[1..], id, gone);
    }
  }

  lemma {:induction false} PlaceAppend(order: seq<StreamID>, id: StreamID, other: StreamID)
    requires id in order
    ensures Place(order + [other], id) == Place(order, id)
  {
    if order[0] != id {
      assert (order + [other])[1..] == order[1..] + [other];
      PlaceAppend(order[1..], id, other);
    }
  }

  lemma PlaceRotated(order: seq<StreamID>, id: StreamID, i: nat)
    requires Distinct(order) && id in order && i < Place(order, id)
    ensures id in Rotate(order, i + 1) && Place(Rotate(order, i + 1), id) == Place(order, id) - i - 1
  {
    RotateFacts(order, i + 1);
    var r, p := Rotate(order, i + 1), Place(order, id);
    assert r[p - i - 1] == id;
    PlaceUnique(r, id, p - i - 1);
  }

  lemma PopMovesForward(s: RR, id: StreamID)
    requires s.Valid() && s.control == [] && id in s.queues && Ready(s.queues[id], s.windows)
    ensures id in Step(s, Pop).order
    ensures EventOf(s, Pop) == S.PoppedStream(id) || Place(Step(s, Pop).order, id) < Place(s.order, id)
  {
    hide Ready, Rotate, Distinct, S.Valid, FirstReady, Place, Step, EventOf;
    var i, p := FirstReady(s, 0), Place(s.order, id);
    assert ReadyAt(s, p);
    PopShape(s);
    RotateFacts(s.order, i + 1);
    if i < p { PlaceRotated(s.order, id, i); }
  }

  lemma PopShape(s: RR)
    requires s.Valid() && s.control == [] && FirstReady(s, 0) < |s.order|
    ensures Step(s, Pop).order == Rotate(s.order, FirstReady(s, 0) + 1)
    ensures EventOf(s, Pop) == S.PoppedStream(s.order[FirstReady(s, 0)])
  {
    hide Distinct, Rotate, ConsumeQueue, ReadyAt;
  }

  /** No call on other streams moves a stream back, and a Pop that finds it
      ready serves it or moves it forward. */
  lemma PlaceNeverGrows(s: RR, op: Op, id: StreamID)
    requires s.Valid() && Legal(s, op) && id in s.queues && op != Close(id)
    requires op.Pop? ==> s.control == [] && Ready(s.queues[id], s.windows)
    ensures id in Step(s, op).order
    ensures !op.Pop? ==> Place(Step(s, op).order, id) <= Place(s.order, id)
    ensures op.Pop? ==> EventOf(s, op) == S.PoppedStream(id) || Place(Step(s, op).order, id) < Place(s.order, id)
  {
    hide Ready, ConsumeQueue, Place, Without, Distinct;
    match op {
      case Open(other) => PlaceAppend(s.order, id, other);
      case Close(other) => PlaceWithout(s.order, id, other);
      case Pop => PopMovesForward(s, id);
      case _ =>
    }
  }

  function Pops(ops: seq<Op>): nat {
    if ops == [] then 0 else (if ops[0].Pop? then 1 else 0) + Pops(ops[1..])
  }

  /** The stream stays open, and is ready with no control frame queued whenever
      Pop is called. */
  ghost predicate StaysReady(s: RR, ops: seq<Op>, id: StreamID)
    requires s.Valid() && Runs(s, ops)
    decreases ops
  {
    ops == [] ||
    (&& ops[0] != Close(id)
     && (ops[0].Pop? ==> s.control == [] && id in s.queues && Ready(s.queues[id], s.windows))
     && (StepValid(s, ops[0]); StaysReady(Step(s, ops[0]), ops[1..], id)))
  }

  ghost predicate IsServed(s: RR, ops: seq<Op>, id: StreamID)
    requires s.Valid() && Runs(s, ops)
    decreases ops
  {
    ops != [] &&
    (|| (ops[0].Pop? && EventOf(s, Pop) == S.PoppedStream(id))
     || (StepValid(s, ops[0]); IsServed(Step(s, ops[0]), ops[1..], id)))
  }

  /** Bounded waiting: a stream that stays ready is served within as many Pops as
      there are streams in front of it, plus one, whatever else happens. */
  lemma {:induction false} BoundedWaiting(s: RR, ops: seq<Op>, id: StreamID)
    requires s.Valid() && Runs(s, ops) && id in s.queues && StaysReady(s, ops, id)
    requires Pops(ops) > Place(s.order, id)
    ensures IsServed(s, ops, id)
    decreases ops
  {
    hide Step, Ready, EventOf;
    StepValid(s, ops[0]);
    PlaceNeverGrows(s, ops[0], id);
    if !(ops[0].Pop? && EventOf(s, Pop) == S.PoppedStream(id)) {
      BoundedWaiting(Step(s, ops[0]), ops[1..], id);
    }
  }
}
