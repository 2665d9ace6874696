/** The RFC 9218 scheduler as a value: one ring of streams for every urgency and
    incremental flag (xnet/http2/writesched_priority_rfc9218.go). */
module Rfc9218Spec {
  import opened Frames
  import R = RoundRobinSpec
  import S = SchedSpec

  /** PriorityParam, as far as this scheduler reads it. */
  datatype Priority = Priority(urgency: nat, incremental: bool) {
    predicate InRange() { urgency < 8 }

    function Slot(): nat { 2 * urgency + if incremental then 1 else 0 }
  }

  const SLOTS: nat := 16

  /** rings[p.Slot()] lists the streams of priority p from the head of their
      ring on. */
  datatype PS = PS(control: seq<FrameWriteRequest>, rings: seq<seq<StreamID>>, priority: map<StreamID, Priority>,
                   queues: map<StreamID, seq<FrameWriteRequest>>, windows: Windows, prioritizeIncremental: bool)
  {
    ghost function Abs(): S.State { S.State(S.Sched(control, queues), windows) }

    ghost predicate Shape() {
      && |rings| == SLOTS && (forall id :: id in priority <==> id in queues)
      && (forall id :: id in queues ==> priority[id].InRange())
    }

    /** Every open stream lies in the ring of its recorded priority, once, and
        in no other. */
    ghost predicate Valid() {
      && Shape() && (forall k :: 0 <= k < SLOTS ==> R.Distinct(rings[k]))
      && (forall k, id :: 0 <= k < SLOTS ==> (id in rings[k] <==> id in priority && priority[id].Slot() == k))
      && S.Valid(S.Sched(control, queues))
    }
  }

  datatype Op =
    | Open(id: StreamID, p: Priority)
    | Close(id: StreamID)
    | Adjust(id: StreamID, p: Priority)
    | Push(wr: FrameWriteRequest)
    | Pop
    | SetWindows(windows: Windows)

  predicate ReadyIn(s: PS, id: StreamID) { id in s.queues && Ready(s.queues[id], s.windows) }

  /** The first ready stream of a ring, |ring| if there is none. */
  function First(s: PS, ring: seq<StreamID>): (i: nat)
    ensures i <= |ring| && forall j :: 0 <= j < i ==> !ReadyIn(s, ring[j])
    ensures i < |ring| ==> ReadyIn(s, ring[i])
  {
    if ring == [] || ReadyIn(s, ring[0]) then 0
    else
      var i := First(s, ring[1..]);
      assert forall j :: 0 < j < |ring| ==> ring[j] == ring[1..][j - 1];
      i + 1
  }

  /** The n-th ring that Pop looks at. */
  function Visit(incrementalFirst: bool, n: nat): (k: nat)
    ensures k / 2 == n / 2
  {
    if !incrementalFirst then n else if n % 2 == 0 then n + 1 else n - 1
  }

  /** The first visit from the n-th on that finds a ready stream; SLOTS if none
      does. */
  function FirstVisit(s: PS, inc: bool, n: nat): (m: nat)
    requires |s.rings| == SLOTS && n <= SLOTS
    ensures n <= m <= SLOTS
    ensures forall j :: n <= j < m ==> First(s, s.rings[Visit(inc, j)]) == |s.rings[Visit(inc, j)]|
    ensures m < SLOTS ==> First(s, s.rings[Visit(inc, m)]) < |s.rings[Visit(inc, m)]|
    decreases SLOTS - n
  {
    if n == SLOTS || First(s, s.rings[Visit(inc, n)]) < |s.rings[Visit(inc, n)]| then n else FirstVisit(s, inc, n + 1)
  }

  /** Where a Pop with no control frame queued finds its stream. */
  datatype Found = Nowhere | Found(slot: nat, index: nat)

  function Search(s: PS): (f: Found)
    requires |s.rings| == SLOTS
    ensures f.Found? ==> f.slot < SLOTS && f.index < |s.rings[f.slot]| && ReadyIn(s, s.rings[f.slot][f.index])
  {
    var inc := !s.prioritizeIncremental;
    var n := FirstVisit(s, inc, 0);
    if n == SLOTS then Nowhere else var k := Visit(inc, n); Found(k, First(s, s.rings[k]))
  }

  /** The panics of OpenStream and Push, and the range of the heads array. */
  predicate Legal(s: PS, op: Op) {
    match op
    case Open(id, p) => id !in s.queues && p.InRange()
    case Adjust(id, p) => id in s.queues ==> p.InRange()
    case Push(wr) => !wr.IsControl() && wr.StreamId() !in s.queues ==> wr.DataSize() == 0
    case _ => true
  }

  function Appended(rings: seq<seq<StreamID>>, k: nat, id: StreamID): (r: seq<seq<StreamID>>)
    requires k < |rings|
  {
    rings[k := rings[k] + [id]]
  }

  function Dropped(rings: seq<seq<StreamID>>, k: nat, id: StreamID): (r: seq<seq<StreamID>>)
    requires k < |rings|
  {
    rings[k := R.Without(rings[k], id)]
  }

  ghost function Step(s: PS, op: Op): (s': PS)
    requires s.Shape() && Legal(s, op)
  {
    match op
    case Open(id, p) =>
      s.(rings := Appended(s.rings, p.Slot(), id), priority := s.priority[id := p], queues := s.queues[id := []])
    case Close(id) =>
      if id !in s.queues then s
      else s.(rings := Dropped(s.rings, s.priority[id].Slot(), id), priority := s.priority - {id},
        queues := s.queues - {id})
    case Adjust(id, p) =>
      if id !in s.queues then s
      else s.(rings := Appended(Dropped(s.rings, s.priority[id].Slot(), id), p.Slot(), id),
        priority := s.priority[id := p])
    case Push(wr) => var t := S.Push(S.Sched(s.control, s.queues), wr); s.(control := t.control, queues := t.queues)
    case SetWindows(w) => s.(windows := w)
    case Pop => if s.control != [] then s.(control := s.control[1..]) else Served(s, Search(s))
  }

  /** A Pop that looks for a stream turns the preference around, whether or not
      it finds one.  An incremental ring moves on past the stream it served, the
      other kind stays with it. */
  function Served(s: PS, f: Found): (s': PS)
    requires |s.rings| == SLOTS
             && (f.Found? ==> f.slot < SLOTS && f.index < |s.rings[f.slot]| && s.rings[f.slot][f.index] in s.queues)
  {
    match f
    case Nowhere => s.(prioritizeIncremental := !s.prioritizeIncremental)
    case Found(k, i) =>
      var id := s.rings[k][i];
      var r := ConsumeQueue(s.queues[id], MAX_INT32, s.windows);
      s.(rings := s.rings[k := R.Rotate(s.rings[k], if k % 2 == 1 then i + 1 else i)],
        queues := s.queues[id := r.queue],
         windows := r.windows, prioritizeIncremental := !s.prioritizeIncremental)
  }

  /** The call is allowed in s and leaves s'. */
  ghost predicate Does(s: PS, op: Op, s': PS) { s.Shape() && Legal(s, op) && s' == Step(s, op) }

  function EventOf(s: PS, op: Op): S.Event
    requires |s.rings| == SLOTS
  {
    match op
    case Open(id, _) => S.Opened(id)
    case Close(id) => S.Closed(id)
    case Adjust(_, _) => S.WindowsSet(s.windows)
    case Push(wr) => S.Pushed(wr)
    case SetWindows(w) => S.WindowsSet(w)
    case Pop =>
      if s.control != [] then S.PoppedControl
      else match Search(s) case Nowhere => S.PopFailed case Found(k, i) => S.PoppedStream(s.rings[k][i])
  }

  /** The frame a Pop returns. */
  function Popped(s: PS): (r: Option<FrameWriteRequest>)
    requires |s.rings| == SLOTS
  {
    if s.control != [] then Some(s.control[0])
    else
      match Search(s)
      case Nowhere => None
      case Found(k, i) => ConsumeQueue(s.queues[s.rings[k][i]], MAX_INT32, s.windows).taken
  }

  // ---- every call keeps the rings ----

  lemma InsertKeeps(s: PS, id: StreamID, p: Priority)
    requires s.Shape() && p.InRange() && id !in s.priority
    requires forall k :: 0 <= k < SLOTS ==> R.Distinct(s.rings[k])
    requires forall k, x :: 0 <= k < SLOTS ==> (x in s.rings[k] <==> x in s.priority && s.priority[x].Slot() == k)
    ensures var rings := Appended(s.rings, p.Slot(), id);
            && (forall k :: 0 <= k < SLOTS ==> R.Distinct(rings[k]))
            && (forall k, x ::
                 0 <= k < SLOTS ==> (x in rings[k] <==> x in s.priority[id := p] && s.priority[id := p][x].Slot() == k))
  {
  }

  lemma RemoveKeeps(s: PS, id: StreamID)
    requires s.Shape() && id in s.priority
    requires forall k :: 0 <= k < SLOTS ==> R.Distinct(s.rings[k])
    requires forall k, x :: 0 <= k < SLOTS ==> (x in s.rings[k] <==> x in s.priority && s.priority[x].Slot() == k)
    ensures var rings := Dropped(s.rings, s.priority[id].Slot(), id);
            && (forall k :: 0 <= k < SLOTS ==> R.Distinct(rings[k]))
            && (forall k, x ::
                 0 <= k < SLOTS ==> (x in rings[k] <==> x in s.priority - {id} && (s.priority - {id})[x].Slot() == k))
  {
    R.WithoutFacts(s.rings[s.priority[id].Slot()], id);
    hide R.Without, R.Distinct;
  }

  lemma AdjustKeeps(s: PS, id: StreamID, p: Priority)
    requires s.Shape() && p.InRange() && id in s.queues
    requires forall k :: 0 <= k < SLOTS ==> R.Distinct(s.rings[k])
    requires forall k, x :: 0 <= k < SLOTS ==> (x in s.rings[k] <==> x in s.priority && s.priority[x].Slot() == k)
    ensures var rings := Appended(Dropped(s.rings, s.priority[id].Slot(), id), p.Slot(), id);
            && (forall k :: 0 <= k < SLOTS ==> R.Distinct(rings[k]))
            && (forall k, x ::
                 0 <= k < SLOTS ==> (x in rings[k] <==> x in s.priority[id := p] && s.priority[id := p][x].Slot() == k))
  {
    hide R.Distinct, R.Without;
    RemoveKeeps(s, id);
    var t := s.(rings := Dropped(s.rings, s.priority[id].Slot(), id), priority := s.priority - {id},
      queues := s.queues - {id});
    InsertKeeps(t, id, p);
    assert t.priority[id := p] == s.priority[id := p];
  }

  // ---- what Pop serves ----

  lemma ReadyIsFound(s: PS, id: StreamID)
    requires s.Valid() && ReadyIn(s, id)
    ensures var ring := s.rings[s.priority[id].Slot()];
            id in ring && First(s, ring) < |ring| && First(s, ring) <= R.Place(ring, id)
  {
    hide Ready, R.Distinct, S.Valid;
  }

  lemma VisitSlots(inc: bool, p: Priority)
    requires p.InRange()
    ensures Visit(inc, Visit(inc, p.Slot())) == p.Slot() && Visit(inc, p.Slot()) < SLOTS
    ensures p.Slot() / 2 == p.urgency && (p.Slot() % 2 == 1 <==> p.incremental)
  {
  }

  /** The order of the search: by urgency, then the preferred class, then the
      position in the ring. */
  lemma SearchOrder(s: PS, id: StreamID)
    requires s.Valid() && ReadyIn(s, id)
    ensures Search(s).Found?
    ensures var f, p := Search(s), s.priority[id];
            && f.slot / 2 <= p.urgency
            && (f.slot / 2 == p.urgency && f.slot != p.Slot() ==> p.incremental == s.prioritizeIncremental)
            && (f.slot == p.Slot() ==> id in s.rings[f.slot] && f.index <= R.Place(s.rings[f.slot], id))
  {
    var inc, p := !s.prioritizeIncremental, s.priority[id];
    ReadyIsFound(s, id);
    VisitSlots(inc, p);
    hide First, ReadyIn, R.Distinct, S.Valid, FirstVisit;
    var n, m := Visit(inc, p.Slot()), FirstVisit(s, inc, 0);
    assert m <= n;
    hide *;
    assert m / 2 <= n / 2;
  }

  lemma NothingFound(s: PS)
    requires s.Valid() && Search(s).Nowhere?
    ensures S.NoneReady(S.Sched(s.control, s.queues), s.windows)
  {
    hide Search, Ready;
    forall id | id in s.queues ensures !Ready(s.queues[id], s.windows) {
      if ReadyIn(s, id) { SearchOrder(s, id); }
    }
  }

  lemma FoundFacts(s: PS)
    requires s.Valid() && Search(s).Found?
    ensures var f := Search(s); var id := s.rings[f.slot][f.index];
            ReadyIn(s, id) && id in s.priority && s.priority[id].Slot() == f.slot
  {
    hide Search, Ready, S.Valid, R.Distinct;
    var f := Search(s);
    assert s.rings[f.slot][f.index] in s.rings[f.slot];
  }

  /** Sections 4.1 and 4.2 of RFC 9218: a Pop with no control frame queued fails
      if and only if no stream is ready, and otherwise serves a stream of the
      most urgent level with a ready stream; among those, one of the class whose
      turn it is, if that class has one; and of its ring the first. */
  lemma ServesMostUrgent(s: PS)
    requires s.Valid() && s.control == []
    ensures EventOf(s, Pop) == S.PopFailed <==> forall id :: id in s.queues ==> !Ready(s.queues[id], s.windows)
    ensures EventOf(s, Pop) != S.PopFailed ==>
              && EventOf(s, Pop).PoppedStream?
              && ServedFirst(s, EventOf(s, Pop).id)
  {
    hide Ready, Search;
    if Search(s).Nowhere? {
      NothingFound(s);
    } else {
      FoundFacts(s);
      var f := Search(s);
      var id := s.rings[f.slot][f.index];
      forall other | ReadyIn(s, other) ensures NotBefore(s, other, id) { ComesFirst(s, other); }
    }
  }

  /** Whether id may be served although other is ready. */
  ghost predicate NotBefore(s: PS, other: StreamID, id: StreamID)
    requires s.Valid() && id in s.priority && other in s.priority
  {
    var p, o := s.priority[id], s.priority[other];
    && p.urgency <= o.urgency
    && (p.urgency == o.urgency && p.incremental != o.incremental ==> o.incremental == s.prioritizeIncremental)
    && (p == o ==> other in s.rings[p.Slot()] && id in s.rings[p.Slot()]
                   && R.Place(s.rings[p.Slot()], id) <= R.Place(s.rings[p.Slot()], other))
  }

  ghost predicate ServedFirst(s: PS, id: StreamID)
    requires s.Valid()
  {
    && id in s.priority && ReadyIn(s, id)
    && forall other :: ReadyIn(s, other) ==> NotBefore(s, other, id)
  }

  lemma ComesFirst(s: PS, other: StreamID)
    requires s.Valid() && ReadyIn(s, other) && Search(s).Found?
    ensures var f := Search(s); s.rings[f.slot][f.index] in s.priority && NotBefore(s, other, s.rings[f.slot][f.index])
  {
    hide Ready, Search, S.Valid;
    SearchOrder(s, other);
    FoundFacts(s);
    var f := Search(s);
    var id := s.rings[f.slot][f.index];
    R.PlaceUnique(s.rings[f.slot], id, f.index);
    VisitSlots(true, s.priority[id]);
    VisitSlots(true, s.priority[other]);
    hide R.Distinct, R.Place;
  }

  // ---- refinement ----

  lemma RotateKeeps(s: PS, k: nat, i: nat)
    requires s.Valid() && k < SLOTS && i <= |s.rings[k]|
    ensures var rings := s.rings[k := R.Rotate(s.rings[k], i)];
            && (forall j :: 0 <= j < SLOTS ==> R.Distinct(rings[j]))
            && (forall j, x :: 0 <= j < SLOTS ==> (x in rings[j] <==> x in s.rings[j]))
  {
    R.RotateFacts(s.rings[k], i);
    hide R.Distinct, R.Rotate;
  }

  lemma PopRefines(s: PS)
    requires s.Valid()
    ensures S.Enabled(s.Abs(), EventOf(s, Pop)) && Step(s, Pop).Abs() == S.Next(s.Abs(), EventOf(s, Pop))
    ensures S.Output(s.Abs(), EventOf(s, Pop)) == if Popped(s).Some? then [Popped(s).value] else []
  {
    hide Search, R.Rotate, R.Distinct, S.Valid, Consume;
    if s.control == [] {
      if Search(s).Nowhere? {
        NothingFound(s);
      } else {
        FoundFacts(s);
      }
    }
  }

  /** Every call is one that the scheduler interface allows, with the outcome it
      allows; a change of priority is invisible there. */
  lemma StepRefines(s: PS, op: Op)
    requires s.Valid() && Legal(s, op)
    ensures S.Enabled(s.Abs(), EventOf(s, op)) && Step(s, op).Abs() == S.Next(s.Abs(), EventOf(s, op))
    ensures op.Pop? ==> S.Output(s.Abs(), EventOf(s, op)) == if Popped(s).Some? then [Popped(s).value] else []
  {
    if op.Pop? {
      PopRefines(s);
    } else {
      hide S.Valid, Search, R.Distinct, R.Without;
      match op {
        case Close(id) => assert id !in s.queues ==> s.queues - {id} == s.queues;
        case _ =>
      }
    }
  }

  lemma PopKeeps(s: PS)
    requires s.Valid()
    ensures var t := Step(s, Pop);
            && t.Shape() && (forall k :: 0 <= k < SLOTS ==> R.Distinct(t.rings[k]))
            && (forall k, id ::
                 0 <= k < SLOTS ==> (id in t.rings[k] <==> id in t.priority && t.priority[id].Slot() == k))
  {
    hide Search, R.Rotate, R.Distinct, S.Valid, ConsumeQueue;
    if s.control == [] && Search(s).Found? {
      FoundFacts(s);
      var f := Search(s);
      RotateKeeps(s, f.slot, if f.slot % 2 == 1 then f.index + 1 else f.index);
    }
  }

  /** Every call keeps each open stream in the ring of its priority and in no
      other. */
  lemma StepValid(s: PS, op: Op)
    requires s.Valid() && Legal(s, op)
    ensures Step(s, op).Valid()
  {
    hide S.Valid, Search, R.Distinct, R.Without, Ready, ConsumeQueue;
    StepRefines(s, op);
    S.NextValid(s.Abs(), EventOf(s, op));
    match op {
      case Pop => PopKeeps(s);
      case Open(id, p) => InsertKeeps(s, id, p);
      case Close(id) => if id in s.queues { RemoveKeeps(s, id); }
      case Adjust(id, p) =>
        if id in s.queues {
          AdjustKeeps(s, id, p);
        }
      case _ =>
    }
  }

  // ---- runs ----

  ghost predicate Runs(s: PS, ops: seq<Op>)
    requires s.Valid()
    decreases ops
  {
    ops == [] || (Legal(s, ops[0]) && (StepValid(s, ops[0]); Runs(Step(s, ops[0]), ops[1..])))
  }

  ghost function Final(s: PS, ops: seq<Op>): PS
    requires s.Valid() && Runs(s, ops)
    decreases ops
  {
    if ops == [] then s else StepValid(s, ops[0]); Final(Step(s, ops[0]), ops[1..])
  }

  ghost function Outputs(s: PS, ops: seq<Op>): seq<FrameWriteRequest>
    requires s.Valid() && Runs(s, ops)
    decreases ops
  {
    if ops == [] then []
    else
      StepValid(s, ops[0]);
      (if ops[0].Pop? && Popped(s).Some? then [Popped(s).value] else []) + Outputs(Step(s, ops[0]), ops[1..])
  }

  ghost function Events(s: PS, ops: seq<Op>): (es: seq<S.Event>)
    requires s.Valid() && Runs(s, ops)
    decreases ops
  {
    if ops == [] then [] else StepValid(s, ops[0]); [EventOf(s, ops[0])] + Events(Step(s, ops[0]), ops[1..])
  }

  function PushedFrames(ops: seq<Op>): seq<FrameWriteRequest> {
    if ops == [] then [] else (if ops[0].Push? then [ops[0].wr] else []) + PushedFrames(ops[1..])
  }

  lemma NoOutput(s: PS, op: Op)
    requires s.Valid() && Legal(s, op) && S.Enabled(s.Abs(), EventOf(s, op)) && !op.Pop?
    ensures S.Output(s.Abs(), EventOf(s, op)) == [] && (EventOf(s, op).Pushed? <==> op.Push?)
  {
  }

  lemma {:induction false} RunRefines(s: PS, ops: seq<Op>)
    requires s.Valid() && Runs(s, ops)
    ensures S.Runs(s.Abs(), Events(s, ops))
    ensures Final(s, ops).Abs() == S.Final(s.Abs(), Events(s, ops))
    ensures Outputs(s, ops) == S.Outputs(s.Abs(), Events(s, ops))
    ensures PushedFrames(ops) == S.PushedFrames(Events(s, ops))
    ensures forall id :: S.Closed(id) in Events(s, ops) ==> Close(id) in ops
    decreases ops
  {
    if ops != [] {
      hide S.Next, S.Enabled, S.Output, Step;
      StepValid(s, ops[0]);
      StepRefines(s, ops[0]);
      RunRefines(Step(s, ops[0]), ops[1..]);
      var es := Events(s, ops);
      assert es[0] == EventOf(s, ops[0]) && es[1..] == Events(Step(s, ops[0]), ops[1..]);
      if !ops[0].Pop? { NoOutput(s, ops[0]); }
    }
  }

  /** Frame fidelity of the RFC 9218 scheduler (see SchedSpec.Fidelity), whatever
      the changes of priority. */
  lemma Rfc9218Fidelity(s: PS, ops: seq<Op>, id: StreamID)
    requires s.Valid() && Runs(s, ops) && id in s.queues && Close(id) !in ops
    ensures id in Final(s, ops).queues
    ensures S.Sent(Outputs(s, ops), id) + S.Pending(Final(s, ops).Abs().sched, id)
            == S.Pending(s.Abs().sched, id) + S.Sent(PushedFrames(ops), id)
  {
    hide S.Pending, S.Sent;
    RunRefines(s, ops);
    S.Fidelity(s.Abs(), Events(s, ops), id);
  }

  // ---- alternation ----

  /** Nothing more urgent than u is ready, and both classes of u are. */
  ghost predicate BothReady(s: PS, u: nat, a: StreamID, b: StreamID)
    requires s.Valid()
  {
    && s.control == [] && ReadyIn(s, a) && ReadyIn(s, b)
    && s.priority[a] == Priority(u, false) && s.priority[b] == Priority(u, true)
    && forall id :: ReadyIn(s, id) ==> s.priority[id].urgency >= u
  }

  /** Whenever Pop is called, both classes of urgency u are ready and nothing is
      more urgent. */
  ghost predicate StaysMixed(s: PS, ops: seq<Op>, u: nat)
    requires s.Valid() && Runs(s, ops)
    decreases ops
  {
    ops == [] ||
    (&& (ops[0].Pop? ==> exists a, b :: BothReady(s, u, a, b))
     && (StepValid(s, ops[0]); StaysMixed(Step(s, ops[0]), ops[1..], u)))
  }

  /** Whether each Pop of the run served an incremental stream. */
  ghost function Classes(s: PS, ops: seq<Op>): seq<bool>
    requires s.Valid() && Runs(s, ops)
    decreases ops
  {
    if ops == [] then []
    else
      StepValid(s, ops[0]);
      var tl := Classes(Step(s, ops[0]), ops[1..]);
      if !ops[0].Pop? then tl
      else
        [EventOf(s, Pop).PoppedStream? && EventOf(s, Pop).id in s.priority
          && s.priority[EventOf(s, Pop).id].incremental] + tl
  }

  lemma TakesTurn(s: PS, u: nat, a: StreamID, b: StreamID)
    requires s.Valid() && BothReady(s, u, a, b)
    ensures var e := EventOf(s, Pop);
            e.PoppedStream? && e.id in s.priority && s.priority[e.id] == Priority(u, !s.prioritizeIncremental)
  {
    hide Ready;
    ServesMostUrgent(s);
    var id := EventOf(s, Pop).id;
    assert NotBefore(s, a, id) && NotBefore(s, b, id);
  }

  lemma PreferenceTurns(s: PS, op: Op)
    requires s.Valid() && Legal(s, op) && (op.Pop? ==> s.control == [])
    ensures Step(s, op).prioritizeIncremental == (s.prioritizeIncremental != op.Pop?)
  {
    if op.Pop? && Search(s).Found? { FoundFacts(s); }
  }

  /** While both classes stay ready at the most urgent level, consecutive Pops
      serve them in turn, whatever other calls are made in between. */
  lemma {:induction false} ClassesAlternate(s: PS, ops: seq<Op>, u: nat)
    requires s.Valid() && Runs(s, ops) && StaysMixed(s, ops, u)
    ensures forall n :: 0 <= n < |Classes(s, ops)| ==> Classes(s, ops)[n] == ((n % 2 == 0) != s.prioritizeIncremental)
    decreases ops
  {
    hide Step, EventOf, BothReady;
    if ops != [] {
      StepValid(s, ops[0]);
      ControlEmpty(s, ops[0], u);
      PreferenceTurns(s, ops[0]);
      ClassesAlternate(Step(s, ops[0]), ops[1..], u);
      if ops[0].Pop? {
        var a, b :| BothReady(s, u, a, b);
        TakesTurn(s, u, a, b);
        var tl := Classes(Step(s, ops[0]), ops[1..]);
        assert Classes(s, ops) == [!s.prioritizeIncremental] + tl;
      }
    }
  }

  lemma ControlEmpty(s: PS, op: Op, u: nat)
    requires s.Valid() && (op.Pop? ==> exists a, b :: BothReady(s, u, a, b))
    ensures op.Pop? ==> s.control == []
  {
  }

  // ---- order within a ring ----

  ghost function PlaceOf(s: PS, id: StreamID): (i: nat)
    requires s.Valid() && id in s.queues
  {
    R.Place(s.rings[s.priority[id].Slot()], id)
  }

  predicate Moves(op: Op, id: StreamID) { (op.Close? || op.Adjust?) && op.id == id }

  /** No call on other streams moves a stream back in its ring. */
  lemma PlaceNeverGrows(s: PS, op: Op, id: StreamID)
    requires s.Valid() && Legal(s, op) && id in s.queues && !Moves(op, id) && !op.Pop?
    ensures Step(s, op).Valid() && id in Step(s, op).queues && Step(s, op).priority[id] == s.priority[id]
    ensures PlaceOf(Step(s, op), id) <= PlaceOf(s, id)
  {
    StepValid(s, op);
    hide R.Place, R.Without, R.Distinct, S.Valid, Ready;
    var k := s.priority[id].Slot();
    match op {
      case Open(other, p) =>
        if p.Slot() == k { R.PlaceAppend(s.rings[k], id, other); }
      case Close(other) =>
        if other in s.queues && s.priority[other].Slot() == k { R.PlaceWithout(s.rings[k], id, other); }
      case Adjust(other, p) =>
        if other in s.queues { PlaceAdjusted(s, other, p, id); }
      case _ =>
    }
  }

  lemma PlaceAdjusted(s: PS, other: StreamID, p: Priority, id: StreamID)
    requires s.Valid() && p.InRange() && id in s.queues && other in s.queues && other != id
    requires Step(s, Adjust(other, p)).Valid()
    ensures PlaceOf(Step(s, Adjust(other, p)), id) <= PlaceOf(s, id)
  {
    hide R.Place, R.Without, R.Distinct, S.Valid, Ready;
    var k := s.priority[id].Slot();
    var ring := s.rings[k];
    if s.priority[other].Slot() == k {
      R.PlaceWithout(ring, id, other);
      ring := R.Without(ring, other);
    }
    if p.Slot() == k { R.PlaceAppend(ring, id, other); }
  }

  /** What a Pop that finds the stream ready does to its place. */
  lemma PopMovesForward(s: PS, id: StreamID)
    requires s.Valid() && s.control == [] && ReadyIn(s, id)
    ensures Step(s, Pop).Valid() && id in Step(s, Pop).queues && Step(s, Pop).priority[id] == s.priority[id]
    ensures EventOf(s, Pop).PoppedStream?
    ensures var other := EventOf(s, Pop).id;
            && other in s.priority
            && (s.priority[other] != s.priority[id] ==> PlaceOf(Step(s, Pop), id) == PlaceOf(s, id))
            && (other != id && s.priority[other] == s.priority[id] ==>
                  && PlaceOf(s, id) > 0
                  && (s.priority[id].incremental ==> PlaceOf(Step(s, Pop), id) < PlaceOf(s, id)))
            && (other == id && !s.priority[id].incremental ==> PlaceOf(Step(s, Pop), id) == 0)
  {
    hide Search, R.Distinct, S.Valid, Ready, ReadyIn, R.Place, Step, EventOf, Served, R.Rotate;
    StepValid(s, Pop);
    SearchOrder(s, id);
    FoundFacts(s);
    PopStep(s);
    PopPlace(s, id);
  }

  lemma PopStep(s: PS)
    requires s.Valid() && s.control == [] && Search(s).Found?
    ensures var f := Search(s); var s' := Step(s, Pop);
            && EventOf(s, Pop) == S.PoppedStream(s.rings[f.slot][f.index]) && s'.priority == s.priority
               && s'.queues.Keys == s.queues.Keys
            && s'.rings == s.rings[f.slot := R.Rotate(s.rings[f.slot],
               if f.slot % 2 == 1 then f.index + 1 else f.index)]
  {
    hide R.Distinct, S.Valid, Ready, R.Rotate, ConsumeQueue;
    assert s.rings[Search(s).slot][Search(s).index] in s.queues;
  }

  /** The place of id after the ring of the served stream was rotated. */
  lemma PopPlace(s: PS, id: StreamID)
    requires s.Valid() && s.control == [] && ReadyIn(s, id) && Search(s).Found?
    ensures Step(s, Pop).Valid() && id in Step(s, Pop).queues && Step(s, Pop).priority[id] == s.priority[id]
    ensures var f := Search(s); var other := s.rings[f.slot][f.index];
            && other in s.priority
            && (s.priority[other] != s.priority[id] ==> PlaceOf(Step(s, Pop), id) == PlaceOf(s, id))
            && (other != id && s.priority[other] == s.priority[id] ==>
                  && PlaceOf(s, id) > 0
                  && (s.priority[id].incremental ==> PlaceOf(Step(s, Pop), id) < PlaceOf(s, id)))
            && (other == id && !s.priority[id].incremental ==> PlaceOf(Step(s, Pop), id) == 0)
  {
    hide Search, R.Distinct, S.Valid, Ready, R.Place, Step, EventOf, Served, R.Rotate;
    StepValid(s, Pop);
    SearchOrder(s, id);
    FoundFacts(s);
    PopStep(s);
    var f := Search(s);
    var other := s.rings[f.slot][f.index];
    VisitSlots(true, s.priority[id]);
    VisitSlots(true, s.priority[other]);
    if f.slot == s.priority[id].Slot() {
      R.PlaceUnique(s.rings[f.slot], other, f.index);
      if other == id {
        R.RotateFacts(s.rings[f.slot], f.index);
        R.PlaceUnique(R.Rotate(s.rings[f.slot], f.index), id, 0);
      } else if f.slot % 2 == 1 {
        R.PlaceRotated(s.rings[f.slot], id, f.index);
      }
    }
  }

  /** The stream keeps its priority and stays open, and whenever Pop is called
      no control frame is queued and the stream is ready. */
  ghost predicate StaysReady(s: PS, ops: seq<Op>, id: StreamID)
    requires s.Valid() && Runs(s, ops)
    decreases ops
  {
    ops == [] ||
    (&& !Moves(ops[0], id) && (ops[0].Pop? ==> s.control == [] && ReadyIn(s, id))
     && (StepValid(s, ops[0]); StaysReady(Step(s, ops[0]), ops[1..], id)))
  }

  /** Whenever Pop is called no stream more urgent than u is ready. */
  ghost predicate MostUrgent(s: PS, ops: seq<Op>, u: nat)
    requires s.Valid() && Runs(s, ops)
    decreases ops
  {
    ops == [] ||
    (&& (ops[0].Pop? ==> forall id :: ReadyIn(s, id) ==> id in s.priority && s.priority[id].urgency >= u)
     && (StepValid(s, ops[0]); MostUrgent(Step(s, ops[0]), ops[1..], u)))
  }

  /** The streams that the Pops of a run served. */
  ghost function ServedStreams(s: PS, ops: seq<Op>): seq<StreamID>
    requires s.Valid() && Runs(s, ops)
    decreases ops
  {
    if ops == [] then []
    else
      StepValid(s, ops[0]);
      (if ops[0].Pop? && EventOf(s, Pop).PoppedStream? then [EventOf(s, Pop).id] else [])
      + ServedStreams(Step(s, ops[0]), ops[1..])
  }

  function Pops(ops: seq<Op>): nat {
    if ops == [] then 0 else (if ops[0].Pop? then 1 else 0) + Pops(ops[1..])
  }

  /** Twice the place, and one more when the next Pop prefers the other class. */
  ghost function Rank(s: PS, id: StreamID): nat
    requires s.Valid() && id in s.queues
  {
    2 * PlaceOf(s, id) + if s.prioritizeIncremental then 1 else 0
  }

  lemma RankFalls(s: PS, id: StreamID)
    requires s.Valid() && s.control == [] && ReadyIn(s, id) && s.priority[id].incremental
    requires forall other ::
               ReadyIn(s, other) ==> other in s.priority && s.priority[other].urgency >= s.priority[id].urgency
    ensures Step(s, Pop).Valid() && id in Step(s, Pop).queues && Step(s, Pop).priority[id] == s.priority[id]
    ensures EventOf(s, Pop) == S.PoppedStream(id) || Rank(Step(s, Pop), id) < Rank(s, id)
  {
    PopMovesForward(s, id);
    PreferenceTurns(s, Pop);
    ServesMostUrgent(s);
    hide Step, EventOf, Ready, PlaceOf;
    var other := EventOf(s, Pop).id;
    assert ReadyIn(s, other) && NotBefore(s, id, other);
  }

  /** Bounded waiting of incremental streams: at the most urgent level a stream
      that stays ready is served within twice as many Pops as its place in the
      ring plus one, whatever else is called. */
  lemma {:induction false} IncrementalIsServed(s: PS, ops: seq<Op>, id: StreamID)
    requires s.Valid() && Runs(s, ops) && id in s.queues && s.priority[id].incremental
    requires StaysReady(s, ops, id) && MostUrgent(s, ops, s.priority[id].urgency)
    requires Pops(ops) > Rank(s, id)
    ensures id in ServedStreams(s, ops)
    decreases ops
  {
    hide Step, Ready, EventOf, PlaceOf;
    StepValid(s, ops[0]);
    if ops[0].Pop? {
      RankFalls(s, id);
    } else {
      PlaceNeverGrows(s, ops[0], id);
      PreferenceTurns(s, ops[0]);
    }
    if !(ops[0].Pop? && EventOf(s, Pop) == S.PoppedStream(id)) {
      IncrementalIsServed(Step(s, ops[0]), ops[1..], id);
    }
  }

  /** A non-incremental stream at the head of its ring is served to completion:
      while it stays ready, no other stream of its priority is served. */
  lemma {:induction false} NotInterrupted(s: PS, ops: seq<Op>, id: StreamID, other: StreamID)
    requires s.Valid() && Runs(s, ops) && id in s.queues && !s.priority[id].incremental && StaysReady(s, ops, id)
    requires PlaceOf(s, id) == 0 && SharesPriority(s, ops, id, other) && other != id
    ensures other !in ServedStreams(s, ops)
    decreases ops
  {
    if ops != [] {
      hide Step, Ready, EventOf, PlaceOf;
      StepValid(s, ops[0]);
      if ops[0].Pop? {
        PopMovesForward(s, id);
      } else {
        PlaceNeverGrows(s, ops[0], id);
      }
      NotInterrupted(Step(s, ops[0]), ops[1..], id, other);
    }
  }

  /** The other stream has the priority of id whenever Pop is called. */
  ghost predicate SharesPriority(s: PS, ops: seq<Op>, id: StreamID, other: StreamID)
    requires s.Valid() && Runs(s, ops)
    decreases ops
  {
    ops == [] ||
    (&& (ops[0].Pop? ==> id in s.priority && other in s.priority && s.priority[id] == s.priority[other])
     && (StepValid(s, ops[0]); SharesPriority(Step(s, ops[0]), ops[1..], id, other)))
  }

  /** A stream that a Pop served without the incremental flag is at the head of
      its ring afterwards. */
  lemma ServedStaysFirst(s: PS, id: StreamID)
    requires s.Valid() && s.control == [] && EventOf(s, Pop) == S.PoppedStream(id)
    ensures id in s.priority
    ensures Step(s, Pop).Valid() && id in Step(s, Pop).queues
    ensures !s.priority[id].incremental ==> PlaceOf(Step(s, Pop), id) == 0
  {
    ServesMostUrgent(s);
    PopMovesForward(s, id);
  }
}
