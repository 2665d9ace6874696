/** Any sequence of calls on the RFC 7540 scheduler: the tree survives all of
    them, and the map names all of its nodes exactly until a discarded node takes
    its namesake out of the map
    (xnet/http2/writesched_priority_rfc7540.go:255-450). */
module PriorityRuns {
  import opened Frames
  import opened DependencyTree
  import opened PriorityNode
  import opened PriorityTree
  import PriorityPop

  datatype Op =
    | Opening(id: StreamID, pusher: StreamID)
    | Closing(id: StreamID)
    | Adjusting(id: StreamID, dep: StreamID, exclusive: bool, weight: int)
    | Pushing(wr: FrameWriteRequest)
    | Popping(windows: Windows)

  datatype Config = Config(root: Node, maxClosed: int, maxIdle: int)

  /** What the structure of the tree depends on. */
  datatype View = View(nodes: map<StreamID, Node>, tree: set<Node>, closed: seq<Node>, idle: seq<Node>,
    deps: Parents<Node>, maxID: StreamID) {
    ghost function Listed(): set<Node> { (set m | m in closed) + (set m | m in idle) }

    /** The tree's nodes are those in the map. */
    ghost predicate Exact() { Lost(nodes, tree) == {} }
  }

  /** The linked nodes are one tree under the root, and what the map names is in
      it. */
  ghost predicate Good(c: Config, v: View) {
    && v.deps.Keys == v.tree && IsTree(v.deps, c.root)
    && Names(v.nodes, v.tree, c.root) && ListsOk(v.Listed(), c.root) && Bounded(v.nodes, v.Listed(), v.maxID)
  }

  /** The node that a call discards, if any. */
  ghost function Discarded(c: Config, v: View, op: Op): Option<Node> {
    match op
    case Closing(id) => if id in v.nodes then ClosedOut(v.closed, c.maxClosed, v.nodes[id]) else None
    case Adjusting(id, _, _, _) =>
      if id !in v.nodes && id > v.maxID && c.maxIdle != 0 then Oldest(v.idle, c.maxIdle) else None
    case _ => None
  }

  /** The call discards a node whose id names another node. */
  ghost predicate Slips(c: Config, v: View, op: Op) {
    var m := Discarded(c, v, op);
    m.Some? && Namesake(v.nodes, m.value)
  }

  /** A node that is not known yet. */
  ghost predicate IsNew(v: View, n: Node, id: StreamID) { n !in v.tree && n !in v.Listed() && n.id == id }

  ghost predicate Opens(c: Config, v: View, id: StreamID, pusher: StreamID, v': View) {
    if id in v.nodes then v' == v
    else
      && id in v'.nodes && IsNew(v, v'.nodes[id], id)
      && v' == View(v.nodes[id := v'.nodes[id]], v.tree + {v'.nodes[id]}, v.closed, v.idle,
                    v.deps[v'.nodes[id] := Some(if pusher in v.nodes then v.nodes[pusher] else c.root)],
                    if id > v.maxID then id else v.maxID)
  }

  ghost predicate Closes(c: Config, v: View, id: StreamID, v': View) {
    && id in v.nodes && id != 0 && v'.idle == v.idle && v'.maxID == v.maxID
    && v'.closed == (if c.maxClosed > 0 then Shifted(v.closed, c.maxClosed) + [v.nodes[id]] else v.closed)
    && Discards(Discarded(c, v, Closing(id)), v.tree, v'.tree, v.nodes, v'.nodes, v.deps, v'.deps)
  }

  ghost predicate Adjusts(c: Config, v: View, id: StreamID, dep: StreamID, exclusive: bool, v': View) {
    if id in v.nodes then v' == v.(deps := v'.deps) && AdjustedTo(v.nodes, c.root, v.deps, v'.deps, id, dep, exclusive)
    else if id <= v.maxID || c.maxIdle == 0 then v' == v
    else
      && id in v'.nodes && IsNew(v, v'.nodes[id], id) && v'.maxID == id
      && v'.closed == v.closed && v'.idle == Shifted(v.idle, c.maxIdle) + [v'.nodes[id]]
      && var gone, pm := Oldest(v.idle, c.maxIdle), v.deps[v'.nodes[id] := Some(c.root)];
         && Discards(gone, v.tree + {v'.nodes[id]}, v'.tree, v.nodes[id := v'.nodes[id]], v'.nodes, pm,
            DepsWithout(pm, gone))
         && AdjustedTo(v'.nodes, c.root, DepsWithout(pm, gone), v'.deps, id, dep, exclusive)
  }

  /** What one call does to the structure. */
  ghost predicate Step(c: Config, v: View, op: Op, v': View) {
    match op
    case Opening(id, pusher) => Opens(c, v, id, pusher, v')
    case Closing(id) => Closes(c, v, id, v')
    case Adjusting(id, dep, exclusive, _) => Adjusts(c, v, id, dep, exclusive, v')
    case _ => v' == v
  }

  // ---- nothing is lost if and only if no call slips ----

  lemma StepLost(c: Config, v: View, op: Op, v': View)
    requires Good(c, v) && Step(c, v, op, v')
    ensures Lost(v'.nodes, v'.tree) == LostAfter(v.nodes, v.tree, Discarded(c, v, op))
  {
    hide IsTree, AdjustedTo, Discards, Lost;
    match op {
      case Opening(id, _) => if id !in v.nodes { NameAdded(v.nodes, v.tree, c.root, v'.nodes[id]); }
      case Closing(id) =>
        ListedIds(v.closed, v.Listed(), c.root);
        RootName(v.nodes, v.tree, c.root);
        AfterDiscard(Discarded(c, v, op), v.tree, v'.tree, v.nodes, v'.nodes, v.deps, v'.deps, c.root);
      case Adjusting(id, dep, exclusive, _) =>
        if id !in v.nodes && id > v.maxID && c.maxIdle != 0 { CreatedLost(c, v, id, dep, exclusive, v'); }
      case _ =>
    }
  }

  lemma CreatedLost(c: Config, v: View, id: StreamID, dep: StreamID, exclusive: bool, v': View)
    requires Good(c, v) && Adjusts(c, v, id, dep, exclusive, v') && id !in v.nodes && id > v.maxID && c.maxIdle != 0
    ensures Lost(v'.nodes, v'.tree) == LostAfter(v.nodes, v.tree, Oldest(v.idle, c.maxIdle))
  {
    hide IsTree, Lost, LostAfter, Names;
    var n, gone := v'.nodes[id], Oldest(v.idle, c.maxIdle);
    var N, T := v.nodes[id := n], v.tree + {n};
    var pm := v.deps[n := Some(c.root)];
    ListedIds(v.idle, v.Listed(), c.root);
    AboveMax(v.nodes, v.Listed(), v.maxID, id);
    NameAdded(v.nodes, v.tree, c.root, n);
    AfterDiscard(gone, T, v'.tree, N, v'.nodes, pm, DepsWithout(pm, gone), c.root);
    LostWithNew(v.nodes, v.tree, n, gone);
  }

  ghost predicate IsRun(c: Config, vs: seq<View>, ops: seq<Op>) {
    && |vs| == |ops| + 1
    && (forall i :: 0 <= i < |vs| ==> Good(c, vs[i]))
    && forall i :: 0 <= i < |ops| ==> Step(c, vs[i], ops[i], vs[i + 1])
  }

  ghost predicate AllExact(vs: seq<View>) { forall i :: 0 <= i < |vs| ==> vs[i].Exact() }

  ghost predicate NeverSlips(c: Config, vs: seq<View>, ops: seq<Op>)
    requires |vs| == |ops| + 1
  {
    forall i :: 0 <= i < |ops| ==> !Slips(c, vs[i], ops[i])
  }

  lemma StepExact(c: Config, v: View, op: Op, v': View)
    requires Good(c, v) && Step(c, v, op, v') && v.Exact()
    ensures v'.Exact() <==> !Slips(c, v, op)
  {
    hide Good, Step, Discarded;
    StepLost(c, v, op, v');
  }

  /** On any run, the map names all nodes of the tree all the time if and only if
      no call discards a node that has a namesake. */
  lemma ExactRun(c: Config, vs: seq<View>, ops: seq<Op>)
    requires IsRun(c, vs, ops) && vs[0].Exact()
    ensures AllExact(vs) <==> NeverSlips(c, vs, ops)
  {
    hide Good, Step, Slips, View.Exact;
    if AllExact(vs) {
      forall i | 0 <= i < |ops| ensures !Slips(c, vs[i], ops[i]) {
        assert vs[i].Exact() && vs[i + 1].Exact();
        StepExact(c, vs[i], ops[i], vs[i + 1]);
      }
    } else if NeverSlips(c, vs, ops) {
      ExactUpTo(c, vs, ops, |ops|);
    }
  }

  lemma {:induction false} ExactUpTo(c: Config, vs: seq<View>, ops: seq<Op>, n: nat)
    requires IsRun(c, vs, ops) && vs[0].Exact() && NeverSlips(c, vs, ops) && n <= |ops|
    ensures forall i :: 0 <= i <= n ==> vs[i].Exact()
  {
    hide Good, Step, Slips, View.Exact;
    if n > 0 {
      ExactUpTo(c, vs, ops, n - 1);
      assert vs[n - 1].Exact() && Step(c, vs[n - 1], ops[n - 1], vs[n - 1 + 1]);
      StepExact(c, vs[n - 1], ops[n - 1], vs[n]);
    }
  }

  // ---- callers that do not reopen a stream ----

  /** The streams closed so far. */
  function ClosedIds(ops: seq<Op>): set<StreamID> { set i | 0 <= i < |ops| && ops[i].Closing? :: ops[i].id }

  /** Section 5.1.1 of RFC 7540: stream identifiers cannot be reused. */
  ghost predicate NoneReopened(ops: seq<Op>) {
    forall i, j :: 0 <= i < j < |ops| && ops[i].Closing? && ops[j].Opening? ==> ops[i].id != ops[j].id
  }

  /** A listed node is in the tree, or was closed and its id names nothing. */
  ghost predicate Tidy(v: View, closed: set<StreamID>) {
    && v.Exact() && Distinct(v.idle)
    && (forall m :: m in v.closed ==> m.id in closed)
    && forall m :: m in v.Listed() && m !in v.tree ==> m.id in closed && m.id !in v.nodes
  }

  lemma TidyNoNamesakes(v: View, closed: set<StreamID>, m: Node)
    requires Tidy(v, closed) && m in v.Listed()
    ensures !Namesake(v.nodes, m)
  {
    if m in v.tree { assert m !in Lost(v.nodes, v.tree); }
  }

  lemma TidyOpen(c: Config, v: View, closed: set<StreamID>, id: StreamID, pusher: StreamID, v': View)
    requires Good(c, v) && Tidy(v, closed) && Opens(c, v, id, pusher, v') && id !in closed
    ensures Tidy(v', closed)
  {
    hide IsTree;
    if id !in v.nodes { NameAdded(v.nodes, v.tree, c.root, v'.nodes[id]); }
    hide Lost;
  }

  lemma TidyClose(c: Config, v: View, closed: set<StreamID>, id: StreamID, v': View)
    requires Good(c, v) && Tidy(v, closed) && Closes(c, v, id, v')
    ensures Tidy(v', closed + {id})
  {
    var op := Closing(id);
    var gone := Discarded(c, v, op);
    hide IsTree, Good;
    if gone.Some? && gone.value in v.Listed() { TidyNoNamesakes(v, closed, gone.value); }
    NamedById(c, v, id);
    var n := v.nodes[id];
    StepExact(c, v, op, v');
    hide Lost, View.Exact;
    forall m | m in v'.Listed() && m !in v'.tree ensures m.id in closed + {id} && m.id !in v'.nodes {
      assert m in v.Listed() || m == n;
    }
  }

  lemma NamedById(c: Config, v: View, id: StreamID)
    requires Good(c, v) && id in v.nodes
    ensures v.nodes[id].id == id && v.nodes[id] in v.tree && !Namesake(v.nodes, v.nodes[id])
  {
  }

  lemma TidyAdjust(c: Config, v: View, closed: set<StreamID>, op: Op, v': View)
    requires Good(c, v) && Tidy(v, closed) && op.Adjusting? && Step(c, v, op, v')
    ensures Tidy(v', closed)
  {
    if op.id !in v.nodes && op.id > v.maxID && c.maxIdle != 0 {
      var gone := Discarded(c, v, op);
      if gone.Some? { TidyNoNamesakes(v, closed, gone.value); }
      StepExact(c, v, op, v');
      AboveMax(v.nodes, v.Listed(), v.maxID, op.id);
      TidyCreate(c, v, closed, op.id, op.dep, op.exclusive, v');
    }
  }

  lemma TidyCreate(c: Config, v: View, closed: set<StreamID>, id: StreamID, dep: StreamID, exclusive: bool, v': View)
    requires Tidy(v, closed) && v'.Exact() && Adjusts(c, v, id, dep, exclusive, v')
    requires id !in v.nodes && id > v.maxID && c.maxIdle != 0 && forall m :: m in v.Listed() ==> m.id != id
    ensures Tidy(v', closed)
  {
    hide IsTree, AdjustedTo, View.Exact;
    var n, gone := v'.nodes[id], Oldest(v.idle, c.maxIdle);
    assert v'.tree == v.tree + {n} - Only(gone);
    forall m | m in v'.Listed() && m !in v'.tree ensures m.id in closed && m.id !in v'.nodes {
      assert m != n;
      assert m in v.Listed();
      if gone == Some(m) { assert m in v.closed; }
    }
  }

  lemma StepTidy(c: Config, v: View, closed: set<StreamID>, op: Op, v': View)
    requires Good(c, v) && Tidy(v, closed) && Step(c, v, op, v') && (op.Opening? ==> op.id !in closed)
    ensures Tidy(v', closed + if op.Closing? then {op.id} else {})
  {
    hide Good, Tidy, Opens, Closes, Adjusts;
    assert closed + {} == closed;
    match op {
      case Opening(id, pusher) => TidyOpen(c, v, closed, id, pusher, v');
      case Closing(id) => TidyClose(c, v, closed, id, v');
      case Adjusting(_, _, _, _) => TidyAdjust(c, v, closed, op, v');
      case _ =>
    }
  }

  /** If no stream is opened again after it was closed, nothing is ever lost. */
  lemma {:induction false} RunTidy(c: Config, vs: seq<View>, ops: seq<Op>, n: nat)
    requires IsRun(c, vs, ops) && Tidy(vs[0], {}) && NoneReopened(ops) && n <= |ops|
    ensures Tidy(vs[n], ClosedIds(ops[..n]))
  {
    hide Good, Step, Tidy;
    if n == 0 {
      assert ClosedIds(ops[..0]) == {};
    } else {
      RunTidy(c, vs, ops, n - 1);
      var op := ops[n - 1];
      assert Step(c, vs[n - 1], op, vs[n - 1 + 1]) && ops[..n] == ops[..n - 1] + [op];
      assert op.Opening? ==> op.id !in ClosedIds(ops[..n - 1]);
      StepTidy(c, vs[n - 1], ClosedIds(ops[..n - 1]), op, vs[n]);
      assert ClosedIds(ops[..n]) == ClosedIds(ops[..n - 1]) + if op.Closing? then {op.id}
        else {} by { ClosedSnoc(ops[..n - 1], op); }
    }
  }

  lemma ClosedSnoc(ops: seq<Op>, op: Op)
    ensures ClosedIds(ops + [op]) == ClosedIds(ops) + if op.Closing? then {op.id} else {}
  {
    var all := ops + [op];
    assert all[|ops|] == op;
    forall id | id in ClosedIds(ops) ensures id in ClosedIds(all) {
      var i :| 0 <= i < |ops| && ops[i].Closing? && ops[i].id == id;
      assert all[i] == ops[i];
    }
  }

  // ---- the scheduler itself ----

  ghost function ConfigOf(ws: Scheduler): Config { Config(ws.root, ws.maxClosedNodesInTree, ws.maxIdleNodesInTree) }

  ghost function ViewOf(ws: Scheduler): View
    reads ws`nodes, ws`tree, ws`closedNodes, ws`idleNodes, ws`maxID, ws.tree`parent, ws.tree`kids,
          ws.tree`prev, ws.tree`next, ws.tree`children
  {
    View(ws.nodes, ws.tree, ws.closedNodes, ws.idleNodes, Deps(ws.tree), ws.maxID)
  }

  lemma ViewGood(ws: Scheduler)
    requires ws.Sound()
    ensures Good(ConfigOf(ws), ViewOf(ws))
  {
    hide IsTree, Linked, Names, Bounded, ListsOk, Loose;
    assert ViewOf(ws).Listed() == ws.Listed();
  }

  /** The calls that panic. */
  predicate Panics(ws: Scheduler, op: Op)
    reads ws`nodes, ws.nodes.Values`state
  {
    match op
    case Opening(id, _) => id in ws.nodes && ws.nodes[id].state != Idle
    case Closing(id) => id == 0 || id !in ws.nodes || ws.nodes[id].state != NodeState.Open
    case Adjusting(id, _, _, _) => id == 0
    case Pushing(wr) => !wr.IsControl() && wr.StreamId() !in ws.nodes && wr.DataSize() > 0
    case Popping(_) => false
  }

  lemma SoundNames(ws: Scheduler)
    requires ws.Sound()
    ensures Names(ws.nodes, ws.tree, ws.root)
  {
  }

  method OpenIn(ws: Scheduler, id: StreamID, pusher: StreamID)
    requires ws.Sound() && (id in ws.nodes ==> ws.nodes[id].state == Idle)
    modifies ws, ws.tree
    ensures ws.Sound() && Opens(ConfigOf(ws), old(ViewOf(ws)), id, pusher, ViewOf(ws))
    ensures fresh(ws.tree - old(ws.tree)) && ws.Listed() == old(ws.Listed())
  {
    hide Scheduler.Sound, TreeOver, Deps, Names, Lost, Bounded, NoNamesakes;
    ghost var L := ws.Listed();
    ws.OpenStream(id, pusher);
    SoundNames(ws);
    IdNames(ws.nodes, ws.tree, ws.root, id);
    assert id !in old(ws.nodes) ==> fresh(ws.nodes[id]);
  }

  method CloseIn(ws: Scheduler, id: StreamID)
    requires ws.Sound() && id != 0 && id in ws.nodes && ws.nodes[id].state == NodeState.Open
    modifies ws, ws.tree, ws.closedNodes
    ensures ws.Sound() && Closes(ConfigOf(ws), old(ViewOf(ws)), id, ViewOf(ws))
    ensures ws.tree <= old(ws.tree) && ws.Listed() <= old(ws.Listed()) + old(ws.tree)
  {
    hide Scheduler.Sound, TreeOver, Deps, Names, Lost, LostAfter, Bounded, NoNamesakes, DepsWithout;
    SoundNames(ws);
    IdNames(ws.nodes, ws.tree, ws.root, id);
    ws.CloseStream(id);
  }

  method AdjustIn(ws: Scheduler, id: StreamID, dep: StreamID, exclusive: bool, weight: int)
    requires ws.Sound() && id != 0
    modifies ws, ws.tree, ws.idleNodes
    ensures ws.Sound() && Adjusts(ConfigOf(ws), old(ViewOf(ws)), id, dep, exclusive, ViewOf(ws))
    ensures fresh(ws.tree - old(ws.tree)) && fresh(ws.Listed() - old(ws.Listed()))
  {
    hide Scheduler.Sound, TreeOver, Deps, Names, Lost, LostAfter, Bounded, NoNamesakes, DepsWithout, AdjustedTo,
         Discards;
    ws.AdjustStream(id, dep, exclusive, weight);
    if id in ws.nodes {
      SoundNames(ws);
      IdNames(ws.nodes, ws.tree, ws.root, id);
    }
  }

  /** One call. */
  method Apply(ws: Scheduler, op: Op)
    requires ws.Sound() && !Panics(ws, op)
    modifies ws, ws.tree, ws.Listed()
    ensures ws.Sound() && Step(ConfigOf(ws), old(ViewOf(ws)), op, ViewOf(ws))
    ensures fresh(ws.tree - old(ws.tree)) && fresh(ws.Listed() - old(ws.Listed()) - old(ws.tree))
  {
    hide Scheduler.Sound, TreeOver, Deps, Opens, Closes, Adjusts, PriorityPop.Popped;
    match op {
      case Opening(id, pusher) => OpenIn(ws, id, pusher);
      case Closing(id) => CloseIn(ws, id);
      case Adjusting(id, dep, exclusive, weight) => AdjustIn(ws, id, dep, exclusive, weight);
      case Pushing(wr) => ws.Push(wr);
      case Popping(w) =>
        ghost var served;
        var r, w';
        r, w', served := PriorityPop.Pop(ws, w);
    }
  }

  /** Any calls on a new scheduler, up to one that panics.  After every call the
      nodes form one tree that holds all nodes the map names (Good).  The map
      names all of its nodes, all the time, if and only if no call discards a
      node that has a namesake; and it does if no stream is opened again after
      it was closed. */
  method Run(maxClosed: int, maxIdle: int, throttle: bool, ops: seq<Op>)
    returns (ws: Scheduler, done: nat, ghost vs: seq<View>)
    ensures done <= |ops| && ws.Sound() && (done < |ops| ==> Panics(ws, ops[done]))
    ensures ConfigOf(ws) == Config(ws.root, maxClosed, maxIdle)
    ensures IsRun(ConfigOf(ws), vs, ops[..done]) && vs[done] == ViewOf(ws)
    ensures AllExact(vs) <==> NeverSlips(ConfigOf(ws), vs, ops[..done])
    ensures NoneReopened(ops) ==> AllExact(vs)
  {
    hide Scheduler.Sound, Good, Step, Tidy, Slips, View.Exact;
    ws := new Scheduler(maxClosed, maxIdle, throttle);
    vs := [ViewOf(ws)];
    ViewGood(ws);
    StartTidy(ws);
    ghost var c := ConfigOf(ws);
    done := 0;
    while done < |ops| && !Panics(ws, ops[done])
      invariant done <= |ops| && ws.Sound() && fresh(ws) && fresh(ws.tree) && fresh(ws.Listed()) && ConfigOf(ws) == c
      invariant IsRun(c, vs, ops[..done]) && vs[done] == ViewOf(ws) && Tidy(vs[0], {})
    {
      ghost var v := ViewOf(ws);
      Apply(ws, ops[done]);
      ViewGood(ws);
      RunSnoc(c, vs, ops[..done], ops[done], ViewOf(ws));
      assert ops[..done + 1] == ops[..done] + [ops[done]];
      vs := vs + [ViewOf(ws)];
      done := done + 1;
    }
    TidyExact(vs[0], {});
    ExactRun(c, vs, ops[..done]);
    if NoneReopened(ops) {
      forall n | 0 <= n < |vs| ensures vs[n].Exact() {
        RunTidy(c, vs, ops[..done], n);
        TidyExact(vs[n], ClosedIds(ops[..done][..n]));
      }
    }
  }

  lemma TidyExact(v: View, closed: set<StreamID>)
    requires Tidy(v, closed)
    ensures v.Exact()
  {
  }

  lemma StartTidy(ws: Scheduler)
    requires ws.Sound() && ws.closedNodes == ws.idleNodes == [] && ws.nodes.Keys == {0} && ws.tree == {ws.root}
    ensures Tidy(ViewOf(ws), {})
  {
  }

  lemma RunSnoc(c: Config, vs: seq<View>, ops: seq<Op>, op: Op, v: View)
    requires IsRun(c, vs, ops) && Good(c, v) && Step(c, vs[|ops|], op, v)
    ensures IsRun(c, vs + [v], ops + [op])
  {
    hide Good, Step;
  }
}
