/** The RFC 7540 write scheduler
    (xnet/http2/writesched_priority_rfc7540.go:228-450). */
module PriorityTree {
  import opened Frames
  import opened DependencyTree
  import opened PriorityNode

  const DEFAULT_WEIGHT := 15

  /** The nodes of S are one tree under root, and all sibling lists are
      complete. */
  ghost predicate TreeOver(S: set<Node>, root: Node)
    reads S`parent, S`kids, S`prev, S`next, S`children
  {
    Linked(GraphOf(S)) && IsTree(ParentsOf(GraphOf(S)), root)
  }

  ghost function Deps(S: set<Node>): (pm: Parents<Node>)
    reads S`parent, S`kids, S`prev, S`next, S`children
  {
    ParentsOf(GraphOf(S))
  }

  /** The map names nodes of the tree, each by its id, and the root by 0. */
  ghost predicate Names(N: map<StreamID, Node>, T: set<Node>, root: Node) {
    && 0 in N && N[0] == root
    && (forall id :: id in N ==> N[id] in T && N[id].id == id)
    && forall x :: x in T && x.id == 0 ==> x == root
  }

  /** The nodes of the tree that the map does not name. */
  ghost function Lost(N: map<StreamID, Node>, T: set<Node>): set<Node> {
    set x | x in T && !(x.id in N && N[x.id] == x)
  }

  /** Nothing is lost if and only if the tree's nodes are those in the map. */
  lemma NothingLost(N: map<StreamID, Node>, T: set<Node>, root: Node)
    requires Names(N, T, root)
    ensures Lost(N, T) == {} <==> T == N.Values
  {
    if Lost(N, T) == {} {
      forall x | x in T ensures x in N.Values {
        assert x !in Lost(N, T);
        assert x.id in N && N[x.id] == x;
      }
    } else {
      var x :| x in Lost(N, T);
      assert forall id :: id in N && N[id] == x ==> id == x.id;
    }
  }

  /** What is lost after a discard: the discarded node no longer, but its
      namesake. */
  ghost function LostAfter(N: map<StreamID, Node>, T: set<Node>, gone: Option<Node>): set<Node> {
    if gone.None? then Lost(N, T)
    else Lost(N, T) - {gone.value} + if Namesake(N, gone.value) then {N[gone.value.id]} else {}
  }

  /** Nodes that were discarded from the tree have no links left. */
  ghost predicate Loose(D: set<Node>)
    reads D`parent, D`kids, D`prev, D`next, D`children
  {
    forall m :: m in D ==> m.LinksOf() == NO_LINKS
  }

  /** Another node of the map has m's id. */
  ghost predicate Namesake(N: map<StreamID, Node>, m: Node) { m.id in N && N[m.id] != m }

  ghost function Oldest(list: seq<Node>, maxSize: int): Option<Node> {
    if maxSize > 0 && |list| == maxSize then Some(list[0]) else None
  }

  ghost function ClosedOut(list: seq<Node>, maxSize: int, n: Node): Option<Node> {
    if maxSize > 0 then Oldest(list, maxSize) else Some(n)
  }

  /** The effect of discarding a node, if there is one to discard. */
  ghost predicate Discards(gone: Option<Node>, T: set<Node>, T': set<Node>, N: map<StreamID, Node>,
                           N': map<StreamID, Node>, pm: Parents<Node>, pm': Parents<Node>)
  {
    match gone
    case None => T' == T && N' == N && pm' == pm
    case Some(m) => T' == T - {m} && N' == N - {m.id} && pm' == DepsWithout(pm, gone)
  }

  ghost function DepsWithout(pm: Parents<Node>, gone: Option<Node>): Parents<Node> {
    if gone.Some? && gone.value in pm then Removed(pm, gone.value) else pm
  }

  lemma DiscardsDeps(gone: Option<Node>, T: set<Node>, T': set<Node>, N: map<StreamID, Node>, N': map<StreamID, Node>,
                     pm: Parents<Node>, pm': Parents<Node>)
    requires Discards(gone, T, T', N, N', pm, pm')
    ensures pm' == DepsWithout(pm, gone)
  {
  }

  /** Discarding a node takes its namesake out of the map too, and nothing else. */
  lemma AfterDiscard(gone: Option<Node>, T: set<Node>, T': set<Node>, N: map<StreamID, Node>, N': map<StreamID, Node>,
                     pm: Parents<Node>, pm': Parents<Node>, root: Node)
    requires Names(N, T, root) && Discards(gone, T, T', N, N', pm, pm')
    requires gone.Some? ==> gone.value != root && gone.value.id != 0
    ensures Names(N', T', root) && Lost(N', T') == LostAfter(N, T, gone)
    ensures T' == T - Only(gone)
    ensures forall id :: id in N' <==> id in N && !DropsId(gone, id)
    ensures forall id :: id in N' ==> N'[id] == N[id]
  {
  }

  lemma IdNames(N: map<StreamID, Node>, T: set<Node>, root: Node, id: StreamID)
    requires Names(N, T, root) && id in N
    ensures N[id] in T && N[id].id == id && (N[id] == root <==> id == 0)
  {
  }

  /** pm' is pm after AdjustStream on the known stream id: the default
      dependency if dep is unknown, nothing if it is id itself, and otherwise
      section 5.3.3 of RFC 7540. */
  ghost predicate AdjustedTo(N: map<StreamID, Node>, root: Node, pm: Parents<Node>, pm': Parents<Node>, id: StreamID,
                             dep: StreamID, exclusive: bool)
    requires id in N
  {
    if dep !in N then pm' == pm[N[id] := Some(root)]
    else if dep == id then pm' == pm
    else N[id] in pm && N[dep] in pm && pm' == Adjusted(pm, N[id], N[dep], exclusive)
  }

  ghost predicate DropsId(gone: Option<Node>, id: StreamID) { gone.Some? && gone.value.id == id }

  ghost function Only(m: Option<Node>): set<Node> { if m.Some? then {m.value} else {} }

  /** A full list without its oldest node. */
  ghost function Shifted(list: seq<Node>, maxSize: int): seq<Node> {
    if maxSize > 0 && |list| == maxSize then list[1..] else list
  }

  lemma RootName(N: map<StreamID, Node>, T: set<Node>, root: Node)
    requires Names(N, T, root)
    ensures 0 in N && root.id == 0 && forall x :: x in T && x != root ==> x.id != 0
  {
  }

  lemma AboveMax(N: map<StreamID, Node>, L: set<Node>, maxID: StreamID, id: StreamID)
    requires Bounded(N, L, maxID) && id > maxID
    ensures id !in N && forall m :: m in L ==> m.id != id
  {
  }

  /** A node that was just added is nobody's namesake. */
  lemma LostWithNew(N: map<StreamID, Node>, T: set<Node>, n: Node, gone: Option<Node>)
    requires n.id !in N && n !in T && (gone.Some? ==> gone.value.id != n.id)
    ensures LostAfter(N[n.id := n], T + {n}, gone) == LostAfter(N, T, gone)
  {
    assert Lost(N[n.id := n], T + {n}) == Lost(N, T);
  }

  /** The lists after n joined one of them and a node was discarded. */
  lemma ListsAfter(N: map<StreamID, Node>, N': map<StreamID, Node>, L: set<Node>, L': set<Node>, n: Node, root: Node,
                   maxID: StreamID)
    requires ListsOk(L, root) && Bounded(N, L, maxID) && L' <= L + {n}
    requires n != root && n.id != 0 && n.id in N && N[n.id] == n
    requires forall id :: id in N' ==> id in N && N'[id] == N[id]
    ensures ListsOk(L', root) && Bounded(N', L', maxID) && (NoNamesakes(N, L) ==> NoNamesakes(N', L'))
  {
  }

  lemma LooseAfter(L: set<Node>, L': set<Node>, T: set<Node>, T': set<Node>, gone: Option<Node>, n: Node)
    requires Loose(L - T + Only(gone)) && L' <= L + {n} && n in T && T' == T - Only(gone)
    ensures Loose(L' - T')
  {
  }

  lemma NotNamesake(N: map<StreamID, Node>, L: set<Node>, m: Node)
    requires NoNamesakes(N, L) && m in L
    ensures !Namesake(N, m)
  {
  }

  lemma NameAdded(N: map<StreamID, Node>, T: set<Node>, root: Node, n: Node)
    requires Names(N, T, root) && n.id !in N && n !in T
    ensures Names(N[n.id := n], T + {n}, root) && Lost(N[n.id := n], T + {n}) == Lost(N, T)
  {
  }

  ghost predicate ListsOk(L: set<Node>, root: Node) { forall m :: m in L ==> m != root && m.id != 0 }

  /** No node of L shares its id with a different node in the map. */
  ghost predicate NoNamesakes(N: map<StreamID, Node>, L: set<Node>) {
    forall m :: m in L ==> !Namesake(N, m)
  }

  ghost predicate Bounded(N: map<StreamID, Node>, L: set<Node>, maxID: StreamID) {
    (forall id :: id in N ==> id <= maxID) && forall m :: m in L ==> m.id <= maxID
  }

  lemma ListedIds(list: seq<Node>, L: set<Node>, root: Node)
    requires ListsOk(L, root) && forall m :: m in list ==> m in L
    ensures forall m :: m in list ==> m != root && m.id != 0
  {
  }

  class Scheduler {
    const root: Node
    var nodes: map<StreamID, Node>
    var maxID: StreamID
    var closedNodes: seq<Node>
    var idleNodes: seq<Node>
    const maxClosedNodesInTree: int
    const maxIdleNodesInTree: int
    var writeThrottleLimit: int
    const enableWriteThrottle: bool
    ghost var tree: set<Node>       // the nodes linked into the tree

    /** NewPriorityWriteScheduler */
    constructor (maxClosed: int, maxIdle: int, throttle: bool)
      ensures Valid() && tree == {root} && fresh(tree)
      ensures nodes.Keys == {0} && closedNodes == [] && idleNodes == [] && maxID == 0
      ensures maxClosedNodesInTree == maxClosed && maxIdleNodesInTree == maxIdle && enableWriteThrottle == throttle
      ensures writeThrottleLimit == if throttle then 1024 else MAX_INT32
    {
      var r := new Node(0, 0, Open);
      root := r;
      nodes := map[0 := r];
      maxID := 0;
      closedNodes, idleNodes := [], [];
      maxClosedNodesInTree, maxIdleNodesInTree := maxClosed, maxIdle;
      enableWriteThrottle := throttle;
      writeThrottleLimit := if throttle then 1024 else MAX_INT32;
      tree := {r};
      new;
      SingleNodeTree(root);
    }

    /** The nodes that are linked are one tree. */
    ghost predicate TreeOk()
      reads this`tree, tree`parent, tree`kids, tree`prev, tree`next, tree`children
    {
      root in tree && TreeOver(tree, root)
    }

    /** The map names nodes of the tree, and a node kept on a list is in the tree
        or was discarded from it.  maxID bounds all ids. */
    ghost predicate Sound()
      reads this, tree, closedNodes, idleNodes
    {
      && TreeOk()
      && Names(nodes, tree, root)
      && ListsOk(Listed(), root) && Loose(Listed() - tree)
      && Bounded(nodes, Listed(), maxID)
      && 1024 <= writeThrottleLimit <= MAX_INT32
    }

    ghost function Listed(): set<Node>
      reads this`closedNodes, this`idleNodes
    {
      (set m | m in closedNodes) + (set m | m in idleNodes)
    }

    /** The tree's nodes are those in the map, and no listed node shares its id
        with a different node. */
    ghost predicate Valid()
      reads this, tree, closedNodes, idleNodes
    {
      Sound() && Lost(nodes, tree) == {} && NoNamesakes(nodes, Listed())
    }

    /** removeNode: n's kids move to n's parent, n leaves the tree, and n's id
        leaves the map (AfterDiscard says what that does to the map). */
    method RemoveNode(n: Node, ghost discarded: set<Node>)
      requires TreeOk() && n != root
      requires Loose(discarded) && discarded !! tree && n in tree + discarded
      modifies this`nodes, this`tree, n`parent, n`kids, n`prev, n`next, n`children, tree`parent, tree`kids,
               tree`prev, tree`next, tree`children
      ensures TreeOk()
      ensures Discards(Some(n), old(tree), tree, old(nodes), nodes, old(Deps(tree)), Deps(tree))
      ensures Loose(discarded + {n})
    {
      hide TreeOver, Deps, Removed;
      ghost var S := tree + {n};
      assert n in tree ==> S == tree;
      Detach(n, tree, S, root);
      nodes := nodes - {n.id};
      tree := S - {n};
    }

    /** addClosedOrIdleNode: append n to the list; a full list first discards
        its oldest node from the tree. */
    method AddClosedOrIdleNode(list: seq<Node>, maxSize: int, n: Node, ghost discarded: set<Node>)
      returns (list': seq<Node>)
      requires TreeOk() && root !in list
      requires Loose(discarded) && discarded !! tree && forall m :: m in list ==> m in tree + discarded
      modifies this`nodes, this`tree, list`parent, list`kids, list`prev, list`next, list`children, tree`parent,
               tree`kids, tree`prev, tree`next, tree`children
      ensures list' == if maxSize == 0 then list else if |list| == maxSize then list[1..] + [n] else list + [n]
      ensures TreeOk()
      ensures Discards(Oldest(list, maxSize), old(tree), tree, old(nodes), nodes, old(Deps(tree)), Deps(tree))
      ensures Loose(discarded + Only(Oldest(list, maxSize)))
    {
      hide TreeOver, Deps, Removed, Loose;
      if maxSize == 0 {
        assert discarded + Only(Oldest(list, maxSize)) == discarded;
        return list;
      }
      list' := list;
      if |list| == maxSize {
        RemoveNode(list[0], discarded);
        list' := list[1..];
      } else {
        assert discarded + Only(Oldest(list, maxSize)) == discarded;
      }
      list' := list' + [n];
    }

    /** CloseStream.  Its three panics are the preconditions.  The stream's node
        is closed and counts no bytes; its queue keeps its length with blank
        frames.  The oldest closed node, or this one if none are kept, is
        discarded, and a namesake of that node is lost. */
    method CloseStream(streamID: StreamID)
      requires Sound()
      requires streamID != 0 && streamID in nodes && nodes[streamID].state == Open
      modifies this`nodes, this`tree, this`closedNodes, tree`state, tree`bytes, tree`q, tree`subtreeBytes,
               tree`parent, tree`kids, tree`prev, tree`next, tree`children, closedNodes`parent,
               closedNodes`kids, closedNodes`prev, closedNodes`next, closedNodes`children
      ensures Sound() && idleNodes == old(idleNodes) && maxID == old(maxID)
      ensures old(nodes)[streamID].state == Closed && old(nodes)[streamID].bytes == 0
      ensures old(nodes)[streamID].q == seq(|old(nodes[streamID].q)|, _ => BLANK)
      ensures forall x :: x in old(tree) && x != old(nodes)[streamID] ==>
                x.state == old(x.state) && x.bytes == old(x.bytes) && x.q == old(x.q)
      ensures var gone := ClosedOut(old(closedNodes), maxClosedNodesInTree, old(nodes)[streamID]);
              && Discards(gone, old(tree), tree, old(nodes), nodes, old(Deps(tree)), Deps(tree))
              && Lost(nodes, tree) == LostAfter(old(nodes), old(tree), gone)
              && (old(NoNamesakes(nodes, Listed())) ==> NoNamesakes(nodes, Listed()))
      ensures closedNodes == if maxClosedNodesInTree <= 0 then old(closedNodes)
                             else if |old(closedNodes)| == maxClosedNodesInTree then old(closedNodes)[1..]
                               + [old(nodes)[streamID]]
                             else old(closedNodes) + [old(nodes)[streamID]]
    {
      hide TreeOver, Deps, Removed, Loose, Names, Discards, Bounded, Lost, LostAfter, NoNamesakes;
      var n := nodes[streamID];
      IdNames(nodes, tree, root, streamID);
      n.state := Closed;
      AddBytes(n, -n.bytes, tree, root);
      n.q := seq(|n.q|, _ => BLANK);
      Retire(n);
    }

    /** The last part of CloseStream. */
    method Retire(n: Node)
      requires Sound() && n in tree && n.id != 0 && n.id in nodes && nodes[n.id] == n
      modifies this`nodes, this`tree, this`closedNodes, tree`parent, tree`kids, tree`prev, tree`next,
               tree`children, closedNodes`parent, closedNodes`kids, closedNodes`prev, closedNodes`next,
               closedNodes`children
      ensures Sound() && idleNodes == old(idleNodes)
      ensures var gone := ClosedOut(old(closedNodes), maxClosedNodesInTree, n);
              && Discards(gone, old(tree), tree, old(nodes), nodes, old(Deps(tree)), Deps(tree))
              && Lost(nodes, tree) == LostAfter(old(nodes), old(tree), gone)
              && (old(NoNamesakes(nodes, Listed())) ==> NoNamesakes(nodes, Listed()))
      ensures closedNodes == if maxClosedNodesInTree <= 0 then old(closedNodes)
                             else if |old(closedNodes)| == maxClosedNodesInTree then old(closedNodes)[1..] + [n]
                             else old(closedNodes) + [n]
    {
      hide TreeOver, Deps, Removed, Loose, Names, Discards, Lost, LostAfter, ListsOk, Bounded, NoNamesakes;
      RootName(nodes, tree, root);
      ListedIds(closedNodes, Listed(), root);
      ghost var N, T, L, D := nodes, tree, Listed(), Listed() - tree;
      ghost var gone := ClosedOut(closedNodes, maxClosedNodesInTree, n);
      if maxClosedNodesInTree > 0 {
        closedNodes := AddClosedOrIdleNode(closedNodes, maxClosedNodesInTree, n, D);
      } else {
        RemoveNode(n, D);
      }
      AfterDiscard(gone, T, tree, N, nodes, old(Deps(tree)), Deps(tree), root);
      ListsAfter(N, nodes, L, Listed(), n, root, maxID);
      LooseAfter(L, Listed(), T, tree, gone, n);
    }

    /** OpenStream.  Opening a stream that is open or closed panics, which is
        the precondition.  It makes a namesake if and only if the id is that of
        a listed node that the map does not name. */
    method OpenStream(streamID: StreamID, pusherID: StreamID)
      requires Sound()
      requires streamID in nodes ==> nodes[streamID].state == Idle
      modifies this`nodes, this`tree, this`maxID, tree`state, tree`kids, tree`prev, tree`next, tree`children
      ensures Sound() && fresh(tree - old(tree)) && Lost(nodes, tree) == old(Lost(nodes, tree))
      ensures closedNodes == old(closedNodes) && idleNodes == old(idleNodes)
      ensures streamID in nodes && nodes[streamID].state == Open
      ensures forall x :: x in old(tree) && x != nodes[streamID] ==> x.state == old(x.state)
      ensures maxID == if streamID !in old(nodes) && streamID > old(maxID) then streamID else old(maxID)
      ensures streamID in old(nodes) ==> nodes == old(nodes) && tree == old(tree) && Deps(tree) == old(Deps(tree))
      ensures streamID !in old(nodes) ==>
                && nodes == old(nodes)[streamID := nodes[streamID]]
                && nodes[streamID] !in old(tree) && tree == old(tree) + {nodes[streamID]}
                && Deps(tree)
                   == old(Deps(tree))[nodes[streamID] := Some(if pusherID in old(nodes) then old(nodes)[pusherID]
                     else root)]
                && nodes[streamID].weight == DEFAULT_WEIGHT
                && (NoNamesakes(nodes, Listed()) <==>
                     old(NoNamesakes(nodes, Listed())) && forall m :: m in Listed() ==> m.id != streamID)
    {
      hide TreeOver, Deps, Loose, Names, Lost, Bounded, NoNamesakes;
      RootName(nodes, tree, root);
      if streamID in nodes {
        IdNames(nodes, tree, root, streamID);
        nodes[streamID].state := Open;
        return;
      }
      if pusherID in nodes { IdNames(nodes, tree, root, pusherID); }
      var parent := if pusherID in nodes then nodes[pusherID] else root;
      var n := new Node(streamID, DEFAULT_WEIGHT, Open);
      AddNode(n, parent);
    }

    /** AdjustStream.  Its panic on the root is a precondition. */
    method AdjustStream(streamID: StreamID, dep: StreamID, exclusive: bool, weight: int)
      requires Sound() && streamID != 0
      modifies this`nodes, this`tree, this`maxID, this`idleNodes, tree`weight, tree`parent, tree`kids,
               tree`prev, tree`next, tree`children, idleNodes`parent, idleNodes`kids, idleNodes`prev,
               idleNodes`next, idleNodes`children
      ensures Sound() && closedNodes == old(closedNodes) && fresh(tree - old(tree))
      ensures old(NoNamesakes(nodes, Listed())) ==> NoNamesakes(nodes, Listed())
      ensures streamID !in old(nodes) && (streamID <= old(maxID) || maxIdleNodesInTree == 0) ==>
                nodes == old(nodes) && tree == old(tree) && idleNodes == old(idleNodes) && maxID == old(maxID)
                  && Deps(tree) == old(Deps(tree))
      ensures streamID in old(nodes) ==>
                && nodes == old(nodes) && tree == old(tree) && idleNodes == old(idleNodes) && maxID == old(maxID)
                && AdjustedTo(nodes, root, old(Deps(tree)), Deps(tree), streamID, dep, exclusive)
      ensures forall x :: x in old(tree) && !(streamID in old(nodes) && x == old(nodes)[streamID]) ==>
                x.weight == old(x.weight)
      ensures streamID in nodes && (streamID in old(nodes) || (streamID > old(maxID) && maxIdleNodesInTree != 0)) ==>
                nodes[streamID].weight == if dep !in nodes then DEFAULT_WEIGHT
                                          else if dep != streamID then weight
                                          else if streamID in old(nodes) then old(nodes[streamID].weight)
                                          else DEFAULT_WEIGHT
      ensures streamID !in old(nodes) && streamID > old(maxID) && maxIdleNodesInTree != 0 ==>
                && streamID in nodes && nodes[streamID].state == Idle && fresh(nodes[streamID]) && maxID == streamID
                && Lost(nodes, tree) == LostAfter(old(nodes), old(tree), Oldest(old(idleNodes), maxIdleNodesInTree))
                && (forall id :: id in nodes <==>
                      (id in old(nodes) || id == streamID) && !DropsId(Oldest(old(idleNodes), maxIdleNodesInTree), id))
                && idleNodes == Shifted(old(idleNodes), maxIdleNodesInTree) + [nodes[streamID]]
                && var gone := Oldest(old(idleNodes), maxIdleNodesInTree);
                   var pm := old(Deps(tree))[nodes[streamID] := Some(root)];
                   && Discards(gone, old(tree) + {nodes[streamID]}, tree,
                               old(nodes)[streamID := nodes[streamID]], nodes, pm, DepsWithout(pm, gone))
                   && AdjustedTo(nodes, root, DepsWithout(pm, gone), Deps(tree), streamID, dep, exclusive)
    {
      hide TreeOver, Deps, Removed, Loose, Names, Discards, AdjustedTo, Bounded, Lost, LostAfter, NoNamesakes,
           DepsWithout;
      if streamID !in nodes {
        if streamID <= maxID || maxIdleNodesInTree == 0 {
          return;
        }
        CreateIdle(streamID);
        ghost var pm := old(Deps(tree))[nodes[streamID] := Some(root)];
        DiscardsDeps(Oldest(old(idleNodes), maxIdleNodesInTree), old(tree) + {nodes[streamID]}, tree,
                     old(nodes)[streamID := nodes[streamID]], nodes, pm, Deps(tree));
        SetPriority(streamID, dep, exclusive, weight);
      } else {
        SetPriority(streamID, dep, exclusive, weight);
      }
    }

    /** The first half of AdjustStream: an unknown stream becomes an idle node
        under the root. */
    method CreateIdle(streamID: StreamID)
      requires Sound() && streamID !in nodes && streamID > maxID && maxIdleNodesInTree != 0
      modifies this`nodes, this`tree, this`maxID, this`idleNodes, tree`parent, tree`kids, tree`prev, tree`next,
               tree`children, idleNodes`parent, idleNodes`kids, idleNodes`prev, idleNodes`next,
               idleNodes`children
      ensures Sound() && closedNodes == old(closedNodes) && maxID == streamID && fresh(tree - old(tree))
      ensures old(NoNamesakes(nodes, Listed())) ==> NoNamesakes(nodes, Listed())
      ensures streamID in nodes && nodes[streamID].state == Idle && fresh(nodes[streamID])
      ensures nodes[streamID].weight == DEFAULT_WEIGHT
      ensures Lost(nodes, tree) == LostAfter(old(nodes), old(tree), Oldest(old(idleNodes), maxIdleNodesInTree))
      ensures forall id :: id in nodes <==>
                (id in old(nodes) || id == streamID) && !DropsId(Oldest(old(idleNodes), maxIdleNodesInTree), id)
      ensures idleNodes == Shifted(old(idleNodes), maxIdleNodesInTree) + [nodes[streamID]]
      ensures Discards(Oldest(old(idleNodes), maxIdleNodesInTree), old(tree) + {nodes[streamID]}, tree,
                       old(nodes)[streamID := nodes[streamID]], nodes,
                       old(Deps(tree))[nodes[streamID] := Some(root)], Deps(tree))
    {
      hide TreeOver, Deps, Removed, Loose, Names, Discards, Lost, LostAfter, NoNamesakes, Bounded;
      RootName(nodes, tree, root);
      AboveMax(nodes, Listed(), maxID, streamID);
      ghost var N, T := nodes, tree;
      var n := new Node(streamID, DEFAULT_WEIGHT, Idle);
      AddNode(n, root);
      LostWithNew(N, T, n, Oldest(idleNodes, maxIdleNodesInTree));
      RetainIdle(n);
    }

    method RetainIdle(n: Node)
      requires Sound() && n in tree && n.id != 0 && n.id in nodes && nodes[n.id] == n
      requires n !in Listed() && (forall m :: m in Listed() ==> m.id != n.id)
      modifies this`nodes, this`tree, this`idleNodes, tree`parent, tree`kids, tree`prev, tree`next,
               tree`children, idleNodes`parent, idleNodes`kids, idleNodes`prev, idleNodes`next,
               idleNodes`children
      ensures Sound() && n.id in nodes && nodes[n.id] == n && tree <= old(tree)
      ensures old(NoNamesakes(nodes, Listed())) ==> NoNamesakes(nodes, Listed())
      ensures Lost(nodes, tree) == LostAfter(old(nodes), old(tree), Oldest(old(idleNodes), maxIdleNodesInTree))
      ensures forall id :: id in nodes <==> id in old(nodes) && !DropsId(Oldest(old(idleNodes), maxIdleNodesInTree), id)
      ensures maxIdleNodesInTree != 0 ==> idleNodes == Shifted(old(idleNodes), maxIdleNodesInTree) + [n]
      ensures Discards(Oldest(old(idleNodes), maxIdleNodesInTree), old(tree), tree, old(nodes), nodes,
              old(Deps(tree)), Deps(tree))
    {
      hide TreeOver, Deps, Removed, Loose, Names, Discards, Lost, LostAfter, ListsOk, Bounded, NoNamesakes;
      ListedIds(idleNodes, Listed(), root);
      ghost var N, T, L, D, pm := nodes, tree, Listed(), Listed() - tree, Deps(tree);
      ghost var gone := Oldest(idleNodes, maxIdleNodesInTree);
      RootName(N, T, root);
      idleNodes := AddClosedOrIdleNode(idleNodes, maxIdleNodesInTree, n, D);
      AfterDiscard(gone, T, tree, N, nodes, pm, Deps(tree), root);
      ListsAfter(N, nodes, L, Listed(), n, root, maxID);
      LooseAfter(L, Listed(), T, tree, gone, n);
    }

    /** The second half: give a known stream its new dependency. */
    method SetPriority(streamID: StreamID, dep: StreamID, exclusive: bool, weight: int)
      requires Sound() && streamID in nodes && streamID != 0
      modifies tree`weight, tree`parent, tree`kids, tree`prev, tree`next, tree`children
      ensures Sound()
      ensures AdjustedTo(nodes, root, old(Deps(tree)), Deps(tree), streamID, dep, exclusive)
      ensures dep in nodes && dep != streamID ==> nodes[streamID].weight == weight
      ensures dep !in nodes ==> nodes[streamID].weight == DEFAULT_WEIGHT
      ensures dep == streamID ==> nodes[streamID].weight == old(nodes[streamID].weight)
      ensures forall x :: x in tree && x != nodes[streamID] ==> x.weight == old(x.weight)
    {
      hide TreeOver, Deps, Loose, Names, Adjusted, Bounded;
      var n := nodes[streamID];
      DepsKeys(tree);
      IdNames(nodes, tree, root, streamID);
      if dep !in nodes {
        MoveToRoot(n, root, tree);
        n.weight := DEFAULT_WEIGHT;
        return;
      }
      var parent := nodes[dep];
      IdNames(nodes, tree, root, dep);
      if n == parent {
        return;
      }
      Reprioritize(n, parent, exclusive, weight, tree, root);
    }

    /** Push.  Its panic on DATA for an unknown stream is the second
        precondition.  A frame of a stream that the map names joins that
        stream's queue; any other frame joins the root's. */
    method Push(wr: FrameWriteRequest)
      requires Sound()
      requires !wr.IsControl() && wr.StreamId() !in nodes ==> wr.DataSize() == 0
      modifies tree`q
      ensures Sound()
      ensures forall x :: x in tree ==> x.q == old(x.q) + if x == QueueFor(wr) then [wr] else []
    {
      hide TreeOver, Deps, Loose, Names, Bounded;
      RootName(nodes, tree, root);
      var n := root;
      if !wr.IsControl() {
        var id := wr.StreamId();
        if id in nodes {
          IdNames(nodes, tree, root, id);
          n := nodes[id];
        }
      }
      n.q := n.q + [wr];
    }

    /** Where a pushed frame waits. */
    function QueueFor(wr: FrameWriteRequest): Node
      reads this`nodes
    {
      if !wr.IsControl() && wr.StreamId() in nodes then nodes[wr.StreamId()] else root
    }

    /** A new leaf: setParent on a fresh node, and its entry in the map. */
    method AddNode(n: Node, parent: Node)
      requires Sound() && n !in tree && n !in Listed() && n.LinksOf() == NO_LINKS && parent in tree && n.id !in nodes
      modifies this`nodes, this`tree, this`maxID, n`parent, n`kids, n`prev, n`next, n`children, tree`kids,
               tree`prev, tree`next, tree`children
      ensures Sound() && maxID == (if n.id > old(maxID) then n.id else old(maxID))
      ensures Lost(nodes, tree) == old(Lost(nodes, tree))
      ensures nodes == old(nodes)[n.id := n] && tree == old(tree) + {n}
      ensures closedNodes == old(closedNodes) && idleNodes == old(idleNodes)
      ensures Deps(tree) == old(Deps(tree))[n := Some(parent)]
      ensures NoNamesakes(nodes, Listed()) <==>
                old(NoNamesakes(nodes, Listed())) && forall m :: m in Listed() ==> m.id != n.id
    {
      hide TreeOver, Deps, Names, Loose, Lost;
      ghost var T := tree;
      LinkLeaf(n, parent, T, T + {n}, root);
      NameAdded(nodes, T, root, n);
      tree := tree + {n};
      assert Listed() - tree == old(Listed() - tree);
      nodes := nodes[n.id := n];
      if n.id > maxID {
        maxID := n.id;
      }
    }
  }

  /** addBytes: n's own count and the count of every node above it change. */
  method AddBytes(n: Node, b: int, ghost S: set<Node>, ghost root: Node)
    requires TreeOver(S, root) && n in S
    modifies n`bytes, S`subtreeBytes
    ensures n.bytes == old(n.bytes) + b
    ensures forall x :: x in S ==> x.subtreeBytes == old(x.subtreeBytes) + if Below(Deps(S), n, x) then b else 0
  {
    hide IsTree, Linked, Below, ParentsOf;
    ghost var g := GraphOf(S);
    ghost var pm := ParentsOf(g);
    DepsKeys(S);
    n.bytes := n.bytes + b;
    var x: Node? := n;
    BelowSelf(pm, n);
    while x != null
      invariant n.bytes == old(n.bytes) + b
      invariant x != null ==> x in S && Below<Node>(pm, n, x)
      invariant GraphOf(S) == g
      invariant forall y :: y in S ==>
                  y.subtreeBytes == old(y.subtreeBytes) + if Below(pm, n, y)
                    && !(x != null && Below<Node>(pm, x, y)) then b else 0
      decreases if x == null then 0 else Depth<Node>(pm, root, x) + 1
    {
      x.subtreeBytes := x.subtreeBytes + b;
      forall y | y in S ensures Below<Node>(pm, x, y) <==>
          y == x || (x.parent != null && Below<Node>(pm, x.parent, y)) {
        if y != x { AncestorsStep(g, root, x, y); } else { BelowSelf<Node>(pm, x); }
      }
      UpwardStep(g, root, n, x);
      x := x.parent;
    }
  }

  method LinkLeaf(n: Node, p: Node, ghost T: set<Node>, ghost S: set<Node>, ghost root: Node)
    requires TreeOver(T, root) && p in T && n !in T && S == T + {n} && n.LinksOf() == NO_LINKS
    modifies n`parent, S`kids, S`prev, S`next, S`children
    ensures TreeOver(S, root) && Deps(S) == old(Deps(T))[n := Some(p)]
  {
    hide IsTree, Linked, Reparented, ParentsOf;
    ghost var g := GraphOf(T);
    LinkedWith(T, n);
    ghost var g0 := GraphOf(S);
    assert g0 == g[n := NO_LINKS];
    SelfPlace(g0, n);
    n.SetParent(p, S);
    ReparentedParents(g0, n, p);
    LeafParents(g, root, n, p);
  }

  lemma LeafParents(g: Graph, root: Node, n: Node, p: Node)
    requires IsTree(ParentsOf(g), root) && n !in g && p in g
    ensures ParentsOf(g[n := NO_LINKS])[n := Some(p)] == ParentsOf(g)[n := Some(p)]
    ensures IsTree(ParentsOf(g)[n := Some(p)], root)
  {
    LeafAdded(ParentsOf(g), root, n, p);
  }

  /** The tree part of removeNode; S is the tree T with n, which may have been
      discarded from T before. */
  method Detach(n: Node, ghost T: set<Node>, ghost S: set<Node>, ghost root: Node)
    requires TreeOver(T, root) && n != root && S == T + {n}
    requires n !in T ==> n.LinksOf() == NO_LINKS
    modifies S`parent, S`kids, S`prev, S`next, S`children
    ensures TreeOver(S - {n}, root) && n.LinksOf() == NO_LINKS
    ensures Deps(S - {n}) == if n in old(Deps(T)) then Removed(old(Deps(T)), n) else old(Deps(T))
  {
    hide Linked, IsTree, Removed, Reparented, MovedUp, Gone;
    ghost var g := GraphOf(T);
    ghost var g0 := GraphOf(S);
    LinkedWith(T, n);
    KidsNotParent(T, root, n);
    MoveKidsUp(n, S);
    ghost var g1 := GraphOf(S);
    SelfPlace(g1, n);
    n.SetParent(null, S);
    ghost var g2 := GraphOf(S);
    DetachedParents(g0, g1, n);
    RemovedGraph(g0, g2, n);
    assert GraphOf(S - {n}) == g2 - {n};
    AfterRemoval(g, g0, n, root);
  }

  lemma DetachedParents(g0: Graph, g1: Graph, n: Node)
    requires Linked(g0) && n in g0 && n in g1 && PlaceOk(g1, n) && MovedUp(g0, g1, n, |g0[n].children|)
    ensures Gone(g0, Reparented(g1, n, null), n)
  {
    var g2 := Reparented(g1, n, null);
    var kids0 := g0[n].children;
    assert kids0[..|kids0|] == kids0;
    hide Reparented;
    forall x | x in g0
      ensures g2[x].parent == (if x == n then null else if g0[x].parent == n then g0[n].parent else g0[x].parent)
    {
      ReparentedNode(g1, n, null, x);
      ChildIffParent(g0, n, x);
    }
    ReparentedNode(g1, n, null, n);
  }

  /** g2 is g0 after n's children moved to n's parent and n was unlinked. */
  ghost predicate Gone(g0: Graph, g2: Graph, n: Node)
    requires n in g0
  {
    && g2.Keys == g0.Keys && g2[n].children == []
    && forall x :: x in g0 ==>
         g2[x].parent == (if x == n then null else if g0[x].parent == n then g0[n].parent else g0[x].parent)
  }

  lemma RemovedGraph(g0: Graph, g2: Graph, n: Node)
    requires n in g0 && Linked(g2) && Gone(g0, g2, n)
    ensures Linked(g2 - {n}) && g2[n] == NO_LINKS && ParentsOf(g2 - {n}) == Removed(ParentsOf(g0), n)
  {
    IsolatedLeaves(g2, n);
    assert ListOk(g2, n) && PlaceOk(g2, n);
  }

  lemma AfterRemoval(g: Graph, g0: Graph, n: Node, root: Node)
    requires Linked(g) && IsTree(ParentsOf(g), root) && n != root
    requires g0 == if n in g then g else g[n := NO_LINKS]
    ensures IsTree(Removed(ParentsOf(g0), n), root)
    ensures n !in g ==> Removed(ParentsOf(g0), n) == ParentsOf(g)
  {
    if n in g {
      RemovedIsTree(ParentsOf(g), root, n);
    } else {
      forall x | x in g ensures g[x].parent != n { assert PlaceOk(g, x); }
      assert Removed(ParentsOf(g0), n) == ParentsOf(g);
    }
  }

  const NO_LINKS := Links(null, null, null, null, [])

  lemma SingleNodeTree(n: Node)
    requires n.LinksOf() == NO_LINKS
    ensures TreeOver({n}, n)
  {
    BelowSelf(Deps({n}), n);
  }

  lemma LinkedWith(S: set<Node>, n: Node)
    requires Linked(GraphOf(S))
    requires n !in S ==> n.LinksOf() == NO_LINKS
    ensures Linked(GraphOf(S + {n}))
  {
    if n in S {
      assert S + {n} == S;
    } else {
      IsolatedEnters(GraphOf(S), n);
      assert GraphOf(S + {n}) == GraphOf(S)[n := NO_LINKS];
    }
  }

  lemma KidsNotParent(S: set<Node>, root: Node, n: Node)
    requires TreeOver(S, root)
    requires n !in S ==> n.LinksOf() == NO_LINKS
    ensures n.parent !in n.children
  {
    if n in S {
      var g := GraphOf(S);
      assert ListOk(g, n);
      forall c | c in n.children ensures c != n.parent {
        var i :| 0 <= i < |n.children| && n.children[i] == c;
        assert ItemOk(g, n, i);
        DepthOfParent(ParentsOf(g), root, c);
        if n != root { DepthOfParent(ParentsOf(g), root, n); }
      }
    }
  }

  /** g is g0 after the first i of n's children moved to n's parent. */
  ghost predicate MovedUp(g0: Graph, g: Graph, n: Node, i: int)
    requires n in g0 && 0 <= i <= |g0[n].children|
  {
    && g.Keys == g0.Keys
    && g[n].children == g0[n].children[i..]
    && forall x :: x in g ==> g[x].parent == if x in g0[n].children[..i] then g0[n].parent else g0[x].parent
  }

  lemma KidMovedUp(g0: Graph, g: Graph, n: Node, i: int)
    requires Linked(g0) && Linked(g) && n in g0 && 0 <= i < |g0[n].children| && MovedUp(g0, g, n, i)
    requires g0[n].parent !in g0[n].children
    ensures var kid := g0[n].children[i];
            && g[n].kids == kid && kid in g && kid != g[n].parent && (g[n].parent != null ==> g[n].parent in g)
            && MovedUp(g0, Reparented(g, kid, g[n].parent), n, i + 1)
  {
    hide Linked, Reparented, Distinct;
    var kids0, kid := g0[n].children, g0[n].children[i];
    SelfPlace(g0, n);
    SelfPlace(g, n);
    ItemFacts(g0, n, i);
    ItemFacts(g, n, 0);
    FirstKid(g, n);
    ListDistinct(g, n);
    ChildIffParent(g0, n, n);
    SelfPlace(g, kid);
    assert kids0[..i + 1] == kids0[..i] + [kid];
    assert Reparented(g, kid, g[n].parent)[n].children == kids0[i + 1..] by {
      ReparentedNode(g, kid, g[n].parent, n);
      WithoutIndex(kids0[i..], kid, 0);
    }
    forall x | x in g
      ensures Reparented(g, kid, g[n].parent)[x].parent == if x in kids0[..i + 1] then g0[n].parent else g0[x].parent
    {
      ReparentedNode(g, kid, g[n].parent, x);
    }
  }

  /** The loop of removeNode. */
  method MoveKidsUp(n: Node, ghost S: set<Node>)
    requires Linked(GraphOf(S)) && n in S
    requires n.parent !in n.children
    modifies S`parent, S`kids, S`prev, S`next, S`children
    ensures Linked(GraphOf(S)) && n.children == []
    ensures MovedUp(old(GraphOf(S)), GraphOf(S), n, |old(n.children)|)
  {
    hide Linked, Reparented, MovedUp;
    ghost var g0 := GraphOf(S);
    ghost var i := 0;
    NoneMovedUp(g0, n);
    NextUp(g0, g0, n, 0);
    while n.kids != null
      invariant 0 <= i <= |g0[n].children|
      invariant Linked(GraphOf(S)) && MovedUp(g0, GraphOf(S), n, i)
      invariant n.kids == At(g0[n].children, i)
      decreases |g0[n].children| - i
    {
      KidMovedUp(g0, GraphOf(S), n, i);
      n.kids.SetParent(n.parent, S);
      i := i + 1;
      NextUp(g0, GraphOf(S), n, i);
    }
    AtEnd(g0[n].children, i);
    NextUp(g0, GraphOf(S), n, i);
  }

  lemma NoneMovedUp(g: Graph, n: Node)
    requires n in g
    ensures MovedUp(g, g, n, 0)
  {
  }

  lemma NextUp(g0: Graph, g: Graph, n: Node, i: int)
    requires n in g0 && 0 <= i <= |g0[n].children| && Linked(g) && MovedUp(g0, g, n, i)
    ensures n in g && g[n].kids == At(g0[n].children, i)
    ensures i == |g0[n].children| ==> g[n].children == []
  {
    FirstKid(g, n);
  }

  /** The second half of AdjustStream: n, a known stream, is made to depend on
      p, another known stream. */
  method Reprioritize(n: Node, p: Node, exclusive: bool, weight: int, ghost S: set<Node>, ghost root: Node)
    requires TreeOver(S, root) && n in S && n != root && p in S && p != n
    modifies S`parent, S`kids, S`prev, S`next, S`children, n`weight
    ensures TreeOver(S, root) && n.weight == weight
    ensures Deps(S) == Adjusted(old(Deps(S)), n, p, exclusive)
  {
    hide IsTree, Adopted, Lifted, Linked, Reparented, KidsTaken, ParentsOf, GraphOf;
    ghost var pm := Deps(S);
    DepsKeys(S);
    LiftedIsTree(pm, root, n, p);
    AdjustedMeetsSection533(pm, root, n, p, exclusive);
    Lift(n, p, S, root);
    ghost var l := GraphOf(S);
    DepsKeys(S);
    if exclusive {
      TakeOverKids(n, p, S);
    }
    ghost var g := GraphOf(S);
    DepsKeys(S);
    n.SetParent(p, S);
    n.weight := weight;
    AdoptedLast(l, g, n, p, exclusive);
  }

  method MoveToRoot(n: Node, root: Node, ghost S: set<Node>)
    requires TreeOver(S, root) && n in S && root in S && n != root
    modifies S`parent, S`kids, S`prev, S`next, S`children
    ensures TreeOver(S, root) && Deps(S) == old(Deps(S))[n := Some(root)]
  {
    hide Linked, Reparented, ParentsOf;
    ghost var g := GraphOf(S);
    SelfPlace(g, n);
    DepsKeys(S);
    n.SetParent(root, S);
    ReparentedParents(g, n, root);
    RootNotBelow(ParentsOf(g), root, n);
    MovedIsTree(ParentsOf(g), root, n, root);
  }

  lemma DepsKeys(S: set<Node>)
    ensures Deps(S).Keys == S && GraphOf(S).Keys == S
  {
  }

  lemma AdoptedLast(l: Graph, g: Graph, n: Node, p: Node, exclusive: bool)
    requires Linked(g) && n in g && p in g && n != p
    requires if exclusive then KidsTaken(l, g, n, p) else g == l
    ensures ParentsOf(Reparented(g, n, p)) == Adopted(ParentsOf(l), n, p, exclusive)
  {
    assert PlaceOk(g, n);
    ReparentedParents(g, n, p);
  }

  /** If p depends on n, move p to n's parent. */
  method Lift(n: Node, p: Node, ghost S: set<Node>, ghost root: Node)
    requires TreeOver(S, root) && n in S && n != root && p in S && p != n
    modifies S`parent, S`kids, S`prev, S`next, S`children
    ensures Linked(GraphOf(S)) && Deps(S) == Lifted(old(Deps(S)), n, p)
  {
    ghost var g := GraphOf(S);
    ghost var pm := Deps(S);
    var x := p.parent;
    AncestorsStep(g, root, p, n);
    while x != null
      invariant x != null ==> x in S
      invariant GraphOf(S) == g
      invariant Below(pm, p, n) <==> x != null && Below<Node>(pm, x, n)
      decreases if x == null then 0 else Depth<Node>(pm, root, x) + 1
    {
      if x == n {
        BelowSelf(pm, n);
        ParentNotBelow(g, root, p, n);
        assert PlaceOk(g, n);
        p.SetParent(n.parent, S);
        ReparentedParents(g, p, g[n].parent);
        return;
      }
      AncestorsStep(g, root, x, n);
      x := x.parent;
    }
  }

  lemma UpwardStep(g: Graph, root: Node, n: Node, x: Node)
    requires Linked(g) && IsTree(ParentsOf(g), root) && n in g && x in g && Below(ParentsOf(g), n, x)
    ensures g[x].parent != null ==>
              && g[x].parent in g && Below<Node>(ParentsOf(g), n, g[x].parent)
              && !Below<Node>(ParentsOf(g), g[x].parent, x)
              && Depth<Node>(ParentsOf(g), root, g[x].parent) < Depth(ParentsOf(g), root, x)
  {
    var pm := ParentsOf(g);
    if g[x].parent != null {
      assert PlaceOk(g, x);
      DepthOfParent(pm, root, x);
      BelowSelf<Node>(pm, g[x].parent);
      BelowStep<Node>(pm, x, g[x].parent);
      BelowTransitive<Node>(pm, n, x, g[x].parent);
      if Below<Node>(pm, g[x].parent, x) { BelowDepth<Node>(pm, root, g[x].parent, x); }
    }
  }

  lemma AncestorsStep(g: Graph, root: Node, x: Node, n: Node)
    requires Linked(g) && IsTree(ParentsOf(g), root) && x in g && x != n
    ensures g[x].parent != null ==>
              g[x].parent in g && Depth<Node>(ParentsOf(g), root, g[x].parent) < Depth(ParentsOf(g), root, x)
    ensures Below(ParentsOf(g), x, n) <==> g[x].parent != null && Below<Node>(ParentsOf(g), g[x].parent, n)
  {
    var pm := ParentsOf(g);
    if g[x].parent != null {
      if x != root { DepthOfParent(pm, root, x); }
      BelowStep(pm, x, n);
    }
  }

  lemma ParentNotBelow(g: Graph, root: Node, p: Node, n: Node)
    requires IsTree(ParentsOf(g), root) && p in g && n in g && n != root && n != p && Below(ParentsOf(g), p, n)
    ensures g[n].parent != p
  {
    var pm := ParentsOf(g);
    DepthOfParent(pm, root, n);
    BelowDepth(pm, root, p, n);
  }

  ghost predicate KidsTaken(g0: Graph, g: Graph, n: Node, p: Node) {
    && g.Keys == g0.Keys
    && forall x :: x in g ==> g[x].parent == if g0[x].parent == p && x != n then n else g0[x].parent
  }

  /** The state of the take-over before the i-th of p's former children. */
  ghost predicate TakenOver(g0: Graph, g: Graph, kids0: seq<Node>, n: Node, p: Node, i: int)
    requires p in g && 0 <= i <= |kids0|
  {
    && g.Keys == g0.Keys
    && g[p].children == (if n in kids0[..i] then [n] else []) + kids0[i..]
    && forall x :: x in g ==> g[x].parent == if x in kids0[..i] && x != n then n else g0[x].parent
  }

  lemma NoneTakenOver(g: Graph, n: Node, p: Node)
    requires Linked(g) && p in g
    ensures TakenOver(g, g, g[p].children, n, p, 0) && g[p].kids == At(g[p].children, 0) && Distinct(g[p].children)
  {
    FirstKid(g, p);
    ListDistinct(g, p);
  }

  lemma NextKid(g0: Graph, g: Graph, kids0: seq<Node>, n: Node, p: Node, i: int)
    requires Linked(g) && p in g && 0 <= i < |kids0| && TakenOver(g0, g, kids0, n, p, i)
    ensures kids0[i] in g && g[kids0[i]].next == At(kids0, i + 1) && g[kids0[i]].parent == p
  {
    var at := if n in kids0[..i] then 1 else 0;
    assert g[p].children[at] == kids0[i];
    assert i + 1 < |kids0| ==> g[p].children[at + 1] == kids0[i + 1];
    assert ListOk(g, p) && ItemOk(g, p, at);
  }

  lemma DropAt(front: seq<Node>, l: seq<Node>, i: nat)
    requires i < |l|
    ensures var s := front + l[i..]; var at := |front|;
            s[at] == l[i] && s[..at] + s[at + 1..] == front + l[i + 1..]
  {
  }

  lemma KidTakenOver(g0: Graph, g: Graph, kids0: seq<Node>, n: Node, p: Node, i: int)
    requires Linked(g) && p in g && n in g && n != p && 0 <= i < |kids0| && TakenOver(g0, g, kids0, n, p, i)
    requires kids0[i] in g && kids0[i] != n && g[kids0[i]].parent == p
    ensures TakenOver(g0, Reparented(g, kids0[i], n), kids0, n, p, i + 1)
  {
    hide Linked, Reparented, Distinct, Without, PlaceOk;
    var k := kids0[i];
    var at := if n in kids0[..i] then 1 else 0;
    SelfPlace(g, k);
    ListDistinct(g, p);
    assert kids0[..i + 1] == kids0[..i] + [k];
    var front := if n in kids0[..i] then [n] else [];
    assert g[p].children == front + kids0[i..] && (n in kids0[..i + 1] <==> n in kids0[..i]);
    DropAt(front, kids0, i);
    assert Reparented(g, k, n)[p].children == front + kids0[i + 1..] by {
      ReparentedNode(g, k, n, p);
      WithoutIndex(g[p].children, k, at);
    }
    forall x | x in g
      ensures Reparented(g, k, n)[x].parent == if x in kids0[..i + 1] && x != n then n else g0[x].parent
    {
      ReparentedNode(g, k, n, x);
    }
  }

  lemma KidKept(g0: Graph, g: Graph, kids0: seq<Node>, n: Node, p: Node, i: int)
    requires p in g && 0 <= i < |kids0| && TakenOver(g0, g, kids0, n, p, i) && kids0[i] == n && Distinct(kids0)
    ensures TakenOver(g0, g, kids0, n, p, i + 1)
  {
    assert kids0[..i + 1] == kids0[..i] + [n];
  }

  lemma AllTakenOver(g0: Graph, g: Graph, n: Node, p: Node)
    requires Linked(g0) && p in g && p in g0 && TakenOver(g0, g, g0[p].children, n, p, |g0[p].children|)
    ensures KidsTaken(g0, g, n, p)
  {
    var kids0 := g0[p].children;
    assert kids0[..|kids0|] == kids0;
    forall x | x in g0 ensures g[x].parent == if g0[x].parent == p && x != n then n else g0[x].parent {
      ChildIffParent(g0, p, x);
    }
  }

  /** Every child of p except n is moved under n. */
  method TakeOverKids(n: Node, p: Node, ghost S: set<Node>)
    requires Linked(GraphOf(S)) && n in S && p in S && n != p
    modifies S`parent, S`kids, S`prev, S`next, S`children
    ensures Linked(GraphOf(S))
    ensures KidsTaken(old(GraphOf(S)), GraphOf(S), n, p)
  {
    hide Linked, Reparented, TakenOver, Distinct, KidsTaken;
    ghost var g0, kids0, i := GraphOf(S), p.children, 0;
    NoneTakenOver(g0, n, p);
    var k := p.kids;
    while k != null
      invariant 0 <= i <= |kids0| && k == At(kids0, i)
      invariant Linked(GraphOf(S))
      invariant TakenOver(g0, GraphOf(S), kids0, n, p, i)
      decreases |kids0| - i
    {
      ghost var g := GraphOf(S);
      NextKid(g0, g, kids0, n, p, i);
      var next := k.next;
      if k != n {
        k.SetParent(n, S);
        KidTakenOver(g0, g, kids0, n, p, i);
      } else {
        KidKept(g0, g, kids0, n, p, i);
      }
      k := next;
      i := i + 1;
    }
    AtEnd(kids0, i);
    AllTakenOver(g0, GraphOf(S), n, p);
  }

  /** A node that was idle, opened and closed is on both lists ... */
  method ListedTwice() returns (ws: Scheduler, ghost n1: Node)
    ensures fresh(ws) && fresh(ws.tree) && fresh(ws.Listed())
    ensures ws.Valid() && ws.maxClosedNodesInTree == 1 && ws.maxIdleNodesInTree == 1
    ensures ws.closedNodes == ws.idleNodes == [n1] && n1.id == 1 && ws.nodes.Keys == {0, 1} && ws.maxID == 1
  {
    hide TreeOver, Deps, Removed, Loose, AdjustedTo, Names, Lost, Bounded, NoNamesakes;
    ws := new Scheduler(1, 1, false);
    ws.AdjustStream(1, 0, false, 15);
    n1 := ws.nodes[1];
    IdNames(ws.nodes, ws.tree, ws.root, 1);
    ws.OpenStream(1, 0);
    ws.CloseStream(1);
  }

  /** ... and when it is discarded as the oldest of one list, it stays on the
      other: as the oldest closed node ... */
  method DiscardedAsIdle() returns (ws: Scheduler, ghost n1: Node)
    ensures fresh(ws) && fresh(ws.tree) && fresh(ws.Listed())
    ensures ws.Valid() && ws.maxClosedNodesInTree == 1 && ws.maxID == 3
    ensures ws.closedNodes == [n1] && n1.id == 1 && n1 !in ws.tree && ws.nodes.Keys == {0, 3}
  {
    hide TreeOver, Deps, Removed, Loose, AdjustedTo, Names, Lost, Bounded, NoNamesakes;
    ws, n1 := ListedTwice();
    NotNamesake(ws.nodes, ws.Listed(), n1);
    ws.AdjustStream(3, 0, false, 15);
    assert DropsId(Oldest([n1], 1), 1);
  }

  /** ... or as the oldest idle node. */
  method DiscardedAsClosed() returns (ws: Scheduler, ghost n1: Node)
    ensures fresh(ws) && fresh(ws.tree) && fresh(ws.Listed())
    ensures ws.Valid() && ws.maxIdleNodesInTree == 1 && ws.maxID == 5
    ensures ws.idleNodes == [n1] && n1.id == 1 && n1 !in ws.tree && ws.nodes.Keys == {0, 5}
  {
    hide TreeOver, Deps, Removed, Loose, AdjustedTo, Names, Lost, Bounded, NoNamesakes;
    ws, n1 := ListedTwice();
    ws.OpenStream(5, 0);
    assert fresh(ws.Listed()) && fresh(ws.tree);
    NotNamesake(ws.nodes, ws.Listed(), n1);
    ws.CloseStream(5);
  }

  /** If such a node's id is opened again, the reopened stream is its namesake
      ... */
  method Reopen(ws: Scheduler, ghost n1: Node) returns (again: Node)
    requires ws.Sound() && n1 in ws.Listed() && n1 !in ws.tree && n1.id == 1 && 1 !in ws.nodes && ws.maxID > 1
    modifies ws, ws.tree
    ensures ws.Sound() && fresh(ws.tree - old(ws.tree)) && ws.maxID == old(ws.maxID)
    ensures ws.closedNodes == old(ws.closedNodes) && ws.idleNodes == old(ws.idleNodes)
    ensures again in ws.tree && again.id == 1 && again.state == Open && again != n1
    ensures ws.nodes == old(ws.nodes)[1 := again]
  {
    hide TreeOver, Deps, Removed, Loose, Names, Lost, Bounded, NoNamesakes;
    ws.OpenStream(1, 0);
    again := ws.nodes[1];
    IdNames(ws.nodes, ws.tree, ws.root, 1);
  }

  /** ... which is taken out of the map, though it stays in the tree, when the
      node is discarded a second time: by CloseStream ... */
  method CloseLosesNode() returns (ws: Scheduler, lost: Node)
    ensures ws.Sound() && lost in Lost(ws.nodes, ws.tree) && lost.id == 1 && lost.state == Open
  {
    hide Scheduler.Sound, TreeOver, Deps, Removed, Loose, Names, Lost, Bounded, NoNamesakes, Discards;
    ghost var n1: Node;
    ws, n1 := DiscardedAsIdle();
    lost := Reopen(ws, n1);
    ws.OpenStream(5, 0);
    assert lost != ws.nodes[5] && ClosedOut(ws.closedNodes, 1, ws.nodes[5]) == Some(n1) && Namesake(ws.nodes, n1);
    ws.CloseStream(5);
  }

  /** ... or by AdjustStream. */
  method AdjustLosesNode() returns (ws: Scheduler, lost: Node)
    ensures ws.Sound() && lost in Lost(ws.nodes, ws.tree) && lost.id == 1 && lost.state == Open
  {
    hide Scheduler.Sound, TreeOver, Deps, Removed, Loose, Names, Lost, Bounded, NoNamesakes, AdjustedTo, Discards;
    ghost var n1: Node;
    ws, n1 := DiscardedAsClosed();
    lost := Reopen(ws, n1);
    assert Oldest(ws.idleNodes, 1) == Some(n1) && Namesake(ws.nodes, n1);
    ws.AdjustStream(7, 0, false, 15);
  }
}
