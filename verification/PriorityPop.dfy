/** Selecting the next frame from the RFC 7540 tree: walkReadyInOrder and Pop
    (xnet/http2/writesched_priority_rfc7540.go:151-226 and 403-428). */
module PriorityPop {
  import opened Frames
  import opened DependencyTree
  import opened PriorityNode
  import opened PriorityTree

  /** sort.Sort with sortPriorityNodeSiblingsRFC7540, whose Less is not a strict
      order: some permutation of the nodes. */
  method SortSiblings(nodes: seq<Node>) returns (sorted: seq<Node>)
    ensures multiset(sorted) == multiset(nodes)
  {
    sorted := [];
    var rest := nodes;
    while rest != []
      invariant multiset(sorted) + multiset(rest) == multiset(nodes)
      decreases |rest|
    {
      var i :| 0 <= i < |rest|;
      assert rest == rest[..i] + [rest[i]] + rest[i + 1..];
      sorted := sorted + [rest[i]];
      rest := rest[..i] + rest[i + 1..];
    }
  }

  /** All children of n leave its list, in order. */
  ghost predicate TakenOut(g0: Graph, g: Graph, n: Node, i: int)
    requires n in g0 && 0 <= i <= |g0[n].children|
  {
    && g.Keys == g0.Keys
    && (forall x :: x in g ==> g[x].parent == if x in g0[n].children[..i] then null else g0[x].parent)
    && (forall x :: x in g ==> g[x].children == if x == n then g0[n].children[i..] else g0[x].children)
  }

  lemma KidTakenOut(g0: Graph, g: Graph, n: Node, i: int)
    requires Linked(g0) && Linked(g) && n in g0 && 0 <= i < |g0[n].children| && TakenOut(g0, g, n, i)
    ensures var kid := g0[n].children[i];
            kid in g && g[n].kids == kid && TakenOut(g0, Reparented(g, kid, null), n, i + 1)
  {
    hide Linked, Reparented, Distinct, Without, PlaceOk;
    var kids0, kid := g0[n].children, g0[n].children[i];
    FirstKid(g, n);
    ItemFacts(g, n, 0);
    assert g[n].children == kids0[i..] && g[kid].parent == n;
    assert Without(kids0[i..], kid) == kids0[i + 1..] by {
      ListDistinct(g, n);
      WithoutIndex(kids0[i..], kid, 0);
    }
    SelfPlace(g, kid);
    assert kids0[..i + 1] == kids0[..i] + [kid];
    hide ItemOk, At;
    forall x | x in g
      ensures Reparented(g, kid, null)[x].parent == if x in kids0[..i + 1] then null else g0[x].parent
      ensures Reparented(g, kid, null)[x].children == if x == n then kids0[i + 1..] else g0[x].children
    {
      ReparentedNode(g, kid, null, x);
    }
  }

  /** The children in l[i..] are back in n's list, in that order. */
  ghost predicate PutBack(g0: Graph, g: Graph, n: Node, l: seq<Node>, i: int)
    requires n in g0 && 0 <= i <= |l|
  {
    && g.Keys == g0.Keys
    && (forall x :: x in g ==> g[x].parent == if x in l[..i] then null else g0[x].parent)
    && (forall x :: x in g ==> g[x].children == if x == n then l[i..] else g0[x].children)
  }

  lemma KidPutBack(g0: Graph, g: Graph, n: Node, l: seq<Node>, i: int)
    requires Linked(g0) && Linked(g) && n in g0 && 0 < i <= |l| && PutBack(g0, g, n, l, i)
    requires Distinct(l) && forall c :: c in l <==> c in g0[n].children
    ensures var kid := l[i - 1];
            kid in g && kid != n && PutBack(g0, Reparented(g, kid, n), n, l, i - 1)
  {
    hide Linked, Reparented;
    var kid := l[i - 1];
    assert kid in l;
    var k :| 0 <= k < |g0[n].children| && g0[n].children[k] == kid;
    ItemFacts(g0, n, k);
    SelfPlace(g0, n);
    SelfPlace(g, kid);
    assert kid in l[..i];
    assert l[..i] == l[..i - 1] + [kid];
    assert l[i - 1..] == [kid] + l[i..];
    forall x | x in g
      ensures Reparented(g, kid, n)[x].parent == if x in l[..i - 1] then null else g0[x].parent
      ensures Reparented(g, kid, n)[x].children == if x == n then l[i - 1..] else g0[x].children
    {
      ReparentedNode(g, kid, n, x);
    }
  }

  method TakeKidsOut(n: Node, ghost S: set<Node>) returns (tmp: seq<Node>)
    requires Linked(GraphOf(S)) && n in S
    modifies S`parent, S`kids, S`prev, S`next, S`children
    ensures Linked(GraphOf(S)) && tmp == old(n.children)
    ensures TakenOut(old(GraphOf(S)), GraphOf(S), n, |old(n.children)|)
  {
    hide Linked, Reparented, TakenOut, Distinct, GraphOf;
    ghost var g0 := GraphOf(S);
    LinksIn(S, n);
    tmp := [];
    NoneOut(g0, n);
    while n.kids != null
      invariant |tmp| <= |g0[n].children| && tmp == g0[n].children[..|tmp|]
      invariant Linked(GraphOf(S)) && TakenOut(g0, GraphOf(S), n, |tmp|)
      invariant n.kids == At(g0[n].children, |tmp|)
      decreases |g0[n].children| - |tmp|
    {
      LinksIn(S, n);
      KidTakenOut(g0, GraphOf(S), n, |tmp|);
      var kid := n.kids;
      tmp := tmp + [kid];
      LinksIn(S, kid);
      kid.SetParent(null, S);
      LinksIn(S, n);
      NextKidOut(g0, GraphOf(S), n, |tmp|);
    }
    AtEnd(g0[n].children, |tmp|);
  }

  lemma LinksIn(S: set<Node>, n: Node)
    ensures GraphOf(S).Keys == S && (n in S ==> GraphOf(S)[n].kids == n.kids && GraphOf(S)[n].children == n.children)
  {
  }

  lemma NoneOut(g: Graph, n: Node)
    requires n in g && Linked(g)
    ensures TakenOut(g, g, n, 0) && g[n].kids == At(g[n].children, 0)
  {
    FirstKid(g, n);
  }

  lemma NextKidOut(g0: Graph, g: Graph, n: Node, i: int)
    requires n in g0 && 0 <= i <= |g0[n].children| && TakenOut(g0, g, n, i) && Linked(g)
    ensures g[n].kids == At(g0[n].children, i)
  {
    FirstKid(g, n);
  }

  method PutKidsBack(n: Node, sorted: seq<Node>, ghost g0: Graph, ghost S: set<Node>)
    requires Linked(GraphOf(S)) && n in S
    requires Linked(g0) && n in g0 && TakenOut(g0, GraphOf(S), n, |g0[n].children|)
    requires Distinct(sorted) && forall c :: c in sorted <==> c in g0[n].children
    modifies S`parent, S`kids, S`prev, S`next, S`children
    ensures Linked(GraphOf(S)) && PutBack(g0, GraphOf(S), n, sorted, 0)
  {
    var i := |sorted|;
    hide Linked, Reparented, PutBack, TakenOut, Distinct;
    AllOut(g0, GraphOf(S), n, sorted);
    while i > 0
      invariant 0 <= i <= |sorted|
      invariant Linked(GraphOf(S)) && PutBack(g0, GraphOf(S), n, sorted, i)
    {
      KidPutBack(g0, GraphOf(S), n, sorted, i);
      i := i - 1;
      sorted[i].SetParent(n, S);
    }
  }

  lemma AllOut(g0: Graph, g: Graph, n: Node, l: seq<Node>)
    requires n in g0 && TakenOut(g0, g, n, |g0[n].children|)
    requires forall c :: c in l <==> c in g0[n].children
    ensures PutBack(g0, g, n, l, |l|)
  {
    assert l[..|l|] == l && g0[n].children[..|g0[n].children|] == g0[n].children;
  }

  /** The uncommon case of walkReadyInOrder: take the kids out, sort them and
      insert them again.  Only the order of n's children changes. */
  method ReorderKids(n: Node, ghost S: set<Node>)
    requires Linked(GraphOf(S)) && n in S
    modifies S`parent, S`kids, S`prev, S`next, S`children
    ensures Linked(GraphOf(S)) && Deps(S) == old(Deps(S))
    ensures multiset(n.children) == multiset(old(n.children))
    ensures SameOutside(old(GraphOf(S)), GraphOf(S), n)
  {
    hide Linked, TakenOut, PutBack, ParentsOf;
    ghost var g0 := GraphOf(S);
    ListDistinct(g0, n);
    var tmp := TakeKidsOut(n, S);
    var sorted := SortSiblings(tmp);
    SameMembers(tmp, sorted);
    PutKidsBack(n, sorted, g0, S);
    ghost var g := GraphOf(S);
    BackInPlace(g0, g, n, sorted);
    assert n.children == g[n].children;
  }

  lemma BackInPlace(g0: Graph, g: Graph, n: Node, l: seq<Node>)
    requires n in g0 && PutBack(g0, g, n, l, 0)
    ensures ParentsOf(g) == ParentsOf(g0) && g.Keys == g0.Keys
    ensures g[n].children == l && SameOutside(g0, g, n)
  {
    BelowSelf(ParentsOf(g0), n);
    assert l[..0] == [] && l[0..] == l;
  }

  lemma SameMembers(s: seq<Node>, t: seq<Node>)
    requires multiset(s) == multiset(t) && Distinct(s)
    ensures Distinct(t) && |t| == |s| && forall x :: x in s <==> x in t
  {
    assert |multiset(s)| == |multiset(t)|;
    forall x ensures x in s <==> x in t { assert x in multiset(s) <==> x in multiset(t); }
    forall i, j | 0 <= i < j < |t| ensures t[i] != t[j] {
      if t[i] == t[j] {
        var x := t[i];
        assert t == t[..i] + [x] + t[i + 1..j] + [x] + t[j + 1..];
        assert multiset(t)[x] >= 2;
        OnceAtMost(s, x);
      }
    }
  }

  lemma {:induction false} OnceAtMost(s: seq<Node>, x: Node)
    requires Distinct(s)
    ensures multiset(s)[x] <= 1
  {
    if s != [] {
      assert s == [s[0]] + s[1..];
      OnceAtMost(s[1..], x);
    }
  }

  // ---- what the walk looks for ----

  type Queues = map<Node, seq<FrameWriteRequest>>

  ghost function QueuesOf(S: set<Node>): (q: Queues)
    reads S`q
  {
    map n | n in S :: n.q
  }

  /** No queue in the subtree of n has a frame that can be sent. */
  ghost predicate NoneReady(pm: Parents<Node>, q: Queues, w: Windows, n: Node) {
    forall x :: x in q && Below(pm, x, n) ==> !Ready(q[x], w)
  }

  /** m is ready, no node between m and n is, and in the sibling lists of g
      everything in front of the path from n down to m is not ready either: m
      is the first ready node of n's subtree in pre-order. */
  ghost predicate FirstReady(g: Graph, q: Queues, w: Windows, m: Node, n: Node) {
    var pm := ParentsOf(g);
    && m in q && Below(pm, m, n) && Ready(q[m], w)
    && (forall a :: a in q && a != m && Below(pm, m, a) && Below(pm, a, n) ==> !Ready(q[a], w))
    && Leftmost(g, q, w, m, n)
  }

  ghost predicate Leftmost(g: Graph, q: Queues, w: Windows, m: Node, n: Node) {
    forall p, i, j ::
      p in g && 0 <= j < i < |g[p].children| && Below(ParentsOf(g), p, n) && Below(ParentsOf(g), m, g[p].children[i])
      ==> NoneReady(ParentsOf(g), q, w, g[p].children[j])
  }

  /** Some node above m other than the root is open. */
  ghost predicate OpenAbove(S: set<Node>, pm: Parents<Node>, m: Node)
    reads S`state
  {
    exists a :: a in S && a != m && Below(pm, m, a) && a.id != 0 && a.state == Open
  }

  /** What a Pop from node m does to the queues, the windows and the throttle
      limit. */
  ghost predicate PopsFrom(m: Node, throttled: bool, enabled: bool, limit: int, limit': int, q: Queues, q': Queues,
                           w: Windows, w': Windows, r: Option<FrameWriteRequest>)
    requires m in q
  {
    var c := ConsumeQueue(q[m], if throttled then limit else MAX_INT32, w);
    && r.Some? && r == c.taken && w' == c.windows && q' == q[m := c.queue]
    && limit' == NextLimit(throttled, enabled, limit)
  }

  /** The callback that Pop gives to walkReadyInOrder. */
  method Serve(ws: Scheduler, n: Node, openParent: bool, w: Windows) returns (r: Option<FrameWriteRequest>, w': Windows)
    requires ws.TreeOk() && n in ws.tree && 1024 <= ws.writeThrottleLimit <= MAX_INT32
    modifies ws.tree`q, ws.tree`bytes, ws.tree`subtreeBytes, ws`writeThrottleLimit
    ensures 1024 <= ws.writeThrottleLimit <= MAX_INT32
    ensures r.Some? <==> Ready(old(n.q), w)
    ensures r.Some? ==>
              PopsFrom(n, openParent, ws.enableWriteThrottle, old(ws.writeThrottleLimit), ws.writeThrottleLimit,
                                 old(QueuesOf(ws.tree)), QueuesOf(ws.tree), w, w', r)
    ensures r.Some? ==>
              BytesAdded(ws.tree, Deps(ws.tree), n, r.value.DataSize(), old(BytesOf(ws.tree)), BytesOf(ws.tree))
    ensures r.None? ==> w' == w && ws.writeThrottleLimit == old(ws.writeThrottleLimit)
                        && QueuesOf(ws.tree) == old(QueuesOf(ws.tree)) && BytesOf(ws.tree) == old(BytesOf(ws.tree))
  {
    hide TreeOver, Deps, Below, ConsumeQueue, Ready, BytesAdded, BytesOf, QueuesOf;
    InQueues(ws.tree, n);
    var limit := MAX_INT32;
    if openParent {
      limit := ws.writeThrottleLimit;
    }
    var c := ConsumeQueue(n.q, limit, w);
    r, w' := c.taken, c.windows;
    if r.None? {
      return;
    }
    SetQueue(n, c.queue, ws.tree);
    SendBytes(n, r.value.DataSize(), ws.tree, ws.root);
    AdjustThrottle(ws, openParent);
  }

  method SetQueue(n: Node, queue: seq<FrameWriteRequest>, ghost S: set<Node>)
    requires n in S
    modifies S`q
    ensures QueuesOf(S) == old(QueuesOf(S))[n := queue]
  {
    n.q := queue;
  }

  lemma InQueues(S: set<Node>, n: Node)
    requires n in S
    ensures n in QueuesOf(S) && QueuesOf(S)[n] == n.q
  {
  }

  method SendBytes(n: Node, size: int, ghost S: set<Node>, ghost root: Node)
    requires TreeOver(S, root) && n in S
    modifies S`bytes, S`subtreeBytes
    ensures BytesAdded(S, Deps(S), n, size, old(BytesOf(S)), BytesOf(S))
  {
    hide TreeOver, Deps, Below;
    AddBytes(n, size, S, root);
  }

  /** The limit grows while a blocked ancestor is overtaken, up to the largest
      int32, and falls back to 1024 otherwise. */
  method AdjustThrottle(ws: Scheduler, openParent: bool)
    requires 1024 <= ws.writeThrottleLimit <= MAX_INT32
    modifies ws`writeThrottleLimit
    ensures 1024 <= ws.writeThrottleLimit <= MAX_INT32
    ensures ws.writeThrottleLimit == NextLimit(openParent, ws.enableWriteThrottle, old(ws.writeThrottleLimit))
  {
    if openParent {
      ws.writeThrottleLimit := Wrap32(ws.writeThrottleLimit + 1024);
      if ws.writeThrottleLimit < 0 {
        ws.writeThrottleLimit := MAX_INT32;
      }
    } else if ws.enableWriteThrottle {
      ws.writeThrottleLimit := 1024;
    }
  }

  ghost function NextLimit(throttled: bool, enabled: bool, limit: int): int {
    if throttled then (if limit + 1024 > MAX_INT32 then MAX_INT32 else limit + 1024)
    else if enabled then 1024 else limit
  }

  ghost function BytesOf(S: set<Node>): map<Node, (int, int)>
    reads S`bytes, S`subtreeBytes
  {
    map n | n in S :: (n.bytes, n.subtreeBytes)
  }

  /** n bytes were sent by m: they count for m, and for every node above it. */
  ghost predicate BytesAdded(S: set<Node>, pm: Parents<Node>, m: Node, n: int, b: map<Node, (int, int)>,
                             b': map<Node, (int, int)>)
  {
    && b.Keys == S && b'.Keys == S
    && forall x :: x in S ==>
         b'[x] == (b[x].0 + (if x == m then n else 0), b[x].1 + if Below(pm, m, x) then n else 0)
  }

  // ---- lemmas about the walk ----

  lemma ChildOf(g: Graph, root: Node, n: Node, i: int)
    requires Linked(g) && IsTree(ParentsOf(g), root) && n in g && 0 <= i < |g[n].children|
    ensures var c := g[n].children[i];
            && c in g && c != root && g[c].parent == n && Below(ParentsOf(g), c, n)
            && Depth(ParentsOf(g), root, c) == Depth(ParentsOf(g), root, n) + 1
  {
    hide Linked;
    var pm, c := ParentsOf(g), g[n].children[i];
    ItemFacts(g, n, i);
    assert c != root;
    DepthOfParent(pm, root, c);
    BelowSelf(pm, n);
    BelowStep(pm, c, n);
  }

  /** Two nodes above m are above one another. */
  lemma {:induction false} AboveChain(pm: Parents<Node>, m: Node, a: Node, b: Node, j: nat, k: nat)
    requires Climbs(pm, m, a, j) && Climbs(pm, m, b, k) && j <= k
    ensures Below(pm, a, b)
  {
    if j == 0 {
    } else {
      AboveChain(pm, pm[m].value, a, b, j - 1, k - 1);
    }
  }

  lemma SelfFirst(g: Graph, root: Node, q: Queues, w: Windows, n: Node)
    requires Linked(g) && IsTree(ParentsOf(g), root) && n in g && q.Keys == g.Keys && Ready(q[n], w)
    ensures FirstReady(g, q, w, n, n)
  {
    var pm := ParentsOf(g);
    BelowSelf(pm, n);
    forall a | a in q && a != n && Below(pm, n, a) ensures !Below(pm, a, n) {
      BelowDepth(pm, root, n, a);
      if Below(pm, a, n) { BelowDepth(pm, root, a, n); }
    }
    hide Linked, IsTree;
    forall p, i | p in g && 0 <= i < |g[p].children| && Below(pm, p, n) ensures !Below(pm, n, g[p].children[i]) {
      ChildOf(g, root, p, i);
      BelowDepth(pm, root, p, n);
      if Below(pm, n, g[p].children[i]) { BelowDepth(pm, root, n, g[p].children[i]); }
    }
  }

  /** A node below n other than n is below one of n's children. */
  lemma {:induction false} UnderAChild(g: Graph, root: Node, x: Node, n: Node, k: nat) returns (i: int)
    requires Linked(g) && IsTree(ParentsOf(g), root) && n in g && x in g && x != n && Climbs(ParentsOf(g), x, n, k)
    ensures 0 <= i < |g[n].children| && Below(ParentsOf(g), x, g[n].children[i])
  {
    hide Linked, IsTree;
    var pm := ParentsOf(g);
    SelfPlace(g, x);
    if g[x].parent == n {
      ChildIffParent(g, n, x);
      i :| 0 <= i < |g[n].children| && g[n].children[i] == x;
      BelowSelf(pm, x);
    } else {
      i := UnderAChild(g, root, g[x].parent, n, k - 1);
      BelowStep(pm, x, g[n].children[i]);
    }
  }

  lemma NoneReadyFromKids(g: Graph, root: Node, q: Queues, w: Windows, n: Node)
    requires Linked(g) && IsTree(ParentsOf(g), root) && n in g && q.Keys == g.Keys && !Ready(q[n], w)
    requires FrontNotReady(ParentsOf(g), q, w, g[n].children, |g[n].children|)
    ensures NoneReady(ParentsOf(g), q, w, n)
  {
    var pm := ParentsOf(g);
    forall x | x in q && Below(pm, x, n) ensures !Ready(q[x], w) {
      if x != n {
        var k: nat :| Climbs(pm, x, n, k);
        var i := UnderAChild(g, root, x, n, k);
        assert NoneReady(pm, q, w, g[n].children[i]);
      }
    }
  }

  /** The path from n to m enters n's subtree through its i-th child only. */
  lemma PathEnters(g: Graph, root: Node, m: Node, n: Node, i: int, p: Node)
    requires Linked(g) && IsTree(ParentsOf(g), root) && n in g && m in g && 0 <= i < |g[n].children|
    requires Below(ParentsOf(g), m, g[n].children[i]) && p in g && Below(ParentsOf(g), m, p)
             && Below(ParentsOf(g), p, n) && p != n
    ensures Below(ParentsOf(g), p, g[n].children[i])
  {
    var pm, c := ParentsOf(g), g[n].children[i];
    ChildOf(g, root, n, i);
    var j: nat :| Climbs(pm, m, p, j);
    var k: nat :| Climbs(pm, m, c, k);
    ClimbsStays(pm, root, m, p, j);
    ClimbsStays(pm, root, m, c, k);
    BelowDepth(pm, root, p, n);
    AboveChain(pm, m, p, c, j, k);
  }

  lemma SameSibling(g: Graph, root: Node, m: Node, n: Node, i: int, j: int)
    requires Linked(g) && IsTree(ParentsOf(g), root) && n in g && m in g && 0 <= i < |g[n].children|
             && 0 <= j < |g[n].children|
    requires Below(ParentsOf(g), m, g[n].children[i]) && Below(ParentsOf(g), m, g[n].children[j])
    ensures i == j
  {
    var pm, c, d := ParentsOf(g), g[n].children[i], g[n].children[j];
    ChildOf(g, root, n, i);
    ChildOf(g, root, n, j);
    PathEnters(g, root, m, n, i, d);
    if c != d { BelowDepth(pm, root, d, c); }
    ListDistinct(g, n);
  }

  lemma ChildFirst(g: Graph, root: Node, q: Queues, w: Windows, m: Node, n: Node, i: int)
    requires Linked(g) && IsTree(ParentsOf(g), root) && n in g && q.Keys == g.Keys && 0 <= i < |g[n].children|
    requires FirstReady(g, q, w, m, g[n].children[i]) && !Ready(q[n], w)
    requires FrontNotReady(ParentsOf(g), q, w, g[n].children, i)
    ensures FirstReady(g, q, w, m, n)
  {
    hide Linked, IsTree, NoneReady;
    var pm, c := ParentsOf(g), g[n].children[i];
    ChildOf(g, root, n, i);
    BelowTransitive(pm, m, c, n);
    forall a | a in q && a != m && Below(pm, m, a) && Below(pm, a, n) ensures !Ready(q[a], w) {
      if a != n { PathEnters(g, root, m, n, i, a); }
    }
    forall p, k, j | p in g && 0 <= j < k < |g[p].children| && Below(pm, p, n) && Below(pm, m, g[p].children[k])
      ensures NoneReady(pm, q, w, g[p].children[j])
    {
      if p == n {
        SameSibling(g, root, m, n, i, k);
      } else {
        ChildOf(g, root, p, k);
        BelowTransitive(pm, m, g[p].children[k], p);
        PathEnters(g, root, m, n, i, p);
      }
    }
  }

  /** Only lists in the subtree of n were reordered. */
  ghost predicate SameOutside(g: Graph, g': Graph, n: Node) {
    g'.Keys == g.Keys && forall x :: x in g && !Below(ParentsOf(g), x, n) ==> g'[x].children == g[x].children
  }

  lemma SameOutsideUp(g: Graph, g1: Graph, g2: Graph, root: Node, n: Node, i: int)
    requires Linked(g1) && IsTree(ParentsOf(g1), root) && ParentsOf(g) == ParentsOf(g1) == ParentsOf(g2)
    requires n in g1 && 0 <= i < |g1[n].children|
    requires SameOutside(g, g1, n) && SameOutside(g1, g2, g1[n].children[i])
    ensures SameOutside(g, g2, n) && g2[n].children == g1[n].children
  {
    var pm, c := ParentsOf(g1), g1[n].children[i];
    ChildOf(g1, root, n, i);
    if Below(pm, n, c) { BelowDepth(pm, root, n, c); }
    forall x | x in g && !Below(pm, x, n) ensures !Below(pm, x, c) {
      if Below(pm, x, c) { BelowTransitive(pm, x, c, n); }
    }
  }

  lemma OpenAboveChild(S: set<Node>, root: Node, n: Node, i: int)
    requires TreeOver(S, root) && n in S && 0 <= i < |n.children|
    requires n.id == 0 <==> n == root
    ensures OpenAbove(S, Deps(S), n.children[i]) <==> OpenAbove(S, Deps(S), n) || (n.id != 0 && n.state == Open)
  {
    var g, pm, c := GraphOf(S), Deps(S), n.children[i];
    ChildOf(g, root, n, i);
    assert g[n].children[i] == c;
    forall a | a in S ensures Below(pm, c, a) && a != c <==> Below(pm, n, a) {
      BelowStep(pm, c, a);
      if Below(pm, n, c) { BelowDepth(pm, root, n, c); }
    }
    BelowSelf(pm, n);
  }

  /** Whether all children of n have the same weight. */
  method NeedSort(n: Node, ghost S: set<Node>) returns (needSort: bool)
    requires Linked(GraphOf(S)) && n in S && n.kids != null
    ensures needSort <==> exists i :: 0 <= i < |n.children| && n.children[i].weight != n.children[0].weight
  {
    ghost var g := GraphOf(S);
    FirstKid(g, n);
    SiblingNext(g, n, 0);
    var w := n.kids.weight;
    needSort := false;
    var k := n.kids.next;
    ghost var i := 1;
    while k != null
      invariant 1 <= i <= |n.children| && k == At(n.children, i)
      invariant forall j :: 0 <= j < i ==> n.children[j].weight == w
      decreases |n.children| - i
    {
      SiblingNext(g, n, i);
      if k.weight != w {
        return true;
      }
      k := k.next;
      i := i + 1;
    }
    AtEnd(n.children, i);
  }

  lemma SiblingNext(g: Graph, n: Node, i: int)
    requires Linked(g) && n in g && 0 <= i < |g[n].children|
    ensures g[n].children[i] in g && g[g[n].children[i]].next == At(g[n].children, i + 1)
  {
    ItemFacts(g, n, i);
  }

  /** n is in the tree and B bounds the depth of the tree. */
  ghost predicate Walkable(ws: Scheduler, n: Node, B: nat)
    reads ws`tree, ws.tree`parent, ws.tree`kids, ws.tree`prev, ws.tree`next, ws.tree`children
  {
    && n in ws.tree && ws.root in ws.tree && RootHasZero(ws.tree, ws.root)
    && Linked(GraphOf(ws.tree)) && DepthBound(Deps(ws.tree), ws.root, B)
  }

  ghost predicate RootHasZero(S: set<Node>, root: Node) {
    forall x :: x in S ==> (x.id == 0 <==> x == root)
  }

  ghost predicate DepthBound(pm: Parents<Node>, root: Node, B: nat) {
    IsTree(pm, root) && forall x :: x in pm ==> Depth(pm, root, x) <= B
  }

  /** What Walkable says about the parts of the tree. */
  lemma Unpack(ws: Scheduler, n: Node, B: nat)
    requires Walkable(ws, n, B)
    ensures ws.TreeOk() && n in ws.tree && RootHasZero(ws.tree, ws.root) && DepthBound(Deps(ws.tree), ws.root, B)
    ensures Linked(GraphOf(ws.tree)) && IsTree(Deps(ws.tree), ws.root) && Deps(ws.tree) == ParentsOf(GraphOf(ws.tree))
    ensures GraphOf(ws.tree).Keys == Deps(ws.tree).Keys == QueuesOf(ws.tree).Keys == ws.tree
    ensures GraphOf(ws.tree)[n] == n.LinksOf() && QueuesOf(ws.tree)[n] == n.q
    ensures n.LinksOf().children == n.children && n.LinksOf().kids == n.kids
  {
  }

  lemma Pack(ws: Scheduler, n: Node, B: nat)
    requires n in ws.tree && ws.root in ws.tree && RootHasZero(ws.tree, ws.root)
    requires Linked(GraphOf(ws.tree)) && DepthBound(Deps(ws.tree), ws.root, B)
    ensures Walkable(ws, n, B)
  {
  }

  /** The subtrees of the first i children have nothing to send. */
  ghost predicate FrontNotReady(pm: Parents<Node>, q: Queues, w: Windows, kids: seq<Node>, i: int)
    requires 0 <= i <= |kids|
  {
    forall j :: 0 <= j < i ==> NoneReady(pm, q, w, kids[j])
  }

  lemma NoFront(pm: Parents<Node>, q: Queues, w: Windows, kids: seq<Node>)
    ensures FrontNotReady(pm, q, w, kids, 0)
  {
  }

  lemma SameOutsideSelf(g: Graph, n: Node)
    ensures SameOutside(g, g, n)
  {
  }

  lemma SameOutsideTrans(g: Graph, g1: Graph, g2: Graph, n: Node)
    requires SameOutside(g, g1, n) && SameOutside(g1, g2, n) && ParentsOf(g1) == ParentsOf(g)
    ensures SameOutside(g, g2, n)
  {
  }

  lemma NoKids(g: Graph, root: Node, q: Queues, w: Windows, n: Node)
    requires Linked(g) && IsTree(ParentsOf(g), root) && n in g && q.Keys == g.Keys && !Ready(q[n], w)
             && g[n].kids == null
    ensures NoneReady(ParentsOf(g), q, w, n)
  {
    FirstKid(g, n);
    NoneReadyFromKids(g, root, q, w, n);
  }

  /** A child of n can be walked too, one level further down. */
  lemma KidWalkable(ws: Scheduler, n: Node, B: nat, i: int)
    requires Walkable(ws, n, B) && 0 <= i < |n.children|
    ensures Walkable(ws, n.children[i], B)
    ensures IsTree(Deps(ws.tree), ws.root) && n in Deps(ws.tree) && n.children[i] in Deps(ws.tree)
    ensures Depth(Deps(ws.tree), ws.root, n.children[i]) == Depth(Deps(ws.tree), ws.root, n) + 1 <= B
    ensures OpenAbove(ws.tree, Deps(ws.tree), n.children[i]) <==>
              OpenAbove(ws.tree, Deps(ws.tree), n) || (n.id != 0 && n.state == Open)
  {
    hide Linked, IsTree, OpenAbove;
    Unpack(ws, n, B);
    ChildOf(GraphOf(ws.tree), ws.root, n, i);
    OpenAboveChild(ws.tree, ws.root, n, i);
  }

  /** The parts of the scheduler that a walk looks at. */
  datatype Snap = Snap(g: Graph, q: Queues, b: map<Node, (int, int)>, limit: int)

  ghost function SnapOf(ws: Scheduler): (s: Snap)
    reads ws`tree, ws`writeThrottleLimit, ws.tree`parent, ws.tree`kids, ws.tree`prev, ws.tree`next,
          ws.tree`children, ws.tree`q, ws.tree`bytes, ws.tree`subtreeBytes
  {
    Snap(GraphOf(ws.tree), QueuesOf(ws.tree), BytesOf(ws.tree), ws.writeThrottleLimit)
  }

  /** What a walk of n's subtree does: it serves the first ready node in
      pre-order, or finds that there is none and then changes nothing but the
      order of siblings. */
  ghost predicate Walked(ws: Scheduler, s: Snap, s': Snap, w: Windows, w': Windows, n: Node, served: Node,
                         r: Option<FrameWriteRequest>)
    reads ws`tree, ws.tree`state
  {
    var pm := ParentsOf(s.g);
    && ParentsOf(s'.g) == pm && SameOutside(s.g, s'.g, n)
    && match r
       case None => w' == w && s' == s.(g := s'.g) && NoneReady(pm, s.q, w, n)
       case Some(wr) =>
         && served in s.q && FirstReady(s'.g, s.q, w, served, n)
         && PopsFrom(served, OpenAbove(ws.tree, pm, served), ws.enableWriteThrottle, s.limit, s'.limit, s.q, s'.q, w,
            w', r)
         && BytesAdded(ws.tree, pm, served, wr.DataSize(), s.b, s'.b)
  }

  /** Nothing but the order of siblings below n has changed. */
  ghost predicate OnlyReordered(s: Snap, s1: Snap, n: Node) {
    s1 == s.(g := s1.g) && ParentsOf(s1.g) == ParentsOf(s.g) && SameOutside(s.g, s1.g, n)
  }

  lemma NotReordered(s: Snap, n: Node)
    ensures OnlyReordered(s, s, n)
  {
  }

  /** Reordering below n before the walk. */
  lemma WalkedAfterSort(ws: Scheduler, s: Snap, s1: Snap, s2: Snap, w: Windows, w': Windows, n: Node, served: Node,
                        r: Option<FrameWriteRequest>)
    requires OnlyReordered(s, s1, n)
    requires Walked(ws, s1, s2, w, w', n, served, r)
    ensures Walked(ws, s, s2, w, w', n, served, r)
  {
    hide FirstReady, PopsFrom, BytesAdded, OpenAbove, NoneReady;
    SameOutsideTrans(s.g, s1.g, s2.g, n);
  }

  /** A walk that found something below the i-th child. */
  lemma WalkedInKid(ws: Scheduler, s: Snap, s1: Snap, s2: Snap, w: Windows, w': Windows, n: Node, i: int,
                    served: Node, r: Option<FrameWriteRequest>)
    requires OnlyReordered(s, s1, n)
    requires Linked(s1.g) && Linked(s2.g) && IsTree(ParentsOf(s.g), ws.root)
    requires s.g.Keys == s.q.Keys && n in s.g && 0 <= i < |s1.g[n].children| && !Ready(s.q[n], w)
    requires FrontNotReady(ParentsOf(s.g), s.q, w, s1.g[n].children, i)
    requires r.Some? && Walked(ws, s1, s2, w, w', s1.g[n].children[i], served, r)
    ensures Walked(ws, s, s2, w, w', n, served, r)
  {
    hide FirstReady, PopsFrom, BytesAdded, OpenAbove, NoneReady, SameOutside, Linked, IsTree, FrontNotReady, Ready;
    KeysOfParents(s.g, s1.g);
    KeysOfParents(s.g, s2.g);
    SameOutsideUp(s.g, s1.g, s2.g, ws.root, n, i);
    ChildFirst(s2.g, ws.root, s.q, w, served, n, i);
  }

  lemma KeysOfParents(g: Graph, g': Graph)
    requires ParentsOf(g) == ParentsOf(g')
    ensures g.Keys == g'.Keys
  {
    assert ParentsOf(g).Keys == g.Keys && ParentsOf(g').Keys == g'.Keys;
  }

  /** A walk that found nothing below the i-th child. */
  lemma WalkedPastKid(ws: Scheduler, s: Snap, s1: Snap, s2: Snap, w: Windows, w': Windows, n: Node, i: int,
                      served: Node)
    requires OnlyReordered(s, s1, n) && Linked(s1.g) && Linked(s2.g) && IsTree(ParentsOf(s.g), ws.root)
    requires n in s1.g && 0 <= i < |s1.g[n].children|
    requires FrontNotReady(ParentsOf(s.g), s.q, w, s1.g[n].children, i)
    requires Walked(ws, s1, s2, w, w', s1.g[n].children[i], served, None)
    ensures OnlyReordered(s, s2, n) && ParentsOf(s2.g) == ParentsOf(s.g)
    ensures w' == w && n in s2.g && s2.g[n].children == s1.g[n].children
    ensures FrontNotReady(ParentsOf(s.g), s.q, w, s1.g[n].children, i + 1)
    ensures s1.g[n].children[i] in s2.g && s2.g[s1.g[n].children[i]].next == At(s1.g[n].children, i + 1)
  {
    hide NoneReady, SameOutside, Linked, IsTree;
    KeysOfParents(s.g, s1.g);
    KeysOfParents(s.g, s2.g);
    SameOutsideUp(s.g, s1.g, s2.g, ws.root, n, i);
    SiblingNext(s2.g, n, i);
  }

  lemma AllKidsPassed(ws: Scheduler, s: Snap, s1: Snap, w: Windows, n: Node)
    requires OnlyReordered(s, s1, n) && Linked(s1.g) && IsTree(ParentsOf(s.g), ws.root)
    requires s.g.Keys == s.q.Keys && n in s1.g && !Ready(s.q[n], w)
    requires FrontNotReady(ParentsOf(s.g), s.q, w, s1.g[n].children, |s1.g[n].children|)
    ensures Walked(ws, s, s1, w, w, n, n, None)
  {
    hide NoneReady, SameOutside, Linked, IsTree, FrontNotReady, Ready;
    KeysOfParents(s.g, s1.g);
    NoneReadyFromKids(s1.g, ws.root, s.q, w, n);
  }

  /** walkReadyInOrder with Pop's callback. */
  method Walk(ws: Scheduler, n: Node, openParent: bool, w: Windows, ghost B: nat)
    returns (r: Option<FrameWriteRequest>, w': Windows, ghost served: Node)
    requires Walkable(ws, n, B) && openParent == OpenAbove(ws.tree, Deps(ws.tree), n)
    requires 1024 <= ws.writeThrottleLimit <= MAX_INT32
    modifies ws.tree`parent, ws.tree`kids, ws.tree`prev, ws.tree`next, ws.tree`children, ws.tree`q,
             ws.tree`bytes, ws.tree`subtreeBytes, ws`writeThrottleLimit
    ensures Walkable(ws, n, B) && 1024 <= ws.writeThrottleLimit <= MAX_INT32
    ensures Walked(ws, old(SnapOf(ws)), SnapOf(ws), w, w', n, served, r)
    decreases B - Depth(Deps(ws.tree), ws.root, n), 3
  {
    hide Walkable, FirstReady, PopsFrom, BytesAdded, OpenAbove, NoneReady, SameOutside, GraphOf, QueuesOf, BytesOf,
         Deps, ParentsOf, Linked, IsTree, DepthBound, RootHasZero, TreeOver, Ready, Below, FrontNotReady;
    served := n;
    ghost var g, q := GraphOf(ws.tree), QueuesOf(ws.tree);
    Unpack(ws, n, B);
    r, w' := Serve(ws, n, openParent, w);
    assert GraphOf(ws.tree) == g;
    if r.Some? {
      SameOutsideSelf(g, n);
      SelfFirst(g, ws.root, q, w, n);
      return;
    }
    Unpack(ws, n, B);
    r, w', served := Descend(ws, n, openParent, w, B);
  }

  /** The children of n are sorted, unless their weights are equal. */
  method SortKids(ws: Scheduler, n: Node, ghost B: nat)
    requires Walkable(ws, n, B) && n.kids != null
    modifies ws.tree`parent, ws.tree`kids, ws.tree`prev, ws.tree`next, ws.tree`children
    ensures Walkable(ws, n, B) && Deps(ws.tree) == old(Deps(ws.tree)) && OnlyReordered(old(SnapOf(ws)), SnapOf(ws), n)
  {
    hide Walkable, SameOutside, GraphOf, QueuesOf, BytesOf, Deps, ParentsOf, Linked, IsTree, DepthBound, RootHasZero,
         TreeOver;
    ghost var s := SnapOf(ws);
    Unpack(ws, n, B);
    SameOutsideSelf(s.g, n);
    var needSort := NeedSort(n, ws.tree);
    if needSort {
      ReorderKids(n, ws.tree);
    }
    assert QueuesOf(ws.tree) == s.q && BytesOf(ws.tree) == s.b;
    Pack(ws, n, B);
    DepsOfGraph(ws.tree);
  }

  /** The walk below a node that is not ready itself. */
  method Descend(ws: Scheduler, n: Node, openParent: bool, w: Windows, ghost B: nat)
    returns (r: Option<FrameWriteRequest>, w': Windows, ghost served: Node)
    requires Walkable(ws, n, B) && openParent == OpenAbove(ws.tree, Deps(ws.tree), n) && !Ready(n.q, w)
    requires 1024 <= ws.writeThrottleLimit <= MAX_INT32
    modifies ws.tree`parent, ws.tree`kids, ws.tree`prev, ws.tree`next, ws.tree`children, ws.tree`q,
             ws.tree`bytes, ws.tree`subtreeBytes, ws`writeThrottleLimit
    ensures Walkable(ws, n, B) && 1024 <= ws.writeThrottleLimit <= MAX_INT32
    ensures Walked(ws, old(SnapOf(ws)), SnapOf(ws), w, w', n, served, r)
    decreases B - Depth(Deps(ws.tree), ws.root, n), 2
  {
    hide Walkable, FirstReady, PopsFrom, BytesAdded, OpenAbove, NoneReady, SameOutside, GraphOf, QueuesOf, BytesOf,
         Deps, ParentsOf, Linked, IsTree, DepthBound, RootHasZero, TreeOver, Ready, Below, FrontNotReady;
    ghost var s := SnapOf(ws);
    Unpack(ws, n, B);
    SameOutsideSelf(s.g, n);
    if n.kids == null {
      NoKids(s.g, ws.root, s.q, w, n);
      return None, w, n;
    }
    var open := openParent;
    if n.id != 0 {
      open := openParent || n.state == Open;
    }
    hide Walked, OnlyReordered, SnapOf;
    SortKids(ws, n, B);
    ghost var s1 := SnapOf(ws);
    r, w', served := WalkKids(ws, n, open, w, B);
    WalkedAfterSort(ws, s, s1, SnapOf(ws), w, w', n, served, r);
  }

  lemma DepsOfGraph(S: set<Node>)
    ensures Deps(S) == ParentsOf(GraphOf(S))
  {
  }

  /** The i-th step of the loop over n's children; s is from before the loop. */
  method WalkKid(ws: Scheduler, n: Node, k: Node, open: bool, w: Windows, ghost B: nat, ghost s: Snap,
                 ghost kids: seq<Node>, ghost i: nat)
    returns (r: Option<FrameWriteRequest>, w': Windows, ghost served: Node)
    requires Walkable(ws, n, B) && n in s.q && !Ready(s.q[n], w) && s.q.Keys == s.g.Keys
    requires open == (OpenAbove(ws.tree, Deps(ws.tree), n) || (n.id != 0 && n.state == Open))
    requires i < |kids| && kids[i] == k && n.children == kids
    requires OnlyReordered(s, SnapOf(ws), n) && FrontNotReady(ParentsOf(s.g), s.q, w, kids, i)
    requires 1024 <= ws.writeThrottleLimit <= MAX_INT32
    modifies ws.tree`parent, ws.tree`kids, ws.tree`prev, ws.tree`next, ws.tree`children, ws.tree`q,
             ws.tree`bytes, ws.tree`subtreeBytes, ws`writeThrottleLimit
    ensures Walkable(ws, n, B) && 1024 <= ws.writeThrottleLimit <= MAX_INT32
    ensures r.Some? ==> Walked(ws, s, SnapOf(ws), w, w', n, served, r)
    ensures r.None? ==>
              w' == w && Deps(ws.tree) == old(Deps(ws.tree)) && n.children == kids && k.next == At(kids, i + 1)
    ensures r.None? ==> OnlyReordered(s, SnapOf(ws), n) && FrontNotReady(ParentsOf(s.g), s.q, w, kids, i + 1)
    decreases B - Depth(Deps(ws.tree), ws.root, n), 0
  {
    hide Walkable, FirstReady, PopsFrom, BytesAdded, OpenAbove, NoneReady, SameOutside, GraphOf, QueuesOf, BytesOf,
         Deps, ParentsOf, Linked, IsTree, DepthBound, RootHasZero, TreeOver, Ready, Below, FrontNotReady, Walked;
    ghost var s1 := SnapOf(ws);
    Unpack(ws, n, B);
    KidWalkable(ws, n, B, i);
    hide OnlyReordered;
    Reordered(s, s1, n);
    r, w', served := Walk(ws, k, open, w, B);
    ghost var s2 := SnapOf(ws);
    Unpack(ws, k, B);
    if r.Some? {
      WalkedInKid(ws, s, s1, s2, w, w', n, i, served, r);
    } else {
      WalkedPastKid(ws, s, s1, s2, w, w', n, i, served);
      Reordered(s, s2, n);
    }
    Pack(ws, n, B);
    Unpack(ws, n, B);
  }

  lemma Reordered(s: Snap, s1: Snap, n: Node)
    requires OnlyReordered(s, s1, n)
    ensures s1.q == s.q && ParentsOf(s1.g) == ParentsOf(s.g) && s1.g.Keys == s.g.Keys
  {
    KeysOfParents(s.g, s1.g);
  }

  /** The loop over n's children. */
  method WalkKids(ws: Scheduler, n: Node, open: bool, w: Windows, ghost B: nat)
    returns (r: Option<FrameWriteRequest>, w': Windows, ghost served: Node)
    requires Walkable(ws, n, B) && !Ready(n.q, w)
    requires open == (OpenAbove(ws.tree, Deps(ws.tree), n) || (n.id != 0 && n.state == Open))
    requires 1024 <= ws.writeThrottleLimit <= MAX_INT32
    modifies ws.tree`parent, ws.tree`kids, ws.tree`prev, ws.tree`next, ws.tree`children, ws.tree`q,
             ws.tree`bytes, ws.tree`subtreeBytes, ws`writeThrottleLimit
    ensures Walkable(ws, n, B) && 1024 <= ws.writeThrottleLimit <= MAX_INT32
    ensures Walked(ws, old(SnapOf(ws)), SnapOf(ws), w, w', n, served, r)
    decreases B - Depth(Deps(ws.tree), ws.root, n), 1
  {
    hide Walkable, FirstReady, PopsFrom, BytesAdded, OpenAbove, NoneReady, SameOutside, GraphOf, QueuesOf, BytesOf,
         Deps, ParentsOf, Linked, IsTree, DepthBound, RootHasZero, TreeOver, Ready, Below, FrontNotReady, Walked,
           OnlyReordered;
    r, w', served := None, w, n;
    ghost var s, pm, kids := SnapOf(ws), Deps(ws.tree), n.children;
    NotReordered(s, n);
    Unpack(ws, n, B);
    FirstKid(s.g, n);
    NoFront(pm, s.q, w, kids);
    ghost var i := 0;
    var k := n.kids;
    while k != null
      invariant Walkable(ws, n, B) && Deps(ws.tree) == pm && n.children == kids
      invariant 0 <= i <= |kids| && k == At(kids, i)
      invariant w' == w && r.None? && OnlyReordered(s, SnapOf(ws), n)
      invariant 1024 <= ws.writeThrottleLimit <= MAX_INT32
      invariant FrontNotReady(pm, s.q, w, kids, i)
      decreases |kids| - i
    {
      r, w', served := WalkKid(ws, n, k, open, w, B, s, kids, i);
      if r.Some? {
        return;
      }
      k := k.next;
      i := i + 1;
    }
    AtEnd(kids, i);
    Unpack(ws, n, B);
    AllKidsPassed(ws, s, SnapOf(ws), w, n);
    served := n;
  }

  /** Some number bounds the depth of every node. */
  lemma {:induction false} DepthIsBounded(pm: Parents<Node>, root: Node, nodes: set<Node>) returns (B: nat)
    requires IsTree(pm, root) && nodes <= pm.Keys
    ensures forall x :: x in nodes ==> Depth(pm, root, x) <= B
    decreases nodes
  {
    if nodes == {} {
      B := 0;
    } else {
      var x :| x in nodes;
      B := DepthIsBounded(pm, root, nodes - {x});
      if B < Depth(pm, root, x) { B := Depth(pm, root, x); }
    }
  }

  lemma WalkableFromRoot(ws: Scheduler) returns (B: nat)
    requires ws.Sound()
    ensures Walkable(ws, ws.root, B) && !OpenAbove(ws.tree, Deps(ws.tree), ws.root)
  {
    var pm := Deps(ws.tree);
    DepsKeys(ws.tree);
    B := DepthIsBounded(pm, ws.root, ws.tree);
    RootName(ws.nodes, ws.tree, ws.root);
    forall a | a in ws.tree && a != ws.root ensures !Below(pm, ws.root, a) { RootNotBelow(pm, ws.root, a); }
  }

  ghost predicate NothingReady(q: Queues, w: Windows) {
    forall x :: x in q ==> !Ready(q[x], w)
  }

  lemma NoneReadyInTree(pm: Parents<Node>, root: Node, q: Queues, w: Windows)
    requires IsTree(pm, root) && pm.Keys == q.Keys && NoneReady(pm, q, w, root)
    ensures NothingReady(q, w)
  {
  }

  lemma FirstReadyIsReady(g: Graph, q: Queues, w: Windows, m: Node, n: Node)
    requires FirstReady(g, q, w, m, n)
    ensures !NothingReady(q, w)
  {
  }

  /** What Pop does to the tree, seen from the outside.  It fails exactly if no
      node is ready, and then changes nothing but the order of siblings;
      otherwise it takes the first frame, cut to what the windows and the
      throttle allow, from the first ready node in pre-order, none of whose
      ancestors is ready. */
  ghost predicate Popped(ws: Scheduler, s: Snap, s': Snap, w: Windows, w': Windows, served: Node,
                         r: Option<FrameWriteRequest>)
    reads ws`tree, ws.tree`state
  {
    var pm := ParentsOf(s.g);
    && ParentsOf(s'.g) == pm
    && (r.None? <==> NothingReady(s.q, w))
    && (r.None? ==> w' == w && s' == s.(g := s'.g))
    && (r.Some? ==>
          && served in s.q && FirstReady(s'.g, s.q, w, served, ws.root)
          && PopsFrom(served, OpenAbove(ws.tree, pm, served), ws.enableWriteThrottle, s.limit, s'.limit, s.q, s'.q, w,
             w', r)
          && BytesAdded(ws.tree, pm, served, r.value.DataSize(), s.b, s'.b))
  }

  lemma WalkedFromRoot(ws: Scheduler, s: Snap, s': Snap, w: Windows, w': Windows, served: Node,
                       r: Option<FrameWriteRequest>)
    requires Walked(ws, s, s', w, w', ws.root, served, r)
    requires IsTree(ParentsOf(s.g), ws.root) && s.q.Keys == s.g.Keys
    ensures Popped(ws, s, s', w, w', served, r)
  {
    hide FirstReady, PopsFrom, BytesAdded, OpenAbove, NoneReady, NothingReady, IsTree;
    if r.None? {
      NoneReadyInTree(ParentsOf(s.g), ws.root, s.q, w);
    } else {
      FirstReadyIsReady(s'.g, s.q, w, served, ws.root);
    }
  }

  /** The walk of Pop. */
  method PopTree(ws: Scheduler, w: Windows, ghost B: nat)
    returns (r: Option<FrameWriteRequest>, w': Windows, ghost served: Node)
    requires Walkable(ws, ws.root, B) && !OpenAbove(ws.tree, Deps(ws.tree), ws.root)
    requires 1024 <= ws.writeThrottleLimit <= MAX_INT32
    modifies ws.tree`parent, ws.tree`kids, ws.tree`prev, ws.tree`next, ws.tree`children, ws.tree`q,
             ws.tree`bytes, ws.tree`subtreeBytes, ws`writeThrottleLimit
    ensures ws.TreeOk() && 1024 <= ws.writeThrottleLimit <= MAX_INT32 && Deps(ws.tree) == old(Deps(ws.tree))
    ensures Popped(ws, old(SnapOf(ws)), SnapOf(ws), w, w', served, r)
  {
    hide Walkable, Walked, Popped, SameOutside, GraphOf, QueuesOf, BytesOf, SnapOf, Deps, ParentsOf, Linked, IsTree,
         DepthBound,
         RootHasZero, TreeOver, OpenAbove;
    ghost var s := SnapOf(ws);
    Unpack(ws, ws.root, B);
    SnapParts(ws);
    r, w', served := Walk(ws, ws.root, false, w, B);
    Unpack(ws, ws.root, B);
    WalkedFromRoot(ws, s, SnapOf(ws), w, w', served, r);
    SnapParts(ws);
    SameParents(ws, s, SnapOf(ws), w, w', served, r);
  }

  /** Pop */
  method Pop(ws: Scheduler, w: Windows) returns (r: Option<FrameWriteRequest>, w': Windows, ghost served: Node)
    requires ws.Sound()
    modifies ws.tree`parent, ws.tree`kids, ws.tree`prev, ws.tree`next, ws.tree`children, ws.tree`q,
             ws.tree`bytes, ws.tree`subtreeBytes, ws`writeThrottleLimit
    ensures ws.Sound() && (old(ws.Valid()) ==> ws.Valid()) && Deps(ws.tree) == old(Deps(ws.tree))
    ensures Popped(ws, old(SnapOf(ws)), SnapOf(ws), w, w', served, r)
  {
    hide Walkable, Popped, SnapOf, Deps, OpenAbove, Scheduler.TreeOk, Names, Bounded, ListsOk, Lost, NoNamesakes;
    ghost var B := WalkableFromRoot(ws);
    ghost var D := ws.Listed() - ws.tree;
    r, w', served := PopTree(ws, w, B);
    forall m | m in D ensures m.LinksOf() == NO_LINKS {
      assert old(m.LinksOf()) == NO_LINKS;
    }
  }

  lemma SnapParts(ws: Scheduler)
    ensures SnapOf(ws).g == GraphOf(ws.tree) && SnapOf(ws).q.Keys == ws.tree == GraphOf(ws.tree).Keys
    ensures Deps(ws.tree) == ParentsOf(SnapOf(ws).g)
  {
  }

  lemma SameParents(ws: Scheduler, s: Snap, s': Snap, w: Windows, w': Windows, served: Node,
                    r: Option<FrameWriteRequest>)
    requires Popped(ws, s, s', w, w', served, r)
    ensures ParentsOf(s'.g) == ParentsOf(s.g)
  {
  }
}
