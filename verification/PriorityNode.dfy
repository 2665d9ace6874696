/** The linked nodes of the RFC 7540 scheduler
    (xnet/http2/writesched_priority_rfc7540.go:92-149). */
module PriorityNode {
  import opened Frames
  import opened DependencyTree

  datatype NodeState = Open | Closed | Idle

  class Node {
    const id: StreamID
    var weight: int
    var state: NodeState
    var q: seq<FrameWriteRequest>
    var bytes: int
    var subtreeBytes: int
    var parent: Node?
    var kids: Node?
    var prev: Node?
    var next: Node?
    ghost var children: seq<Node>   // the kids list in order

    constructor (id: StreamID, weight: int, state: NodeState)
      ensures this.id == id && this.weight == weight && this.state == state
      ensures q == [] && bytes == 0 && subtreeBytes == 0
      ensures parent == null && kids == null && prev == null && next == null && children == []
    {
      this.id, this.weight, this.state := id, weight, state;
      q, bytes, subtreeBytes := [], 0, 0;
      parent, kids, prev, next := null, null, null, null;
      children := [];
    }

    ghost function LinksOf(): Links
      reads this`parent, this`kids, this`prev, this`next, this`children
    {
      Links(parent, kids, prev, next, children)
    }

    /** setParent.  Its panic on n == parent is the first precondition. */
    method SetParent(p: Node?, ghost S: set<Node>)
      requires this != p
      requires Linked(GraphOf(S)) && this in S && (p != null ==> p in S)
      modifies this`parent, S`kids, S`prev, S`next, S`children
      ensures Linked(GraphOf(S))
      ensures GraphOf(S) == Reparented(old(GraphOf(S)), this, p)
    {
      if parent == p {
        return;
      }
      ghost var g := GraphOf(S);
      NeighboursInGraph(g, this);
      UnlinkedLinked(g, this);
      Unlink(S);
      if p != null {
        ghost var g' := GraphOf(S);
        assert ListOk(g', p);
        assert p.kids != null ==> ItemOk(g', p, 0);
        PrependedLinked(g', this, p);
        LinkFirst(p, S);
      }
    }

    /** Unlink from the current parent. */
    method Unlink(ghost S: set<Node>)
      requires this in S && PlaceOk(GraphOf(S), this) && NeighboursOk(GraphOf(S), this)
      modifies this`parent, S`kids, S`prev, S`next, S`children
      ensures GraphOf(S) == Unlinked(old(GraphOf(S)), this)
    {
      hide Without, ListOk;
      ghost var g := GraphOf(S);
      if parent != null {
        CloseGap(S);
        parent, next, prev := null, null, null;
        forall x | x in S ensures x.LinksOf() == UnlinkedAt(g, this, x) {
          assert g[x] == old(x.LinksOf());
        }
      }
    }

    method CloseGap(ghost S: set<Node>)
      requires this in S && parent != null && parent in S
      requires prev != null ==> prev in S && prev != parent && prev != next && prev != this
      requires next != null ==> next in S && next != parent && next != this
      modifies parent`kids, parent`children, S`prev, S`next
      ensures parent.kids == if old(prev) == null then old(next) else old(parent.kids)
      ensures parent.children == Without(old(parent.children), this)
      ensures forall x :: x in S ==> x.prev == if x == old(next) then old(prev) else old(x.prev)
      ensures forall x :: x in S ==> x.next == if x == old(prev) then old(next) else old(x.next)
    {
      parent.children := Without(parent.children, this);
      if prev == null {
        parent.kids := next;
      } else {
        prev.next := next;
      }
      if next != null {
        next.prev := prev;
      }
    }

    /** Link to the new parent, always at the head of its kids. */
    method LinkFirst(p: Node, ghost S: set<Node>)
      requires this in S && p in S && (p.kids != null ==> p.kids in S)
      modifies this`parent, S`kids, S`prev, S`next, S`children
      ensures GraphOf(S) == Prepended(old(GraphOf(S)), this, p)
    {
      parent := p;
      next := p.kids;
      prev := null;
      if next != null {
        next.prev := this;
      }
      p.kids := this;
      p.children := [this] + p.children;
    }
  }

  ghost function GraphOf(S: set<Node>): (g: Graph)
    reads S`parent, S`kids, S`prev, S`next, S`children
  {
    map n | n in S :: n.LinksOf()
  }

  ghost function ParentsOf(g: Graph): (pm: Parents<Node>) {
    map n | n in g :: Ref(g[n].parent)
  }

  ghost function Ref(n: Node?): Option<Node> { if n == null then None else Some(n) }

  // ---- sibling lists as values ----

  datatype Links = Links(parent: Node?, kids: Node?, prev: Node?, next: Node?, children: seq<Node>)

  type Graph = map<Node, Links>

  function At(s: seq<Node>, i: int): Node? { if 0 <= i < |s| then s[i] else null }

  ghost predicate Distinct(s: seq<Node>) { forall i, j :: 0 <= i < j < |s| ==> s[i] != s[j] }

  /** The children of x form a complete doubly linked list that starts at kids. */
  ghost predicate ListOk(g: Graph, x: Node)
    requires x in g
  {
    var l := g[x].children;
    && Distinct(l)
    && g[x].kids == At(l, 0)
    && forall i :: 0 <= i < |l| ==> ItemOk(g, x, i)
  }

  ghost predicate ItemOk(g: Graph, x: Node, i: int)
    requires x in g && 0 <= i < |g[x].children|
  {
    var l := g[x].children;
    && l[i] in g
    && g[l[i]].parent == x
    && g[l[i]].prev == At(l, i - 1)
    && g[l[i]].next == At(l, i + 1)
  }

  /** x is in its parent's list, or in none. */
  ghost predicate PlaceOk(g: Graph, x: Node)
    requires x in g
  {
    && g[x].parent != x
    && (g[x].parent == null ==> g[x].prev == null && g[x].next == null)
    && (g[x].parent != null ==> g[x].parent in g && x in g[g[x].parent].children)
  }

  ghost predicate Linked(g: Graph) {
    forall x :: x in g ==> ListOk(g, x) && PlaceOk(g, x)
  }

  ghost function Without(s: seq<Node>, x: Node): seq<Node> {
    if s == [] then [] else if s[0] == x then Without(s[1..], x) else [s[0]] + Without(s[1..], x)
  }

  /** The graph after n left its parent's list: n's neighbours are joined. */
  ghost function Unlinked(g: Graph, n: Node): (r: Graph)
    requires n in g && PlaceOk(g, n)
    ensures r.Keys == g.Keys
  {
    if g[n].parent == null then g else map x | x in g :: UnlinkedAt(g, n, x)
  }

  ghost function UnlinkedAt(g: Graph, n: Node, x: Node): Links
    requires n in g && x in g
  {
    Links(
      if x == n then null else g[x].parent,
      if g[n].parent == x && g[n].prev == null then g[n].next else g[x].kids,
      if x == n then null else if g[n].next == x then g[n].prev else g[x].prev,
      if x == n then null else if g[n].prev == x then g[n].next else g[x].next,
      if g[n].parent == x then Without(g[x].children, n) else g[x].children)
  }

  /** The graph after n was put in front of p's list. */
  ghost function Prepended(g: Graph, n: Node, p: Node): (r: Graph)
    requires n in g && p in g
    ensures r.Keys == g.Keys
  {
    map x | x in g :: PrependedAt(g, n, p, x)
  }

  ghost function PrependedAt(g: Graph, n: Node, p: Node, x: Node): Links
    requires n in g && p in g && x in g
  {
    Links(
      if x == n then p else g[x].parent,
      if x == p then n else g[x].kids,
      if g[p].kids == x then n else if x == n then null else g[x].prev,
      if x == n then g[p].kids else g[x].next,
      if x == p then [n] + g[x].children else g[x].children)
  }

  lemma {:induction false} WithoutAbsent(s: seq<Node>, x: Node)
    requires x !in s
    ensures Without(s, x) == s
  {
    if s != [] { WithoutAbsent(s[1..], x); }
  }

  lemma {:induction false} WithoutIndex(s: seq<Node>, x: Node, i: nat)
    requires i < |s| && s[i] == x && Distinct(s)
    ensures Without(s, x) == s[..i] + s[i + 1..]
  {
    if i == 0 {
      WithoutAbsent(s[1..], x);
      assert s[..i] + s[i + 1..] == s[1..];
    } else {
      WithoutIndex(s[1..], x, i - 1);
      assert s[..i] + s[i + 1..] == [s[0]] + (s[1..][..i - 1] + s[1..][i..]);
    }
  }

  lemma OrphanInNoList(g: Graph, n: Node, x: Node)
    requires x in g && n in g && ListOk(g, x) && g[n].parent != x
    ensures n !in g[x].children
  {
    forall k | 0 <= k < |g[x].children| ensures g[x].children[k] != n {
      assert ItemOk(g, x, k);
    }
  }

  /** A node, its parent and its two neighbours are four different nodes. */
  ghost predicate NeighboursOk(g: Graph, n: Node)
    requires n in g
  {
    var l := g[n];
    && (l.prev != null ==> l.prev in g && l.prev != n && l.prev != l.parent && l.prev != l.next)
    && (l.next != null ==> l.next in g && l.next != n && l.next != l.parent)
  }

  lemma NeighboursInGraph(g: Graph, n: Node)
    requires n in g && Linked(g)
    ensures NeighboursOk(g, n)
  {
    assert PlaceOk(g, n);
    if g[n].parent != null {
      var l := g[g[n].parent].children;
      assert ListOk(g, g[n].parent) && PlaceOk(g, g[n].parent);
      var i :| 0 <= i < |l| && l[i] == n;
      assert ItemOk(g, g[n].parent, i);
      if i > 0 { assert ItemOk(g, g[n].parent, i - 1); }
      if i + 1 < |l| { assert ItemOk(g, g[n].parent, i + 1); }
    }
  }

  lemma PrependedKeepsLists(g: Graph, n: Node, p: Node, x: Node)
    requires Linked(g) && n in g && p in g && n != p && g[n].parent == null && x in g
    ensures var r := Prepended(g, n, p); x in r && ListOk(r, x)
  {
    var r := Prepended(g, n, p);
    var l := g[x].children;
    assert ListOk(g, x) && ListOk(g, p);
    OrphanInNoList(g, n, x);
    if x == p {
      forall i | 0 <= i < |r[p].children| ensures ItemOk(r, p, i) {
        if i > 0 { assert ItemOk(g, p, i - 1); }
        if i > 1 { assert l[i - 1] != l[0]; }
      }
    } else {
      forall i | 0 <= i < |l| ensures ItemOk(r, x, i) {
        assert ItemOk(g, x, i);
        if g[p].children != [] { assert ItemOk(g, p, 0); }
      }
    }
  }

  lemma PrependedKeepsPlaces(g: Graph, n: Node, p: Node, x: Node)
    requires Linked(g) && n in g && p in g && n != p && g[n].parent == null && x in g
    ensures var r := Prepended(g, n, p); x in r && PlaceOk(r, x)
  {
    assert PlaceOk(g, x) && ListOk(g, p);
    if g[p].children != [] { assert ItemOk(g, p, 0); }
  }

  lemma PrependedLinked(g: Graph, n: Node, p: Node)
    requires Linked(g) && n in g && p in g && n != p && g[n].parent == null
    ensures Linked(Prepended(g, n, p))
  {
    var r := Prepended(g, n, p);
    assert ListOk(g, p);
    if g[p].children != [] { assert ItemOk(g, p, 0); }
    forall x | x in r ensures ListOk(r, x) && PlaceOk(r, x) {
      PrependedKeepsLists(g, n, p, x);
      PrependedKeepsPlaces(g, n, p, x);
    }
  }

  /** The graph after n, the i-th child of p, was unlinked. */
  lemma UnlinkedNodes(g: Graph, n: Node, p: Node, i: int, x: Node)
    requires n in g && p in g && PlaceOk(g, n) && ListOk(g, p) && g[n].parent == p
    requires 0 <= i < |g[p].children| && g[p].children[i] == n
    requires x in g
    ensures var l, r := g[p].children, Unlinked(g, n);
            && (x != n && x != p && x !in l ==> r[x] == g[x])
            && (x != n ==> r[x].parent == g[x].parent)
            && (x != p ==> r[x].kids == g[x].kids && r[x].children == g[x].children)
            && (x == p ==> r[x].children == l[..i] + l[i + 1..] && r[x].kids == if i == 0 then At(l, 1) else At(l, 0))
            && (x == n ==> r[x].parent == null && r[x].prev == null && r[x].next == null)
  {
    var l := g[p].children;
    assert ItemOk(g, p, i);
    WithoutIndex(l, n, i);
    if i > 0 { assert ItemOk(g, p, i - 1); }
    if i + 1 < |l| { assert ItemOk(g, p, i + 1); }
  }

  lemma UnlinkedSiblings(g: Graph, n: Node, p: Node, i: int, j: int)
    requires n in g && p in g && PlaceOk(g, n) && ListOk(g, p) && g[n].parent == p
    requires 0 <= i < |g[p].children| && g[p].children[i] == n && 0 <= j < |g[p].children| && i != j
    ensures var l, r := g[p].children, Unlinked(g, n);
            && l[j] in r
            && r[l[j]].prev == (if j == i + 1 then At(l, i - 1) else At(l, j - 1))
            && r[l[j]].next == (if j == i - 1 then At(l, i + 1) else At(l, j + 1))
  {
    var l := g[p].children;
    assert ItemOk(g, p, i) && ItemOk(g, p, j);
    if i > 0 { assert ItemOk(g, p, i - 1); assert j != i - 1 ==> l[j] != l[i - 1]; }
    if i + 1 < |l| { assert ItemOk(g, p, i + 1); assert j != i + 1 ==> l[j] != l[i + 1]; }
  }

  lemma UnlinkedShrinksList(g: Graph, n: Node, p: Node, i: int)
    requires n in g && p in g && PlaceOk(g, n) && ListOk(g, p) && g[n].parent == p
    requires 0 <= i < |g[p].children| && g[p].children[i] == n
    ensures ListOk(Unlinked(g, n), p)
  {
    var l, r := g[p].children, Unlinked(g, n);
    UnlinkedNodes(g, n, p, i, p);
    var l' := r[p].children;
    assert forall j :: 0 <= j < |l'| ==> l'[j] == l[if j < i then j else j + 1];
    forall j | 0 <= j < |l'| ensures ItemOk(r, p, j) {
      UnlinkedItem(g, n, p, i, j);
    }
  }

  lemma SkipAt(l: seq<Node>, i: int, j: int)
    requires 0 <= i < |l| && 0 <= j < |l| - 1
    ensures var l', k := l[..i] + l[i + 1..], if j < i then j else j + 1;
            && l'[j] == l[k]
            && At(l', j - 1) == (if k == i + 1 then At(l, i - 1) else At(l, k - 1))
            && At(l', j + 1) == (if k == i - 1 then At(l, i + 1) else At(l, k + 1))
  {
  }

  lemma UnlinkedItem(g: Graph, n: Node, p: Node, i: int, j: int)
    requires n in g && p in g && PlaceOk(g, n) && ListOk(g, p) && g[n].parent == p
    requires 0 <= i < |g[p].children| && g[p].children[i] == n && 0 <= j < |g[p].children| - 1
    ensures var r := Unlinked(g, n); |r[p].children| == |g[p].children| - 1 && ItemOk(r, p, j)
  {
    var l := g[p].children;
    var k := if j < i then j else j + 1;
    assert ItemOk(g, p, k);
    hide Unlinked, ListOk, At;
    UnlinkedNodes(g, n, p, i, p);
    SkipAt(l, i, j);
    UnlinkedNodes(g, n, p, i, l[k]);
    UnlinkedSiblings(g, n, p, i, k);
  }

  lemma UnlinkedKeepsList(g: Graph, n: Node, p: Node, i: int, x: Node)
    requires n in g && p in g && PlaceOk(g, n) && ListOk(g, p) && g[n].parent == p
    requires 0 <= i < |g[p].children| && g[p].children[i] == n
    requires x in g && x != p && ListOk(g, x)
    ensures ListOk(Unlinked(g, n), x)
  {
    var r := Unlinked(g, n);
    UnlinkedNodes(g, n, p, i, x);
    forall j | 0 <= j < |g[x].children| ensures ItemOk(r, x, j) {
      var c := g[x].children[j];
      assert ItemOk(g, x, j);
      OrphanInNoList(g, c, p);
      if c != p { UnlinkedNodes(g, n, p, i, c); } else { UnlinkedParentPlace(g, n, p, i); }
    }
  }

  /** p's own neighbours are not touched. */
  lemma UnlinkedParentPlace(g: Graph, n: Node, p: Node, i: int)
    requires n in g && p in g && PlaceOk(g, n) && ListOk(g, p) && g[n].parent == p && PlaceOk(g, p)
    requires 0 <= i < |g[p].children| && g[p].children[i] == n
    ensures var r := Unlinked(g, n); r[p].prev == g[p].prev && r[p].next == g[p].next && r[p].parent == g[p].parent
  {
    OrphanInNoList(g, p, p);
    assert ItemOk(g, p, i);
  }

  lemma UnlinkedKeepsPlace(g: Graph, n: Node, p: Node, i: int, x: Node)
    requires n in g && p in g && PlaceOk(g, n) && ListOk(g, p) && g[n].parent == p && PlaceOk(g, p)
    requires 0 <= i < |g[p].children| && g[p].children[i] == n
    requires x in g && PlaceOk(g, x)
    ensures PlaceOk(Unlinked(g, n), x)
  {
    hide Unlinked, ListOk;
    var l := g[p].children;
    UnlinkedNodes(g, n, p, i, x);
    if x == p {
      UnlinkedParentPlace(g, n, p, i);
    }
    if x != n && g[x].parent == p {
      UnlinkedNodes(g, n, p, i, p);
      var k :| 0 <= k < |l| && l[k] == x;
      assert (l[..i] + l[i + 1..])[if k < i then k else k - 1] == x;
    } else if x != n {
      OrphanInNoList(g, x, p);
      if g[x].parent != null { UnlinkedNodes(g, n, p, i, g[x].parent); }
    }
  }

  lemma UnlinkedLinked(g: Graph, n: Node)
    requires Linked(g) && n in g
    ensures Linked(Unlinked(g, n))
  {
    if g[n].parent != null {
      var r, p := Unlinked(g, n), g[n].parent;
      var i :| 0 <= i < |g[p].children| && g[p].children[i] == n;
      forall x | x in r ensures ListOk(r, x) && PlaceOk(r, x) {
        if x == p { UnlinkedShrinksList(g, n, p, i); } else { UnlinkedKeepsList(g, n, p, i, x); }
        UnlinkedKeepsPlace(g, n, p, i, x);
      }
    }
  }

  /** setParent as a whole; null takes n out of the tree. */
  ghost function Reparented(g: Graph, n: Node, p: Node?): (r: Graph)
    requires n in g && PlaceOk(g, n) && (p != null ==> p in g)
    ensures r.Keys == g.Keys
  {
    if g[n].parent == p then g
    else if p == null then Unlinked(g, n)
    else Prepended(Unlinked(g, n), n, p)
  }

  ghost function PutChild(g: Graph, n: Node, p: Node?, x: Node): seq<Node>
    requires n in g && x in g
  {
    if g[n].parent == p then g[x].children
    else if x == p then [n] + g[x].children
    else if x == g[n].parent then Without(g[x].children, n)
    else g[x].children
  }

  /** What setParent changes, seen from the tree: n's parent, one list that n
      leaves and one that it joins in front. */
  lemma ReparentedNode(g: Graph, n: Node, p: Node?, x: Node)
    requires n in g && PlaceOk(g, n) && n != p && (p != null ==> p in g) && x in g
    ensures var r := Reparented(g, n, p);
            && r[x].parent == (if x == n then p else g[x].parent)
            && r[x].children == PutChild(g, n, p, x)
  {
  }

  lemma ReparentedParents(g: Graph, n: Node, p: Node?)
    requires n in g && PlaceOk(g, n) && n != p && (p != null ==> p in g)
    ensures ParentsOf(Reparented(g, n, p)) == ParentsOf(g)[n := Ref(p)]
  {
    forall x | x in g ensures ParentsOf(Reparented(g, n, p))[x] == ParentsOf(g)[n := Ref(p)][x] {
      ReparentedNode(g, n, p, x);
    }
  }

  /** A node that has neither parent nor children may leave the graph ... */
  lemma IsolatedLeaves(g: Graph, n: Node)
    requires Linked(g) && n in g && g[n].parent == null && g[n].children == []
    ensures Linked(g - {n})
  {
    var r := g - {n};
    forall x | x in r ensures ListOk(r, x) && PlaceOk(r, x) {
      assert ListOk(g, x) && PlaceOk(g, x);
      forall i | 0 <= i < |g[x].children| ensures ItemOk(r, x, i) {
        assert ItemOk(g, x, i);
      }
    }
  }

  /** ... or enter it. */
  lemma IsolatedEnters(g: Graph, n: Node)
    requires Linked(g) && n !in g
    ensures Linked(g[n := Links(null, null, null, null, [])])
  {
    var r := g[n := Links(null, null, null, null, [])];
    forall x | x in r ensures ListOk(r, x) && PlaceOk(r, x) {
      if x != n {
        assert ListOk(g, x) && PlaceOk(g, x);
        forall i | 0 <= i < |g[x].children| ensures ItemOk(r, x, i) {
          assert ItemOk(g, x, i);
        }
      }
    }
  }

  /** The children listed by a node are the nodes that name it as parent. */
  lemma ChildIffParent(g: Graph, x: Node, c: Node)
    requires Linked(g) && x in g && c in g
    ensures c in g[x].children <==> g[c].parent == x
  {
    assert ListOk(g, x) && PlaceOk(g, c);
    if c in g[x].children {
      var i :| 0 <= i < |g[x].children| && g[x].children[i] == c;
      assert ItemOk(g, x, i);
    }
  }

  // ---- what a linked graph says about one node ----

  lemma SelfPlace(g: Graph, n: Node)
    requires Linked(g) && n in g
    ensures PlaceOk(g, n)
  {
  }

  lemma FirstKid(g: Graph, n: Node)
    requires Linked(g) && n in g
    ensures g[n].kids == At(g[n].children, 0)
  {
    assert ListOk(g, n);
  }

  lemma ListDistinct(g: Graph, n: Node)
    requires n in g && Linked(g)
    ensures Distinct(g[n].children)
  {
    assert ListOk(g, n);
  }

  lemma ItemFacts(g: Graph, n: Node, i: int)
    requires Linked(g) && n in g && 0 <= i < |g[n].children|
    ensures ItemOk(g, n, i)
  {
    assert ListOk(g, n);
  }

  lemma AtEnd(s: seq<Node>, i: int)
    requires 0 <= i <= |s| && At(s, i) == null
    ensures i == |s|
  {
  }
}
