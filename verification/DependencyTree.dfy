/** Dependency trees as plain values: a map from each node to its parent
    (sections 5.3.1 and 5.3.3 of RFC 7540).  The scheduler's linked nodes are
    proved against these maps in PriorityTree. */
module DependencyTree {
  import opened Frames

  type Parents<!T> = map<T, Option<T>>

  /** y is reached from x by following exactly k parent links. */
  ghost predicate Climbs<T>(pm: Parents<T>, x: T, y: T, k: nat) {
    if k == 0 then x == y
    else x in pm && pm[x].Some? && Climbs(pm, pm[x].value, y, k - 1)
  }

  /** x is y or depends on y, directly or not. */
  ghost predicate Below<T>(pm: Parents<T>, x: T, y: T) {
    exists k: nat :: Climbs(pm, x, y, k)
  }

  /** One tree: every node reaches the root, which is the only node without a
      parent.  In particular there is no cycle. */
  ghost predicate IsTree<T>(pm: Parents<T>, root: T) {
    && root in pm && pm[root].None?
    && (forall x :: x in pm && pm[x].Some? ==> pm[x].value in pm)
    && forall x :: x in pm ==> Below(pm, x, root)
  }

  lemma {:induction false} ClimbsConcat<T>(pm: Parents<T>, x: T, y: T, z: T, j: nat, k: nat)
    requires Climbs(pm, x, y, j) && Climbs(pm, y, z, k)
    ensures Climbs(pm, x, z, j + k)
  {
    if j != 0 { ClimbsConcat(pm, pm[x].value, y, z, j - 1, k); }
  }

  lemma {:induction false} ClimbsToRootUnique<T>(pm: Parents<T>, root: T, x: T, j: nat, k: nat)
    requires root in pm && pm[root].None?
    requires Climbs(pm, x, root, j) && Climbs(pm, x, root, k)
    ensures j == k
  {
    if j != 0 && k != 0 { ClimbsToRootUnique(pm, root, pm[x].value, j - 1, k - 1); }
  }

  ghost function Depth<T>(pm: Parents<T>, root: T, x: T): (d: nat)
    requires IsTree(pm, root) && x in pm
    ensures Climbs(pm, x, root, d)
  {
    assert Below(pm, x, root);
    var d: nat :| Climbs(pm, x, root, d);
    d
  }

  lemma DepthOf<T>(pm: Parents<T>, root: T, x: T, d: nat)
    requires IsTree(pm, root) && x in pm && Climbs(pm, x, root, d)
    ensures Depth(pm, root, x) == d
  {
    ClimbsToRootUnique(pm, root, x, d, Depth(pm, root, x));
  }

  lemma DepthOfParent<T>(pm: Parents<T>, root: T, x: T)
    requires IsTree(pm, root) && x in pm && x != root
    ensures pm[x].Some? && Depth(pm, root, x) == Depth(pm, root, pm[x].value) + 1
  {
    DepthOf(pm, root, pm[x].value, Depth(pm, root, x) - 1);
  }

  lemma {:induction false} ClimbsStays<T>(pm: Parents<T>, root: T, x: T, y: T, k: nat)
    requires IsTree(pm, root) && x in pm && Climbs(pm, x, y, k)
    ensures y in pm && Depth(pm, root, x) == Depth(pm, root, y) + k
  {
    if k != 0 {
      if x == root { assert false; }
      DepthOfParent(pm, root, x);
      ClimbsStays(pm, root, pm[x].value, y, k - 1);
    }
  }

  lemma BelowDepth<T>(pm: Parents<T>, root: T, x: T, y: T)
    requires IsTree(pm, root) && x in pm && Below(pm, x, y)
    ensures y in pm && Depth(pm, root, y) <= Depth(pm, root, x)
    ensures x != y ==> Depth(pm, root, y) < Depth(pm, root, x)
  {
    var k: nat :| Climbs(pm, x, y, k);
    ClimbsStays(pm, root, x, y, k);
  }

  lemma RootNotBelow<T>(pm: Parents<T>, root: T, n: T)
    requires root in pm && pm[root].None? && n != root
    ensures !Below(pm, root, n)
  {
    forall k: nat ensures !Climbs(pm, root, n, k) { }
  }

  lemma BelowSelf<T>(pm: Parents<T>, x: T)
    ensures Below(pm, x, x)
  {
    assert Climbs(pm, x, x, 0);
  }

  lemma BelowTransitive<T>(pm: Parents<T>, x: T, y: T, z: T)
    requires Below(pm, x, y) && Below(pm, y, z)
    ensures Below(pm, x, z)
  {
    var j: nat :| Climbs(pm, x, y, j);
    var k: nat :| Climbs(pm, y, z, k);
    ClimbsConcat(pm, x, y, z, j, k);
  }

  /** The ancestors of a node other than itself are those of its parent. */
  lemma BelowStep<T>(pm: Parents<T>, x: T, y: T)
    requires x in pm && pm[x].Some?
    ensures Below(pm, x, y) <==> x == y || Below(pm, pm[x].value, y)
  {
    if x != y && Below(pm, x, y) {
      var k: nat :| Climbs(pm, x, y, k);
      assert Climbs(pm, pm[x].value, y, k - 1);
    }
    if Below(pm, pm[x].value, y) {
      var k: nat :| Climbs(pm, pm[x].value, y, k);
      assert Climbs(pm, x, y, k + 1);
    }
    BelowSelf(pm, x);
  }

  // ---- adding a leaf ----

  lemma {:induction false} ClimbsExtended<T>(pm: Parents<T>, n: T, p: T, x: T, y: T, k: nat)
    requires n !in pm && Climbs(pm, x, y, k)
    ensures Climbs(pm[n := Some(p)], x, y, k)
  {
    if k != 0 { ClimbsExtended(pm, n, p, pm[x].value, y, k - 1); }
  }

  lemma LeafAdded<T>(pm: Parents<T>, root: T, n: T, p: T)
    requires IsTree(pm, root) && n !in pm && p in pm
    ensures IsTree(pm[n := Some(p)], root)
  {
    var pm' := pm[n := Some(p)];
    forall x | x in pm' ensures Below(pm', x, root) {
      var y := if x == n then p else x;
      ClimbsExtended(pm, n, p, y, root, Depth(pm, root, y));
      if x == n { assert Climbs(pm', n, root, Depth(pm, root, p) + 1); }
    }
  }

  // ---- removing a node, its children move to its parent ----

  ghost function Removed<T>(pm: Parents<T>, n: T): (r: Parents<T>)
    requires n in pm
  {
    map x | x in pm && x != n :: if pm[x] == Some(n) then pm[n] else pm[x]
  }

  lemma {:induction false} RemovedClimbs<T>(pm: Parents<T>, root: T, n: T, x: T) returns (k: nat)
    requires IsTree(pm, root) && n in pm && n != root && x in pm && x != n
    ensures Climbs(Removed(pm, n), x, root, k)
    decreases Depth(pm, root, x)
  {
    if x == root {
      k := 0;
    } else {
      DepthOfParent(pm, root, x);
      DepthOfParent(pm, root, n);
      var up := if pm[x] == Some(n) then pm[n].value else pm[x].value;
      var j := RemovedClimbs(pm, root, n, up);
      k := j + 1;
    }
  }

  lemma RemovedIsTree<T>(pm: Parents<T>, root: T, n: T)
    requires IsTree(pm, root) && n in pm && n != root
    ensures IsTree(Removed(pm, n), root)
  {
    var pm' := Removed(pm, n);
    DepthOfParent(pm, root, n);
    forall x | x in pm' ensures Below(pm', x, root) {
      var k := RemovedClimbs(pm, root, n, x);
    }
  }

  // ---- section 5.3.3: reprioritisation ----

  /** A dependency that itself depends on n is first moved to n's parent. */
  ghost function Lifted<T>(pm: Parents<T>, n: T, p: T): (r: Parents<T>)
    requires n in pm && p in pm
    ensures r.Keys == pm.Keys
  {
    if Below(pm, p, n) then pm[p := pm[n]] else pm
  }

  /** n takes p as its parent; if exclusive, the other children of p move
      under n. */
  ghost function Adopted<T>(pm: Parents<T>, n: T, p: T, exclusive: bool): (r: Parents<T>)
    ensures r.Keys == pm.Keys
  {
    map x | x in pm :: if x == n then Some(p) else if exclusive && pm[x] == Some(p) then Some(n) else pm[x]
  }

  ghost function Adjusted<T>(pm: Parents<T>, n: T, p: T, exclusive: bool): (r: Parents<T>)
    requires n in pm && p in pm
    ensures r.Keys == pm.Keys
  {
    Adopted(Lifted(pm, n, p), n, p, exclusive)
  }

  /** Moving a subtree under a node that is not part of it keeps every path to
      the root that does not pass through the moved node. */
  lemma {:induction false} MovedClimbs<T>(pm: Parents<T>, root: T, n: T, p: T, x: T) returns (k: nat)
    requires IsTree(pm, root) && n in pm && n != root && p in pm && x in pm
    requires !Below(pm, p, n)
    ensures Climbs(pm[n := Some(p)], x, root, k)
    decreases Below(pm, x, n), Depth(pm, root, x)
  {
    if x == root {
      k := 0;
    } else if x == n {
      BelowSelf(pm, n);
      var j := MovedClimbs(pm, root, n, p, p);
      k := j + 1;
    } else {
      DepthOfParent(pm, root, x);
      BelowStep(pm, x, n);
      var j := MovedClimbs(pm, root, n, p, pm[x].value);
      k := j + 1;
    }
  }

  lemma MovedIsTree<T>(pm: Parents<T>, root: T, n: T, p: T)
    requires IsTree(pm, root) && n in pm && n != root && p in pm && !Below(pm, p, n)
    ensures IsTree(pm[n := Some(p)], root)
  {
    var pm' := pm[n := Some(p)];
    forall x | x in pm' ensures Below(pm', x, root) {
      var k := MovedClimbs(pm, root, n, p, x);
    }
  }

  lemma LiftedIsTree<T>(pm: Parents<T>, root: T, n: T, p: T)
    requires IsTree(pm, root) && n in pm && n != root && p in pm && p != n
    ensures IsTree(Lifted(pm, n, p), root)
    ensures !Below(Lifted(pm, n, p), p, n)
  {
    DepthOfParent(pm, root, n);
    if Below(pm, p, n) {
      BelowDepth(pm, root, p, n);
      var g := pm[n].value;
      if Below(pm, g, p) { BelowDepth(pm, root, g, p); assert false; }
      MovedIsTree(pm, root, p, g);
      var pm' := Lifted(pm, n, p);
      if Below(pm', p, n) {
        BelowStep(pm', p, n);
        // n still hangs under g, so p would be deeper than itself
        BelowStep(pm', n, g);
        BelowSelf(pm', g);
        BelowDepth(pm', root, g, n);
        BelowDepth(pm', root, n, g);
        assert false;
      }
    }
  }

  /** The path from p to the root does not meet n or a child of p, so it is
      the same after the adoption. */
  lemma {:induction false} AdoptedAbove<T>(pm: Parents<T>, root: T, n: T, p: T, exclusive: bool, x: T)
    requires IsTree(pm, root) && n in pm && p in pm && x in pm
    requires !Below(pm, p, n) && Below(pm, p, x)
    ensures Climbs(Adopted(pm, n, p, exclusive), x, root, Depth(pm, root, x))
    decreases Depth(pm, root, x)
  {
    if x != root {
      DepthOfParent(pm, root, x);
      BelowDepth(pm, root, p, x);
      if pm[x] == Some(p) { assert false; }
      BelowStep(pm, x, pm[x].value);
      BelowSelf(pm, pm[x].value);
      BelowTransitive(pm, p, x, pm[x].value);
      AdoptedAbove(pm, root, n, p, exclusive, pm[x].value);
    } else {
      DepthOf(pm, root, root, 0);
    }
  }

  lemma {:induction false} AdoptedClimbs<T>(pm: Parents<T>, root: T, n: T, p: T, exclusive: bool, x: T)
    returns (k: nat)
    requires IsTree(pm, root) && n in pm && n != root && p in pm && x in pm && !Below(pm, p, n)
    ensures Climbs(Adopted(pm, n, p, exclusive), x, root, k)
    decreases Depth(pm, root, x)
  {
    if x == root {
      k := 0;
    } else {
      BelowSelf(pm, p);
      AdoptedAbove(pm, root, n, p, exclusive, p);
      var viaN := Depth(pm, root, p) + 1;
      assert Climbs(Adopted(pm, n, p, exclusive), n, root, viaN);
      if x == n {
        k := viaN;
      } else if exclusive && pm[x] == Some(p) {
        k := viaN + 1;
      } else {
        DepthOfParent(pm, root, x);
        var j := AdoptedClimbs(pm, root, n, p, exclusive, pm[x].value);
        k := j + 1;
      }
    }
  }

  lemma AdoptedIsTree<T>(pm: Parents<T>, root: T, n: T, p: T, exclusive: bool)
    requires IsTree(pm, root) && n in pm && n != root && p in pm && p != n && !Below(pm, p, n)
    ensures IsTree(Adopted(pm, n, p, exclusive), root)
  {
    var pm' := Adopted(pm, n, p, exclusive);
    if exclusive && pm[root] == Some(p) { assert false; }
    forall x | x in pm' ensures Below(pm', x, root) {
      var k := AdoptedClimbs(pm, root, n, p, exclusive, x);
    }
  }

  /** Section 5.3.3 of RFC 7540, clause by clause, for a reprioritisation of n
      to depend on p: the result is a tree again, n depends on p, an exclusive
      n is p's only dependent and has taken over the others, a p that depended
      on n now depends on n's former parent, and nobody else moves. */
  lemma AdjustedMeetsSection533<T>(pm: Parents<T>, root: T, n: T, p: T, exclusive: bool)
    requires IsTree(pm, root) && n in pm && n != root && p in pm && p != n
    ensures var r := Adjusted(pm, n, p, exclusive);
            && IsTree(r, root)
            && r[n] == Some(p)
            && (Below(pm, p, n) ==> r[p] == pm[n])
            && (!Below(pm, p, n) ==> r[p] == pm[p])
            && (exclusive ==> forall x :: x in pm ==> (r[x] == Some(p) <==> x == n))
            && (forall x :: x in pm && x != n && x != p ==>
                  r[x] == if exclusive && pm[x] == Some(p) then Some(n) else pm[x])
  {
    LiftedIsTree(pm, root, n, p);
    AdoptedIsTree(Lifted(pm, n, p), root, n, p, exclusive);
    DepthOfParent(pm, root, n);
    var l := Lifted(pm, n, p);
    if l[p] == Some(p) {
      if p == root { assert false; }
      DepthOfParent(l, root, p);
      assert false;
    }
  }
}
