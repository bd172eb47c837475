// The promises of the buddy allocator: an exact partition, exact search, maximal merging,
// an allocation undone by its release, and what the text of `pop_block` costs.
module BuddyTheorems {
  import opened Powers
  import opened Readings
  import opened Seqs
  import opened BuddyTree
  import opened BuddyLaws

  // ---------------------------------------------------------------- the partition

  /** The blocks that make up the pool: those on the lists and those handed out. */
  predicate Owned(p: Pool, n: Node) {
    Free(p, n) || Live(p, n)
  }

  function Leaf(p: Pool, u: nat): Node { Node(p.depth, u) }

  /** Below the root, a block is free exactly when its bit is clear and its buddy's is set. */
  lemma FreeIff(p: Pool, n: Node)
    requires Inv(p) && n.l > 0
    ensures Free(p, n) <==> InTree(p.depth, n) && n !in p.bits && Buddy(n) in p.bits
  {
    if n.l <= p.depth {
      assert ListMatches(p, n.l);
      assert WaitingAt(p, n.l, n.x) <==> Waiting(p, n);
    }
  }

  lemma OwnedInTree(p: Pool, n: Node)
    requires Inv(p) && Owned(p, n)
    ensures InTree(p.depth, n)
  {
    if n.l > 0 {
      FreeIff(p, n);
    }
  }

  /** Two ancestors of one node lie on one path. */
  lemma {:induction false} OnePath(u: Node, a: Node, b: Node)
    requires Inside(u, a) && Inside(u, b) && a.l <= b.l
    ensures Inside(b, a)
    decreases u.l
  {
    InsideLevels(u, a);
    InsideLevels(u, b);
    if u == b {
    } else {
      OnePath(Parent(u), a, b);
    }
  }

  /** Above a set node every node is split, so none of them is a block. */
  lemma SplitNotOwned(p: Pool, m: Node)
    requires Inv(p) && m in p.bits && m.l > 0
    ensures Parent(m) in p.bits && !Owned(p, Parent(m))
  {
    Family(m);
    var a := Parent(m);
    if a.l > 0 {
      FreeIff(p, a);
    } else {
      assert InTree(p.depth, m);
    }
  }

  lemma {:induction false} AboveSet(p: Pool, m: Node, a: Node)
    requires Inv(p) && m in p.bits && Inside(m, a) && m != a
    ensures !Owned(p, a)
    decreases m.l
  {
    SplitNotOwned(p, m);
    if Parent(m) == a {
    } else {
      AboveSet(p, Parent(m), a);
    }
  }

  lemma AboveOwned(p: Pool, b: Node, a: Node)
    requires Inv(p) && Owned(p, b) && Inside(b, a) && a != b
    ensures !Owned(p, a)
  {
    if b in p.bits {
      AboveSet(p, b, a);
    } else {
      FreeIff(p, b);
      Family(b);
      SplitNotOwned(p, Buddy(b));
      if Parent(b) != a {
        AboveSet(p, Parent(b), a);
      }
    }
  }

  /** The node on the path from `u` up to `a`, just below `a`. */
  function StepTowards(u: Node, a: Node): (c: Node)
    requires Inside(u, a) && u != a
    ensures c.l == a.l + 1 && Parent(c) == a && Inside(u, c)
    decreases u.l
  {
    InsideLevels(u, a);
    if Parent(u) == a then u else StepTowards(Parent(u), a)
  }

  lemma {:induction false} RootHoldsAll(p: Pool, u: Node)
    requires InTree(p.depth, u)
    ensures Inside(u, ROOT)
    decreases u.l
  {
    if u.l == 0 {
    } else {
      BuddyInTree(p.depth, u);
      RootHoldsAll(p, Parent(u));
    }
  }

  lemma {:induction false} FirstSetFacts(p: Pool, u: Node)
    requires InTree(p.depth, u)
    ensures var s := FirstSet(p.bits, u);
      && Inside(u, s) && InTree(p.depth, s) && (s.l == 0 ==> s == ROOT) && (s.l > 0 ==> s in p.bits)
      && forall c :: Inside(u, c) && c.l > s.l ==> c !in p.bits
    decreases u.l
  {
    var s := FirstSet(p.bits, u);
    if u in p.bits || u.l == 0 {
      forall c | Inside(u, c)
        ensures c.l <= u.l
      {
        InsideLevels(u, c);
      }
    } else {
      BuddyInTree(p.depth, u);
      FirstSetFacts(p, Parent(u));
    }
  }

  /** Below a split node the path enters either a set node or a free block. */
  lemma BelowSplit(p: Pool, s: Node, b: Node)
    requires Inv(p) && s in p.bits && !Owned(p, s)
    requires b.l == s.l + 1 && Parent(b) == s && InTree(p.depth, b) && b !in p.bits
    ensures Free(p, b)
  {
    Family(b);
    FreeIff(p, b);
    assert s.l == 0 ==> s == ROOT by {
      assert InTree(p.depth, s);
    }
  }

  /** The block that holds a unit is where the search from its leaf stops, or one step below. */
  lemma Owner(p: Pool, u: nat) returns (b: Node)
    requires Inv(p) && u < Pow2(p.depth)
    ensures Owned(p, b) && Inside(Leaf(p, u), b)
  {
    var leaf := Leaf(p, u);
    var s := FirstSet(p.bits, leaf);
    FirstSetFacts(p, leaf);
    if Owned(p, s) {
      return s;
    }
    if s == leaf {
      Childless(p, leaf);
    }
    assert s in p.bits && s != leaf;
    b := StepTowards(leaf, s);
    InsideInTree(p, leaf, b);
    BelowSplit(p, s, b);
  }

  lemma Childless(p: Pool, leaf: Node)
    requires Inv(p) && leaf.l == p.depth && !Owned(p, leaf)
    ensures leaf !in p.bits
  {
    assert !InTree(p.depth, Left(leaf)) && !InTree(p.depth, Right(leaf));
  }

  lemma {:induction false} InsideInTree(p: Pool, u: Node, b: Node)
    requires InTree(p.depth, u) && Inside(u, b)
    ensures InTree(p.depth, b)
    decreases u.l
  {
    if u == b {
    } else {
      BuddyInTree(p.depth, u);
      InsideInTree(p, Parent(u), b);
    }
  }

  predicate Holds(p: Pool, b: Node, u: nat) {
    Owned(p, b) && Inside(Leaf(p, u), b)
  }

  /** Every smallest unit of the pool lies in exactly one block, free or handed out. */
  lemma ExactPartition(p: Pool, u: nat)
    requires Inv(p) && u < Pow2(p.depth)
    ensures exists b :: Holds(p, b, u) && forall c :: Holds(p, c, u) ==> c == b
  {
    var b := Owner(p, u);
    assert Holds(p, b, u);
    forall c | Holds(p, c, u)
      ensures c == b
    {
      if c != b {
        if c.l <= b.l {
          OnePath(Leaf(p, u), c, b);
          AboveOwned(p, b, c);
        } else {
          OnePath(Leaf(p, u), b, c);
          AboveOwned(p, c, b);
        }
      }
    }
  }

  // ---------------------------------------------------------------- the search in the release

  lemma {:induction false} SearchFrom(p: Pool, n: Node, u: Node)
    requires Inv(p) && Live(p, n) && Inside(u, n)
    ensures FirstSet(p.bits, u) == n
    decreases u.l
  {
    InsideLevels(u, n);
    if u == n {
    } else {
      NotInside(p, n, u);
      SearchFrom(p, n, Parent(u));
    }
  }

  /** The leaf at the start of a block. */
  function FirstLeaf(depth: nat, n: Node): Node
    requires n.l <= depth
    decreases depth - n.l
  {
    if n.l == depth then n else FirstLeaf(depth, Left(n))
  }

  lemma {:induction false} FirstLeafInside(depth: nat, n: Node)
    requires n.l <= depth
    ensures FirstLeaf(depth, n).l == depth && Inside(FirstLeaf(depth, n), n)
    decreases depth - n.l
  {
    if n.l == depth {
    } else {
      FirstLeafInside(depth, Left(n));
      Family(n);
      InsideTransitive(FirstLeaf(depth, n), Left(n), n);
    }
  }

  /** From the bits alone, the upward search that starts at a block's first leaf stops at exactly
      the node that was allocated. */
  lemma SearchFindsBlock(p: Pool, n: Node)
    requires Inv(p) && Live(p, n)
    ensures n.l <= p.depth && FirstSet(p.bits, FirstLeaf(p.depth, n)) == n
  {
    OwnedInTree(p, n);
    FirstLeafInside(p.depth, n);
    SearchFrom(p, n, FirstLeaf(p.depth, n));
  }

  // ---------------------------------------------------------------- maximal merging

  lemma NoFreeBuddies(p: Pool, n: Node)
    requires Inv(p) && Free(p, n) && n.l > 0
    ensures !Free(p, Buddy(n))
  {
    FreeIff(p, n);
    FreeIff(p, Buddy(n));
  }

  /** A set node other than a free root holds a live block. */
  lemma {:induction false} LiveWithin(p: Pool, n: Node) returns (m: Node)
    requires Inv(p) && n in p.bits && (n.l == 0 ==> p.free[0] == [])
    ensures Live(p, m) && Inside(m, n)
    decreases p.depth - n.l
  {
    assert InTree(p.depth, n);
    if Live(p, n) {
      m := n;
    } else {
      var c := if Left(n) in p.bits then Left(n) else Right(n);
      assert InTree(p.depth, c);
      m := LiveWithin(p, c);
      Family(n);
      InsideTransitive(m, c, n);
    }
  }

  /** Every split node holds a live block: merging is maximal in every consistent pool. */
  lemma SplitHoldsLive(p: Pool, n: Node)
    requires Inv(p) && SplitNode(p, n)
    ensures exists m :: Live(p, m) && Inside(m, n)
  {
    assert InTree(p.depth, n);
    var m := LiveWithin(p, n);
  }

  /** A pool without live blocks is one level-0 block: the lists are those of a new pool. */
  lemma NothingLive(p: Pool)
    requires Inv(p) && forall m :: !Live(p, m)
    ensures p.free == Create(p.depth).free && OnlyRoot(p)
  {
    forall n | n in p.bits
      ensures n == ROOT
    {
      assert InTree(p.depth, n);
      if n.l > 0 || p.free[0] == [] {
        var m := LiveWithin(p, n);
      }
    }
    if p.free[0] == [] {
      var m := LiveWithin(p, ROOT);
    }
    forall l | 1 <= l <= p.depth
      ensures p.free[l] == []
    {
      if p.free[l] != [] {
        var n := Node(l, p.free[l][0]);
        assert Free(p, n);
        FreeIff(p, n);
      }
    }
  }

  ghost function ReleaseAll(p: Pool, order: seq<Node>): Pool
    requires forall n :: n in order ==> n.l < |p.free|
    decreases |order|
  {
    if order == [] then p
    else
      var q := Release(Repaired, p, order[0]);
      assert |q.free| == |p.free|;
      ReleaseAll(q, order[1..])
  }

  /** Releasing all live blocks, in whatever order, ends in the one free block of a new pool. */
  lemma {:induction false} AnyOrderEmpties(p: Pool, order: seq<Node>)
    requires Inv(p) && NoDup(order) && forall n :: n in order <==> Live(p, n)
    ensures forall n :: n in order ==> n.l < |p.free|
    ensures ReleaseAll(p, order).free == Create(p.depth).free
    decreases |order|
  {
    forall n | n in order
      ensures n.l < |p.free|
    {
      OwnedInTree(p, n);
    }
    if order == [] {
      NothingLive(p);
    } else {
      ReleaseKeeps(p, order[0]);
      TailFacts(order);
      AnyOrderEmpties(Release(Repaired, p, order[0]), order[1..]);
    }
  }

  // ---------------------------------------------------------------- which block is allocated

  /** Allocation fails exactly when every free block is too small. */
  lemma AllocFailsIff(p: Pool, l: nat)
    requires Inv(p) && l <= p.depth
    ensures Alloc(p, l) == NoMemory <==> forall n :: Free(p, n) ==> l < n.l
  {
    var c := FindLevel(p.free, l);
    if c >= 0 {
      assert Free(p, Node(c, p.free[c][0]));
    }
  }

  /** A free block large enough for level `l`, and none of the free blocks that are is smaller. */
  ghost predicate SmallestFit(p: Pool, l: nat, f: Node) {
    && Free(p, f) && f.l <= l
    && forall n :: Free(p, n) && n.l <= l ==> n.l <= f.l
  }

  /** The block handed out is cut from a smallest free block that is large enough. */
  lemma AllocFromSmallest(p: Pool, l: nat)
    requires Inv(p) && l <= p.depth && Alloc(p, l).Block?
    ensures exists f :: SmallestFit(p, l, f) && Inside(Alloc(p, l).node, f)
  {
    var c := FindLevel(p.free, l);
    var (q, f) := Take(p, c);
    CarvedIsLeftmost(q, f, l);
    assert SmallestFit(p, l, f);
  }

  // ---------------------------------------------------------------- allocation, then release

  /** Releasing the half that a block was cut to gives the block back. */
  lemma HalfAbsorbed(p: Pool, n: Node)
    requires n.l + 1 < |p.free| && p.free[n.l + 1] == [] && Left(n) !in p.bits
    ensures Absorb(AsWritten, Halve(p, n), Left(n)) == p
  {
    var h, x := Halve(p, n), Right(n).x;
    assert Buddy(Left(n)) == Right(n);
    assert h.bits - {Left(n)} == p.bits;
    assert PopBlock(AsWritten, [x], x) == [];
    assert h.free[n.l + 1 := []] == p.free;
  }

  lemma {:induction false} CarveThenMerge(p: Pool, n: Node, l: nat)
    requires Inv(p) && Live(p, n) && n.l <= l <= p.depth
    requires forall j :: n.l < j <= l ==> p.free[j] == []
    ensures var (q, m) := Carve(p, n, l);
      |q.free| == |p.free| && m.l == l && Merge(AsWritten, q, m) == Merge(AsWritten, p, n)
    decreases l - n.l
  {
    if n.l == l {
    } else {
      var h := Halve(p, n);
      Family(n);
      HalfAbsorbed(p, n);
      HalveKeeps(p, n);
      CarveThenMerge(h, Left(n), l);
    }
  }

  /** A release clears the bit of the root only if the root itself is released: a merge that reaches it
      leaves it set. */
  lemma RootBitStays(how: Reading, p: Pool, n: Node)
    requires Inv(p) && Live(p, n)
    ensures n.l < |p.free| && (ROOT in Release(how, p, n).bits <==> n.l > 0)
  {
    OwnedInTree(p, n);
    if n.l > 0 {
      RootAbove(p, n);
      MergeKeepsRoot(how, p, n);
    }
  }

  lemma {:induction false} RootAbove(p: Pool, n: Node)
    requires BitsClosed(p) && n in p.bits
    ensures ROOT in p.bits
    decreases n.l
  {
    if n.l == 0 {
    } else {
      RootAbove(p, Parent(n));
    }
  }

  lemma {:induction false} MergeKeepsRoot(how: Reading, p: Pool, n: Node)
    requires n.l < |p.free|
    ensures ROOT in Merge(how, p, n).bits <==> ROOT in p.bits
    decreases n.l
  {
    if n.l == 0 || Buddy(n) in p.bits - {n} {
    } else {
      MergeKeepsRoot(how, Absorb(how, p, n), Parent(n));
    }
  }

  /** An allocation followed by the release of its result restores every list, order included,
      and every bit below the root; this holds of the code as written. */
  lemma AllocThenRelease(p: Pool, l: nat)
    requires Inv(p) && l <= p.depth && Alloc(p, l).Block?
    ensures var Block(q, n) := Alloc(p, l);
      && n.l < |q.free|
      && var r := Release(AsWritten, q, n);
      r.free == p.free && r.bits - {ROOT} == p.bits - {ROOT}
  {
    var c := FindLevel(p.free, l);
    var (t, n) := Take(p, c);
    TakeKeeps(p, c);
    CarveThenMerge(t, n, l);
    TakeBits(p, c);
    assert p.free[c] == [n.x] + t.free[c];
    if c == 0 {
      assert n == ROOT;
      assert Merge(AsWritten, t, n).free == p.free;
      if l == 0 {
        assert Release(AsWritten, t, n).free == p.free;
      }
    } else {
      assert Merge(AsWritten, t, n).bits == p.bits;
      assert ListMatches(p, c);
      TailFacts(p.free[c]);
      assert Merge(AsWritten, t, n).free == p.free;
    }
  }

  // ---------------------------------------------------------------- the last entry of a list

  /** `pop_block` reaches the entry: it is absent, first, or not last. */
  predicate PopReaches(s: seq<nat>, b: nat) {
    b in s ==> IndexOf(s, b) == 0 || IndexOf(s, b) < |s| - 1
  }

  /** No merging step of the release meets a buddy that is last, but not first, on its list. */
  predicate SafeToRelease(p: Pool, n: Node)
    requires n.l < |p.free|
    decreases n.l
  {
    || n.l == 0
    || Buddy(n) in p.bits - {n}
    || (PopReaches(p.free[n.l], Buddy(n).x) && SafeToRelease(Absorb(Repaired, p, n), Parent(n)))
  }

  lemma {:induction false} MergeLeavesRest(how: Reading, p: Pool, n: Node)
    requires n.l < |p.free|
    ensures var q := Merge(how, p, n);
      && q.bits <= p.bits && |q.free| == |p.free| && q.depth == p.depth
      && forall l :: n.l < l < |p.free| ==> q.free[l] == p.free[l]
    decreases n.l
  {
    if n.l == 0 || Buddy(n) in p.bits - {n} {
    } else {
      MergeLeavesRest(how, Absorb(how, p, n), Parent(n));
    }
  }

  lemma {:induction false} MergeAsWritten(p: Pool, n: Node)
    requires Inv(p) && Live(p, n)
    ensures n.l < |p.free|
    ensures SafeToRelease(p, n) ==> Merge(AsWritten, p, n) == Merge(Repaired, p, n)
    ensures !SafeToRelease(p, n) ==> !Inv(Merge(AsWritten, p, n))
    decreases n.l
  {
    OwnedInTree(p, n);
    if n.l == 0 || Buddy(n) in p.bits - {n} {
    } else {
      Family(n);
      BuddyIsFree(p, n);
      if PopReaches(p.free[n.l], Buddy(n).x) {
        assert Absorb(AsWritten, p, n) == Absorb(Repaired, p, n);
        AbsorbKeeps(p, n);
        MergeAsWritten(Absorb(Repaired, p, n), Parent(n));
      } else {
        var a := Absorb(AsWritten, p, n);
        var q := Merge(AsWritten, a, Parent(n));
        MergeLeavesRest(AsWritten, a, Parent(n));
        assert q.free[n.l] == p.free[n.l];
        if Inv(q) {
          FreeIff(q, Buddy(n));
        }
      }
    }
  }

  /** The release as written is the intended one, and keeps the pool consistent, exactly when no
      merging step meets a buddy that is last but not first on its list. */
  lemma ReleaseAsWritten(p: Pool, n: Node)
    requires Inv(p) && Live(p, n)
    ensures n.l < |p.free|
    ensures SafeToRelease(p, n) <==> Inv(Release(AsWritten, p, n))
    ensures SafeToRelease(p, n) <==> Release(AsWritten, p, n) == Release(Repaired, p, n)
  {
    OwnedInTree(p, n);
    ReleaseKeeps(p, n);
    if n.l > 0 {
      MergeAsWritten(p, n);
    }
  }

  /** Four smallest blocks handed out, the second and the fourth returned. */
  const LAST_ENTRY: Pool := Pool(2, {ROOT, Node(1, 0), Node(1, 1), Node(2, 0), Node(2, 2)}, [[], [], [3, 1]])

  lemma LastEntryInv()
    ensures Inv(LAST_ENTRY) && Live(LAST_ENTRY, Node(2, 0))
  {
    var p := LAST_ENTRY;
    assert Pow2(1) == 2 && Pow2(2) == 4;
    forall l | 1 <= l <= 2
      ensures ListMatches(p, l)
    {
      assert p.free[2] == [3, 1];
      forall x: nat
        ensures x in p.free[l] <==> WaitingAt(p, l, x)
      {
      }
    }
    assert BitsClosed(p);
  }

  /** Returning the first then leaves the second on its list, although it lies inside the merged
      block, which is on a list as well. */
  lemma LastEntryStays()
    ensures var q := Release(AsWritten, LAST_ENTRY, Node(2, 0));
      && Inv(LAST_ENTRY) && Live(LAST_ENTRY, Node(2, 0)) && !SafeToRelease(LAST_ENTRY, Node(2, 0))
      && Free(q, Node(1, 0)) && Free(q, Node(2, 1)) && Inside(Node(2, 1), Node(1, 0))
  {
    var p := LAST_ENTRY;
    LastEntryInv();
    assert IndexOf([3, 1], 1) == 1;
    assert PopBlock(AsWritten, p.free[2], 1) == [3, 1];
    var a := Absorb(AsWritten, p, Node(2, 0));
    assert Buddy(Node(1, 0)) == Node(1, 1);
    var q := Merge(AsWritten, a, Node(1, 0));
    assert q.free[1] == [0] && q.free[2] == [3, 1];
    assert 1 in q.free[2];
  }
}
