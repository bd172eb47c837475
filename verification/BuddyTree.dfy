// The buddy allocator as a tree of blocks.
//
// A block is named by its level and by its rank within the level.  The state is what the kernel
// keeps for one pool: one bit per node of the tree and one list of free blocks per level.

module Seqs {

  ghost predicate NoDup<T>(s: seq<T>) {
    forall i, j :: 0 <= i < j < |s| ==> s[i] != s[j]
  }

  /** The first position of `e` in `s`. */
  function IndexOf<T(==)>(s: seq<T>, e: T): (i: nat)
    requires e in s
    ensures i < |s| && s[i] == e && e !in s[..i]
  {
    if s[0] == e then 0 else 1 + IndexOf(s[1..], e)
  }

  function RemoveAt<T>(s: seq<T>, i: nat): (r: seq<T>)
    requires i < |s|
  {
    s[..i] + s[i + 1..]
  }

  function InsertAt<T>(s: seq<T>, i: nat, e: T): (r: seq<T>)
    requires i <= |s|
  {
    s[..i] + [e] + s[i..]
  }

  function Remove<T(==)>(s: seq<T>, e: T): (r: seq<T>) {
    if e in s then RemoveAt(s, IndexOf(s, e)) else s
  }

  lemma RemoveFacts<T>(s: seq<T>, e: T)
    requires NoDup(s)
    ensures NoDup(Remove(s, e))
    ensures forall y :: y in Remove(s, e) <==> y in s && y != e
  {
    if e in s {
      var i := IndexOf(s, e);
      var r := RemoveAt(s, i);
      forall y | y in s && y != e
        ensures y in r
      {
        var k :| 0 <= k < |s| && s[k] == y;
        assert r[if k < i then k else k - 1] == y;
      }
    }
  }

  lemma TailFacts<T>(s: seq<T>)
    requires NoDup(s) && s != []
    ensures NoDup(s[1..])
    ensures forall y :: y in s[1..] <==> y in s && y != s[0]
  {
    forall y | y in s && y != s[0]
      ensures y in s[1..]
    {
      var k :| 0 <= k < |s| && s[k] == y;
      assert s[1..][k - 1] == y;
    }
  }

  lemma InsertFacts<T>(s: seq<T>, i: nat, e: T)
    requires NoDup(s) && e !in s && i <= |s|
    ensures NoDup(InsertAt(s, i, e))
    ensures forall y :: y in InsertAt(s, i, e) <==> y in s || y == e
  {
    var r := InsertAt(s, i, e);
    assert r[i] == e;
    forall y | y in s
      ensures y in r
    {
      var k :| 0 <= k < |s| && s[k] == y;
      assert r[if k < i then k else k + 1] == y;
    }
  }
}

/** Two readings of the places where the kernel's text and its evident purpose differ. */
module Readings {
  datatype Reading = AsWritten | Repaired
}

module BuddyTree {
  import opened Powers
  import opened Readings
  import opened Seqs

  datatype Node = Node(l: nat, x: nat)

  /** `depth` is the level of the smallest blocks: 7 for IRAM1 and 10 for IRAM2. */
  datatype Pool = Pool(depth: nat, bits: set<Node>, free: seq<seq<nat>>)

  const ROOT := Node(0, 0)

  predicate InTree(depth: nat, n: Node) {
    n.l <= depth && n.x < Pow2(n.l)
  }

  function Parent(n: Node): Node
    requires n.l > 0
  {
    Node(n.l - 1, n.x / 2)
  }

  /** The sibling: the source flips the lowest bit of the rank. */
  function Buddy(n: Node): Node {
    Node(n.l, if n.x % 2 == 0 then n.x + 1 else n.x - 1)
  }

  function Left(n: Node): Node { Node(n.l + 1, 2 * n.x) }

  function Right(n: Node): Node { Node(n.l + 1, 2 * n.x + 1) }

  // ---------------------------------------------------------------- the invariant

  /** A set bit means "split or allocated", so the bits are closed under going up. */
  ghost predicate BitsClosed(p: Pool) {
    && (forall n :: n in p.bits ==> InTree(p.depth, n))
    && (forall n {:trigger Parent(n)} :: n in p.bits && n.l > 0 ==> Parent(n) in p.bits)
  }

  /** A clear node whose buddy is not clear: the only kind of block that waits on a list. */
  ghost predicate Waiting(p: Pool, n: Node) {
    InTree(p.depth, n) && n !in p.bits && Buddy(n) in p.bits
  }

  ghost predicate WaitingAt(p: Pool, l: nat, x: nat) {
    Waiting(p, Node(l, x))
  }

  ghost predicate ListMatches(p: Pool, l: nat)
    requires l < |p.free|
  {
    NoDup(p.free[l]) && forall x: nat :: x in p.free[l] <==> WaitingAt(p, l, x)
  }

  /** The root has no buddy.  A merge that reaches it leaves its bit set, so its bit says nothing
      while the whole pool is on the level-0 list. */
  ghost predicate RootMatches(p: Pool)
    requires 0 < |p.free|
  {
    || (p.free[0] == [0] && Left(ROOT) !in p.bits && Right(ROOT) !in p.bits)
    || (p.free[0] == [] && ROOT in p.bits)
  }

  ghost predicate Inv(p: Pool) {
    && |p.free| == p.depth + 1
    && BitsClosed(p)
    && (forall l :: 1 <= l <= p.depth ==> ListMatches(p, l))
    && RootMatches(p)
  }

  predicate Free(p: Pool, n: Node) {
    n.l < |p.free| && n.x in p.free[n.l]
  }

  /** A block handed out and not yet returned. */
  predicate Live(p: Pool, n: Node) {
    n in p.bits && Left(n) !in p.bits && Right(n) !in p.bits && (n.l == 0 ==> !Free(p, ROOT))
  }

  predicate SplitNode(p: Pool, n: Node) {
    n in p.bits && (Left(n) in p.bits || Right(n) in p.bits)
  }

  // ---------------------------------------------------------------- operations

  function Create(depth: nat): Pool {
    Pool(depth, {}, [[0]] + seq(depth, _ => []))
  }

  /** The first non-empty list at level `l` or above it, found by walking up; -1 if there is none. */
  function FindLevel<T>(free: seq<seq<T>>, l: nat): (c: int)
    requires l < |free|
    ensures -1 <= c <= l
    ensures c >= 0 ==> free[c] != []
    ensures forall j :: c < j <= l ==> free[j] == []
  {
    if free[l] != [] then l else if l == 0 then -1 else FindLevel(free, l - 1)
  }

  /** Hand out the head of list `c`. */
  function Take(p: Pool, c: nat): (Pool, Node)
    requires c < |p.free| && p.free[c] != []
  {
    var n := Node(c, p.free[c][0]);
    (p.(bits := p.bits + {n}, free := p.free[c := p.free[c][1..]]), n)
  }

  /** Keep only the left half of a block that is handed out; its right half becomes free. */
  function Halve(p: Pool, n: Node): Pool
    requires n.l + 1 < |p.free|
  {
    p.(bits := p.bits + {Left(n)}, free := p.free[n.l + 1 := [Right(n).x]])
  }

  function Carve(p: Pool, n: Node, l: nat): (Pool, Node)
    requires n.l <= l < |p.free|
    decreases l - n.l
  {
    if n.l == l then (p, n) else Carve(Halve(p, n), Left(n), l)
  }

  datatype Allocation = NoMemory | Block(pool: Pool, node: Node)

  function Alloc(p: Pool, l: nat): Allocation
    requires l < |p.free|
  {
    var c := FindLevel(p.free, l);
    if c < 0 then NoMemory
    else
      var (q, n) := Take(p, c);
      var (r, m) := Carve(q, n, l);
      Block(r, m)
  }

  /** Removal of one block from a list.  The loop of `pop_block` stops before it looks at the last
      entry, so as written an entry that is last but not first stays on the list. */
  function PopBlock<T(==)>(how: Reading, s: seq<T>, b: T): (r: seq<T>) {
    if b in s && how.AsWritten? && 0 < IndexOf(s, b) == |s| - 1 then s else Remove(s, b)
  }

  /** A block is put first on a list, unless it is first already. */
  function Push<T(==)>(s: seq<T>, b: T): seq<T> {
    if s != [] && s[0] == b then s else [b] + s
  }

  /** Release of a block below the root, merging upwards while the buddy is clear. */
  function Merge(how: Reading, p: Pool, n: Node): (q: Pool)
    requires n.l < |p.free|
    ensures |q.free| == |p.free| && q.depth == p.depth
    decreases n.l
  {
    if n.l == 0 then
      p.(free := p.free[0 := Push(p.free[0], n.x)])
    else
      var cleared := p.bits - {n};
      if Buddy(n) in cleared then
        p.(bits := cleared, free := p.free[n.l := Push(p.free[n.l], n.x)])
      else
        Merge(how, Absorb(how, p, n), Parent(n))
  }

  /** One merging step: the block and its clear buddy become their parent. */
  function Absorb(how: Reading, p: Pool, n: Node): Pool
    requires n.l < |p.free|
  {
    p.(bits := p.bits - {n}, free := p.free[n.l := PopBlock(how, p.free[n.l], Buddy(n).x)])
  }

  function Release(how: Reading, p: Pool, n: Node): Pool
    requires n.l < |p.free|
  {
    if n.l == 0 then p.(bits := p.bits - {n}, free := p.free[0 := [0]])
    else Merge(how, p, n)
  }

  /** Walk up from `n` to the first set bit, or to the root. */
  function FirstSet(bits: set<Node>, n: Node): (s: Node)
    ensures s.l <= n.l
    decreases n.l
  {
    if n in bits || n.l == 0 then n else FirstSet(bits, Parent(n))
  }

  // ---------------------------------------------------------------- tree facts

  lemma Family(n: Node)
    ensures Parent(Left(n)) == n == Parent(Right(n))
    ensures Buddy(Left(n)) == Right(n) && Buddy(Right(n)) == Left(n)
    ensures n.l > 0 ==> Parent(n).l == n.l - 1 && Parent(Buddy(n)) == Parent(n) && Buddy(Buddy(n)) == n
    ensures n.l > 0 ==>
      || (n == Left(Parent(n)) && Buddy(n) == Right(Parent(n)))
      || (n == Right(Parent(n)) && Buddy(n) == Left(Parent(n)))
  {
  }

  lemma BuddyInTree(d: nat, n: Node)
    requires InTree(d, n) && n.l > 0
    ensures InTree(d, Buddy(n)) && InTree(d, Parent(n))
  {
    assert Pow2(n.l) == 2 * Pow2(n.l - 1);
  }

  lemma ChildrenInTree(d: nat, n: Node)
    requires InTree(d, n) && n.l < d
    ensures InTree(d, Left(n)) && InTree(d, Right(n))
  {
    assert Pow2(n.l + 1) == 2 * Pow2(n.l);
  }

  /** Where the root stands: on its list with nothing below it, or split or handed out. */
  lemma FreeRoot(p: Pool)
    requires Inv(p) && Free(p, ROOT)
    ensures forall n :: n in p.bits ==> n == ROOT
  {
    forall n | n in p.bits
      ensures n == ROOT
    {
      NothingBelow(p, n);
    }
  }

  lemma {:induction false} NothingBelow(p: Pool, n: Node)
    requires Inv(p) && Free(p, ROOT) && n in p.bits
    ensures n.l == 0 && n == ROOT
    decreases n.l
  {
    if n.l <= 1 {
    } else {
      NothingBelow(p, Parent(n));
    }
  }

  lemma CreateInv(d: nat)
    ensures Inv(Create(d))
    ensures forall n :: !Live(Create(d), n)
  {
  }
}
