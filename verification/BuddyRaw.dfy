// The same pool as the kernel sees it: addresses on the lists, and operations that recover level
// and rank from an address and from the bits.
module BuddyRaw {
  import opened Powers
  import opened Readings
  import opened Seqs
  import opened BuddyTree
  import opened BuddyLaws
  import opened BuddyTheorems

  datatype Raw = Raw(depth: nat, base: nat, bits: set<Node>, free: seq<seq<int>>)

  /** The size in bytes of a block of level `l`. */
  function Size(depth: nat, l: nat): nat
    requires l <= depth
  {
    MIN_BLK_SIZE * Pow2(depth - l)
  }

  function Addr(depth: nat, base: nat, n: Node): nat
    requires n.l <= depth
  {
    base + n.x * Size(depth, n.l)
  }

  /** The rank, within level `l`, of the block that holds an address.  Addresses below the pool do
      not occur. */
  function Rank(depth: nat, base: nat, l: nat, a: int): nat
    requires l <= depth
  {
    if a < base then 0 else Quotient(a - base, Size(depth, l))
  }

  function LiftList(depth: nat, base: nat, l: nat, s: seq<nat>): (r: seq<int>)
    requires l <= depth
    ensures |r| == |s|
  {
    seq(|s|, i requires 0 <= i < |s| => Addr(depth, base, Node(l, s[i])))
  }

  /** The addresses that a pool at `base` keeps. */
  function Lift(base: nat, p: Pool): Raw
    requires |p.free| == p.depth + 1
  {
    Raw(p.depth, base, p.bits,
        seq(|p.free|, l requires 0 <= l < |p.free| => LiftList(p.depth, base, l, p.free[l])))
  }

  ghost predicate Shaped(r: Raw) {
    |r.free| == r.depth + 1
  }

  ghost predicate IsPool(r: Raw) {
    exists p: Pool :: Inv(p) && r == Lift(r.base, p)
  }

  // ---------------------------------------------------------------- operations

  /** One round of the splitting loop: the head of list `c` is marked, and its two halves become
      the whole of list `c + 1`. */
  function SplitStep(r: Raw, c: nat): Raw
    requires Shaped(r) && c < r.depth && r.free[c] != []
  {
    var ptr := r.free[c][0];
    var x := Rank(r.depth, r.base, c, ptr);
    r.(bits := r.bits + {Node(c, x)},
       free := r.free[c := r.free[c][1..]][c + 1 := [ptr, ptr + Size(r.depth, c + 1)]])
  }

  function SplitLoop(r: Raw, c: nat, l: nat): (q: Raw)
    requires Shaped(r) && c <= l <= r.depth && r.free[c] != []
    ensures Shaped(q) && q.depth == r.depth && q.base == r.base && q.free[l] != []
    decreases l - c
  {
    if c == l then r else SplitLoop(SplitStep(r, c), c + 1, l)
  }

  datatype RawAllocation = NoMemory | At(raw: Raw, ptr: int)

  /** Hand out the head of list `l`. */
  function TakeRaw(r: Raw, l: nat): RawAllocation
    requires Shaped(r) && l <= r.depth && r.free[l] != []
  {
    var ptr := r.free[l][0];
    var x := Rank(r.depth, r.base, l, ptr);
    At(r.(bits := r.bits + {Node(l, x)}, free := r.free[l := r.free[l][1..]]), ptr)
  }

  function AllocRaw(r: Raw, l: nat): RawAllocation
    requires Shaped(r) && l <= r.depth
  {
    var c := FindLevel(r.free, l);
    if c < 0 then RawAllocation.NoMemory else TakeRaw(SplitLoop(r, c, l), l)
  }

  function BuddyAddr(depth: nat, n: Node, a: int): int
    requires n.l <= depth
  {
    if n.x % 2 == 0 then a + Size(depth, n.l) else a - Size(depth, n.l)
  }

  function Pushed(r: Raw, l: nat, a: int): Raw
    requires Shaped(r) && l <= r.depth
  {
    r.(free := r.free[l := Push(r.free[l], a)])
  }

  function ParentAddr(depth: nat, n: Node, a: int): int
    requires n.l <= depth
  {
    a - (n.x % 2) * Size(depth, n.l)
  }

  function AbsorbRaw(how: Reading, r: Raw, n: Node, a: int): (q: Raw)
    requires Shaped(r) && n.l <= r.depth
    ensures Shaped(q) && q.depth == r.depth && q.base == r.base
  {
    r.(bits := r.bits - {n}, free := r.free[n.l := PopBlock(how, r.free[n.l], BuddyAddr(r.depth, n, a))])
  }

  function MergeRaw(how: Reading, r: Raw, n: Node, a: int): (q: Raw)
    requires Shaped(r) && n.l <= r.depth
    ensures Shaped(q) && q.depth == r.depth && q.base == r.base
    decreases n.l
  {
    if n.l == 0 then
      Pushed(r, 0, a)
    else
      var cleared := r.bits - {n};
      if Buddy(n) in cleared then
        Pushed(r.(bits := cleared), n.l, a)
      else
        MergeRaw(how, AbsorbRaw(how, r, n, a), Parent(n), ParentAddr(r.depth, n, a))
  }

  predicate InRange(r: Raw, ptr: int) {
    r.base <= ptr < r.base + Size(r.depth, 0)
  }

  /** The body of `k_mpool_dealloc` for a pointer into the pool; the flag is the return code. */
  function DeallocRaw(how: Reading, r: Raw, ptr: int): (Raw, bool)
    requires Shaped(r) && InRange(r, ptr)
  {
    var s := FirstSet(r.bits, Node(r.depth, Rank(r.depth, r.base, r.depth, ptr)));
    if s !in r.bits then (r, false)
    else if s.l > 0 then (MergeRaw(how, r, s, ptr), true)
    else (r.(bits := r.bits - {s}, free := r.free[0 := [r.base]]), true)
  }

  // ---------------------------------------------------------------- address arithmetic

  lemma SizeHalves(d: nat, l: nat)
    requires l < d
    ensures Size(d, l) == 2 * Size(d, l + 1)
  {
  }

  lemma AddrFamily(d: nat, base: nat, n: Node)
    requires n.l <= d
    ensures n.l < d ==> Addr(d, base, Left(n)) == Addr(d, base, n)
    ensures n.l < d ==> Addr(d, base, Right(n)) == Addr(d, base, n) + Size(d, n.l + 1)
    ensures n.l > 0 ==> Addr(d, base, Parent(n)) == Addr(d, base, n) - (n.x % 2) * Size(d, n.l)
    ensures Addr(d, base, Buddy(n)) == BuddyAddr(d, n, Addr(d, base, n))
  {
    var z := Size(d, n.l);
    if n.l < d {
      SizeHalves(d, n.l);
      var h := Size(d, n.l + 1);
      assert n.x * (2 * h) == (2 * n.x) * h;
      assert (2 * n.x + 1) * h == (2 * n.x) * h + h;
    }
    if n.l > 0 {
      SizeHalves(d, n.l - 1);
      assert (n.x / 2) * (2 * z) == (2 * (n.x / 2)) * z;
      assert 2 * (n.x / 2) == n.x - n.x % 2;
      assert (n.x - n.x % 2) * z == n.x * z - (n.x % 2) * z;
    }
    assert (n.x + 1) * z == n.x * z + z;
    assert (n.x - 1) * z == n.x * z - z;
  }

  /** Rank and address determine each other. */
  lemma RankOf(d: nat, base: nat, n: Node)
    requires n.l <= d
    ensures Rank(d, base, n.l, Addr(d, base, n)) == n.x
  {
    DivUnique(n.x * Size(d, n.l), Size(d, n.l), n.x, 0);
  }

  lemma AddrInjective(d: nat, base: nat, l: nat, x: nat, y: nat)
    requires l <= d && Addr(d, base, Node(l, x)) == Addr(d, base, Node(l, y))
    ensures x == y
  {
    RankOf(d, base, Node(l, x));
    RankOf(d, base, Node(l, y));
  }
}
