// The operations on addresses compute what the operations on the tree say.
module BuddyRefinement {
  import opened Powers
  import opened Readings
  import opened Seqs
  import opened BuddyTree
  import opened BuddyLaws
  import opened BuddyTheorems
  import opened BuddyRaw

  // ---------------------------------------------------------------- lists of addresses

  lemma LiftPush(d: nat, base: nat, l: nat, s: seq<nat>, x: nat)
    requires l <= d
    ensures LiftList(d, base, l, Push(s, x)) == Push(LiftList(d, base, l, s), Addr(d, base, Node(l, x)))
  {
    if s != [] && Addr(d, base, Node(l, s[0])) == Addr(d, base, Node(l, x)) {
      AddrInjective(d, base, l, s[0], x);
    }
    assert LiftList(d, base, l, [x] + s) == [Addr(d, base, Node(l, x))] + LiftList(d, base, l, s);
  }

  lemma LiftMember(d: nat, base: nat, l: nat, s: seq<nat>, x: nat)
    requires l <= d
    ensures x in s <==> Addr(d, base, Node(l, x)) in LiftList(d, base, l, s)
  {
    var a := Addr(d, base, Node(l, x));
    var t := LiftList(d, base, l, s);
    if x in s {
      var i :| 0 <= i < |s| && s[i] == x;
      assert t[i] == a;
    }
    if a in t {
      var i :| 0 <= i < |t| && t[i] == a;
      AddrInjective(d, base, l, s[i], x);
    }
  }

  lemma {:induction false} LiftIndexOf(d: nat, base: nat, l: nat, s: seq<nat>, x: nat)
    requires l <= d && x in s
    ensures Addr(d, base, Node(l, x)) in LiftList(d, base, l, s)
    ensures IndexOf(LiftList(d, base, l, s), Addr(d, base, Node(l, x))) == IndexOf(s, x)
  {
    LiftMember(d, base, l, s, x);
    if s[0] == x {
    } else {
      assert Addr(d, base, Node(l, s[0])) != Addr(d, base, Node(l, x)) by {
        if Addr(d, base, Node(l, s[0])) == Addr(d, base, Node(l, x)) {
          AddrInjective(d, base, l, s[0], x);
        }
      }
      assert LiftList(d, base, l, s)[1..] == LiftList(d, base, l, s[1..]);
      LiftIndexOf(d, base, l, s[1..], x);
    }
  }

  lemma LiftPop(how: Reading, d: nat, base: nat, l: nat, s: seq<nat>, x: nat)
    requires l <= d
    ensures LiftList(d, base, l, PopBlock(how, s, x))
      == PopBlock(how, LiftList(d, base, l, s), Addr(d, base, Node(l, x)))
  {
    LiftMember(d, base, l, s, x);
    if x in s {
      LiftIndexOf(d, base, l, s, x);
      var i := IndexOf(s, x);
      assert LiftList(d, base, l, RemoveAt(s, i)) == RemoveAt(LiftList(d, base, l, s), i);
    }
  }

  lemma LiftUpdate(base: nat, p: Pool, l: nat, s: seq<nat>)
    requires |p.free| == p.depth + 1 && l <= p.depth
    ensures Lift(base, p.(free := p.free[l := s])).free
      == Lift(base, p).free[l := LiftList(p.depth, base, l, s)]
  {
  }

  // ---------------------------------------------------------------- release

  lemma {:induction false} MergeRefines(how: Reading, base: nat, p: Pool, n: Node)
    requires |p.free| == p.depth + 1 && n.l <= p.depth
    ensures MergeRaw(how, Lift(base, p), n, Addr(p.depth, base, n)) == Lift(base, Merge(how, p, n))
    decreases n.l
  {
    var r, a := Lift(base, p), Addr(p.depth, base, n);
    if n.l > 0 && Buddy(n) !in p.bits - {n} {
      AbsorbRefines(how, base, p, n);
      MergeRefines(how, base, Absorb(how, p, n), Parent(n));
      assert MergeRaw(how, r, n, a) == MergeRaw(how, AbsorbRaw(how, r, n, a), Parent(n), ParentAddr(p.depth, n, a));
    } else {
      LiftPush(p.depth, base, n.l, p.free[n.l], n.x);
      LiftUpdate(base, p, n.l, Push(p.free[n.l], n.x));
    }
  }

  lemma AbsorbRefines(how: Reading, base: nat, p: Pool, n: Node)
    requires |p.free| == p.depth + 1 && 0 < n.l <= p.depth
    ensures AbsorbRaw(how, Lift(base, p), n, Addr(p.depth, base, n)) == Lift(base, Absorb(how, p, n))
    ensures ParentAddr(p.depth, n, Addr(p.depth, base, n)) == Addr(p.depth, base, Parent(n))
  {
    AddrFamily(p.depth, base, n);
    LiftPop(how, p.depth, base, n.l, p.free[n.l], Buddy(n).x);
    LiftUpdate(base, p, n.l, PopBlock(how, p.free[n.l], Buddy(n).x));
  }

  lemma {:induction false} FirstLeafAddr(d: nat, base: nat, n: Node)
    requires n.l <= d
    ensures FirstLeaf(d, n).l == d && Addr(d, base, FirstLeaf(d, n)) == Addr(d, base, n)
    decreases d - n.l
  {
    if n.l == d {
    } else {
      AddrFamily(d, base, n);
      FirstLeafAddr(d, base, Left(n));
    }
  }

  lemma AddrInRange(d: nat, base: nat, n: Node)
    requires InTree(d, n)
    ensures base <= Addr(d, base, n) && Addr(d, base, n) + Size(d, n.l) <= base + Size(d, 0)
  {
    var z := Size(d, n.l);
    MulMonotone(n.x + 1, Pow2(n.l), z);
    assert (n.x + 1) * z == n.x * z + z;
    assert Pow2(n.l) * z == Size(d, 0) by {
      Pow2Add(n.l, d - n.l);
      MulReorder(Pow2(n.l), MIN_BLK_SIZE, Pow2(d - n.l));
    }
  }

  lemma MulReorder(a: nat, b: nat, c: nat)
    ensures a * (b * c) == b * (a * c)
  {
  }

  /** Given the address of a live block, the code finds the block from the bits alone and releases
      exactly it. */
  lemma DeallocRefines(how: Reading, base: nat, p: Pool, n: Node)
    requires Inv(p) && Live(p, n)
    ensures InTree(p.depth, n) && InRange(Lift(base, p), Addr(p.depth, base, n))
    ensures DeallocRaw(how, Lift(base, p), Addr(p.depth, base, n)) == (Lift(base, Release(how, p, n)), true)
  {
    var d, a := p.depth, Addr(p.depth, base, n);
    OwnedInTree(p, n);
    AddrInRange(d, base, n);
    FirstLeafAddr(d, base, n);
    RankOf(d, base, FirstLeaf(d, n));
    SearchFindsBlock(p, n);
    assert n == FirstSet(p.bits, Node(d, Rank(d, base, d, a)));
    if n.l > 0 {
      MergeRefines(how, base, p, n);
    } else {
      LiftUpdate(base, p, 0, [0]);
      assert LiftList(d, base, 0, [0]) == [base];
    }
  }

  // ---------------------------------------------------------------- allocation

  /** The pool just before a block that is handed out was taken from the front of its list. */
  function Untaken(p: Pool, n: Node): Pool
    requires n.l < |p.free|
  {
    p.(bits := p.bits - {n}, free := p.free[n.l := [n.x] + p.free[n.l]])
  }

  /** As `Untaken`, but the bit of the block itself may have either value: a stale root bit. */
  ghost predicate AboutToTake(base: nat, r: Raw, p: Pool, n: Node)
    requires n.l <= p.depth && |p.free| == p.depth + 1
  {
    && r.depth == p.depth && r.base == base
    && r.free == Lift(base, Untaken(p, n)).free
    && r.bits + {n} == p.bits
  }

  lemma SplitRefines(base: nat, r: Raw, p: Pool, n: Node)
    requires n.l < p.depth && |p.free| == p.depth + 1 && n in p.bits && Left(n) !in p.bits
    requires AboutToTake(base, r, p, n)
    ensures r.free[n.l] != [] && Left(n).l <= p.depth
    ensures AboutToTake(base, SplitStep(r, n.l), Halve(p, n), Left(n))
  {
    hide Addr, Size, Rank;
    var d := p.depth;
    assert r.free[n.l] == LiftList(d, base, n.l, [n.x] + p.free[n.l]);
    assert r.free[n.l][1..] == LiftList(d, base, n.l, p.free[n.l]);
    RankOf(d, base, n);
    AddrFamily(d, base, n);
    var s := SplitStep(r, n.l);
    assert s.bits == p.bits;
    HalvesFirst(base, p, n);
    var h := Untaken(Halve(p, n), Left(n));
    assert s.free == Lift(base, h).free;
  }

  /** The lists with both halves of a block on them. */
  lemma HalvesFirst(base: nat, p: Pool, n: Node)
    requires n.l < p.depth && |p.free| == p.depth + 1 && n in p.bits && Left(n) !in p.bits
    ensures var d, h := p.depth, Untaken(Halve(p, n), Left(n));
      && h.bits == p.bits && h.free == p.free[n.l + 1 := [Left(n).x, Right(n).x]]
      && LiftList(d, base, n.l + 1, h.free[n.l + 1]) == [Addr(d, base, Left(n)), Addr(d, base, Right(n))]
  {
    hide Addr;
    assert Halve(p, n).free[n.l + 1] == [Right(n).x];
    assert [Left(n).x] + [Right(n).x] == [Left(n).x, Right(n).x];
  }

  lemma {:induction false} SplitLoopRefines(base: nat, r: Raw, p: Pool, n: Node, l: nat)
    requires Inv(p) && Live(p, n) && n.l <= l <= p.depth
    requires forall j :: n.l < j <= l ==> p.free[j] == []
    requires AboutToTake(base, r, p, n)
    ensures r.free[n.l] != []
    ensures var (q, m) := Carve(p, n, l);
      m.l == l && q.depth == p.depth && |q.free| == |p.free| && AboutToTake(base, SplitLoop(r, n.l, l), q, m)
    decreases l - n.l
  {
    assert r.free[n.l] == LiftList(p.depth, base, n.l, [n.x] + p.free[n.l]);
    if n.l == l {
    } else {
      SplitRefines(base, r, p, n);
      HalveKeeps(p, n);
      SplitLoopRefines(base, SplitStep(r, n.l), Halve(p, n), Left(n), l);
    }
  }

  lemma TakeRefines(base: nat, r: Raw, p: Pool, n: Node)
    requires n.l <= p.depth && |p.free| == p.depth + 1 && AboutToTake(base, r, p, n)
    ensures r.free[n.l] != []
    ensures TakeRaw(r, n.l) == At(Lift(base, p), Addr(p.depth, base, n))
  {
    assert r.free[n.l] == LiftList(p.depth, base, n.l, [n.x] + p.free[n.l]);
    assert r.free[n.l][1..] == LiftList(p.depth, base, n.l, p.free[n.l]);
    RankOf(p.depth, base, n);
  }

  lemma FindLevelLift(base: nat, p: Pool, l: nat)
    requires |p.free| == p.depth + 1 && l <= p.depth
    ensures FindLevel(Lift(base, p).free, l) == FindLevel(p.free, l)
  {
    if p.free[l] != [] || l == 0 {
    } else {
      FindLevelLift(base, p, l - 1);
    }
  }

  /** The splitting loop, which overwrites one list after another, loses nothing: it returns the
      carved block and leaves the lists of the tree's allocation. */
  lemma AllocRefines(base: nat, p: Pool, l: nat)
    requires Inv(p) && l <= p.depth
    ensures match Alloc(p, l)
      case NoMemory => AllocRaw(Lift(base, p), l) == RawAllocation.NoMemory
      case Block(q, n) =>
        && n.l <= q.depth && |q.free| == q.depth + 1
        && AllocRaw(Lift(base, p), l) == At(Lift(base, q), Addr(q.depth, base, n))
  {
    var c := FindLevel(p.free, l);
    FindLevelLift(base, p, l);
    if c >= 0 {
      var (q, n) := Take(p, c);
      TakeKeeps(p, c);
      TakeBits(p, c);
      assert p.free[c] == [n.x] + q.free[c];
      assert Untaken(q, n).free == p.free;
      SplitLoopRefines(base, Lift(base, p), q, n, l);
      var (s, m) := Carve(q, n, l);
      TakeRefines(base, SplitLoop(Lift(base, p), c, l), s, m);
    }
  }

  // ---------------------------------------------------------------- bytes

  /** The block whose address range holds byte `a`. */
  predicate HoldsByte(base: nat, p: Pool, n: Node, a: nat) {
    && n.l <= p.depth && Owned(p, n)
    && Addr(p.depth, base, n) <= a < Addr(p.depth, base, n) + Size(p.depth, n.l)
  }

  /** Going up the tree, the address range only grows. */
  lemma {:induction false} RangeGrows(d: nat, base: nat, u: Node, n: Node)
    requires Inside(u, n) && u.l <= d
    ensures n.l <= d && Addr(d, base, n) <= Addr(d, base, u)
    ensures Addr(d, base, u) + Size(d, u.l) <= Addr(d, base, n) + Size(d, n.l)
    decreases u.l
  {
    if u == n {
    } else {
      AddrFamily(d, base, u);
      SizeHalves(d, u.l - 1);
      RangeGrows(d, base, Parent(u), n);
    }
  }

  lemma LeafRange(d: nat, base: nat, a: nat)
    requires base <= a < base + Size(d, 0)
    ensures var u := Node(d, Rank(d, base, d, a));
      InTree(d, u) && Addr(d, base, u) <= a < Addr(d, base, u) + Size(d, d)
  {
    DivMod(a - base, 32);
    assert Pow2(0) == 1;
  }

  function Ancestor(u: Node, l: nat): (n: Node)
    requires l <= u.l
    ensures n.l == l && Inside(u, n)
    decreases u.l
  {
    if u.l == l then u else Ancestor(Parent(u), l)
  }

  lemma RangesDisjoint(d: nat, base: nat, l: nat, x: nat, y: nat, a: nat)
    requires l <= d
    requires Addr(d, base, Node(l, x)) <= a < Addr(d, base, Node(l, x)) + Size(d, l)
    requires Addr(d, base, Node(l, y)) <= a < Addr(d, base, Node(l, y)) + Size(d, l)
    ensures x == y
  {
    var z := Size(d, l);
    DivUnique(a - base, z, x, a - Addr(d, base, Node(l, x)));
    DivUnique(a - base, z, y, a - Addr(d, base, Node(l, y)));
  }

  lemma BytesAndUnits(base: nat, p: Pool, n: Node, a: nat)
    requires Inv(p) && base <= a < base + Size(p.depth, 0)
    ensures HoldsByte(base, p, n, a) <==> Holds(p, n, Rank(p.depth, base, p.depth, a))
  {
    AboveAddress(p.depth, base, n, a);
  }

  /** The nodes above the leaf at an address are those whose blocks hold the address. */
  lemma AboveAddress(d: nat, base: nat, n: Node, a: nat)
    requires base <= a < base + Size(d, 0)
    ensures Inside(Node(d, Rank(d, base, d, a)), n) <==>
      n.l <= d && Addr(d, base, n) <= a < Addr(d, base, n) + Size(d, n.l)
  {
    var u := Node(d, Rank(d, base, d, a));
    LeafRange(d, base, a);
    if Inside(u, n) {
      RangeGrows(d, base, u, n);
    }
    if n.l <= d && Addr(d, base, n) <= a < Addr(d, base, n) + Size(d, n.l) {
      var m := Ancestor(u, n.l);
      RangeGrows(d, base, u, m);
      RangesDisjoint(d, base, n.l, n.x, m.x, a);
    }
  }

  /** The upward search ends at a set node exactly if there is one on its way. */
  lemma {:induction false} SearchSucceeds(bits: set<Node>, u: Node)
    ensures FirstSet(bits, u) in bits <==> exists n :: n in bits && Inside(u, n)
    decreases u.l
  {
    if u in bits {
      assert Inside(u, u);
    } else if u.l == 0 {
    } else {
      SearchSucceeds(bits, Parent(u));
      assert forall n :: n in bits ==> (Inside(u, n) <==> Inside(Parent(u), n)) by {
        forall n | n in bits
          ensures Inside(u, n) <==> Inside(Parent(u), n)
        {
          if Inside(Parent(u), n) {
            InsideLevels(Parent(u), n);
          }
        }
      }
    }
  }

  /** A pointer into the region is refused exactly if no marked block holds it; then nothing changes. */
  lemma DeallocReply(how: Reading, r: Raw, ptr: int)
    requires Shaped(r) && InRange(r, ptr)
    ensures DeallocRaw(how, r, ptr).1 <==>
      exists n :: n in r.bits && n.l <= r.depth
        && Addr(r.depth, r.base, n) <= ptr < Addr(r.depth, r.base, n) + Size(r.depth, n.l)
    ensures !DeallocRaw(how, r, ptr).1 ==> DeallocRaw(how, r, ptr).0 == r
  {
    SearchSucceeds(r.bits, Node(r.depth, Rank(r.depth, r.base, r.depth, ptr)));
    forall n | n in r.bits
      ensures Inside(Node(r.depth, Rank(r.depth, r.base, r.depth, ptr)), n) <==>
        n.l <= r.depth && Addr(r.depth, r.base, n) <= ptr < Addr(r.depth, r.base, n) + Size(r.depth, n.l)
    {
      AboveAddress(r.depth, r.base, n, ptr);
    }
  }

  /** The free blocks and the blocks handed out partition the pool: every byte lies in exactly one
      of them.  (That each is aligned to its own size is how `Addr` is defined.) */
  lemma BytePartition(base: nat, p: Pool, a: nat)
    requires Inv(p) && base <= a < base + Size(p.depth, 0)
    ensures exists b :: HoldsByte(base, p, b, a) && forall c :: HoldsByte(base, p, c, a) ==> c == b
  {
    var u := Rank(p.depth, base, p.depth, a);
    LeafRange(p.depth, base, a);
    ExactPartition(p, u);
    var b :| Holds(p, b, u) && forall c :: Holds(p, c, u) ==> c == b;
    BytesAndUnits(base, p, b, a);
    forall c | HoldsByte(base, p, c, a)
      ensures c == b
    {
      BytesAndUnits(base, p, c, a);
    }
  }

  // ---------------------------------------------------------------- pointers that start no live block

  predicate StartsLive(base: nat, p: Pool, n: Node, ptr: int) {
    Live(p, n) && n.l <= p.depth && ptr == Addr(p.depth, base, n)
  }

  /** A merge that starts from an address off its block puts an address off its block on a list. */
  lemma {:induction false} MergeOffset(how: Reading, r: Raw, n: Node, a: int, off: nat) returns (f: Node)
    requires Shaped(r) && n.l <= r.depth && off < Size(r.depth, n.l)
    requires a == Addr(r.depth, r.base, n) + off
    ensures OffsetHead(MergeRaw(how, r, n, a), f, off)
    decreases n.l
  {
    if n.l == 0 || Buddy(n) in r.bits - {n} {
      assert MergeRaw(how, r, n, a).free[n.l] == Push(r.free[n.l], a);
      f := n;
    } else {
      AddrFamily(r.depth, r.base, n);
      SizeHalves(r.depth, n.l - 1);
      f := MergeOffset(how, AbsorbRaw(how, r, n, a), Parent(n), ParentAddr(r.depth, n, a), off);
    }
  }

  /** First on the list of its level: an address `off` bytes into block `f`. */
  ghost predicate OffsetHead(r: Raw, f: Node, off: nat) {
    && Shaped(r) && f.l <= r.depth && off < Size(r.depth, f.l)
    && r.free[f.l] != [] && r.free[f.l][0] == Addr(r.depth, r.base, f) + off
  }

  lemma NotMultiple(z: nat, x: nat, y: nat, off: nat)
    requires 0 < off < z
    ensures x * z + off != y * z
  {
    if x * z + off == y * z {
      DivUnique(x * z + off, z, x, off);
      DivUnique(y * z, z, y, 0);
    }
  }

  lemma OffsetIsNoPool(r: Raw, f: Node, off: nat)
    requires OffsetHead(r, f, off) && off > 0
    ensures !IsPool(r)
  {
    forall p: Pool | Inv(p)
      ensures r != Lift(r.base, p)
    {
      if r == Lift(r.base, p) {
        NotMultiple(Size(r.depth, f.l), f.x, p.free[f.l][0], off);
      }
    }
  }

  lemma {:induction false} MergeRawLeavesRest(how: Reading, r: Raw, n: Node, a: int)
    requires Shaped(r) && n.l <= r.depth
    ensures var q := MergeRaw(how, r, n, a);
      && q.bits <= r.bits - (if n.l > 0 then {n} else {})
      && forall l :: n.l < l <= r.depth ==> q.free[l] == r.free[l]
    decreases n.l
  {
    if n.l == 0 || Buddy(n) in r.bits - {n} {
    } else {
      MergeRawLeavesRest(how, AbsorbRaw(how, r, n, a), Parent(n), ParentAddr(r.depth, n, a));
    }
  }

  /** A pointer into the middle of a live block below the root. */
  lemma MiddleBreaks(base: nat, p: Pool, n: Node, ptr: int)
    requires Inv(p) && Live(p, n) && 0 < n.l <= p.depth
    requires Addr(p.depth, base, n) < ptr < Addr(p.depth, base, n) + Size(p.depth, n.l)
    ensures !IsPool(MergeRaw(AsWritten, Lift(base, p), n, ptr))
  {
    var off := ptr - Addr(p.depth, base, n);
    var q := MergeRaw(AsWritten, Lift(base, p), n, ptr);
    var f := MergeOffset(AsWritten, Lift(base, p), n, ptr, off);
    OffsetIsNoPool(q, f, off);
  }

  /** A pointer into a free block: the search stops at its parent, which is split. */
  lemma SplitBreaks(base: nat, p: Pool, s: Node, b: Node, q: Raw)
    requires Inv(p) && Free(p, b) && b.l > 0 && s == Parent(b) && b.l <= p.depth
    requires q.depth == p.depth && q.base == base && Shaped(q)
    requires q.free[b.l] == Lift(base, p).free[b.l] && s !in q.bits
    ensures !IsPool(q)
  {
    forall p': Pool | Inv(p')
      ensures q != Lift(base, p')
    {
      if q == Lift(base, p') {
        LiftMember(p.depth, base, b.l, p.free[b.l], b.x);
        LiftMember(p.depth, base, b.l, p'.free[b.l], b.x);
        assert Free(p', b);
        FreeIff(p', b);
        Family(b);
        SplitNotOwned(p', Buddy(b));
      }
    }
  }

  /** What the code as written does with any pointer into the pool. */
  lemma DeallocLive(base: nat, p: Pool, n: Node, ptr: int)
    requires Inv(p) && StartsLive(base, p, n, ptr)
    ensures InRange(Lift(base, p), ptr)
    ensures IsPool(DeallocRaw(AsWritten, Lift(base, p), ptr).0) <==> SafeToRelease(p, n)
  {
    DeallocRefines(AsWritten, base, p, n);
    ReleaseAsWritten(p, n);
    MergeLeavesRest(AsWritten, p, n);
    var q := Release(AsWritten, p, n);
    if exists p': Pool :: Inv(p') && Lift(base, q) == Lift(base, p') {
      var p': Pool :| Inv(p') && Lift(base, q) == Lift(base, p');
      LiftInjective(base, q, p');
    }
    assert Lift(base, q).base == base;
  }

  lemma LiftInjective(base: nat, p: Pool, q: Pool)
    requires |p.free| == p.depth + 1 && |q.free| == q.depth + 1 && Lift(base, p) == Lift(base, q)
    ensures p == q
  {
    forall l | 0 <= l <= p.depth
      ensures p.free[l] == q.free[l]
    {
      assert Lift(base, p).free[l] == Lift(base, q).free[l];
      var s, t := p.free[l], q.free[l];
      assert |s| == |LiftList(p.depth, base, l, s)| == |t|;
      forall i | 0 <= i < |s|
        ensures s[i] == t[i]
      {
        assert LiftList(p.depth, base, l, s)[i] == LiftList(p.depth, base, l, t)[i];
        AddrInjective(p.depth, base, l, s[i], t[i]);
      }
    }
  }

  lemma DeallocOnlyRoot(base: nat, p: Pool, ptr: int)
    requires Inv(p) && OnlyRoot(p) && InRange(Lift(base, p), ptr)
    ensures IsPool(DeallocRaw(AsWritten, Lift(base, p), ptr).0)
  {
    var d := p.depth;
    var leaf := Node(d, Rank(d, base, d, ptr));
    LeafRange(d, base, ptr);
    FirstSetFacts(p, leaf);
    assert FirstSet(p.bits, leaf) == ROOT;
    if ROOT in p.bits {
      RootReleased(base, p);
    }
  }

  lemma RootReleased(base: nat, p: Pool)
    requires Inv(p) && OnlyRoot(p)
    ensures var r := Lift(base, p);
      IsPool(r.(bits := r.bits - {ROOT}, free := r.free[0 := [base]]))
  {
    var q := Release(AsWritten, p, ROOT);
    RootStep(p, q);
    LiftUpdate(base, p, 0, [0]);
    assert LiftList(p.depth, base, 0, [0]) == [base];
    assert Lift(base, q).base == base;
  }

  lemma DeallocStray(base: nat, p: Pool, ptr: int)
    requires Inv(p) && !OnlyRoot(p) && InRange(Lift(base, p), ptr)
    requires forall n :: !StartsLive(base, p, n, ptr)
    ensures !IsPool(DeallocRaw(AsWritten, Lift(base, p), ptr).0)
  {
    var d, r := p.depth, Lift(base, p);
    var leaf := Node(d, Rank(d, base, d, ptr));
    LeafRange(d, base, ptr);
    FirstSetFacts(p, leaf);
    var s := FirstSet(p.bits, leaf);
    RangeGrows(d, base, leaf, s);
    if ROOT !in p.bits {
      FreeRoot(p);
    }
    assert s in p.bits;
    if Live(p, s) {
      assert !StartsLive(base, p, s, ptr);
      if s.l == 0 {
        LiveRoot(p);
      }
      MiddleBreaks(base, p, s, ptr);
    } else {
      assert !Owned(p, s) by {
        if s.l == 0 && Free(p, s) {
          FreeRoot(p);
        } else if s.l > 0 {
          FreeIff(p, s);
        }
      }
      if s == leaf {
        Childless(p, leaf);
      }
      var b := StepTowards(leaf, s);
      InsideInTree(p, leaf, b);
      BelowSplit(p, s, b);
      var q := DeallocRaw(AsWritten, r, ptr).0;
      MergeRawLeavesRest(AsWritten, r, s, ptr);
      SplitBreaks(base, p, s, b, q);
    }
  }

  /** The exact demand of `k_mpool_dealloc` on its caller, for a pointer into a consistent pool: the
      result is a consistent pool if and only if the pool has not been split, or the pointer starts
      a live block whose merging meets no buddy that is last but not first on its list. */
  lemma DeallocKeepsIff(base: nat, p: Pool, ptr: int)
    requires Inv(p) && InRange(Lift(base, p), ptr)
    ensures IsPool(DeallocRaw(AsWritten, Lift(base, p), ptr).0)
      <==> OnlyRoot(p) || exists n :: StartsLive(base, p, n, ptr) && n.l < |p.free| && SafeToRelease(p, n)
  {
    if OnlyRoot(p) {
      DeallocOnlyRoot(base, p, ptr);
    } else if n :| StartsLive(base, p, n, ptr) {
      DeallocLive(base, p, n, ptr);
      forall m | StartsLive(base, p, m, ptr)
        ensures m == n
      {
        var d := p.depth;
        OwnedInTree(p, n);
        OwnedInTree(p, m);
        SizeIsPositive(d, n.l);
        SizeIsPositive(d, m.l);
        AddrInRange(d, base, n);
        BytePartition(base, p, ptr);
        assert HoldsByte(base, p, n, ptr) && HoldsByte(base, p, m, ptr);
      }
    } else {
      DeallocStray(base, p, ptr);
    }
  }

  lemma SizeIsPositive(d: nat, l: nat)
    requires l <= d
    ensures Size(d, l) >= MIN_BLK_SIZE
  {
  }
}
