// The allocator in the form the kernel gives it: a packed bit tree and an array of free lists,
// both changed in place.  One object stands for one of the two memory regions.
module BuddyPool {
  import opened Powers
  import opened Readings
  import opened Seqs
  import opened BitArray
  import opened BuddyTree
  import opened BuddyLaws
  import opened BuddyTheorems
  import opened BuddyRaw
  import opened BuddyRefinement

  datatype Errno = NoError | EINVAL | ENOMEM | EFAULT

  const NULL: int := 0
  const BUDDY: int := 5

  function Index(n: Node): nat {
    Pow2(n.l) - 1 + n.x
  }

  lemma IndexInjective(d: nat, m: Node, n: Node)
    requires InTree(d, m) && InTree(d, n) && Index(m) == Index(n)
    ensures m == n
  {
    if m.l < n.l {
      Pow2Strict(m.l, n.l);
    } else if n.l < m.l {
      Pow2Strict(n.l, m.l);
    }
  }

  lemma IndexBound(d: nat, n: Node)
    requires InTree(d, n)
    ensures Index(n) < Pow2(d + 1) - 1
  {
    Pow2Strict(n.l, d + 1);
  }

  /** The level whose blocks are the least power of two, from 32 up, that holds `size`. */
  function LevelFor(depth: nat, size: nat): (l: nat)
    requires size <= Size(depth, 0)
    ensures l <= depth
  {
    ExponentBound(depth, size);
    depth + MIN_BLK_SIZE_LOG2 - Exponent(size)
  }

  class Region {
    const depth: nat
    const base: nat
    const bitTree: array<bv8>
    const freeList: array<seq<int>>
    ghost var marked: set<Node>   // the nodes whose bit is set

    ghost predicate Valid()
      reads this, bitTree, freeList
    {
      && base > 0 && depth + MIN_BLK_SIZE_LOG2 <= 31
      && Separate()
      && freeList.Length == depth + 1
      && Pow2(depth + 1) <= 8 * bitTree.Length
      && (forall n :: n in marked ==> InTree(depth, n))
      && (forall n :: InTree(depth, n) ==> IndexFits(n) && (n in marked <==> Bit(bitTree[..], Index(n))))
    }

    ghost predicate Separate() {
      var b: object := bitTree;
      var f: object := freeList;
      b != f
    }

    ghost predicate IndexFits(n: Node) {
      Index(n) / 8 < bitTree.Length
    }

    ghost function State(): (r: Raw)
      requires Valid()
      reads this, bitTree, freeList
      ensures Shaped(r)
    {
      Raw(depth, base, marked, freeList[..])
    }

    /** `levels` is `MAX_LEVELS_RAM1` or `MAX_LEVELS_RAM2`. */
    constructor (levels: nat, start: nat)
      requires 0 < levels <= 27 && start > 0
      ensures Valid() && depth == levels - 1 && base == start
      ensures fresh(bitTree) && fresh(freeList)
      ensures State() == Lift(base, BuddyTree.Create(depth)) && IsPool(State())
    {
      depth := levels - 1;
      base := start;
      bitTree := new bv8[Pow2(levels) / 8 + 1];
      freeList := new seq<int>[levels];
      marked := {};
      new;
      Clear();
    }

    /** The loops of `k_mpool_create`. */
    method Clear()
      requires base > 0 && depth + MIN_BLK_SIZE_LOG2 <= 31 && Separate()
      requires freeList.Length == depth + 1 && Pow2(depth + 1) <= 8 * bitTree.Length
      modifies this, bitTree, freeList
      ensures Valid() && State() == Lift(base, BuddyTree.Create(depth)) && IsPool(State())
    {
      for i := 0 to bitTree.Length
        invariant forall k :: 0 <= k < i ==> bitTree[k] == 0
      {
        bitTree[i] := 0;
      }
      freeList[0] := [base];
      for j := 1 to depth + 1
        invariant freeList[0] == [base]
        invariant forall k :: 1 <= k < j ==> freeList[k] == []
        invariant forall k :: 0 <= k < bitTree.Length ==> bitTree[k] == 0
      {
        freeList[j] := [];
      }
      marked := {};
      forall n | InTree(depth, n)
        ensures IndexFits(n) && !Bit(bitTree[..], Index(n))
      {
        IndexBound(depth, n);
        assert bitTree[..][Index(n) / 8] == 0;
      }
      var p := BuddyTree.Create(depth);
      CreateInv(depth);
      assert LiftList(depth, base, 0, [0]) == [base];
      assert forall l :: 1 <= l <= depth ==> LiftList(depth, base, l, []) == [];
      assert freeList[..] == Lift(base, p).free;
    }

    /** `k_mpool_create`: only the buddy algorithm, and only the region that starts here. */
    method Create(algo: int, start: nat) returns (err: Errno)
      requires Valid()
      modifies this, bitTree, freeList
      ensures Valid()
      ensures err == if algo == BUDDY && start == base then NoError else EINVAL
      ensures State() == if err == NoError then Lift(base, BuddyTree.Create(depth)) else old(State())
    {
      if algo != BUDDY {
        return EINVAL;
      }
      if start != base {
        return EINVAL;
      }
      Clear();
      return NoError;
    }

    method Mark(l: nat, x: nat)
      requires Valid() && InTree(depth, Node(l, x))
      modifies `marked, bitTree
      ensures Valid() && State() == old(State()).(bits := old(marked) + {Node(l, x)})
    {
      ghost var m := Node(l, x);
      var power := Power2(l);
      assert IndexFits(m);
      label before:
      SetBit(bitTree, power - 1 + x);
      marked := marked + {m};
      forall n | InTree(depth, n)
        ensures IndexFits(n) && (n in marked <==> Bit(bitTree[..], Index(n)))
      {
        assert old@before(IndexFits(n) && (n in marked <==> Bit(bitTree[..], Index(n))));
        if Index(n) == Index(m) {
          IndexInjective(depth, n, m);
        }
      }
    }

    method Unmark(l: nat, x: nat)
      requires Valid() && InTree(depth, Node(l, x))
      modifies `marked, bitTree
      ensures Valid() && State() == old(State()).(bits := old(marked) - {Node(l, x)})
    {
      ghost var m := Node(l, x);
      var power := Power2(l);
      assert IndexFits(m);
      label before:
      ClearBit(bitTree, power - 1 + x);
      marked := marked - {m};
      forall n | InTree(depth, n)
        ensures IndexFits(n) && (n in marked <==> Bit(bitTree[..], Index(n)))
      {
        assert old@before(IndexFits(n) && (n in marked <==> Bit(bitTree[..], Index(n))));
        if Index(n) == Index(m) {
          IndexInjective(depth, n, m);
        }
      }
    }

    method Check(l: nat, x: nat) returns (status: nat)
      requires Valid() && InTree(depth, Node(l, x))
      ensures status == if Node(l, x) in marked then 1 else 0
    {
      var power := Power2(l);
      assert IndexFits(Node(l, x));
      status := CheckBit(bitTree, power - 1 + x);
    }

    /** The loop of `pop_block`: it looks at every entry that has a successor. */
    method PopBlock(l: nat, address: int)
      requires Valid() && l <= depth
      modifies freeList
      ensures Valid()
      ensures State() == old(State()).(
        free := old(freeList[..])[l := BuddyTree.PopBlock(AsWritten, old(freeList[l]), address)])
    {
      var s := freeList[l];
      if s == [] {
        return;
      }
      if address == s[0] {
        freeList[l] := s[1..];
        assert IndexOf(s, address) == 0;
        assert RemoveAt(s, 0) == s[1..];
        return;
      }
      var i := 0;
      while i < |s| - 1
        invariant 0 <= i <= |s| - 1
        invariant address !in s[..i]
      {
        if address == s[i] {
          IndexIs(s, address, i);
          freeList[l] := s[..i] + s[i + 1..];
          return;
        }
        i := i + 1;
      }
      if address in s {
        assert s == s[..|s| - 1] + [s[|s| - 1]];
        IndexIs(s, address, |s| - 1);
      }
      assert BuddyTree.PopBlock(AsWritten, s, address) == s;
    }

    method RankAt(l: nat, ptr: int) returns (x: nat)
      requires l <= depth && ptr >= base
      ensures x == Rank(depth, base, l, ptr)
    {
      var power := Power2(depth + MIN_BLK_SIZE_LOG2 - l);
      SizeIsPower(depth, l);
      x := Quotient(ptr - base, power);
    }

    /** One round of the splitting loop. */
    method SplitHead(l: nat)
      requires Valid() && l < depth && HeadInTree(State(), l)
      modifies this, bitTree, freeList
      ensures Valid() && State() == SplitStep(old(State()), l)
    {
      ghost var next := SplitStep(State(), l);
      var ptr := freeList[l][0];
      var x := RankAt(l, ptr);
      freeList[l] := freeList[l][1..];
      Mark(l, x);
      var half := BlockSize(l + 1);
      freeList[l + 1] := [ptr, ptr + half];
      assert freeList[..] == next.free;
    }

    /** `RAM1_SIZE/POWER2(level)`. */
    method BlockSize(l: nat) returns (size: nat)
      requires l <= depth
      ensures size == Size(depth, l)
    {
      var whole := Power2(depth + MIN_BLK_SIZE_LOG2);
      var parts := Power2(l);
      SizeIsPower(depth, 0);
      SizeQuotient(depth, l);
      size := Quotient(whole, parts);
    }

    /** The end of an allocation: the head of the list is handed out. */
    method TakeHead(l: nat) returns (ptr: int)
      requires Valid() && l <= depth && HeadInTree(State(), l)
      modifies this, bitTree, freeList
      ensures Valid() && TakeRaw(old(State()), l) == At(State(), ptr)
    {
      ghost var done := TakeRaw(State(), l);
      ptr := freeList[l][0];
      var x := RankAt(l, ptr);
      freeList[l] := freeList[l][1..];
      Mark(l, x);
      assert freeList[..] == done.raw.free;
    }

    /** Walk up to the first list that is not empty. */
    method FindFree(level: nat) returns (currLevel: int)
      requires Valid() && level <= depth
      ensures currLevel == FindLevel(freeList[..], level)
    {
      currLevel := level;
      while freeList[currLevel] == []
        invariant 0 <= currLevel <= level
        invariant FindLevel(freeList[..], level) == FindLevel(freeList[..], currLevel)
        decreases currLevel
      {
        if currLevel == 0 {
          return -1;
        }
        currLevel := currLevel - 1;
      }
    }

    /** `k_mpool_alloc`, for one region. */
    method Alloc(size: nat) returns (ptr: int, err: Errno)
      requires Valid() && IsPool(State())
      modifies this, bitTree, freeList
      ensures Valid() && IsPool(State())
      ensures size == 0 ==> ptr == NULL && err == NoError && State() == old(State())
      ensures size > Size(depth, 0) ==> ptr == NULL && err == ENOMEM && State() == old(State())
      ensures 0 < size <= Size(depth, 0) ==>
        match AllocRaw(old(State()), LevelFor(depth, size))
        case NoMemory => ptr == NULL && err == ENOMEM && State() == old(State())
        case At(r, a) => ptr == a != NULL && err == NoError && State() == r
    {
      hide AllocRaw, IsPool;
      if size == 0 {
        return NULL, NoError;
      }
      var whole := Power2(depth + MIN_BLK_SIZE_LOG2);
      SizeIsPower(depth, 0);
      if size > whole {
        return NULL, ENOMEM;
      }
      var level := LevelOf(size);
      ptr := AllocAt(level);
      err := if ptr == NULL then ENOMEM else NoError;
    }

    /** `RAM1_SIZE_LOG2-LOG2(size)`. */
    method LevelOf(size: nat) returns (level: nat)
      requires Valid() && size <= Size(depth, 0)
      ensures level == LevelFor(depth, size)
    {
      SizeIsPower(depth, 0);
      Pow2Monotone(depth + MIN_BLK_SIZE_LOG2, 31);
      Pow2At31();
      var power := Log2(size);
      ExponentBound(depth, size);
      level := depth + MIN_BLK_SIZE_LOG2 - power;
    }

    method AllocAt(level: nat) returns (ptr: int)
      requires Valid() && IsPool(State()) && level <= depth
      modifies this, bitTree, freeList
      ensures Valid() && IsPool(State())
      ensures match AllocRaw(old(State()), level)
        case NoMemory => ptr == NULL && State() == old(State())
        case At(r, a) => ptr == a != NULL && State() == r
    {
      hide TakeRaw, IsPool, SplitStep, Rank;
      var c := FindFree(level);
      if c < 0 {
        return NULL;
      }
      SplittingStaysInTree(State(), level);
      var currLevel: nat := c;
      while currLevel < level
        invariant c <= currLevel <= level && Valid()
        invariant HeadsInTree(State(), currLevel, level)
        invariant SplitLoop(State(), currLevel, level) == SplitLoop(old(State()), c, level)
      {
        SplitHead(currLevel);
        currLevel := currLevel + 1;
      }
      ptr := TakeHead(level);
      AllocKeepsPool(old(State()), level);
    }

    /** The upward search of `k_mpool_dealloc`. */
    method Search(ptr: int) returns (status: nat, currLevel: nat, x: nat)
      requires Valid() && InRange(State(), ptr)
      ensures InTree(depth, Node(currLevel, x))
      ensures Node(currLevel, x) == FirstSet(marked, Node(depth, Rank(depth, base, depth, ptr)))
      ensures status == 1 <==> Node(currLevel, x) in marked
    {
      currLevel := depth;
      x := (ptr - base) / MIN_BLK_SIZE;
      LeafRange(depth, base, ptr);
      ghost var leaf := Node(depth, Rank(depth, base, depth, ptr));
      assert x == leaf.x;
      status := 2;
      while status != 1
        invariant InTree(depth, Node(currLevel, x))
        invariant status != 1
        invariant FirstSet(marked, Node(currLevel, x)) == FirstSet(marked, leaf)
        decreases currLevel
      {
        status := Check(currLevel, x);
        if status == 1 || currLevel <= 0 {
          break;
        }
        BuddyInTree(depth, Node(currLevel, x));
        currLevel := currLevel - 1;
        x := x / 2;
      }
    }

    /** One round of the merging loop: clear the bit, look at the buddy, and if it is clear take it
        off its list and go up.  `goal` is where the whole loop will end. */
    method MergeRound(l: nat, x: nat, a: int, ghost goal: Raw)
      returns (buddyStatus: nat, l': nat, x': nat, a': int)
      requires Valid() && InTree(depth, Node(l, x)) && l > 0
      requires goal == MergeRaw(AsWritten, State(), Node(l, x), a)
      modifies this, bitTree, freeList
      ensures Valid() && InTree(depth, Node(l', x'))
      ensures l' == if buddyStatus == 1 then l else l - 1
      ensures goal == if buddyStatus == 1 then Pushed(State(), l', a')
                      else MergeRaw(AsWritten, State(), Node(l', x'), a')
    {
      hide MergeRaw;
      ghost var r, n := State(), Node(l, x);
      MergeUnfold(r, n, a);
      buddyStatus := UnmarkAndLook(l, x);
      l', x', a' := l, x, a;
      if buddyStatus == 0 {
        a' := PopBuddy(l, x, a);
        assert State() == AbsorbRaw(AsWritten, r, n, a);
        l', x' := l - 1, x / 2;
      }
    }

    /** Clear the bit of a block and look at its buddy's. */
    method UnmarkAndLook(l: nat, x: nat) returns (buddyStatus: nat)
      requires Valid() && InTree(depth, Node(l, x)) && l > 0
      modifies `marked, bitTree
      ensures Valid() && State() == old(State()).(bits := old(marked) - {Node(l, x)})
      ensures buddyStatus == if Buddy(Node(l, x)) in marked then 1 else 0
      ensures InTree(depth, Parent(Node(l, x)))
    {
      BuddyInTree(depth, Node(l, x));
      Unmark(l, x);
      var sibling := if x % 2 == 0 then x + 1 else x - 1;
      assert Buddy(Node(l, x)) == Node(l, sibling);
      buddyStatus := Check(l, sibling);
    }

    /** Take the buddy off its list; the result is where the parent starts. */
    method PopBuddy(l: nat, x: nat, a: int) returns (a': int)
      requires Valid() && l <= depth
      modifies freeList
      ensures Valid() && a' == ParentAddr(depth, Node(l, x), a)
      ensures freeList[..] == old(freeList[..])[l := BuddyTree.PopBlock(AsWritten, old(freeList[l]),
                                                                      BuddyAddr(depth, Node(l, x), a))]
    {
      var size := BlockSize(l);
      PopBlock(l, if x % 2 == 0 then a + size else a - size);
      a' := a - (x % 2) * size;
    }

    /** The merging loop of `k_mpool_dealloc`, and the push that ends it. */
    method MergeUp(l: nat, rank: nat, ptr: int)
      requires Valid() && InTree(depth, Node(l, rank)) && l > 0
      modifies this, bitTree, freeList
      ensures Valid() && State() == MergeRaw(AsWritten, old(State()), Node(l, rank), ptr)
    {
      ghost var goal := MergeRaw(AsWritten, State(), Node(l, rank), ptr);
      var currLevel: nat, x: nat, currAddress := l, rank, ptr;
      var buddyStatus := 2;
      while buddyStatus != 1 && currLevel > 0
        invariant Valid() && InTree(depth, Node(currLevel, x))
        invariant goal == if buddyStatus == 1 then Pushed(State(), currLevel, currAddress)
                          else MergeRaw(AsWritten, State(), Node(currLevel, x), currAddress)
        decreases buddyStatus != 1, currLevel
      {
        buddyStatus, currLevel, x, currAddress := MergeRound(currLevel, x, currAddress, goal);
      }
      PushBlock(currLevel, currAddress);
    }

    method PushBlock(l: nat, a: int)
      requires Valid() && l <= depth
      modifies freeList
      ensures Valid() && State() == Pushed(old(State()), l, a)
    {
      var list := freeList[l];
      if list == [] || list[0] != a {
        freeList[l] := [a] + list;
      }
      assert freeList[..] == old(freeList[..])[l := Push(list, a)];
    }

    /** `k_mpool_dealloc`, for one region. */
    method Dealloc(ptr: int) returns (ok: bool, err: Errno)
      requires Valid()
      modifies this, bitTree, freeList
      ensures Valid()
      ensures ptr == NULL ==> !ok && err == NoError && State() == old(State())
      ensures ptr != NULL && !InRange(old(State()), ptr) ==> !ok && err == EFAULT && State() == old(State())
      ensures InRange(old(State()), ptr) ==> err == NoError && (State(), ok) == DeallocRaw(AsWritten, old(State()), ptr)
    {
      err := NoError;
      if ptr == NULL {
        return false, NoError;
      }
      var size := BlockSize(0);
      if !(ptr >= base && ptr <= base + size - 1) {
        return false, EFAULT;
      }
      var status, currLevel, x := Search(ptr);
      if status == 1 && currLevel > 0 {
        MergeUp(currLevel, x, ptr);
        ok := true;
      } else if status == 1 && currLevel == 0 {
        Unmark(0, x);
        freeList[0] := [base];
        assert freeList[..] == old(freeList[..])[0 := [base]];
        ok := true;
      } else {
        ok := false;
      }
    }
  }

  /** The head of list `l` is a block of that level. */
  ghost predicate HeadInTree(r: Raw, l: nat) {
    && Shaped(r) && l <= r.depth && r.free[l] != [] && r.free[l][0] >= r.base
    && InTree(r.depth, Node(l, Rank(r.depth, r.base, l, r.free[l][0])))
  }

  /** It is so in every round of the splitting loop from list `c` down to list `l`. */
  ghost predicate HeadsInTree(r: Raw, c: nat, l: nat)
    requires c <= l
    decreases l - c
  {
    HeadInTree(r, c) && (c < l && c < r.depth ==> HeadsInTree(SplitStep(r, c), c + 1, l))
  }

  lemma {:induction false} HeadsFromTree(base: nat, r: Raw, p: Pool, n: Node, l: nat)
    requires Inv(p) && Live(p, n) && n.l <= l <= p.depth
    requires forall j :: n.l < j <= l ==> p.free[j] == []
    requires AboutToTake(base, r, p, n)
    ensures HeadsInTree(r, n.l, l)
    decreases l - n.l
  {
    HeadAddr(base, r, p, n);
    if n.l == l {
    } else {
      SplitRefines(base, r, p, n);
      HalveKeeps(p, n);
      HeadsFromTree(base, SplitStep(r, n.l), Halve(p, n), Left(n), l);
    }
  }

  lemma SplittingStaysInTree(r: Raw, l: nat)
    requires IsPool(r) && l < |r.free| && FindLevel(r.free, l) >= 0
    ensures HeadsInTree(r, FindLevel(r.free, l), l)
  {
    var p: Pool :| Inv(p) && r == Lift(r.base, p);
    var q, n := StartOfSplit(r.base, p, l);
    HeadsFromTree(r.base, r, q, n, l);
  }

  /** An allocation at the level of addresses keeps a consistent pool consistent. */
  lemma AllocKeepsPool(r: Raw, l: nat)
    requires IsPool(r) && Shaped(r) && l <= r.depth && r.base > 0
    ensures AllocRaw(r, l).At? ==> IsPool(AllocRaw(r, l).raw) && AllocRaw(r, l).ptr != NULL
  {
    var p: Pool :| Inv(p) && r == Lift(r.base, p);
    AllocRefines(r.base, p, l);
    AllocKeeps(p, l);
    if Alloc(p, l).Block? {
      assert Lift(r.base, Alloc(p, l).pool).base == r.base;
    }
  }

  /** The block handed out for a request has the least power of two, from 32 up, that holds it. */
  lemma RoundedSize(depth: nat, size: nat, other: nat)
    requires 0 < size <= Size(depth, 0)
    requires other >= MIN_BLK_SIZE_LOG2 && Pow2(other) >= size
    ensures var got := Size(depth, LevelFor(depth, size));
      size <= got && MIN_BLK_SIZE <= got && got <= Pow2(other)
  {
    ExponentBound(depth, size);
    var e := Exponent(size);
    SizeIsPower(depth, depth + MIN_BLK_SIZE_LOG2 - e);
    if other < e {
      Pow2Monotone(other, e - 1);
    }
    Pow2Monotone(e, other);
  }

  /** The two ways one round of a merge can go. */
  lemma MergeUnfold(r: Raw, n: Node, a: int)
    requires Shaped(r) && 0 < n.l <= r.depth
    ensures MergeRaw(AsWritten, r, n, a) ==
      if Buddy(n) in r.bits - {n} then Pushed(r.(bits := r.bits - {n}), n.l, a)
      else MergeRaw(AsWritten, AbsorbRaw(AsWritten, r, n, a), Parent(n), ParentAddr(r.depth, n, a))
  {
  }

  lemma ExponentBound(depth: nat, size: nat)
    requires size <= Size(depth, 0)
    ensures MIN_BLK_SIZE_LOG2 <= Exponent(size) <= depth + MIN_BLK_SIZE_LOG2
  {
    SizeIsPower(depth, 0);
    var e := Exponent(size);
    if e > depth + MIN_BLK_SIZE_LOG2 {
      Pow2Monotone(depth + MIN_BLK_SIZE_LOG2, e - 1);
    }
  }

  lemma SizeIsPower(depth: nat, l: nat)
    requires l <= depth
    ensures Size(depth, l) == Pow2(depth + MIN_BLK_SIZE_LOG2 - l)
  {
    assert Pow2(5) == 32;
    Pow2Add(5, depth - l);
  }

  lemma SizeQuotient(depth: nat, l: nat)
    requires l <= depth
    ensures Quotient(Size(depth, 0), Pow2(l)) == Size(depth, l)
  {
    var z, s := Pow2(l), Size(depth, l);
    assert Size(depth, 0) == s * z by {
      Pow2Add(l, depth - l);
      MulReorder(z, MIN_BLK_SIZE, Pow2(depth - l));
      assert s * z == z * s;
    }
    DivUnique(s * z, z, s, 0);
  }

  /** The block at the head of the list that a split or an allocation starts from. */
  lemma HeadAddr(base: nat, r: Raw, p: Pool, n: Node)
    requires Inv(p) && Live(p, n) && n.l <= p.depth && AboutToTake(base, r, p, n)
    ensures InTree(p.depth, n) && r.free[n.l] != [] && r.free[n.l][0] == Addr(p.depth, base, n)
    ensures Rank(p.depth, base, n.l, r.free[n.l][0]) == n.x
  {
    OwnedInTree(p, n);
    assert r.free[n.l] == LiftList(p.depth, base, n.l, [n.x] + p.free[n.l]);
    RankOf(p.depth, base, n);
  }

  lemma StartOfSplit(base: nat, p: Pool, l: nat) returns (q: Pool, n: Node)
    requires Inv(p) && l <= p.depth && FindLevel(Lift(base, p).free, l) >= 0
    ensures n.l == FindLevel(Lift(base, p).free, l) <= l
    ensures Inv(q) && Live(q, n) && q.depth == p.depth
    ensures forall j :: n.l < j <= l ==> q.free[j] == []
    ensures AboutToTake(base, Lift(base, p), q, n) && Lift(base, p).free[n.l] != []
    ensures Alloc(p, l).Block? && Alloc(p, l).pool == Carve(q, n, l).0
  {
    FindLevelLift(base, p, l);
    var c := FindLevel(p.free, l);
    q, n := Take(p, c).0, Take(p, c).1;
    TakeKeeps(p, c);
    TakeBits(p, c);
    assert p.free[c] == [n.x] + q.free[c];
    assert Untaken(q, n).free == p.free;
  }

  lemma {:induction false} IndexIs<T>(s: seq<T>, e: T, i: nat)
    requires i < |s| && s[i] == e && e !in s[..i]
    ensures IndexOf(s, e) == i
    decreases |s|
  {
    if i == 0 {
    } else {
      assert s[..i][0] == s[0];
      assert s[1..][..i - 1] == s[..i][1..];
      IndexIs(s[1..], e, i - 1);
    }
  }
}
