// What allocation and release keep, and what they do to the set of live blocks.
module BuddyLaws {
  import opened Powers
  import opened Readings
  import opened Seqs
  import opened BuddyTree

  // ---------------------------------------------------------------- allocation

  /** The list of level `l` in a pool that differs from `p` in the bit of `n` and, at the level of
      `n`, in the list. */
  lemma SetBitList(p: Pool, q: Pool, n: Node, l: nat)
    requires 1 <= l <= p.depth && |p.free| == |q.free| == p.depth + 1 && p.depth == q.depth
    requires BitsClosed(p) && ListMatches(p, l) && q.bits == p.bits + {n}
    requires n !in p.bits && InTree(p.depth, n)
    requires l != n.l ==> q.free[l] == p.free[l]
    requires l == n.l && Buddy(n) in p.bits ==> p.free[l] == [n.x] + q.free[l]
    requires l == n.l && Buddy(n) !in p.bits ==> p.free[l] == [] && q.free[l] == [Buddy(n).x]
    ensures ListMatches(q, l)
  {
    Family(n);
    if l == n.l {
      BuddyInTree(p.depth, n);
      if Buddy(n) in p.bits {
        TailFacts(p.free[l]);
        assert q.free[l] == p.free[l][1..];
      }
      forall x: nat
        ensures x in q.free[l] <==> WaitingAt(q, l, x)
      {
        Family(Node(l, x));
      }
    } else {
      forall x: nat
        ensures WaitingAt(q, l, x) <==> WaitingAt(p, l, x)
      {
        assert Node(l, x) != n && Buddy(Node(l, x)) != n;
      }
    }
  }

  lemma TakeBits(p: Pool, c: nat)
    requires Inv(p) && c <= p.depth && p.free[c] != []
    ensures var n := Node(c, p.free[c][0]);
      && Free(p, n) && InTree(p.depth, n) && (c > 0 ==> n !in p.bits && Buddy(n) in p.bits)
      && Left(n) !in p.bits && Right(n) !in p.bits
      && (c > 0 ==> Parent(n) in p.bits)
  {
    var n := Node(c, p.free[c][0]);
    assert n.x in p.free[c];
    if c > 0 {
      assert ListMatches(p, c);
      assert WaitingAt(p, n.l, n.x);
      ClearBelow(p, n);
      assert Parent(Buddy(n)) == Parent(n);
    } else {
      assert n == ROOT;
    }
  }

  lemma ClearBelow(p: Pool, n: Node)
    requires BitsClosed(p) && n !in p.bits
    ensures Left(n) !in p.bits && Right(n) !in p.bits
  {
    assert Parent(Left(n)) == n && Parent(Right(n)) == n;
  }

  ghost predicate OnlyRoot(p: Pool) {
    forall n :: n in p.bits ==> n == ROOT
  }

  /** A step that touches nothing but the root. */
  lemma RootStep(p: Pool, q: Pool)
    requires Inv(p) && OnlyRoot(p) && OnlyRoot(q)
    requires q.depth == p.depth && |q.free| == |p.free|
    requires forall l :: 1 <= l <= p.depth ==> q.free[l] == p.free[l]
    requires q.free[0] == [0] || (q.free[0] == [] && ROOT in q.bits)
    ensures Inv(q)
    ensures forall m :: Live(q, m) <==> m == ROOT && q.free[0] == []
  {
    assert InTree(q.depth, ROOT);
    forall l | 1 <= l <= p.depth
      ensures ListMatches(q, l)
    {
      assert ListMatches(p, l);
      forall x: nat
        ensures !WaitingAt(q, l, x) && !WaitingAt(p, l, x)
      {
        assert Buddy(Node(l, x)) != ROOT;
      }
    }
  }

  lemma TakeRoot(p: Pool)
    requires Inv(p) && p.free[0] != []
    ensures var (q, n) := Take(p, 0);
      && Inv(q) && Live(q, n) && n == ROOT && OnlyRoot(p)
      && forall m :: Live(q, m) <==> m == ROOT
  {
    var (q, n) := Take(p, 0);
    FreeRoot(p);
    RootStep(p, q);
  }

  /** Marking a block whose buddy is marked changes nothing for the root. */
  lemma RootUntouched(p: Pool, n: Node)
    requires InTree(p.depth, n) && n.l > 0 && Buddy(n) in p.bits
    ensures (Left(ROOT) !in p.bits && Right(ROOT) !in p.bits) <==>
      (Left(ROOT) !in p.bits + {n} && Right(ROOT) !in p.bits + {n})
  {
    if n == Left(ROOT) {
      assert Buddy(n) == Right(ROOT);
    } else if n == Right(ROOT) {
      assert Buddy(n) == Left(ROOT);
    }
  }

  lemma TakeBelow(p: Pool, c: nat)
    requires Inv(p) && 0 < c <= p.depth && p.free[c] != []
    ensures Inv(Take(p, c).0)
  {
    hide Left, Right, Parent, Buddy;
    var (q, n) := Take(p, c);
    TakeBits(p, c);
    RootUntouched(p, n);
    assert BitsClosed(q);
    forall l | 1 <= l <= p.depth
      ensures ListMatches(q, l)
    {
      assert ListMatches(p, l);
      assert l == c ==> p.free[l] == [n.x] + q.free[l];
      SetBitList(p, q, n, l);
    }
  }

  lemma TakeKeeps(p: Pool, c: nat)
    requires Inv(p) && c <= p.depth && p.free[c] != []
    ensures var (q, n) := Take(p, c);
      && Inv(q) && Live(q, n) && n.l == c && Free(p, n) && !Live(p, n)
      && forall m :: Live(q, m) <==> Live(p, m) || m == n
  {
    var (q, n) := Take(p, c);
    TakeBits(p, c);
    if c == 0 {
      TakeRoot(p);
    } else {
      TakeBelow(p, c);
      forall m
        ensures Live(q, m) <==> Live(p, m) || m == n
      {
        Family(m);
      }
    }
  }

  lemma HalveInv(p: Pool, n: Node)
    requires Inv(p) && Live(p, n) && n.l < p.depth && p.free[n.l + 1] == []
    ensures Inv(Halve(p, n))
  {
    var q := Halve(p, n);
    ChildrenInTree(p.depth, n);
    forall m {:trigger Parent(m)} | m in q.bits && m.l > 0
      ensures Parent(m) in q.bits
    {
      if m == Left(n) {
        assert Parent(m) == n;
      }
    }
    assert Buddy(Left(n)) == Right(n);
    forall l | 1 <= l <= p.depth
      ensures ListMatches(q, l)
    {
      assert ListMatches(p, l);
      SetBitList(p, q, Left(n), l);
    }
  }

  lemma HalveKeeps(p: Pool, n: Node)
    requires Inv(p) && Live(p, n) && n.l < p.depth && p.free[n.l + 1] == []
    ensures var q := Halve(p, n);
      && Inv(q) && Live(q, Left(n))
      && forall m :: Live(q, m) <==> (Live(p, m) && m != n) || m == Left(n)
  {
    var q := Halve(p, n);
    HalveInv(p, n);
    ClearBelow(p, Left(n));
    forall m
      ensures Live(q, m) <==> (Live(p, m) && m != n) || m == Left(n)
    {
      assert Left(m) == Left(n) ==> m == n;
      assert Right(m) != Left(n);
    }
  }

  lemma {:induction false} CarveKeeps(p: Pool, n: Node, l: nat)
    requires Inv(p) && Live(p, n) && n.l <= l <= p.depth
    requires forall j :: n.l < j <= l ==> p.free[j] == []
    ensures var (q, m) := Carve(p, n, l);
      && Inv(q) && q.depth == p.depth && Live(q, m) && m.l == l
      && forall k :: Live(q, k) <==> (Live(p, k) && k != n) || k == m
    decreases l - n.l
  {
    if n.l == l {
    } else {
      HalveKeeps(p, n);
      CarveKeeps(Halve(p, n), Left(n), l);
    }
  }

  /** Allocation keeps the pool consistent; the block it returns has the level asked for and was
      not live; every other block keeps its status. */
  lemma AllocKeeps(p: Pool, l: nat)
    requires Inv(p) && l <= p.depth
    ensures match Alloc(p, l)
      case NoMemory => true
      case Block(q, n) =>
        && Inv(q) && q.depth == p.depth && n.l == l && !Live(p, n)
        && forall m :: Live(q, m) <==> Live(p, m) || m == n
  {
    var c := FindLevel(p.free, l);
    if c >= 0 {
      var (q, n) := Take(p, c);
      TakeKeeps(p, c);
      CarveKeeps(q, n, l);
      var (r, m) := Carve(q, n, l);
      CarvedIsLeftmost(q, n, l);
      if m != n {
        NotInside(p, n, m);
      }
    }
  }

  /** `m` lies in the subtree of `n`. */
  predicate Inside(m: Node, n: Node)
    decreases m.l
  {
    m == n || (m.l > n.l && Inside(Parent(m), n))
  }

  lemma {:induction false} InsideTransitive(k: Node, m: Node, n: Node)
    requires Inside(k, m) && Inside(m, n)
    ensures Inside(k, n)
    decreases k.l
  {
    InsideLevels(m, n);
    if k == m {
    } else {
      InsideLevels(k, m);
      InsideTransitive(Parent(k), m, n);
    }
  }

  lemma {:induction false} InsideLevels(m: Node, n: Node)
    requires Inside(m, n)
    ensures n.l <= m.l && (m.l == n.l ==> m == n)
    decreases m.l
  {
    if m == n {
    } else {
      InsideLevels(Parent(m), n);
    }
  }

  lemma {:induction false} CarvedIsLeftmost(p: Pool, n: Node, l: nat)
    requires n.l <= l < |p.free|
    ensures Inside(Carve(p, n, l).1, n)
    decreases l - n.l
  {
    if n.l == l {
    } else {
      CarvedIsLeftmost(Halve(p, n), Left(n), l);
      Family(n);
      InsideTransitive(Carve(p, n, l).1, Left(n), n);
    }
  }

  /** Below a node that is not split there is nothing. */
  lemma {:induction false} NotInside(p: Pool, n: Node, m: Node)
    requires BitsClosed(p) && Inside(m, n) && m != n
    requires Left(n) !in p.bits && Right(n) !in p.bits
    ensures m !in p.bits
    decreases m.l
  {
    if m !in p.bits {
    } else if Parent(m) == n {
      Family(m);
    } else {
      NotInside(p, n, Parent(m));
    }
  }

  // ---------------------------------------------------------------- release

  /** A clear buddy of a live block is on its list. */
  lemma BuddyIsFree(p: Pool, n: Node)
    requires Inv(p) && Live(p, n) && n.l > 0 && Buddy(n) !in p.bits
    ensures Free(p, Buddy(n))
  {
    BuddyInTree(p.depth, n);
    Family(n);
    assert ListMatches(p, n.l);
    assert WaitingAt(p, n.l, Buddy(n).x);
  }

  /** The list of level `l` in a pool that differs from `p` in having the bit of `n` cleared. */
  lemma ClearBitList(p: Pool, q: Pool, n: Node, l: nat)
    requires 1 <= l <= p.depth && |p.free| == |q.free| == p.depth + 1 && p.depth == q.depth
    requires BitsClosed(p) && ListMatches(p, l) && q.bits == p.bits - {n}
    requires n in p.bits && n.l > 0
    requires l != n.l ==> q.free[l] == p.free[l]
    requires l == n.l && Buddy(n) in p.bits ==> q.free[l] == [n.x] + p.free[l]
    requires l == n.l && Buddy(n) !in p.bits ==> q.free[l] == Remove(p.free[l], Buddy(n).x)
    ensures ListMatches(q, l)
  {
    Family(n);
    BuddyInTree(p.depth, n);
    if l == n.l {
      RemoveFacts(p.free[l], Buddy(n).x);
      assert !WaitingAt(p, l, n.x);
      InsertFacts(p.free[l], 0, n.x);
      assert InsertAt(p.free[l], 0, n.x) == [n.x] + p.free[l];
      forall x: nat
        ensures x in q.free[l] <==> WaitingAt(q, l, x)
      {
        Family(Node(l, x));
      }
    } else {
      forall x: nat
        ensures WaitingAt(q, l, x) <==> WaitingAt(p, l, x)
      {
        assert Node(l, x) != n && Buddy(Node(l, x)) != n;
      }
    }
  }

  /** Clearing the bit of a node without children keeps the bits closed. */
  lemma ClearBitClosed(p: Pool, q: Pool, n: Node)
    requires BitsClosed(p) && q.depth == p.depth && q.bits == p.bits - {n}
    requires Left(n) !in p.bits && Right(n) !in p.bits
    ensures BitsClosed(q)
  {
    forall m {:trigger Parent(m)} | m in q.bits && m.l > 0
      ensures Parent(m) in q.bits
    {
      Family(m);
    }
  }

  /** After one merging step the parent stands where the block stood: handed out and not split. */
  lemma AbsorbKeeps(p: Pool, n: Node)
    requires Inv(p) && Live(p, n) && n.l > 0 && Buddy(n) !in p.bits
    ensures var q := Absorb(Repaired, p, n);
      && Inv(q) && Live(q, Parent(n))
      && forall m :: Live(q, m) <==> (Live(p, m) && m != n) || m == Parent(n)
  {
    var q := Absorb(Repaired, p, n);
    BuddyInTree(p.depth, n);
    Family(n);
    ClearBitClosed(p, q, n);
    forall l | 1 <= l <= p.depth
      ensures ListMatches(q, l)
    {
      assert ListMatches(p, l);
      ClearBitList(p, q, n, l);
    }
    AbsorbLive(p, q, n);
  }

  lemma AbsorbLive(p: Pool, q: Pool, n: Node)
    requires |p.free| == |q.free| > n.l > 0 && q.free[0] == p.free[0] && RootMatches(p)
    requires Live(p, n) && Parent(n) in p.bits && Buddy(n) !in p.bits && q.bits == p.bits - {n}
    requires n.l == 1 ==> Parent(n) == ROOT
    ensures forall m :: Live(q, m) <==> (Live(p, m) && m != n) || m == Parent(n)
  {
    forall m
      ensures Live(q, m) <==> (Live(p, m) && m != n) || m == Parent(n)
    {
      AbsorbLiveAt(p, q, n, m);
    }
  }

  lemma AbsorbLiveAt(p: Pool, q: Pool, n: Node, m: Node)
    requires |p.free| == |q.free| > n.l > 0 && q.free[0] == p.free[0] && RootMatches(p)
    requires Live(p, n) && Parent(n) in p.bits && Buddy(n) !in p.bits && q.bits == p.bits - {n}
    requires n.l == 1 ==> Parent(n) == ROOT
    ensures Live(q, m) <==> (Live(p, m) && m != n) || m == Parent(n)
  {
    hide Left, Right, Parent, Buddy;
    Family(n);
    Family(m);
  }

  lemma PushBackKeeps(p: Pool, n: Node)
    requires Inv(p) && Live(p, n) && n.l > 0 && Buddy(n) in p.bits
    ensures var q := Merge(Repaired, p, n);
      && q == Merge(AsWritten, p, n)
      && Inv(q) && Free(q, n)
      && forall m :: Live(q, m) <==> Live(p, m) && m != n
  {
    var q := Merge(Repaired, p, n);
    BuddyInTree(p.depth, n);
    Family(n);
    ClearBitClosed(p, q, n);
    assert n.x !in p.free[n.l] by {
      assert ListMatches(p, n.l);
      assert !WaitingAt(p, n.l, n.x);
    }
    forall l | 1 <= l <= p.depth
      ensures ListMatches(q, l)
    {
      assert ListMatches(p, l);
      ClearBitList(p, q, n, l);
    }
    forall m
      ensures Live(q, m) <==> Live(p, m) && m != n
    {
      Family(m);
    }
  }

  /** If the root is handed out whole, no other bit is set. */
  lemma {:induction false} NothingBelowLive(p: Pool, m: Node)
    requires Inv(p) && Live(p, ROOT) && m in p.bits
    ensures m == ROOT
    decreases m.l
  {
    assert InTree(p.depth, m);
    if m.l == 0 {
    } else {
      NothingBelowLive(p, Parent(m));
    }
  }

  lemma LiveRoot(p: Pool)
    requires Inv(p) && Live(p, ROOT)
    ensures OnlyRoot(p)
  {
    forall m | m in p.bits
      ensures m == ROOT
    {
      NothingBelowLive(p, m);
    }
  }

  lemma {:induction false} MergeKeeps(p: Pool, n: Node)
    requires Inv(p) && Live(p, n)
    ensures var q := Merge(Repaired, p, n);
      && Inv(q)
      && forall m :: Live(q, m) <==> Live(p, m) && m != n
    decreases n.l
  {
    if n.l == 0 {
      assert InTree(p.depth, n);
      LiveRoot(p);
      RootStep(p, Merge(Repaired, p, n));
    } else if Buddy(n) in p.bits - {n} {
      PushBackKeeps(p, n);
    } else {
      Family(n);
      AbsorbKeeps(p, n);
      MergeKeeps(Absorb(Repaired, p, n), Parent(n));
    }
  }

  /** Releasing a live block, with the removal that `pop_block` is meant to do, keeps the pool
      consistent and takes exactly that block out of the live set. */
  lemma ReleaseKeeps(p: Pool, n: Node)
    requires Inv(p) && Live(p, n)
    ensures var q := Release(Repaired, p, n);
      && Inv(q) && q.depth == p.depth
      && forall m :: Live(q, m) <==> Live(p, m) && m != n
  {
    if n.l == 0 {
      assert InTree(p.depth, n);
      LiveRoot(p);
      RootStep(p, Release(Repaired, p, n));
    } else {
      MergeKeeps(p, n);
    }
  }
}
