// Whole runs of the allocator: any sequence of requests and of returns of blocks that are out.
module BuddyRuns {
  import opened Powers
  import opened Readings
  import opened Seqs
  import opened BuddyTree
  import opened BuddyLaws
  import opened BuddyTheorems
  import opened BuddyRaw
  import opened BuddyRefinement

  datatype Request = Ask(level: nat) | Return(node: Node)

  /** What the allocator demands of a caller: a level of the tree, or a block that is out. */
  ghost predicate Proper(p: Pool, q: Request) {
    match q
    case Ask(l) => l <= p.depth
    case Return(n) => Live(p, n)
  }

  function Serve(how: Reading, p: Pool, q: Request): Pool {
    match q
    case Ask(l) => if l < |p.free| && Alloc(p, l).Block? then Alloc(p, l).pool else p
    case Return(n) => if n.l < |p.free| then Release(how, p, n) else p
  }

  ghost predicate ProperRun(how: Reading, p: Pool, run: seq<Request>)
    decreases |run|
  {
    run == [] || (Proper(p, run[0]) && ProperRun(how, Serve(how, p, run[0]), run[1..]))
  }

  function Run(how: Reading, p: Pool, run: seq<Request>): Pool
    decreases |run|
  {
    if run == [] then p else Run(how, Serve(how, p, run[0]), run[1..])
  }

  /** The blocks that are out, as a caller keeps count of them. */
  function Out(p: Pool, out: set<Node>, run: seq<Request>): set<Node>
    decreases |run|
  {
    if run == [] then out
    else
      var next := match run[0]
        case Ask(l) => if l < |p.free| && Alloc(p, l).Block? then out + {Alloc(p, l).node} else out
        case Return(n) => out - {n};
      Out(Serve(Repaired, p, run[0]), next, run[1..])
  }

  lemma ServeKeeps(p: Pool, q: Request)
    requires Inv(p) && Proper(p, q)
    ensures Inv(Serve(Repaired, p, q)) && Serve(Repaired, p, q).depth == p.depth
  {
    match q
    case Ask(l) => AllocKeeps(p, l);
    case Return(n) => OwnedInTree(p, n); ReleaseKeeps(p, n);
  }

  /** After any run the pool is consistent, and its live blocks are exactly those handed out and
      not returned. */
  lemma {:induction false} RunKeeps(p: Pool, out: set<Node>, run: seq<Request>)
    requires Inv(p) && ProperRun(Repaired, p, run) && forall n :: n in out <==> Live(p, n)
    ensures Inv(Run(Repaired, p, run))
    ensures forall n :: n in Out(p, out, run) <==> Live(Run(Repaired, p, run), n)
    decreases |run|
  {
    if run == [] {
    } else {
      var q := run[0];
      ServeKeeps(p, q);
      var next := Serve(Repaired, p, q);
      match q {
        case Ask(l) =>
          AllocKeeps(p, l);
          RunKeeps(next, if Alloc(p, l).Block? then out + {Alloc(p, l).node} else out, run[1..]);
        case Return(n) =>
          OwnedInTree(p, n);
          ReleaseKeeps(p, n);
          RunKeeps(next, out - {n}, run[1..]);
      }
    }
  }

  /** From a new pool, when a run has returned all it was given, the lists are those of a new pool. */
  lemma RunReturnsAll(depth: nat, run: seq<Request>)
    requires ProperRun(Repaired, Create(depth), run)
    requires Out(Create(depth), {}, run) == {}
    ensures Run(Repaired, Create(depth), run).free == Create(depth).free
  {
    CreateInv(depth);
    RunKeeps(Create(depth), {}, run);
    RunDepth(Create(depth), run);
    NothingLive(Run(Repaired, Create(depth), run));
  }

  lemma {:induction false} RunDepth(p: Pool, run: seq<Request>)
    requires Inv(p) && ProperRun(Repaired, p, run)
    ensures Run(Repaired, p, run).depth == p.depth
    decreases |run|
  {
    if run == [] {
    } else {
      ServeKeeps(p, run[0]);
      RunDepth(Serve(Repaired, p, run[0]), run[1..]);
    }
  }

  /** Two blocks that are out at the same time share no byte. */
  lemma LiveBlocksDisjoint(base: nat, p: Pool, m: Node, n: Node)
    requires Inv(p) && Live(p, m) && Live(p, n) && m != n
    ensures m.l <= p.depth && n.l <= p.depth
    ensures || Addr(p.depth, base, m) + Size(p.depth, m.l) <= Addr(p.depth, base, n)
            || Addr(p.depth, base, n) + Size(p.depth, n.l) <= Addr(p.depth, base, m)
  {
    var d := p.depth;
    OwnedInTree(p, m);
    OwnedInTree(p, n);
    AddrInRange(d, base, m);
    AddrInRange(d, base, n);
    SizeIsPositive(d, m.l);
    SizeIsPositive(d, n.l);
    var a := if Addr(d, base, m) <= Addr(d, base, n) then Addr(d, base, n) else Addr(d, base, m);
    BytePartition(base, p, a);
    if Addr(d, base, m) + Size(d, m.l) > a && Addr(d, base, n) + Size(d, n.l) > a {
      assert HoldsByte(base, p, m, a) && HoldsByte(base, p, n, a);
    }
  }

  // ---------------------------------------------------------------- the code as written

  /** Each return is one that the loop that stops early gets right. */
  ghost predicate SafeRun(p: Pool, run: seq<Request>)
    decreases |run|
  {
    run == [] || (
      && (run[0].Return? && run[0].node.l < |p.free| ==> SafeToRelease(p, run[0].node))
      && SafeRun(Serve(AsWritten, p, run[0]), run[1..]))
  }

  /** The pool is consistent after each step of the code as written. */
  ghost predicate StaysConsistent(p: Pool, run: seq<Request>)
    decreases |run|
  {
    Inv(p) && (run == [] || StaysConsistent(Serve(AsWritten, p, run[0]), run[1..]))
  }

  /** Under the code as written a run keeps the pool consistent throughout exactly when every return
      in it is safe; and then it is the run under the intended removal. */
  lemma {:induction false} SafeRunAsWritten(how: Reading, p: Pool, run: seq<Request>)
    requires Inv(p) && ProperRun(how, p, run)
    ensures StaysConsistent(p, run) <==> SafeRun(p, run)
    ensures SafeRun(p, run) ==> ProperRun(AsWritten, p, run) && ProperRun(Repaired, p, run)
    ensures SafeRun(p, run) ==> Run(AsWritten, p, run) == Run(Repaired, p, run) && Inv(Run(AsWritten, p, run))
    decreases |run|
  {
    if run == [] {
    } else {
      var q := run[0];
      ServeKeeps(p, q);
      if q.Return? {
        ReleaseAsWritten(p, q.node);
        OwnedInTree(p, q.node);
      }
      if Serve(AsWritten, p, q) == Serve(Repaired, p, q) {
        SafeRunAsWritten(how, Serve(AsWritten, p, q), run[1..]);
      } else {
        assert !StaysConsistent(Serve(AsWritten, p, q), run[1..]);
      }
    }
  }

  const EMPTY: seq<nat> := []
  const TWO_OUT: Pool := Pool(2, {ROOT, Node(1, 0), Node(2, 0), Node(2, 1)}, [EMPTY, [1], EMPTY])
  const FOUR_OUT: Pool := Pool(2, TWO_OUT.bits + {Node(1, 1), Node(2, 2), Node(2, 3)}, [EMPTY, EMPTY, EMPTY])

  /** The first and second smallest blocks of a new pool of depth 2 are handed out. */
  lemma FirstTwo()
    ensures Serve(AsWritten, Serve(AsWritten, Create(2), Ask(2)), Ask(2)) == TWO_OUT
  {
    var p0 := Create(2);
    assert p0.free == [[0], EMPTY, EMPTY];
    assert p0.free[0][1..] == EMPTY;
    var t := Take(p0, 0).0;
    assert t.free == [EMPTY, EMPTY, EMPTY];
    var h := Halve(t, ROOT);
    assert Left(ROOT) == Node(1, 0) && Left(Node(1, 0)) == Node(2, 0);
    assert h.free == [EMPTY, [1], EMPTY];
    assert Halve(h, Node(1, 0)).free == [EMPTY, [1], [1]];
    assert Carve(t, ROOT, 2) == Carve(h, Node(1, 0), 2) == Carve(Halve(h, Node(1, 0)), Node(2, 0), 2);
    var p1 := Serve(AsWritten, p0, Ask(2));
    assert p1 == Pool(2, {ROOT, Node(1, 0), Node(2, 0)}, [EMPTY, [1], [1]]);
    var p2 := Serve(AsWritten, p1, Ask(2));
    assert p1.free[2][1..] == EMPTY;
    assert p2.free == [EMPTY, [1], EMPTY] && p2.bits == p1.bits + {Node(2, 1)};
  }

  /** Then the third and the fourth. */
  lemma LastTwo()
    ensures Serve(AsWritten, Serve(AsWritten, TWO_OUT, Ask(2)), Ask(2)) == FOUR_OUT
  {
    var p2 := TWO_OUT;
    var t := Take(p2, 1).0;
    assert p2.free[1][1..] == EMPTY;
    assert t.free == [EMPTY, EMPTY, EMPTY];
    assert Left(Node(1, 1)) == Node(2, 2);
    assert Halve(t, Node(1, 1)).free == [EMPTY, EMPTY, [3]];
    assert Carve(t, Node(1, 1), 2) == Carve(Halve(t, Node(1, 1)), Node(2, 2), 2);
    var p3 := Serve(AsWritten, p2, Ask(2));
    assert p3.free == [EMPTY, EMPTY, [3]] && p3.bits == p2.bits + {Node(1, 1), Node(2, 2)};
    var p4 := Serve(AsWritten, p3, Ask(2));
    assert p3.free[2][1..] == EMPTY;
    assert p4.free == [EMPTY, EMPTY, EMPTY] && p4.bits == p3.bits + {Node(2, 3)};
  }

  /** The second and the fourth are returned: neither merges. */
  lemma ReturnTwo(p4: Pool)
    requires p4.free == [EMPTY, EMPTY, EMPTY]
    requires {Node(2, 0), Node(2, 1), Node(2, 2), Node(2, 3)} <= p4.bits
    ensures var p6 := Serve(AsWritten, Serve(AsWritten, p4, Return(Node(2, 1))), Return(Node(2, 3)));
      p6 == p4.(bits := p4.bits - {Node(2, 1), Node(2, 3)}, free := [EMPTY, EMPTY, [3, 1]])
  {
    assert Buddy(Node(2, 1)) == Node(2, 0) && Push(EMPTY, 1) == [1];
    var p5 := Serve(AsWritten, p4, Return(Node(2, 1)));
    assert p5 == Merge(AsWritten, p4, Node(2, 1));
    assert p5.free == [EMPTY, EMPTY, [1]] && p5.bits == p4.bits - {Node(2, 1)};
    assert Buddy(Node(2, 3)) == Node(2, 2) && Push([1], 3) == [3, 1];
    var p6 := Serve(AsWritten, p5, Return(Node(2, 3)));
    assert p6 == Merge(AsWritten, p5, Node(2, 3));
    assert p6.free == [EMPTY, EMPTY, [3, 1]] && p6.bits == p5.bits - {Node(2, 3)};
  }

  /** The unsafe pool of `LastEntryStays` is reached from a new one, under the code as written, by
      four requests and two returns. */
  lemma UnsafePoolIsReached()
    ensures var p2 := Serve(AsWritten, Serve(AsWritten, Create(2), Ask(2)), Ask(2));
      var p4 := Serve(AsWritten, Serve(AsWritten, p2, Ask(2)), Ask(2));
      Serve(AsWritten, Serve(AsWritten, p4, Return(Node(2, 1))), Return(Node(2, 3))) == LAST_ENTRY
  {
    FirstTwo();
    LastTwo();
    ReturnTwo(FOUR_OUT);
    assert FOUR_OUT.bits - {Node(2, 1), Node(2, 3)} == LAST_ENTRY.bits;
  }
}
