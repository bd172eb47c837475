// The invariant of the kernel, and the lemmas about dispatching.
module KernelInv {
  import opened Seqs
  import opened Deadlines
  import opened Messages
  import opened TaskStates
  import opened Kernel
  import opened Syscalls

  // ---------------------------------------------------------------- the invariant

  predicate Ordinary(prio: nat) {
    HIGH <= prio <= LOWEST
  }

  /** One task: its kind fits its priority and state, a receive it is inside waits exactly while its
      ring is empty, and only a task that runs or waits for a message can have a stale link. */
  predicate TaskOk(k: Kernel, t: Tid)
    requires Shape(k)
  {
    var c := k.tcb[t];
    && (c.state == DORMANT ==> c.awaiting == None)
    && (c.state != DORMANT ==>
          && (c.rt ==> c.prio == PRIO_RT && 0 < c.period <= c.deadline && c.awaiting == None
                       && c.state in {READY, RUNNING, SUSPENDED})
          && (!c.rt ==> Ordinary(c.prio) && c.state != SUSPENDED))
    && (c.awaiting.Some? ==>
          && c.state in {BLK_RECV, READY, RUNNING}
          && k.box[t].active && (c.state == BLK_RECV <==> k.box[t].ring == []))
    && (c.state == BLK_RECV ==> c.awaiting.Some?)
    && (c.stale ==> !c.rt && c.state in {RUNNING, BLK_RECV})
    && (c.state == BLK_SEND ==>
          c.dest < NUM_BOXES && k.box[c.dest].active && |c.msg| <= k.box[c.dest].cap)
  }

  /** One mailbox, apart from the state of its waiting list. */
  predicate BoxOpen(k: Kernel, b: nat)
    requires Shape(k) && b < NUM_BOXES
  {
    && (k.box[b].active ==> HDR <= k.box[b].cap)
    && (!k.box[b].active ==> k.box[b].ring == [] && k.q[WaitOf(b)] == [])
  }

  /** One mailbox: if senders wait, the message of the first of them does not fit. */
  predicate BoxOk(k: Kernel, b: nat)
    requires Shape(k) && b < NUM_BOXES
  {
    && BoxOpen(k, b)
    && (k.q[WaitOf(b)] != [] ==> !Fitting(k.box[b], |k.tcb[k.q[WaitOf(b)][0]].msg|))
  }

  predicate NullOk(k: Kernel)
    requires Shape(k)
  {
    var c := k.tcb[TID_NULL];
    c.prio == PRIO_NULL && !c.rt && !c.stale && c.awaiting == None && c.state in {READY, RUNNING}
  }

  ghost predicate TasksOk(k: Kernel)
    requires Shape(k)
  {
    NullOk(k) && forall t: Tid :: t != TID_NULL ==> TaskOk(k, t)
  }

  ghost predicate BoxesOkBut(k: Kernel, x: nat)
    requires Shape(k)
  {
    forall b :: 0 <= b < NUM_BOXES ==> BoxOpen(k, b) && (b != x ==> BoxOk(k, b))
  }

  ghost predicate Sorted(k: Kernel)
    requires Shape(k)
  {
    Ascending(Ds(k, k.q[0]))
  }

  /** Everything the kernel keeps, while task `c` is the one that runs and mailbox `x` may be in the
      middle of a receive. */
  ghost predicate Mid(k: Kernel, c: Tid, x: nat)
    requires Shape(k)
  {
    !k.fault && Placed(k) && OnlyRunning(k, c) && TasksOk(k) && BoxesOkBut(k, x) && Sorted(k)
  }

  /** Nobody runs: the current task has been put where it belongs and the next is to be chosen. */
  ghost predicate Idle(k: Kernel)
    requires Shape(k)
  {
    Mid(k, TID_NULL, NUM_BOXES)
  }

  ghost predicate Inv(k: Kernel) {
    Shape(k) && Mid(k, k.cur, NUM_BOXES)
  }

  lemma TaskIsOk(k: Kernel, t: Tid)
    requires Inv(k)
    ensures Shape(k) && (t != TID_NULL ==> TaskOk(k, t) && (k.tcb[t].state == RUNNING <==> t == k.cur))
  {
  }

  /** The task can go to the front of its ready queue: it has no stale link, or the queue is not empty,
      so that its link is written. */
  predicate MayLead(k: Kernel, t: Tid)
    requires Shape(k)
  {
    k.tcb[t].stale ==> ReadyOf(k.tcb[t].prio) >= 0 && k.q[ReadyOf(k.tcb[t].prio)] != []
  }

  /** No ready task has a higher priority than the running one. */
  ghost predicate PrioritySafe(k: Kernel)
    requires Shape(k)
  {
    forall i :: 0 <= i < NUM_READY && i < Order(Current(k).prio) ==> k.q[i] == []
  }

  /** No ready real-time job has an earlier deadline than a running one, and none is ready while an
      ordinary task, or the null task, runs. */
  ghost predicate EdfSafe(k: Kernel)
    requires Shape(k)
  {
    if Current(k).rt then forall t: Tid :: t in k.q[0] ==> Current(k).deadline <= k.tcb[t].deadline
    else k.q[0] == []
  }

  // ---------------------------------------------------------------- choosing the next task

  /** `r` is `k` with the first task of the first ready queue running. */
  ghost predicate RanTo(k: Kernel, r: Kernel)
    requires Shape(k)
  {
    && Shape(r) && r.box == k.box && r.now == k.now && r.fault == k.fault
    && (var f := FirstReady(k);
        if f < NUM_READY then r.cur == k.q[f][0] && r.q == k.q[f := k.q[f][1..]] else r.cur == TID_NULL && r.q == k.q)
    && (forall t: Tid :: t != TID_NULL ==>
          r.tcb[t] == if t == r.cur then k.tcb[t].(state := RUNNING) else k.tcb[t])
    && r.tcb[TID_NULL] == k.tcb[TID_NULL].(state := r.tcb[TID_NULL].state)
    && r.tcb[TID_NULL].state in {READY, RUNNING}
  }

  lemma ReadyMember(k: Kernel, i: nat, t: Tid)
    requires Shape(k) && Placed(k) && i < NUM_READY && t in k.q[i]
    ensures t != TID_NULL && k.tcb[t].state == READY && Order(k.tcb[t].prio) == i
  {
    assert QueueIs(k, TID_NULL, i);
    assert Lives(k, TID_NULL, i, t);
  }

  lemma DispatchRuns(k: Kernel)
    requires Shape(k) && Idle(k)
    ensures RanTo(k, Dispatch(k))
  {
    var f := FirstReady(k);
    if f < NUM_READY {
      assert k.q[f][0] in k.q[f];
      ReadyMember(k, f, k.q[f][0]);
    }
  }

  /** What the task that stops is left with: it was put where it belongs, so nothing changes. */
  lemma StoppedStays(k: Kernel, r: Kernel, c: Tid)
    requires Shape(k) && Idle(k) && RanTo(k, r) && c != r.cur && k.tcb[c].state != DORMANT
    ensures r.tcb[c].state in {BLK_RECV, BLK_SEND, SUSPENDED, READY} || c == TID_NULL
    ensures r.tcb[c].state !in {BLK_RECV, BLK_SEND, SUSPENDED} ==> RanTo(k, SetState(r, c, READY))
  {
    assert c != TID_NULL ==> k.tcb[c].state != RUNNING;
  }

  lemma RunNewRuns(k: Kernel)
    requires Shape(k) && Idle(k) && !Current(k).rt && Current(k).state != DORMANT
    ensures RanTo(k, RunNew(k))
  {
    var f := FirstReady(k);
    var (s, t) := Scheduler(k);
    if f < NUM_READY {
      assert t in k.q[f];
      ReadyMember(k, f, t);
    }
    if t == k.cur {
      assert RanTo(k, s.(cur := t));
    } else {
      var r := SetState(s.(cur := t), t, RUNNING);
      assert RanTo(k, r);
      StoppedStays(k, r, k.cur);
    }
  }

  lemma SortedTail(k: Kernel, r: Kernel)
    requires Shape(k) && Shape(r) && Sorted(k) && k.q[0] != [] && r.q[0] == k.q[0][1..]
    requires forall t: Tid :: r.tcb[t].deadline == k.tcb[t].deadline
    ensures Sorted(r)
    ensures forall t: Tid :: t in r.q[0] ==> k.tcb[k.q[0][0]].deadline <= k.tcb[t].deadline
  {
    var ds := Ds(k, k.q[0]);
    assert Ds(r, r.q[0]) == ds[1..];
    forall t: Tid | t in r.q[0]
      ensures k.tcb[k.q[0][0]].deadline <= k.tcb[t].deadline
    {
      var i :| 0 <= i < |r.q[0]| && r.q[0][i] == t;
      assert ds[0] <= ds[i + 1];
    }
  }

  lemma SortedSame(k: Kernel, r: Kernel)
    requires Shape(k) && Shape(r) && Sorted(k) && r.q[0] == k.q[0]
    requires forall t: Tid :: t in k.q[0] ==> r.tcb[t].deadline == k.tcb[t].deadline
    ensures Sorted(r)
  {
    assert forall i :: 0 <= i < |k.q[0]| ==> k.q[0][i] in k.q[0];
    assert Ds(r, r.q[0]) == Ds(k, k.q[0]);
  }

  lemma RanPlaced(k: Kernel, r: Kernel)
    requires Shape(k) && Idle(k) && RanTo(k, r)
    ensures Placed(r) && OnlyRunning(r, r.cur)
  {
    var f := FirstReady(k);
    if f < NUM_READY {
      var t := k.q[f][0];
      assert t in k.q[f];
      ReadyMember(k, f, t);
      assert IndexOf(k.q[f], t) == 0 && RemoveAt(k.q[f], 0) == k.q[f][1..];
      Leave(k, r, t, f);
      Change(r, r, t);
    } else {
      Change(k, r, TID_NULL);
    }
  }

  /** Choosing the next task restores the invariant, and whatever ran before, the running task now
      has the highest priority, and among real-time jobs the earliest deadline. */
  lemma RanKeeps(k: Kernel, r: Kernel)
    requires Shape(k) && Idle(k) && RanTo(k, r)
    ensures Inv(r) && PrioritySafe(r) && EdfSafe(r)
  {
    var f := FirstReady(k);
    RanPlaced(k, r);
    forall t: Tid | t != TID_NULL
      ensures TaskOk(r, t)
    {
      assert TaskOk(k, t);
      if t == r.cur {
        assert t in k.q[f];
        ReadyMember(k, f, t);
      }
    }
    forall b | 0 <= b < NUM_BOXES
      ensures BoxOpen(r, b) && BoxOk(r, b)
    {
      assert BoxOpen(k, b) && BoxOk(k, b);
      assert r.q[WaitOf(b)] == k.q[WaitOf(b)];
    }
    if f < NUM_READY {
      assert r.cur in k.q[f];
      ReadyMember(k, f, r.cur);
    }
    if f == 0 {
      SortedTail(k, r);
      assert TaskOk(k, r.cur);
    } else {
      SortedSame(k, r);
    }
  }
}
