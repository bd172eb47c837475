// Real-time tasks and the timer interrupt keep the invariant; the interrupt enforces the deadline
// order.
module KernelRealTime {
  import opened Powers
  import opened Readings
  import opened Seqs
  import opened Deadlines
  import opened Messages
  import opened TaskStates
  import opened Kernel
  import opened Syscalls
  import opened KernelInv
  import opened KernelSteps

  // ---------------------------------------------------------------- sorted insertion

  /** `r` is `k` with the real-time task `t` put in at the place of its deadline. */
  ghost predicate EnteredSorted(k: Kernel, r: Kernel, t: Tid, i: nat, s: State)
    requires Shape(k)
  {
    && Shape(r) && i < NUM_QUEUES
    && r == k.(q := k.q[i := InsertAt(k.q[i], Position(Ds(k, k.q[i]), k.tcb[t].deadline), t)],
               tcb := k.tcb[t := k.tcb[t].(state := s, stale := false)])
  }

  lemma InsertDeadlines(k: Kernel, s: seq<Tid>, p: nat, t: Tid)
    requires Shape(k) && p <= |s|
    ensures Ds(k, InsertAt(s, p, t)) == InsertAt(Ds(k, s), p, k.tcb[t].deadline)
  {
  }

  lemma EnteredSortedKeeps(k: Kernel, r: Kernel, t: Tid, i: nat, s: State)
    requires Shape(k) && PlacedBut(k, t) && Sorted(k) && t != TID_NULL && EnteredSorted(k, r, t, i, s)
    requires Home(r.tcb[t]) == Some(i) && (i == 0 || i >= NUM_READY)
    ensures Placed(r) && Sorted(r)
  {
    var p := Position(Ds(k, k.q[i]), k.tcb[t].deadline);
    Enter(k, r, t, i, p);
    if i == 0 {
      InsertDeadlines(k, k.q[0], p, t);
      InsertAscending(Ds(k, k.q[0]), k.tcb[t].deadline);
      assert Ds(r, r.q[0]) == Ds(k, InsertAt(k.q[0], p, t));
    } else {
      assert Ds(r, r.q[0]) == Ds(k, k.q[0]);
    }
  }

  lemma LastInserted(s: seq<Tid>, p: nat, t: Tid)
    requires p <= |s|
    ensures var r := InsertAt(s, p, t); |r| == |s| + 1 && r[|s|] == if p < |s| then s[|s| - 1] else t
  {
  }

  lemma TailJob(k: Kernel, t: Tid)
    requires Shape(k) && k.tcb[t].rt && k.tcb[t].prio == PRIO_RT && k.tcb[t].state !in {BLK_SEND, SUSPENDED}
    ensures var s, l := InsertAt(k.q[0], Position(Ds(k, k.q[0]), k.tcb[t].deadline), t), Relinked(k, t);
      var last := s[|s| - 1];
      PushTail(k, t, 0) == l.(q := k.q[0 := s], tcb := l.tcb[last := l.tcb[last].(state := READY)])
  {
    hide Position;
  }

  /** `push_tail` of a ready real-time task onto the real-time queue, written out. */
  lemma TailReady(k: Kernel, t: Tid)
    requires Shape(k) && k.tcb[t].rt && k.tcb[t].prio == PRIO_RT && k.tcb[t].state !in {BLK_SEND, SUSPENDED}
    requires forall s: Tid :: s in k.q[0] ==> k.tcb[s].state == READY
    ensures EnteredSorted(k, SetState(PushTail(k, t, 0), t, READY), t, 0, READY)
    ensures k.tcb[t].state == READY ==> EnteredSorted(k, PushTail(k, t, 0), t, 0, READY)
  {
    hide PushTail, Position, Ds, InsertAt, Flatten;
    var p := Position(Ds(k, k.q[0]), k.tcb[t].deadline);
    var s := InsertAt(k.q[0], p, t);
    LastInserted(k.q[0], p, t);
    var last := s[|s| - 1];
    TailJob(k, t);
    assert last == t || k.tcb[last].state == READY;
    MarkedAgain(k, t, last);
  }

  /** Marking the last task and then `t` as ready, if the last was ready or is `t`. */
  lemma MarkedAgain(k: Kernel, t: Tid, last: Tid)
    requires Shape(k) && (last == t || k.tcb[last].state == READY)
    ensures var l := Relinked(k, t);
      var marked := l.tcb[last := l.tcb[last].(state := READY)];
      && marked[t := marked[t].(state := READY)] == k.tcb[t := Queued(k.tcb[t])]
      && (k.tcb[t].state == READY ==> marked == k.tcb[t := Queued(k.tcb[t])])
  {
    hide Flatten;
  }

  lemma AllReady(k: Kernel)
    requires Shape(k) && Placed(k)
    ensures forall s: Tid :: s in k.q[0] ==> k.tcb[s].state == READY
  {
    forall s: Tid | s in k.q[0]
      ensures k.tcb[s].state == READY
    {
      ReadyMember(k, 0, s);
    }
  }

  // ---------------------------------------------------------------- becoming real-time, suspending

  /** The current task with its new kind, priority and deadline, not queued yet. */
  function Promoted(k: Kernel, usec: nat): Kernel
    requires Shape(k)
  {
    var period := usec / 500;
    k.(tcb := k.tcb[k.cur := Current(k).(
      rt := true, period := period, deadline := k.now + 1 + period, prio := PRIO_RT, state := READY)])
  }

  lemma RtSetForm(k: Kernel, usec: nat)
    requires Shape(k) && !Current(k).rt
    ensures RtSet(k, usec).0 == Dispatch(PushTail(Promoted(k, usec), k.cur, 0))
  {
    hide PushTail, Dispatch;
  }

  lemma PromotedKeeps(k: Kernel, usec: nat)
    requires Inv(k) && k.cur != TID_NULL && !Current(k).rt && Current(k).awaiting == None && usec >= 500
    ensures var e := PushTail(Promoted(k, usec), k.cur, 0);
      Shape(e) && Idle(e)
  {
    var t, m := k.cur, Promoted(k, usec);
    assert TaskOk(k, t);
    Homeless(k, t);
    Change(k, m, t);
    SortedChange(k, m, t);
    AllReady(k);
    assert t !in k.q[0] by {
      assert QueueIs(k, t, 0);
    }
    TailReady(m, t);
    var e := PushTail(m, t, 0);
    EnteredSortedKeeps(m, e, t, 0, READY);
    OthersOk(k, e, t, NUM_BOXES);
    hide PushTail;
  }

  /** With a period of at least one tick of 500 microseconds, a task that becomes real-time is placed
      by its deadline, and the earliest deadline runs. */
  lemma RtSetKeeps(k: Kernel, usec: nat)
    requires Inv(k) && Enabled(k, OpRtSet(usec)) && usec >= 500
    ensures var r := RtSet(k, usec).0;
      && Inv(r)
      && (Current(k).rt ==> r == k) && (!Current(k).rt ==> PrioritySafe(r) && EdfSafe(r))
  {
    if !Current(k).rt {
      PromotedKeeps(k, usec);
      var e := PushTail(Promoted(k, usec), k.cur, 0);
      DispatchRuns(e);
      RanKeeps(e, Dispatch(e));
    }
  }

  lemma NextDeadlineGrows(d: nat, p: nat, now: nat)
    requires 0 < p
    ensures NextDeadline(d, p, now) >= d + p
  {
    if d < now {
      var m := (now - d) / p;
      assert (m + 1) * p >= p by {
        MulMonotone(1, m + 1, p);
      }
    }
  }

  /** The current real-time task, suspended and with its next deadline, not queued yet. */
  function Resting(k: Kernel): Kernel
    requires Shape(k) && Current(k).period > 0
  {
    k.(tcb := k.tcb[k.cur := Current(k).(
      state := SUSPENDED, deadline := NextDeadline(Current(k).deadline, Current(k).period, k.now))])
  }

  lemma RestingKeeps(k: Kernel)
    requires Inv(k) && k.cur != TID_NULL && Current(k).rt
    ensures Current(k).period > 0
    ensures var m := Resting(k);
      var e := PushTail(m, k.cur, SUSP);
      && Shape(e) && Idle(e)
      && e.q == k.q[SUSP := InsertAt(k.q[SUSP], Position(Ds(k, k.q[SUSP]), m.tcb[k.cur].deadline), k.cur)]
  {
    var t, c := k.cur, Current(k);
    assert TaskOk(k, t);
    NextDeadlineGrows(c.deadline, c.period, k.now);
    var m := Resting(k);
    Homeless(k, t);
    Change(k, m, t);
    SortedChange(k, m, t);
    var e := PushTail(m, t, SUSP);
    assert m.tcb[t := m.tcb[t].(state := SUSPENDED)] == m.tcb;
    EnteredSortedKeeps(m, e, t, SUSP, SUSPENDED);
    OthersOk(k, e, t, NUM_BOXES);
    assert t !in k.q[SUSP] by {
      assert QueueIs(k, t, SUSP);
    }
    OthersDeadlines(k, m, k.q[SUSP]);
  }

  lemma OthersDeadlines(k: Kernel, m: Kernel, ts: seq<Tid>)
    requires Shape(k) && Shape(m) && k.cur !in ts && forall t: Tid :: t != k.cur ==> m.tcb[t] == k.tcb[t]
    ensures Ds(m, ts) == Ds(k, ts)
  {
    assert forall i :: 0 <= i < |ts| ==> ts[i] in ts;
  }

  lemma RtSuspKeeps(k: Kernel)
    requires Inv(k) && Enabled(k, OpRtSusp)
    ensures var r := RtSusp(k).0;
      && Inv(r)
      && (!Current(k).rt ==> r == k) && (Current(k).rt ==> PrioritySafe(r) && EdfSafe(r))
  {
    if Current(k).rt {
      RestingKeeps(k);
      var e := PushTail(Resting(k), k.cur, SUSP);
      DispatchRuns(e);
      RanKeeps(e, Dispatch(e));
      hide PushTail, Dispatch, Inv, Mid, NextDeadline;
    }
  }

  // ---------------------------------------------------------------- the release loop

  lemma SuspendedMember(k: Kernel, t: Tid)
    requires Shape(k) && Placed(k) && TasksOk(k) && t in k.q[SUSP]
    ensures t != TID_NULL && k.tcb[t].state == SUSPENDED && k.tcb[t].rt && k.tcb[t].prio == PRIO_RT && TaskOk(k, t)
  {
    assert QueueIs(k, TID_NULL, SUSP);
    assert Lives(k, TID_NULL, SUSP, t);
    assert TaskOk(k, t);
  }

  /** One due task moves from the suspended list to its place among the ready real-time jobs. */
  lemma ReleaseTaskKeeps(k: Kernel, t: Tid)
    requires Inv(k) && t in k.q[SUSP]
    ensures var r := ReleaseTask(k, t);
      && Inv(r) && r.cur == k.cur && r.now == k.now && r.box == k.box
      && r.q[SUSP] == (if IsDue(k.tcb[t], k.now) then Remove(k.q[SUSP], t) else k.q[SUSP])
      && (forall s: Tid :: s in r.q[0] <==> s in k.q[0] || (s == t && IsDue(k.tcb[t], k.now)))
      && (forall j :: 1 <= j < SUSP ==> r.q[j] == k.q[j])
      && (forall s: Tid :: r.tcb[s] == k.tcb[s].(state := r.tcb[s].state) && (s != t ==> r.tcb[s] == k.tcb[s]))
  {
    SuspendedMember(k, t);
    if IsDue(k.tcb[t], k.now) {
      ReleaseDueKeeps(k, t);
      var p := Position(Ds(k, k.q[0]), k.tcb[t].deadline);
      InsertFacts(k.q[0], p, t);
      hide Inv, ReleaseTask;
    }
  }

  lemma ReleaseDueKeeps(k: Kernel, t: Tid)
    requires Inv(k) && t in k.q[SUSP] && IsDue(k.tcb[t], k.now)
    ensures var r := ReleaseTask(k, t);
      && Inv(r) && r.cur == k.cur && r.now == k.now && r.box == k.box && t !in k.q[0] && NoDup(k.q[0])
      && r.tcb == k.tcb[t := k.tcb[t].(state := READY)]
      && r.q == k.q[SUSP := Remove(k.q[SUSP], t)]
                   [0 := InsertAt(k.q[0], Position(Ds(k, k.q[0]), k.tcb[t].deadline), t)]
  {
    hide PushTail, PopTask, Position;
    SuspendedMember(k, t);
    var out := SetState(PopTask(AsWritten, k, t, SUSP), t, READY);
    var r := ReleaseTask(k, t);
    TakenOut(k, t);
    AllReady(k);
    TailReady(out, t);
    EnteredSortedKeeps(out, r, t, 0, READY);
    OthersOk(k, r, t, NUM_BOXES);
    assert QueueIs(k, TID_NULL, 0) && !Lives(k, TID_NULL, 0, t);
    assert Ds(out, k.q[0]) == Ds(k, k.q[0]);
  }

  /** A suspended task leaves the suspended list and is ready. */
  lemma TakenOut(k: Kernel, t: Tid)
    requires Inv(k) && t in k.q[SUSP]
    ensures var out := SetState(PopTask(AsWritten, k, t, SUSP), t, READY);
      && out == k.(q := k.q[SUSP := Remove(k.q[SUSP], t)],
                   tcb := k.tcb[t := k.tcb[t].(state := READY, stale := InMiddle(k.q[SUSP], t))])
      && PlacedBut(out, t) && Sorted(out)
  {
    SuspendedMember(k, t);
    assert k.tcb[t].(stale := false) == k.tcb[t];
    var out := SetState(PopTask(AsWritten, k, t, SUSP), t, READY);
    Leave(k, out, t, SUSP);
    AllReady(k);
    SortedSame(k, out);
  }

  /** The release loop visits every suspended task once.  It moves exactly those whose next period
      has begun; nothing else changes. */
  lemma {:induction false} ReleaseAllKeeps(k: Kernel, ts: seq<Tid>)
    requires Inv(k) && NoDup(ts) && forall t: Tid :: t in ts ==> t in k.q[SUSP]
    ensures var r := ReleaseAll(k, ts);
      && Inv(r) && r.cur == k.cur && r.now == k.now && r.box == k.box
      && (forall s: Tid :: s in r.q[SUSP] <==> s in k.q[SUSP] && !(s in ts && IsDue(k.tcb[s], k.now)))
      && (forall s: Tid :: s in r.q[0] <==> s in k.q[0] || (s in ts && IsDue(k.tcb[s], k.now)))
      && (forall j :: 1 <= j < SUSP ==> r.q[j] == k.q[j])
      && (forall s: Tid :: r.tcb[s] == k.tcb[s].(state := r.tcb[s].state) && (s !in ts ==> r.tcb[s] == k.tcb[s]))
    decreases |ts|
  {
    if ts == [] {
    } else {
      var t := ts[0];
      var n := ReleaseTask(k, t);
      ReleaseTaskKeeps(k, t);
      TailFacts(ts);
      assert NoDup(k.q[SUSP]);
      RemoveFacts(k.q[SUSP], t);
      ReleaseAllKeeps(n, ts[1..]);
    }
  }

  // ---------------------------------------------------------------- the decision

  /** Taking the head of the ready queues and putting it back changes nothing. */
  lemma PutBack(k: Kernel)
    requires Inv(k) && FirstReady(k) < NUM_READY
    ensures var (s, h) := Scheduler(k);
      && h == k.q[FirstReady(k)][0] && h != TID_NULL && s.cur == k.cur
      && s.tcb == k.tcb[h := k.tcb[h].(state := RUNNING)]
      && PushHead(s, h, ReadyOf(s.tcb[h].prio)) == k
  {
    var f := FirstReady(k);
    var (s, h) := Scheduler(k);
    assert h in k.q[f];
    ReadyMember(k, f, h);
    assert TaskOk(k, h);
    assert [h] + k.q[f][1..] == k.q[f];
    assert k.q[f := k.q[f][1..]][f := k.q[f]] == k.q;
    assert Queued(k.tcb[h]) == k.tcb[h];
    assert s.tcb[h := k.tcb[h]] == k.tcb;
    HeadOrdinary(s, h, f);
    hide PushHead;
  }

  /** A real-time job takes over from an ordinary task. */
  predicate JobTakesOver(k: Kernel)
    requires Shape(k)
  {
    k.cur != TID_NULL && !Current(k).rt && k.q[0] != []
  }

  /** The running ordinary task makes way for the first real-time job. */
  lemma StopOrdinary(k: Kernel)
    requires Inv(k) && JobTakesOver(k) && MayLead(k, k.cur)
    ensures var r := Decide(AsWritten, k);
      && r == Decide(Repaired, k) && Inv(r) && PrioritySafe(r) && EdfSafe(r)
  {
    var c, h := k.cur, k.q[0][0];
    assert TaskOk(k, c);
    var i := ReadyOf(k.tcb[c].prio);
    var m := PushHead(k, c, i);
    assert h in k.q[0];
    ReadyMember(k, 0, h);
    assert TaskOk(k, h);
    StopOrdinaryForm(k, h);
    HeadOrdinary(k, c, i);
    StopKeeps(k, NUM_BOXES);
    hide PushHead, Decide, Mid;
    DispatchRuns(m);
    RanKeeps(m, Dispatch(m));
    DispatchForm(m, 0, h);
  }

  lemma StopOrdinaryForm(k: Kernel, h: Tid)
    requires Shape(k) && JobTakesOver(k) && h == k.q[0][0]
    requires h != k.cur && k.tcb[h].rt && k.tcb[h].state == READY && h != TID_NULL
    requires 0 < ReadyOf(Current(k).prio) && Current(k).state == RUNNING
    ensures var m := PushHead(k, k.cur, ReadyOf(Current(k).prio));
      var r := m.(cur := h, q := m.q[0 := m.q[0][1..]], tcb := m.tcb[h := m.tcb[h].(state := RUNNING)]);
      && (MayLead(k, k.cur) ==> forall how :: Decide(how, k) == r)
      && (!MayLead(k, k.cur) ==> forall how :: Decide(how, k).fault)
  {
    var c, i := k.cur, ReadyOf(Current(k).prio);
    var s := SetState(PopHead(k, 0), c, READY);
    var n := PushHead(s, c, i);
    assert Scheduler(k) == (PopHead(k, 0), h);
    HeadOrdinary(k, c, i);
    HeadOrdinary(s, c, i);
    var m := PushHead(k, c, i);
    forall how
      ensures Decide(how, k) == SetState(n.(cur := h), h, RUNNING)
    {
      hide PushHead, PopHead, Scheduler;
    }
    if MayLead(k, c) {
      assert n.q == m.q[0 := m.q[0][1..]];
      assert n.tcb[h := n.tcb[h].(state := RUNNING)] == m.tcb[h := m.tcb[h].(state := RUNNING)];
    }
    hide PushHead, Decide, Scheduler;
  }

  /** Otherwise the stale link of the task that is stopped gets into its queue. */
  lemma StopFaults(k: Kernel)
    requires Inv(k) && JobTakesOver(k) && !MayLead(k, k.cur)
    ensures forall how :: Decide(how, k).fault
  {
    var h := k.q[0][0];
    assert TaskOk(k, k.cur);
    assert h in k.q[0];
    ReadyMember(k, 0, h);
    assert TaskOk(k, h);
    StopOrdinaryForm(k, h);
    hide Decide, PushHead;
  }

  /** A later running real-time task, queued at the place of its deadline, stays behind the head. */
  lemma StopRealTime(k: Kernel)
    requires Inv(k) && k.cur != TID_NULL && Current(k).rt && k.q[0] != []
    requires k.tcb[k.q[0][0]].deadline < Current(k).deadline
    ensures var r := Decide(AsWritten, k);
      && r == Decide(Repaired, k) && Inv(r) && PrioritySafe(r) && EdfSafe(r) && r.now == k.now
  {
    var c, h := k.cur, k.q[0][0];
    assert TaskOk(k, c);
    assert h in k.q[0];
    ReadyMember(k, 0, h);
    assert TaskOk(k, h);
    AllReady(k);
    TailReady(k, c);
    Homeless(k, c);
    var m := SetState(PushTail(k, c, 0), c, READY);
    EnteredSortedKeeps(k, m, c, 0, READY);
    OthersOk(k, m, c, NUM_BOXES);
    DispatchRuns(m);
    RanKeeps(m, Dispatch(m));
    assert NoDup(k.q[0]);
    StopRealTimeForm(k, h);
  }

  /** Where a task of that deadline goes, without the head and with it. */
  lemma BehindHead(k: Kernel, s: Kernel, c: Tid)
    requires Shape(k) && Shape(s) && k.q[0] != [] && s.q[0] == k.q[0][1..]
    requires forall t: Tid :: s.tcb[t].deadline == k.tcb[t].deadline
    requires k.tcb[k.q[0][0]].deadline < k.tcb[c].deadline
    ensures var p := Position(Ds(k, k.q[0]), k.tcb[c].deadline);
      && p > 0 && Position(Ds(s, s.q[0]), s.tcb[c].deadline) == p - 1
      && InsertAt(k.q[0], p, c) == [k.q[0][0]] + InsertAt(s.q[0], p - 1, c)
  {
    var ds := Ds(k, k.q[0]);
    assert Ds(s, s.q[0]) == ds[1..];
    assert ds[0] == k.tcb[k.q[0][0]].deadline;
    PositionUnique(ds[1..], k.tcb[c].deadline, Position(ds, k.tcb[c].deadline) - 1);
  }

  /** Popping the head first and then queueing the task comes to the same. */
  lemma StopRealTimeForm(k: Kernel, h: Tid)
    requires Shape(k) && k.cur != TID_NULL && Current(k).rt && Current(k).prio == PRIO_RT && Current(k).state == RUNNING
    requires k.q[0] != [] && h == k.q[0][0] && h != k.cur && h != TID_NULL && NoDup(k.q[0])
    requires k.tcb[h].rt && k.tcb[h].deadline < Current(k).deadline
    requires forall s: Tid :: s in k.q[0] ==> k.tcb[s].state == READY
    ensures var m := SetState(PushTail(k, k.cur, 0), k.cur, READY);
      forall how :: Decide(how, k) == Dispatch(m)
  {
    var c := k.cur;
    var s := PopHead(k, 0);
    var n := SetState(PushTail(s, c, 0), c, READY);
    forall how
      ensures Decide(how, k) == SetState(n.(cur := h), h, RUNNING)
    {
      LaterDecides(how, k, h);
    }
    QueuedBehind(k, h);
    hide Decide, PushTail, PopHead;
    var m := SetState(PushTail(k, c, 0), c, READY);
    FirstReadyIs(m, 0);
    DispatchForm(m, 0, h);
    hide Dispatch;
  }

  lemma LaterDecides(how: Reading, k: Kernel, h: Tid)
    requires Shape(k) && k.cur != TID_NULL && Current(k).rt && Current(k).state == RUNNING
    requires k.q[0] != [] && h == k.q[0][0] && h != k.cur
    requires k.tcb[h].rt && k.tcb[h].deadline < Current(k).deadline
    ensures var n := SetState(PushTail(PopHead(k, 0), k.cur, ReadyOf(Current(k).prio)), k.cur, READY);
      Decide(how, k) == SetState(n.(cur := h), h, RUNNING)
  {
    assert Scheduler(k) == (PopHead(k, 0), h);
    hide PushTail, PushHead, Scheduler;
  }

  lemma JobPopped(k: Kernel, h: Tid)
    requires Shape(k) && k.q[0] != [] && h == k.q[0][0] && k.tcb[h].state == READY
    ensures PopHead(k, 0) == k.(q := k.q[0 := k.q[0][1..]], tcb := k.tcb[h := k.tcb[h].(state := RUNNING)])
  {
  }

  /** The queues and tasks after both orders of the two steps. */
  lemma QueuedBehind(k: Kernel, h: Tid)
    requires Shape(k) && Current(k).rt && Current(k).prio == PRIO_RT && Current(k).state == RUNNING
    requires k.q[0] != [] && h == k.q[0][0] && h != k.cur && NoDup(k.q[0])
    requires k.tcb[h].deadline < Current(k).deadline
    requires forall s: Tid :: s in k.q[0] ==> k.tcb[s].state == READY
    ensures var m := SetState(PushTail(k, k.cur, 0), k.cur, READY);
      var n := SetState(PushTail(PopHead(k, 0), k.cur, 0), k.cur, READY);
      && m.q[0] != [] && m.q[0][0] == h && m.tcb[h].state == READY
      && SetState(n.(cur := h), h, RUNNING)
           == m.(cur := h, q := m.q[0 := m.q[0][1..]], tcb := m.tcb[h := m.tcb[h].(state := RUNNING)])
  {
    hide PushTail, PopHead, Position, NoDup;
    var c, s := k.cur, PopHead(k, 0);
    assert h in k.q[0];
    JobPopped(k, h);
    BehindHead(k, s, c);
    TailFacts(k.q[0]);
    TailReady(k, c);
    TailReady(s, c);
    var m, n := SetState(PushTail(k, c, 0), c, READY), SetState(PushTail(s, c, 0), c, READY);
    assert n.q == m.q[0 := m.q[0][1..]];
    assert n.tcb[h := n.tcb[h].(state := RUNNING)] == m.tcb[h := m.tcb[h].(state := RUNNING)];
  }

  // ---------------------------------------------------------------- the interrupt as a whole

  /** As `PrioritySafe`, apart from ready real-time jobs. */
  ghost predicate OrdinarySafe(k: Kernel)
    requires Shape(k)
  {
    forall i :: 1 <= i < NUM_READY && i < Order(Current(k).prio) ==> k.q[i] == []
  }

  /** The handler would push the null task. */
  predicate NothingBehind(k: Kernel)
    requires Shape(k)
  {
    k.cur != TID_NULL && Current(k).rt && FirstReady(k) == NUM_READY
  }

  /** After the decision no queued real-time job is more urgent than what runs, unless an ordinary
      task is to be stopped that cannot lead its queue. */
  lemma DecideKeeps(k: Kernel)
    requires Inv(k)
    ensures var r := Decide(Repaired, k);
      if JobTakesOver(k) && !MayLead(k, k.cur) then r.fault && Decide(AsWritten, k).fault
      else Inv(r) && EdfSafe(r) && (OrdinarySafe(k) ==> PrioritySafe(r))
    ensures !(JobTakesOver(k) && !MayLead(k, k.cur)) ==>
      Decide(AsWritten, k) == if NothingBehind(k) then k.(fault := true) else Decide(Repaired, k)
  {
    var f := FirstReady(k);
    if k.cur == TID_NULL {
      DecideNull(k);
    } else if JobTakesOver(k) {
      if MayLead(k, k.cur) {
        StopOrdinary(k);
      } else {
        StopFaults(k);
      }
      hide Decide, Inv;
    } else {
      assert TaskOk(k, k.cur);
      if f < NUM_READY {
        var h := k.q[f][0];
        assert h in k.q[f];
        ReadyMember(k, f, h);
        assert TaskOk(k, h);
        if f == 0 && k.tcb[h].deadline < Current(k).deadline {
          StopRealTime(k);
          hide Decide;
        } else {
          PutBack(k);
          if f == 0 {
            HeadIsEarliest(k);
          }
          hide PushHead, Scheduler, Mid;
        }
      }
    }
  }

  lemma DecideNull(k: Kernel)
    requires Inv(k) && k.cur == TID_NULL
    ensures forall how :: Decide(how, k) == Decide(Repaired, k)
    ensures var r := Decide(Repaired, k); Inv(r) && EdfSafe(r) && PrioritySafe(r)
  {
    var f := FirstReady(k);
    if f < NUM_READY {
      assert k.q[f][0] in k.q[f];
      ReadyMember(k, f, k.q[f][0]);
      DispatchRuns(k);
      RanKeeps(k, Dispatch(k));
    }
  }

  lemma HeadIsEarliest(k: Kernel)
    requires Shape(k) && Sorted(k) && k.q[0] != []
    ensures forall t: Tid :: t in k.q[0] ==> k.tcb[k.q[0][0]].deadline <= k.tcb[t].deadline
  {
    forall t: Tid | t in k.q[0]
      ensures k.tcb[k.q[0][0]].deadline <= k.tcb[t].deadline
    {
      var i :| 0 <= i < |k.q[0]| && k.q[0][i] == t;
      assert Ds(k, k.q[0])[0] <= Ds(k, k.q[0])[i];
    }
  }

  /** The state after the release loop. */
  function Released(k: Kernel, now: nat): (r: Kernel)
    requires Shape(k)
    ensures Shape(r)
  {
    ReleaseAll(k.(now := now), k.q[SUSP])
  }

  lemma ReleasedKeeps(k: Kernel, now: nat)
    requires Inv(k) && k.now <= now
    ensures var r := Released(k, now);
      && Inv(r) && r.cur == k.cur && r.now == now && r.box == k.box
      && (forall s: Tid :: s in r.q[SUSP] <==> s in k.q[SUSP] && !IsDue(k.tcb[s], now))
      && (forall s: Tid :: s in r.q[0] <==> s in k.q[0] || (s in k.q[SUSP] && IsDue(k.tcb[s], now)))
      && (forall j :: 1 <= j < SUSP ==> r.q[j] == k.q[j])
      && (forall s: Tid :: r.tcb[s] == k.tcb[s].(state := r.tcb[s].state))
      && r.tcb[k.cur] == k.tcb[k.cur]
  {
    var timed := k.(now := now);
    SameTasks(k, timed);
    StillOk(k, timed);
    assert NoDup(timed.q[SUSP]);
    ReleaseAllKeeps(timed, timed.q[SUSP]);
    if k.cur in k.q[SUSP] {
      SuspendedMember(k, k.cur);
    }
  }

  /** The clock is no part of what the tasks and mailboxes must satisfy. */
  lemma StillOk(k: Kernel, r: Kernel)
    requires Shape(k) && Shape(r) && TasksOk(k) && BoxesOkBut(k, NUM_BOXES)
    requires r.tcb == k.tcb && r.q == k.q && r.box == k.box
    ensures TasksOk(r) && BoxesOkBut(r, NUM_BOXES)
  {
    forall t: Tid | t != TID_NULL
      ensures TaskOk(r, t)
    {
      assert TaskOk(k, t);
    }
    forall b | 0 <= b < NUM_BOXES
      ensures BoxOpen(r, b) && BoxOk(r, b)
    {
      assert BoxOpen(k, b) && BoxOk(k, b);
    }
  }

  /** The first suspended task was marked already. */
  lemma TickIs(how: Reading, k: Kernel, now: nat)
    requires Inv(k)
    ensures Tick(how, k, now) ==
      if how == AsWritten && k.q[SUSP] == [] then k.(now := now, fault := true) else Decide(how, Released(k, now))
  {
    var timed := k.(now := now);
    if k.q[SUSP] != [] {
      var t := k.q[SUSP][0];
      SuspendedMember(k, t);
      assert k.tcb[t].(state := SUSPENDED) == k.tcb[t] && timed.tcb[t := k.tcb[t]] == timed.tcb;
      assert MarkFirst(timed) == timed;
    }
    hide Decide, ReleaseAll;
  }

  /** A real-time job is ready, or will be after the release loop. */
  predicate JobReady(k: Kernel, now: nat)
    requires Shape(k)
  {
    k.q[0] != [] || exists i :: 0 <= i < |k.q[SUSP]| && IsDue(k.tcb[k.q[SUSP][i]], now)
  }

  /** The interrupt stops an ordinary task that cannot lead its queue. */
  predicate StopsStale(k: Kernel, now: nat)
    requires Shape(k)
  {
    k.cur != TID_NULL && !Current(k).rt && JobReady(k, now) && !MayLead(k, k.cur)
  }

  lemma StopsStaleIff(k: Kernel, now: nat)
    requires Inv(k) && k.now <= now
    ensures var r := Released(k, now);
      StopsStale(k, now) <==> JobTakesOver(r) && !MayLead(r, r.cur)
  {
    ReleasedKeeps(k, now);
    var r := Released(k, now);
    if k.cur != TID_NULL {
      assert TaskOk(k, k.cur);
    }
    HeadIsMember(k.q[0]);
    HeadIsMember(r.q[0]);
    hide Released, Inv;
    if r.q[0] != [] && r.q[0][0] !in k.q[0] {
      var i :| 0 <= i < |k.q[SUSP]| && k.q[SUSP][i] == r.q[0][0];
    }
    forall i | 0 <= i < |k.q[SUSP]| && IsDue(k.tcb[k.q[SUSP][i]], now)
      ensures k.q[SUSP][i] in r.q[0]
    {
    }
  }

  /** The timer interrupt, with its two unguarded accesses repaired, keeps the invariant, enforces the
      deadline order whatever held before, and keeps the priority order, unless it stops a task that
      cannot lead its queue. */
  lemma TickKeeps(k: Kernel, now: nat)
    requires Inv(k) && k.now <= now
    ensures var r := Tick(Repaired, k, now);
      if StopsStale(k, now) then r.fault else Inv(r) && EdfSafe(r) && (PrioritySafe(k) ==> PrioritySafe(r))
  {
    TickIs(Repaired, k, now);
    StopsStaleIff(k, now);
    ReleasedKeeps(k, now);
    DecideKeeps(Released(k, now));
    hide Decide, Released, Tick, Inv, StopsStale, JobTakesOver, MayLead;
  }

  lemma HeadIsMember(s: seq<Tid>)
    ensures s == [] || s[0] in s
  {
  }

  /** Nothing is suspended, or a real-time task runs, none is due, and no task is ready. */
  predicate NothingThere(k: Kernel, now: nat)
    requires Shape(k)
  {
    || k.q[SUSP] == []
    || (Current(k).rt && (forall i :: 0 <= i < NUM_READY ==> k.q[i] == [])
        && (forall i :: 0 <= i < |k.q[SUSP]| ==> !IsDue(k.tcb[k.q[SUSP][i]], now)))
  }

  lemma NullOrdinary(k: Kernel)
    requires Inv(k)
    ensures Shape(k) && (k.cur == TID_NULL ==> !Current(k).rt)
  {
    assert NullOk(k);
  }

  lemma NoFault(k: Kernel)
    requires Shape(k)
    ensures Inv(k) ==> !k.fault
  {
  }

  /** As written the interrupt goes wrong exactly when nothing is there to suspend or to run, or when
      it stops a task that cannot lead its queue; otherwise it is the repaired one. */
  lemma TickAsWritten(k: Kernel, now: nat)
    requires Inv(k) && k.now <= now
    ensures Tick(AsWritten, k, now).fault <==> NothingThere(k, now) || StopsStale(k, now)
    ensures !Tick(AsWritten, k, now).fault ==> Tick(AsWritten, k, now) == Tick(Repaired, k, now)
  {
    hide Decide, Released, Tick, StopsStale, JobTakesOver, MayLead, Inv;
    NullOrdinary(k);
    TickIs(AsWritten, k, now);
    TickIs(Repaired, k, now);
    StopsStaleIff(k, now);
    ReleasedKeeps(k, now);
    DecideKeeps(Released(k, now));
    NothingReady(k, now);
    NoFault(k);
    NoFault(Decide(Repaired, Released(k, now)));
  }

  /** After the release loop no task is ready exactly when none was and none is due. */
  lemma NothingReady(k: Kernel, now: nat)
    requires Inv(k) && k.now <= now
    ensures FirstReady(Released(k, now)) == NUM_READY <==>
      && (forall i :: 0 <= i < NUM_READY ==> k.q[i] == [])
      && (forall i :: 0 <= i < |k.q[SUSP]| ==> !IsDue(k.tcb[k.q[SUSP][i]], now))
  {
    ReleasedKeeps(k, now);
    var r := Released(k, now);
    HeadIsMember(k.q[0]);
    HeadIsMember(r.q[0]);
    hide Released, Inv;
    if r.q[0] == [] {
      forall s: Tid
        ensures s !in k.q[0] && !(s in k.q[SUSP] && IsDue(k.tcb[s], now))
      {
        assert s !in r.q[0];
      }
    }
  }
}
