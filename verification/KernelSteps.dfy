// Every system call, and the timer interrupt, keeps the invariant.
module KernelSteps {
  import opened Readings
  import opened Seqs
  import opened Deadlines
  import opened Messages
  import opened TaskStates
  import opened Kernel
  import opened Syscalls
  import opened KernelInv

  // ---------------------------------------------------------------- one task enters a ready queue

  /** `push_tail` of an ordinary task that is not blocked or suspended appends it, ready. */
  lemma TailOrdinary(k: Kernel, t: Tid, i: nat)
    requires Shape(k) && i < NUM_QUEUES && !k.tcb[t].rt && k.tcb[t].state !in {BLK_SEND, SUSPENDED}
    ensures Shape(k.(q := k.q[i := k.q[i] + [t]]))
    ensures PushTail(k, t, i) == k.(q := k.q[i := k.q[i] + [t]], tcb := k.tcb[t := Queued(k.tcb[t])])
    ensures InsertAt(k.q[i], |k.q[i]|, t) == k.q[i] + [t]
  {
    assert InsertAt(k.q[i], |k.q[i]|, t) == k.q[i] + [t];
  }

  /** `push_head` of such a task puts it first, ready, unless a stale link would get into the queue. */
  lemma HeadOrdinary(k: Kernel, t: Tid, i: nat)
    requires Shape(k) && i < NUM_QUEUES && k.tcb[t].state != SUSPENDED
    ensures Shape(k.(q := k.q[i := [t] + k.q[i]]))
    ensures PushHead(k, t, i) ==
      if k.tcb[t].stale && k.q[i] == [] then k.(fault := true)
      else k.(q := k.q[i := [t] + k.q[i]], tcb := k.tcb[t := Queued(k.tcb[t])])
    ensures InsertAt(k.q[i], 0, t) == [t] + k.q[i]
  {
  }

  /** `r` is `k` with the ordinary task `t`, whatever it did, ready at place `p` of its queue. */
  ghost predicate Entered(k: Kernel, r: Kernel, t: Tid, p: nat)
    requires Shape(k)
  {
    var i := ReadyOf(k.tcb[t].prio);
    && Shape(r) && i > 0 && p <= |k.q[i]|
    && r == k.(q := k.q[i := InsertAt(k.q[i], p, t)], tcb := k.tcb[t := Queued(k.tcb[t])])
  }

  lemma EnteredKeeps(k: Kernel, r: Kernel, t: Tid, p: nat, c: Tid, x: nat)
    requires Shape(k) && !k.fault && PlacedBut(k, t) && Sorted(k) && t != TID_NULL && !k.tcb[t].rt
    requires Entered(k, r, t, p)
    requires TasksOk(r) && BoxesOkBut(r, x) && OnlyRunning(r, c)
    ensures Mid(r, c, x)
  {
    var i := ReadyOf(k.tcb[t].prio);
    Enter(k, r, t, i, p);
    SortedSame(k, r);
  }

  /** The running ordinary task is put at one end of its ready queue. */
  lemma StopKeeps(k: Kernel, x: nat)
    requires Shape(k) && Mid(k, k.cur, x) && k.cur != TID_NULL && !Current(k).rt
    requires Current(k).awaiting.Some? ==> k.box[k.cur].ring != []
    ensures var i := ReadyOf(Current(k).prio);
      && (MayLead(k, k.cur) ==> Mid(PushHead(k, k.cur, i), TID_NULL, x))
      && Mid(PushTail(k, k.cur, i), TID_NULL, x)
  {
    var t, i := k.cur, ReadyOf(Current(k).prio);
    assert TaskOk(k, t);
    Homeless(k, t);
    TailOrdinary(k, t, i);
    HeadOrdinary(k, t, i);
    var h, e := PushHead(k, t, i), PushTail(k, t, i);
    hide PushHead, PushTail;
    if MayLead(k, t) {
      OthersOk(k, h, t, x);
      EnteredKeeps(k, h, t, 0, TID_NULL, x);
    }
    OthersOk(k, e, t, x);
    EnteredKeeps(k, e, t, |k.q[i]|, TID_NULL, x);
  }

  /** A step that changes only task `t` and ready queues: the others stay as they should be. */
  lemma OthersOk(k: Kernel, r: Kernel, t: Tid, x: nat)
    requires Shape(k) && Shape(r) && TasksOk(k) && BoxesOkBut(k, x) && t != TID_NULL
    requires r.box == k.box && forall b :: 0 <= b < NUM_BOXES ==> r.q[WaitOf(b)] == k.q[WaitOf(b)]
    requires forall s: Tid :: s != t ==> r.tcb[s] == k.tcb[s]
    requires r.tcb[t].msg == k.tcb[t].msg
    requires TaskOk(r, t)
    ensures TasksOk(r) && BoxesOkBut(r, x)
  {
    forall s: Tid | s != TID_NULL
      ensures TaskOk(r, s)
    {
      assert TaskOk(k, s);
    }
    forall b | 0 <= b < NUM_BOXES
      ensures BoxOpen(r, b) && (b != x ==> BoxOk(r, b))
    {
      assert BoxOpen(k, b) && (b != x ==> BoxOk(k, b));
    }
  }

  /** The running ordinary task goes to the front of its queue and the scheduler decides. */
  lemma PreemptKeeps(k: Kernel)
    requires Inv(k) && k.cur != TID_NULL && !Current(k).rt && Current(k).awaiting == None && MayLead(k, k.cur)
    ensures var r := Preempt(k);
      Inv(r) && PrioritySafe(r) && EdfSafe(r)
  {
    StopKeeps(k, NUM_BOXES);
    var m := PushHead(k, k.cur, ReadyOf(Current(k).prio));
    RunNewRuns(m);
    RanKeeps(m, RunNew(m));
  }

  /** Otherwise a stale link gets into the queue. */
  lemma PreemptFaults(k: Kernel)
    requires Inv(k) && k.cur != TID_NULL && !MayLead(k, k.cur)
    ensures Preempt(k).fault
  {
    assert TaskOk(k, k.cur);
    HeadOrdinary(k, k.cur, ReadyOf(Current(k).prio));
  }

  // ---------------------------------------------------------------- yield

  lemma NullIdle(k: Kernel)
    requires Inv(k) && k.cur == TID_NULL
    ensures Idle(k) && Current(k).prio == PRIO_NULL
  {
    assert NullOk(k);
  }

  lemma YieldKeeps(k: Kernel)
    requires Inv(k) && Enabled(k, OpYield)
    ensures Inv(Yield(k).0)
    ensures !Current(k).rt && Current(k).state == RUNNING ==> PrioritySafe(Yield(k).0) && EdfSafe(Yield(k).0)
  {
    hide RunNew, PushTail, Mid, PrioritySafe, EdfSafe;
    TaskIsOk(k, k.cur);
    var c := Current(k);
    if c.state == RUNNING && !c.rt {
      if k.cur == TID_NULL {
        NullIdle(k);
        RunNewRuns(k);
        RanKeeps(k, RunNew(k));
      } else {
        StopKeeps(k, NUM_BOXES);
        var m := PushTail(k, k.cur, ReadyOf(c.prio));
        TailOrdinary(k, k.cur, ReadyOf(c.prio));
        RunNewRuns(m);
        RanKeeps(m, RunNew(m));
      }
    }
  }

  // ---------------------------------------------------------------- create

  lemma SortedChange(k: Kernel, r: Kernel, t: Tid)
    requires Shape(k) && Shape(r) && Placed(k) && Sorted(k) && r.q[0] == k.q[0] && k.tcb[t].state != READY
    requires forall s: Tid :: s != t ==> r.tcb[s] == k.tcb[s]
    ensures Sorted(r)
  {
    forall s: Tid | s in k.q[0]
      ensures r.tcb[s].deadline == k.tcb[s].deadline
    {
      ReadyMember(k, 0, s);
    }
    SortedSame(k, r);
  }

  lemma NotAJob(k: Kernel, t: Tid)
    requires Inv(k) && k.tcb[t].state != READY
    ensures t !in k.q[0]
  {
    if t in k.q[0] {
      ReadyMember(k, 0, t);
    }
  }

  /** A new task at an ordinary priority is placed like any other; it preempts if it is more urgent. */
  lemma CreateKeeps(k: Kernel, prio: nat, memory: bool)
    requires Inv(k) && Enabled(k, OpCreate(prio, memory)) && Ordinary(prio)
    requires prio < Current(k).prio ==> MayLead(k, k.cur)
    ensures Inv(Create(k, prio, memory).0)
    ensures PrioritySafe(k) ==> PrioritySafe(Create(k, prio, memory).0)
    ensures EdfSafe(k) ==> EdfSafe(Create(k, prio, memory).0)
  {
    hide Inv, PushTail, PushHead;
    TaskIsOk(k, k.cur);
    var t := FreeSlot(k);
    TaskIsOk(k, t);
    if k.tcb[t].state == DORMANT && memory {
      NotAJob(k, t);
      if prio >= Current(k).prio {
        CreateQueues(k, t, prio, false);
      } else {
        CreatePreempts(k, t, prio);
      }
    }
  }

  lemma CreateQueues(k: Kernel, t: Tid, prio: nat, priv: bool)
    requires Inv(k) && t != TID_NULL && t != k.cur && Ordinary(prio) && k.tcb[t].state == DORMANT
    ensures var r := AddTask(k, t, prio, priv);
      && Inv(r) && r.cur == k.cur && r.tcb == k.tcb[t := NewTask(k, t, prio, priv)]
      && forall j :: 0 <= j < NUM_READY && j != Order(prio) ==> r.q[j] == k.q[j]
  {
    var made := k.(tcb := k.tcb[t := NewTask(k, t, prio, priv)]);
    var r := PushTail(made, t, ReadyOf(prio));
    assert TaskOk(k, t);
    Homeless(k, t);
    Change(k, made, t);
    SortedChange(k, made, t);
    TailOrdinary(made, t, ReadyOf(prio));
    assert Queued(made.tcb[t]) == made.tcb[t];
    assert r.tcb == made.tcb;
    OthersOk(k, r, t, NUM_BOXES);
    EnteredKeeps(made, r, t, |made.q[ReadyOf(prio)]|, k.cur, NUM_BOXES);
  }

  /** The new task runs, while the other has not been put away. */
  lemma NewRunning(k: Kernel, t: Tid, prio: nat)
    requires Inv(k) && t != TID_NULL && t != k.cur && Ordinary(prio) && k.tcb[t].state == DORMANT
    ensures var made := k.(tcb := k.tcb[t := NewTask(k, t, prio, false)]);
      var r := SetState(made.(cur := t), t, RUNNING);
      Placed(r) && Sorted(r) && TasksOk(r) && BoxesOkBut(r, NUM_BOXES) && !r.tcb[t].stale
  {
    hide Fitting, Flatten;
    var made := k.(tcb := k.tcb[t := NewTask(k, t, prio, false)]);
    var r := SetState(made.(cur := t), t, RUNNING);
    TaskIsOk(k, t);
    Homeless(k, t);
    Change(k, r, t);
    SortedChange(k, r, t);
    OthersOk(k, r, t, NUM_BOXES);
  }

  lemma CreatePreempts(k: Kernel, t: Tid, prio: nat)
    requires Inv(k) && t != TID_NULL && t != k.cur && Ordinary(prio) && k.tcb[t].state == DORMANT
    requires k.cur != TID_NULL && prio < Current(k).prio && MayLead(k, k.cur)
    ensures var made := k.(tcb := k.tcb[t := NewTask(k, t, prio, false)]);
      var running := SetState(made.(cur := t), t, RUNNING);
      var r := PushHead(running, k.cur, ReadyOf(made.tcb[k.cur].prio));
      && Inv(r) && r.cur == t && r.tcb[t].prio == prio && !r.tcb[t].rt
      && forall j :: 0 <= j < NUM_READY && j != Order(Current(k).prio) ==> r.q[j] == k.q[j]
  {
    hide PushHead, Flatten, Fitting;
    var made := k.(tcb := k.tcb[t := NewTask(k, t, prio, false)]);
    var running := SetState(made.(cur := t), t, RUNNING);
    var c, i := k.cur, ReadyOf(Current(k).prio);
    var r := PushHead(running, c, i);
    TaskIsOk(k, c);
    NewRunning(k, t, prio);
    Homeless(running, c);
    HeadOrdinary(running, c, i);
    assert TaskOk(r, c);
    hide Placed, PlacedBut;
    OthersOk(running, r, c, NUM_BOXES);
    hide TasksOk, BoxesOkBut, Sorted;
    EnteredKeeps(running, r, c, 0, t, NUM_BOXES);
  }

  // ---------------------------------------------------------------- set priority

  /** A blocked task, or a real-time one, only gets the new priority. */
  lemma RelabelKeeps(k: Kernel, t: Tid, prio: nat)
    requires Inv(k) && t != TID_NULL && k.tcb[t].state in {BLK_RECV, BLK_SEND, RUNNING}
    requires Ordinary(prio) && !k.tcb[t].rt
    ensures Inv(k.(tcb := k.tcb[t := k.tcb[t].(prio := prio)]))
  {
    var r := k.(tcb := k.tcb[t := k.tcb[t].(prio := prio)]);
    assert TaskOk(k, t);
    forall j | 0 <= j < NUM_QUEUES
      ensures QueueIs(r, TID_NULL, j)
    {
      assert QueueIs(k, TID_NULL, j);
      assert forall s: Tid :: Lives(r, TID_NULL, j, s) <==> Lives(k, TID_NULL, j, s);
    }
    SortedChange(k, r, t);
    OthersOk(k, r, t, NUM_BOXES);
  }

  /** A ready ordinary task leaves its queue and takes another priority.  As written, one from the
      middle keeps its links. */
  lemma PulledOut(how: Reading, k: Kernel, t: Tid, prio: nat)
    requires Inv(k) && t != TID_NULL && k.tcb[t].state == READY && !k.tcb[t].rt && Ordinary(prio)
    ensures var r := PopTask(how, k.(tcb := k.tcb[t := k.tcb[t].(prio := prio)]), t, ReadyOf(k.tcb[t].prio));
      var i := ReadyOf(k.tcb[t].prio);
      && i > 0 && t in k.q[i]
      && r == k.(q := k.q[i := Remove(k.q[i], t)], tcb := k.tcb[t := k.tcb[t].(prio := prio, stale := Keeps(how, k, t))])
      && PlacedBut(r, t) && Sorted(r)
  {
    assert TaskOk(k, t);
    var i := ReadyOf(k.tcb[t].prio);
    assert QueueIs(k, TID_NULL, i);
    assert Lives(k, TID_NULL, i, t);
    var r := PopTask(how, k.(tcb := k.tcb[t := k.tcb[t].(prio := prio)]), t, i);
    Leave(k, r, t, i);
    SortedSame(k, r);
  }

  /** A ready task keeps its links when it is taken from its queue. */
  predicate Keeps(how: Reading, k: Kernel, t: Tid)
    requires Shape(k)
  {
    how == AsWritten && ReadyOf(k.tcb[t].prio) >= 0 && InMiddle(k.q[ReadyOf(k.tcb[t].prio)], t)
  }

  /** The task that is made more urgent is out of its queue and running; the old one still is too. */
  function Raised(how: Reading, k: Kernel, t: Tid, prio: nat): (m: Kernel)
    requires Shape(k)
    ensures Shape(m)
  {
    var changed := k.(tcb := k.tcb[t := k.tcb[t].(prio := prio)]);
    SetState(PopTask(how, changed.(cur := t), t, ReadyOf(k.tcb[t].prio)), t, RUNNING)
  }

  lemma RaisedForm(how: Reading, k: Kernel, t: Tid, prio: nat)
    requires Shape(k)
    ensures var plain := PopTask(how, k.(tcb := k.tcb[t := k.tcb[t].(prio := prio)]), t, ReadyOf(k.tcb[t].prio));
      Raised(how, k, t, prio) == SetState(plain.(cur := t), t, RUNNING)
  {
    hide Remove, InMiddle;
  }

  lemma RaisedKeeps(how: Reading, k: Kernel, t: Tid, prio: nat)
    requires Inv(k) && t != TID_NULL && t != k.cur && k.cur != TID_NULL
    requires k.tcb[t].state == READY && !k.tcb[t].rt && Ordinary(prio)
    ensures var m := Raised(how, k, t, prio);
      && Placed(m) && Sorted(m) && TasksOk(m) && BoxesOkBut(m, NUM_BOXES) && !m.fault
      && m.cur == t && m.box == k.box
      && m.tcb == k.tcb[t := k.tcb[t].(prio := prio, state := RUNNING, stale := Keeps(how, k, t))]
      && m.q == k.q[ReadyOf(k.tcb[t].prio) := Remove(k.q[ReadyOf(k.tcb[t].prio)], t)]
  {
    hide PopTask, Raised, Fitting, Flatten, Remove;
    var m := Raised(how, k, t, prio);
    RaisedForm(how, k, t, prio);
    PulledOut(how, k, t, prio);
    TaskIsOk(k, t);
    var plain := PopTask(how, k.(tcb := k.tcb[t := k.tcb[t].(prio := prio)]), t, ReadyOf(k.tcb[t].prio));
    Change(plain, m, t);
    SortedSame(plain, m);
    hide Placed, PlacedBut, Sorted, OnlyRunning;
    OthersOk(k, m, t, NUM_BOXES);
  }

  /** Another ready task is made more urgent than the running one, and takes over at once. */
  lemma RaiseKeeps(how: Reading, k: Kernel, t: Tid, prio: nat)
    requires Inv(k) && t != TID_NULL && t != k.cur && k.cur != TID_NULL
    requires k.tcb[t].state == READY && !k.tcb[t].rt && Ordinary(prio) && prio < Current(k).prio
    requires MayLead(Raised(how, k, t, prio), k.cur)
    ensures var r := ChangePrio(how, k, t, prio);
      Inv(r) && (PrioritySafe(k) ==> PrioritySafe(r)) && (EdfSafe(k) ==> EdfSafe(r))
  {
    hide ChangePrio, Raised, PushHead, Inv, MayLead;
    TaskIsOk(k, t);
    TaskIsOk(k, k.cur);
    RaisedThenPushed(how, k, t, prio);
    RaisedKeeps(how, k, t, prio);
    PushedBack(k, Raised(how, k, t, prio), t, prio);
    ShrunkQueues(k, Raised(how, k, t, prio), t, prio);
  }

  /** The task that ran before goes to the front of its queue. */
  lemma PushedBack(k: Kernel, m: Kernel, t: Tid, prio: nat)
    requires Inv(k) && t != TID_NULL && t != k.cur && k.cur != TID_NULL && !Current(k).rt
    requires Shape(m) && Placed(m) && Sorted(m) && TasksOk(m) && BoxesOkBut(m, NUM_BOXES) && !m.fault && m.cur == t
    requires m.box == k.box && m.tcb == k.tcb[t := m.tcb[t]] && m.tcb[t].state == RUNNING && MayLead(m, k.cur)
    ensures var i := ReadyOf(Current(k).prio);
      var r := PushHead(m, k.cur, i);
      && Inv(r) && r.cur == t && r.q == m.q[i := [k.cur] + m.q[i]] && i > 0
      && r.tcb == m.tcb[k.cur := Queued(m.tcb[k.cur])]
  {
    var c := k.cur;
    assert TaskOk(k, c);
    Homeless(m, c);
    var i := ReadyOf(Current(k).prio);
    var r := PushHead(m, c, i);
    HeadOrdinary(m, c, i);
    assert TaskOk(r, c);
    OthersOk(m, r, c, NUM_BOXES);
    EnteredKeeps(m, r, c, 0, t, NUM_BOXES);
  }

  /** The source marks the new task running after it pushed the old one; the order does not matter. */
  lemma RaisedThenPushed(how: Reading, k: Kernel, t: Tid, prio: nat)
    requires Shape(k) && t != k.cur && Current(k).prio > prio && k.tcb[k.cur].state == RUNNING
    ensures var m := Raised(how, k, t, prio);
      var r := PushHead(m, k.cur, ReadyOf(k.tcb[k.cur].prio));
      ChangePrio(how, k, t, prio) == r
  {
    var over := k.(cur := t, tcb := k.tcb[t := k.tcb[t].(prio := prio)]);
    var popped := PopTask(how, over, t, ReadyOf(k.tcb[t].prio));
    assert popped.tcb[k.cur] == k.tcb[k.cur];
    hide PopTask, ReadyOf;
    PushThenRun(popped, k.cur, t, ReadyOf(k.tcb[k.cur].prio));
    hide PushHead, SetState;
  }

  lemma PushThenRun(k: Kernel, c: Tid, t: Tid, i: int)
    requires Shape(k) && i < NUM_QUEUES && c != t && k.tcb[c].state != SUSPENDED
    ensures SetState(PushHead(k, c, i), t, RUNNING) == PushHead(SetState(k, t, RUNNING), c, i)
  {
    assert k.tcb[c := Queued(k.tcb[c])][t := k.tcb[t].(state := RUNNING)]
        == k.tcb[t := k.tcb[t].(state := RUNNING)][c := Queued(k.tcb[c])];
    if i >= 0 {
      HeadOrdinary(k, c, i);
      HeadOrdinary(SetState(k, t, RUNNING), c, i);
      hide PushHead;
    }
  }

  /** Another ready task moves to the end of the queue of its new priority. */
  lemma MoveKeeps(how: Reading, k: Kernel, t: Tid, prio: nat)
    requires Inv(k) && t != TID_NULL && t != k.cur
    requires k.tcb[t].state == READY && !k.tcb[t].rt && Ordinary(prio) && prio >= Current(k).prio
    ensures var r := ChangePrio(how, k, t, prio);
      Inv(r) && (PrioritySafe(k) ==> PrioritySafe(r)) && (EdfSafe(k) ==> EdfSafe(r))
  {
    hide Inv, PopTask, PushTail, PrioritySafe, EdfSafe;
    TaskIsOk(k, t);
    MoveInv(how, k, t, prio);
    MoveOrders(how, k, t, prio);
  }

  lemma MoveForm(how: Reading, k: Kernel, t: Tid, prio: nat)
    requires Inv(k) && t != TID_NULL && t != k.cur
    requires k.tcb[t].state == READY && !k.tcb[t].rt && Ordinary(prio) && prio >= Current(k).prio
    ensures var m := PopTask(how, k.(tcb := k.tcb[t := k.tcb[t].(prio := prio)]), t, ReadyOf(k.tcb[t].prio));
      var i := ReadyOf(prio);
      && ChangePrio(how, k, t, prio) == PushTail(m, t, i)
      && PushTail(m, t, i) == m.(q := m.q[i := m.q[i] + [t]], tcb := m.tcb[t := Queued(m.tcb[t])])
      && InsertAt(m.q[i], |m.q[i]|, t) == m.q[i] + [t]
  {
    hide Inv, PopTask, PushTail;
    TaskIsOk(k, t);
    PulledOut(how, k, t, prio);
    TailOrdinary(PopTask(how, k.(tcb := k.tcb[t := k.tcb[t].(prio := prio)]), t, ReadyOf(k.tcb[t].prio)), t, ReadyOf(prio));
  }

  lemma MoveInv(how: Reading, k: Kernel, t: Tid, prio: nat)
    requires Inv(k) && t != TID_NULL && t != k.cur
    requires k.tcb[t].state == READY && !k.tcb[t].rt && Ordinary(prio) && prio >= Current(k).prio
    ensures Inv(ChangePrio(how, k, t, prio)) && ChangePrio(how, k, t, prio).cur == k.cur
  {
    hide PopTask, PushTail, ChangePrio;
    TaskIsOk(k, t);
    PulledOut(how, k, t, prio);
    MoveForm(how, k, t, prio);
    var m := PopTask(how, k.(tcb := k.tcb[t := k.tcb[t].(prio := prio)]), t, ReadyOf(k.tcb[t].prio));
    var r := PushTail(m, t, ReadyOf(prio));
    OthersOk(k, r, t, NUM_BOXES);
    EnteredKeeps(m, r, t, |m.q[ReadyOf(prio)]|, k.cur, NUM_BOXES);
  }

  lemma MoveOrders(how: Reading, k: Kernel, t: Tid, prio: nat)
    requires Inv(k) && t != TID_NULL && t != k.cur
    requires k.tcb[t].state == READY && !k.tcb[t].rt && Ordinary(prio) && prio >= Current(k).prio
    ensures var r := ChangePrio(how, k, t, prio);
      (PrioritySafe(k) ==> PrioritySafe(r)) && (EdfSafe(k) ==> EdfSafe(r))
  {
    hide Inv, PopTask, PushTail, ChangePrio, Remove, InsertAt, Flatten;
    TaskIsOk(k, t);
    TaskIsOk(k, k.cur);
    PulledOut(how, k, t, prio);
    MoveForm(how, k, t, prio);
    var m := PopTask(how, k.(tcb := k.tcb[t := k.tcb[t].(prio := prio)]), t, ReadyOf(k.tcb[t].prio));
    ShrunkQueues(k, m, t, prio);
  }

  /** Taking a task out empties no queue that was not empty before, nor the reverse. */
  lemma ShrunkQueues(k: Kernel, m: Kernel, t: Tid, prio: nat)
    requires Shape(k) && Shape(m) && !k.tcb[t].rt && ReadyOf(k.tcb[t].prio) >= 0
    requires m.q == k.q[ReadyOf(k.tcb[t].prio) := Remove(k.q[ReadyOf(k.tcb[t].prio)], t)]
    ensures forall j :: 0 <= j < NUM_READY && k.q[j] == [] ==> m.q[j] == []
  {
  }

  /** The running task makes itself less urgent than the head `h` of the ready queues: it goes to the
      end of its new queue, and `h` runs. */
  function Swapped(k: Kernel, prio: nat, h: Tid): Kernel
    requires Shape(k) && FirstReady(k) < NUM_READY && 0 <= Order(prio) < NUM_READY
  {
    var t, f, i := k.cur, FirstReady(k), Order(prio);
    var popped := k.q[f := k.q[f][1..]];
    k.(cur := h, q := popped[i := popped[i] + [t]],
       tcb := k.tcb[t := Queued(k.tcb[t].(prio := prio))][h := k.tcb[h].(state := RUNNING)])
  }

  lemma LowerByHand(how: Reading, k: Kernel, prio: nat, h: Tid)
    requires Inv(k) && k.cur != TID_NULL && !Current(k).rt && Ordinary(prio) && Current(k).prio < prio
    requires FirstReady(k) < NUM_READY && h == k.q[FirstReady(k)][0] && k.tcb[h].prio <= prio
    ensures ChangePrio(how, k, k.cur, prio) == Swapped(k, prio, h)
  {
    assert h in k.q[FirstReady(k)];
    ReadyMember(k, FirstReady(k), h);
    LowerForm(how, k, prio, h);
    hide Inv, ChangePrio, Swapped;
  }

  lemma LowerForm(how: Reading, k: Kernel, prio: nat, h: Tid)
    requires Shape(k) && !Current(k).rt && Current(k).state == RUNNING && Ordinary(prio) && Current(k).prio < prio
    requires FirstReady(k) < NUM_READY && h == k.q[FirstReady(k)][0] && k.tcb[h].prio <= prio
    requires k.tcb[h].state == READY && Order(k.tcb[h].prio) == FirstReady(k)
    ensures ChangePrio(how, k, k.cur, prio) == Swapped(k, prio, h)
  {
    hide ChangePrio, PushTail, Swapped, FirstReady, Flatten;
    var t, f := k.cur, FirstReady(k);
    var changed := k.(tcb := k.tcb[t := Current(k).(prio := prio)]);
    var popped := PopHead(changed, f).(cur := h);
    assert popped == k.(cur := h, q := k.q[f := k.q[f][1..]], tcb := changed.tcb[h := k.tcb[h].(state := RUNNING)]);
    hide PopHead;
    SwappedBySteps(k, prio, h);
    TailOrdinary(popped, t, ReadyOf(prio));
    LowerIs(how, k, prio, h);
  }

  lemma SwappedBySteps(k: Kernel, prio: nat, h: Tid)
    requires Shape(k) && Ordinary(prio) && FirstReady(k) < NUM_READY && h == k.q[FirstReady(k)][0] && h != k.cur
    ensures var t, f, i := k.cur, FirstReady(k), Order(prio);
      var popped := k.(cur := h, q := k.q[f := k.q[f][1..]],
                       tcb := k.tcb[t := k.tcb[t].(prio := prio)][h := k.tcb[h].(state := RUNNING)]);
      SetState(popped.(q := popped.q[i := popped.q[i] + [t]], tcb := popped.tcb[t := Queued(popped.tcb[t])]), h, RUNNING)
        == Swapped(k, prio, h)
  {
  }

  /** The branch of the call that the running task takes when it lowers itself below `h`. */
  lemma LowerIs(how: Reading, k: Kernel, prio: nat, h: Tid)
    requires Shape(k) && Current(k).prio < prio && FirstReady(k) < NUM_READY && h == k.q[FirstReady(k)][0]
    requires ReadyOf(k.tcb[h].prio) == FirstReady(k) && h != k.cur && k.tcb[h].prio <= prio
    ensures var changed := k.(tcb := k.tcb[k.cur := Current(k).(prio := prio)]);
      ChangePrio(how, k, k.cur, prio)
        == SetState(PushTail(PopHead(changed, FirstReady(k)).(cur := h), k.cur, ReadyOf(prio)), h, RUNNING)
  {
    hide PushTail, PopHead, ReadyOf;
  }

  /** Queueing the task first and then choosing comes to the same. */
  lemma LowerByDispatch(k: Kernel, prio: nat, h: Tid)
    requires Shape(k) && !Current(k).rt && Current(k).state == RUNNING && Ordinary(prio)
    requires FirstReady(k) <= Order(prio) && k.q[FirstReady(k)] != [] && h == k.q[FirstReady(k)][0]
    requires h != k.cur && k.tcb[h].state == READY
    ensures var changed := k.(tcb := k.tcb[k.cur := Current(k).(prio := prio)]);
      Dispatch(PushTail(changed, k.cur, ReadyOf(prio))) == Swapped(k, prio, h)
  {
    hide PushTail, Dispatch, Swapped, FirstReady, Flatten, Queued;
    QueuedForm(k, prio);
    QueuedThenSwapped(k, prio, h);
    var m := PushTail(k.(tcb := k.tcb[k.cur := Current(k).(prio := prio)]), k.cur, ReadyOf(prio));
    SameHead(k, m, Order(prio));
    DispatchForm(m, FirstReady(k), h);
  }

  /** The task that has been queued with its new priority. */
  lemma QueuedForm(k: Kernel, prio: nat)
    requires Shape(k) && !Current(k).rt && Current(k).state == RUNNING && Ordinary(prio)
    ensures var m, i := PushTail(k.(tcb := k.tcb[k.cur := Current(k).(prio := prio)]), k.cur, ReadyOf(prio)), Order(prio);
      0 <= i < NUM_READY && m == k.(q := k.q[i := k.q[i] + [k.cur]], tcb := k.tcb[k.cur := Queued(Current(k).(prio := prio))])
  {
    hide PushTail, Flatten;
    TailOrdinary(k.(tcb := k.tcb[k.cur := Current(k).(prio := prio)]), k.cur, Order(prio));
  }

  /** Queueing a task no earlier than the first that is ready leaves that one first. */
  lemma SameHead(k: Kernel, m: Kernel, i: nat)
    requires Shape(k) && Shape(m) && FirstReady(k) <= i < NUM_READY && m.q == k.q[i := k.q[i] + [k.cur]]
    ensures FirstReady(m) == FirstReady(k) && m.q[FirstReady(k)] != [] && m.q[FirstReady(k)][0] == k.q[FirstReady(k)][0]
  {
    hide Flatten;
    FirstReadyIs(m, FirstReady(k));
  }

  lemma QueuedThenSwapped(k: Kernel, prio: nat, h: Tid)
    requires Shape(k) && Ordinary(prio) && FirstReady(k) < NUM_READY && h == k.q[FirstReady(k)][0] && h != k.cur
    ensures var t, f, i := k.cur, FirstReady(k), Order(prio);
      var q := k.q[i := k.q[i] + [t]];
      var tcb := k.tcb[t := Queued(k.tcb[t].(prio := prio))];
      q[f] != [] && k.(cur := h, q := q[f := q[f][1..]], tcb := tcb[h := tcb[h].(state := RUNNING)]) == Swapped(k, prio, h)
  {
    PopThenPush(k.q, FirstReady(k), Order(prio), k.cur);
  }

  lemma DispatchForm(m: Kernel, f: nat, h: Tid)
    requires Shape(m) && f == FirstReady(m) < NUM_READY && h == m.q[f][0] && m.tcb[h].state != BLK_SEND
    ensures Dispatch(m) == m.(cur := h, q := m.q[f := m.q[f][1..]], tcb := m.tcb[h := m.tcb[h].(state := RUNNING)])
  {
    var p := m.tcb[h].(state := RUNNING);
    assert m.tcb[h := p][h := p] == m.tcb[h := p];
  }

  lemma PopThenPush(q: seq<seq<Tid>>, f: nat, i: nat, t: Tid)
    requires f < |q| && i < |q| && q[f] != []
    ensures var a, b := q[i := q[i] + [t]], q[f := q[f][1..]];
      a[f := a[f][1..]] == b[i := b[i] + [t]]
  {
    assert (q[f] + [t])[1..] == q[f][1..] + [t];
  }

  lemma {:induction false} FirstReadyIs(k: Kernel, f: nat, i: nat := 0)
    requires Shape(k) && i <= f < NUM_READY && k.q[f] != [] && forall j :: i <= j < f ==> k.q[j] == []
    ensures FirstReady(k, i) == f
    decreases f - i
  {
    if i == f {
    } else {
      FirstReadyIs(k, f, i + 1);
    }
  }

  lemma LowerKeeps(how: Reading, k: Kernel, prio: nat)
    requires Inv(k) && k.cur != TID_NULL && !Current(k).rt && Ordinary(prio) && Current(k).prio < prio
    requires Current(k).awaiting == None
    ensures var r := ChangePrio(how, k, k.cur, prio);
      Inv(r) && PrioritySafe(r) && EdfSafe(r)
  {
    var t, f := k.cur, FirstReady(k);
    var changed := k.(tcb := k.tcb[t := Current(k).(prio := prio)]);
    RelabelKeeps(k, t, prio);
    if f < NUM_READY {
      assert k.q[f][0] in k.q[f];
      ReadyMember(k, f, k.q[f][0]);
    }
    if f < NUM_READY && k.tcb[k.q[f][0]].prio <= prio {
      LowerMakesWay(how, k, prio, k.q[f][0]);
    }
  }

  lemma LowerMakesWay(how: Reading, k: Kernel, prio: nat, h: Tid)
    requires Inv(k) && k.cur != TID_NULL && !Current(k).rt && Ordinary(prio) && Current(k).prio < prio
    requires Current(k).awaiting == None && Inv(k.(tcb := k.tcb[k.cur := Current(k).(prio := prio)]))
    requires FirstReady(k) < NUM_READY && h == k.q[FirstReady(k)][0]
    requires k.tcb[h].state == READY && Order(k.tcb[h].prio) == FirstReady(k) && k.tcb[h].prio <= prio
    ensures var r := ChangePrio(how, k, k.cur, prio);
      Inv(r) && PrioritySafe(r) && EdfSafe(r)
  {
    hide Mid, PushTail, Dispatch, ChangePrio, Swapped, PrioritySafe, EdfSafe, RanTo;
    var t := k.cur;
    var changed := k.(tcb := k.tcb[t := Current(k).(prio := prio)]);
    TaskIsOk(k, t);
    LowerByHand(how, k, prio, h);
    LowerByDispatch(k, prio, h);
    StopKeeps(changed, NUM_BOXES);
    var m := PushTail(changed, t, ReadyOf(prio));
    assert Idle(m);
    DispatchRuns(m);
    RanKeeps(m, Dispatch(m));
  }

  /** The call raises another ready task above the running one. */
  predicate Raises(k: Kernel, tid: nat, prio: nat)
    requires Shape(k)
  {
    && tid < MAX_TASKS && tid != k.cur && k.tcb[tid].state == READY && !k.tcb[tid].rt && tid != TID_NULL
    && Ordinary(prio) && prio != k.tcb[tid].prio && prio < Current(k).prio && (Current(k).priv || !k.tcb[tid].priv)
  }

  /** The running task can go to the front of its ready queue when task `t` has left its own. */
  predicate LeadsWithout(k: Kernel, t: Tid)
    requires Shape(k)
  {
    var i := ReadyOf(Current(k).prio);
    Current(k).stale ==> i >= 0 && Remove(k.q[i], t) != []
  }

  lemma LeadsAfterRaise(how: Reading, k: Kernel, t: Tid, prio: nat)
    requires Inv(k) && t != TID_NULL && t != k.cur && k.cur != TID_NULL
    requires k.tcb[t].state == READY && !k.tcb[t].rt && Ordinary(prio)
    ensures MayLead(Raised(how, k, t, prio), k.cur) <==> LeadsWithout(k, t)
  {
    RaisedKeeps(how, k, t, prio);
    var i, o := ReadyOf(Current(k).prio), ReadyOf(k.tcb[t].prio);
    if i >= 0 && i != o {
      assert QueueIs(k, TID_NULL, i) && !Lives(k, TID_NULL, i, t);
    }
    hide Raised, Inv, Mid;
  }

  /** `k_tsk_set_prio` keeps the invariant and both orders of urgency, in every branch. */
  lemma SetPrioKeeps(how: Reading, k: Kernel, tid: nat, prio: nat)
    requires Inv(k) && Enabled(k, OpSetPrio(tid, prio))
    requires Raises(k, tid, prio) ==> LeadsWithout(k, tid)
    ensures var r := SetPrio(how, k, tid, prio).0;
      && Inv(r)
      && (PrioritySafe(k) ==> PrioritySafe(r)) && (EdfSafe(k) ==> EdfSafe(r))
  {
    if tid < MAX_TASKS && tid != TID_NULL && Order(prio) >= 0 && prio != PRIO_NULL {
      var t: Tid := tid;
      assert TaskOk(k, t) && TaskOk(k, k.cur);
      if k.tcb[t].rt {
        if prio == PRIO_RT && k.tcb[t].state != DORMANT {
          assert k.tcb[t].(prio := prio) == k.tcb[t];
          assert k.(tcb := k.tcb[t := k.tcb[t].(prio := prio)]) == k;
        }
      } else if prio != PRIO_RT && k.tcb[t].state != DORMANT && (Current(k).priv || !k.tcb[t].priv) {
        SetPrioOrdinary(how, k, t, prio);
      }
    }
    hide Inv, ChangePrio;
  }

  lemma RelabelSafe(k: Kernel, t: Tid, prio: nat)
    requires Inv(k) && t != TID_NULL && k.tcb[t].state in {BLK_RECV, BLK_SEND}
    requires Ordinary(prio) && !k.tcb[t].rt
    ensures var r := k.(tcb := k.tcb[t := k.tcb[t].(prio := prio)]);
      Inv(r) && (PrioritySafe(k) ==> PrioritySafe(r)) && (EdfSafe(k) ==> EdfSafe(r))
  {
    RelabelKeeps(k, t, prio);
    assert k.cur != t;
  }

  lemma SetPrioOrdinary(how: Reading, k: Kernel, t: Tid, prio: nat)
    requires Inv(k) && k.cur != TID_NULL && Current(k).awaiting == None && t != TID_NULL
    requires !k.tcb[t].rt && k.tcb[t].state != DORMANT && Ordinary(prio) && (Current(k).priv || !k.tcb[t].priv)
    requires Raises(k, t, prio) ==> LeadsWithout(k, t)
    ensures var r := SetPrio(how, k, t, prio).0;
      && Inv(r)
      && (PrioritySafe(k) ==> PrioritySafe(r)) && (EdfSafe(k) ==> EdfSafe(r))
  {
    assert TaskOk(k, t) && TaskOk(k, k.cur);
    hide PrioritySafe, EdfSafe, Inv, ChangePrio;
    if k.tcb[t].state in {BLK_RECV, BLK_SEND} {
      RelabelSafe(k, t, prio);
    } else if k.tcb[t].prio != prio {
      if t == k.cur {
        if Current(k).prio < prio {
          LowerKeeps(how, k, prio);
        }
      } else if prio < Current(k).prio {
        LeadsAfterRaise(how, k, t, prio);
        RaiseKeeps(how, k, t, prio);
      } else {
        MoveKeeps(how, k, t, prio);
      }
    }
  }

  /** Raising another task faults if the running one cannot lead its queue. */
  lemma RaiseFaults(how: Reading, k: Kernel, t: Tid, prio: nat)
    requires Inv(k) && k.cur != TID_NULL && Raises(k, t, prio) && !LeadsWithout(k, t)
    ensures SetPrio(how, k, t, prio).0.fault
  {
    hide ChangePrio, Raised, PushHead, Inv;
    TaskIsOk(k, t);
    TaskIsOk(k, k.cur);
    LeadsAfterRaise(how, k, t, prio);
    RaisedThenPushed(how, k, t, prio);
    RaisedKeeps(how, k, t, prio);
    HeadOrdinary(Raised(how, k, t, prio), k.cur, ReadyOf(Current(k).prio));
  }

  // ---------------------------------------------------------------- mailboxes

  /** A task without an open receive gets a new, empty mailbox. */
  lemma MbxCreateKeeps(k: Kernel, size: nat, memory: bool)
    requires Inv(k) && Enabled(k, OpMbxCreate(size, memory))
    ensures var r := MbxCreate(k, size, memory).0;
      && Inv(r) && (PrioritySafe(k) ==> PrioritySafe(r)) && (EdfSafe(k) ==> EdfSafe(r))
  {
    var r := MbxCreate(k, size, memory).0;
    if !k.box[k.cur].active {
      assert BoxOk(k, k.cur);
      assert r.q == k.q;
      SameTasks(k, r);
      forall t: Tid | t != TID_NULL
        ensures TaskOk(r, t)
      {
        assert TaskOk(k, t);
      }
      forall b | 0 <= b < NUM_BOXES
        ensures BoxOpen(r, b) && BoxOk(r, b)
      {
        assert BoxOpen(k, b) && BoxOk(k, b);
      }
    }
  }

  /** A step that changes no task and no queue. */
  lemma SameTasks(k: Kernel, r: Kernel)
    requires Shape(k) && Shape(r) && r.tcb == k.tcb && r.q == k.q && Sorted(k)
    ensures forall x: Tid :: PlacedBut(k, x) ==> PlacedBut(r, x)
    ensures forall c: Tid :: OnlyRunning(k, c) ==> OnlyRunning(r, c)
    ensures Sorted(r)
  {
    forall x: Tid | PlacedBut(k, x)
      ensures PlacedBut(r, x)
    {
      Change(k, r, x);
    }
    SortedSame(k, r);
  }

  /** The owner of the mailbox is blocked on receiving. */
  predicate Wakes(k: Kernel, b: nat)
    requires Shape(k)
  {
    b < MAX_TASKS && k.tcb[b].state == BLK_RECV
  }

  /** A message that fits goes into the ring of a mailbox nobody waits on; a task that was blocked on
      receiving it becomes ready. */
  lemma DeliverKeeps(k: Kernel, b: nat, m: Message)
    requires Inv(k) && b < NUM_BOXES && k.box[b].active && Fitting(k.box[b], |m|) && k.q[WaitOf(b)] == []
    ensures var r := Deliver(k, b, m);
      && Inv(r) && r.cur == k.cur && r.tcb[k.cur] == k.tcb[k.cur]
      && r.box == k.box[b := k.box[b].(ring := k.box[b].ring + [m])]
      && (forall j :: 0 <= j < NUM_BOXES ==> r.q[WaitOf(j)] == k.q[WaitOf(j)])
      && (forall j :: 0 <= j < NUM_READY ==>
            r.q[j] == if Wakes(k, b) && j == Order(k.tcb[b].prio) then k.q[j] + [b] else k.q[j])
  {
    var pushed := PushRing(k, b, m);
    SameTasks(k, pushed);
    forall i | 0 <= i < NUM_BOXES
      ensures BoxOpen(pushed, i) && BoxOk(pushed, i)
    {
      assert BoxOk(k, i);
    }
    assert TasksOk(pushed) || Wakes(k, b) by {
      if !Wakes(k, b) {
        forall s: Tid | s != TID_NULL
          ensures TaskOk(pushed, s)
        {
          assert TaskOk(k, s);
        }
      }
    }
    if Wakes(k, b) {
      WakeKeeps(k, pushed, b);
    }
  }

  /** The message is in the ring; the task that was blocked on it becomes ready. */
  lemma WakeForm(k: Kernel, pushed: Kernel, b: nat)
    requires Inv(k) && b < NUM_BOXES && Wakes(k, b) && Shape(pushed) && pushed == k.(box := pushed.box)
    ensures var i := ReadyOf(k.tcb[b].prio);
      var r := SetState(PushTail(pushed, b, i), b, READY);
      && i > 0 && b != k.cur && b != TID_NULL && Home(k.tcb[b]) == None && !k.tcb[b].rt
      && r == pushed.(q := k.q[i := k.q[i] + [b]], tcb := k.tcb[b := Queued(k.tcb[b])])
      && Entered(pushed, r, b, |k.q[i]|)
  {
    TaskIsOk(k, b);
    var i := ReadyOf(k.tcb[b].prio);
    TailOrdinary(pushed, b, i);
    hide Inv, PushTail;
  }

  lemma WakeKeeps(k: Kernel, pushed: Kernel, b: nat)
    requires Inv(k) && b < NUM_BOXES && Wakes(k, b) && Shape(pushed)
    requires pushed == k.(box := pushed.box) && pushed.box[b].ring != []
    requires forall i :: 0 <= i < NUM_BOXES ==> pushed.box[i].active == k.box[i].active && pushed.box[i].cap == k.box[i].cap
    requires forall i :: 0 <= i < NUM_BOXES && i != b ==> pushed.box[i] == k.box[i]
    requires BoxesOkBut(pushed, NUM_BOXES) && Placed(pushed) && Sorted(pushed)
    ensures var i := ReadyOf(k.tcb[b].prio);
      var r := SetState(PushTail(pushed, b, i), b, READY);
      && Inv(r) && i > 0 && b != k.cur
      && r == pushed.(q := k.q[i := k.q[i] + [b]], tcb := k.tcb[b := Queued(k.tcb[b])])
  {
    var t: Tid := b;
    var i := ReadyOf(k.tcb[t].prio);
    var r := SetState(PushTail(pushed, t, i), t, READY);
    WakeForm(k, pushed, b);
    hide PushTail, SetState, Entered;
    Homeless(pushed, t);
    WokenOk(k, pushed, r, b);
    EnteredKeeps(pushed, r, t, |pushed.q[i]|, k.cur, NUM_BOXES);
  }

  lemma WokenOk(k: Kernel, pushed: Kernel, r: Kernel, b: nat)
    requires Inv(k) && b < MAX_TASKS && k.tcb[b].state == BLK_RECV && Shape(pushed) && Shape(r)
    requires pushed == k.(box := pushed.box) && pushed.box[b].ring != []
    requires forall i :: 0 <= i < NUM_BOXES ==> pushed.box[i].active == k.box[i].active && pushed.box[i].cap == k.box[i].cap
    requires forall i :: 0 <= i < NUM_BOXES && i != b ==> pushed.box[i] == k.box[i]
    requires BoxesOkBut(pushed, NUM_BOXES) && ReadyOf(k.tcb[b].prio) >= 0
    requires r == pushed.(q := k.q[ReadyOf(k.tcb[b].prio) := k.q[ReadyOf(k.tcb[b].prio)] + [b]],
                          tcb := k.tcb[b := Queued(k.tcb[b])])
    ensures TasksOk(r) && BoxesOkBut(r, NUM_BOXES) && OnlyRunning(r, k.cur)
  {
    forall s: Tid | s != TID_NULL
      ensures TaskOk(r, s)
    {
      assert TaskOk(k, s);
    }
    forall i | 0 <= i < NUM_BOXES
      ensures BoxOpen(r, i) && BoxOk(r, i)
    {
      assert BoxOpen(pushed, i) && BoxOk(pushed, i);
    }
  }

  /** The current ordinary task on the end of a waiting list that it may not pass. */
  lemma WaitingIsIdle(k: Kernel, b: nat, m: Message)
    requires Inv(k) && k.cur != TID_NULL && !Current(k).rt && Current(k).awaiting == None
    requires b < NUM_BOXES && k.box[b].active && |m| <= k.box[b].cap
    requires !Fitting(k.box[b], |m|) || k.q[WaitOf(b)] != []
    ensures var blocked := k.(tcb := k.tcb[k.cur := Current(k).(state := BLK_SEND, msg := m, dest := b)]);
      var e := PushTail(blocked, k.cur, WaitOf(b));
      && e == Relinked(blocked, k.cur).(q := k.q[WaitOf(b) := k.q[WaitOf(b)] + [k.cur]])
      && Idle(e) && !Current(e).rt && Current(e).state != DORMANT
  {
    hide PushTail;
    var t, w := k.cur, WaitOf(b);
    var blocked := k.(tcb := k.tcb[t := Current(k).(state := BLK_SEND, msg := m, dest := b)]);
    var r := PushTail(blocked, t, w);
    TaskIsOk(k, t);
    WaitForm(blocked, t, b);
    Homeless(k, t);
    Enter(k, r, t, w, |k.q[w]|);
    WaitersOk(k, r, b, m);
    SortedChange(k, r, t);
  }

  lemma WaitForm(k: Kernel, t: Tid, b: nat)
    requires Shape(k) && b < NUM_BOXES && !k.tcb[t].rt && k.tcb[t].state == BLK_SEND
    ensures PushTail(k, t, WaitOf(b)) == Relinked(k, t).(q := k.q[WaitOf(b) := k.q[WaitOf(b)] + [t]])
    ensures InsertAt(k.q[WaitOf(b)], |k.q[WaitOf(b)]|, t) == k.q[WaitOf(b)] + [t]
  {
  }

  lemma WaitersOk(k: Kernel, r: Kernel, b: nat, m: Message)
    requires Inv(k) && k.cur != TID_NULL && !Current(k).rt && Current(k).awaiting == None
    requires b < NUM_BOXES && k.box[b].active && |m| <= k.box[b].cap
    requires !Fitting(k.box[b], |m|) || k.q[WaitOf(b)] != []
    requires r == k.(q := k.q[WaitOf(b) := k.q[WaitOf(b)] + [k.cur]],
                     tcb := k.tcb[k.cur := Current(k).(state := BLK_SEND, msg := m, dest := b, stale := false)])
    ensures Shape(r) && TasksOk(r) && BoxesOkBut(r, NUM_BOXES)
  {
    TaskIsOk(k, k.cur);
    forall s: Tid | s != TID_NULL
      ensures TaskOk(r, s)
    {
      assert TaskOk(k, s);
    }
    forall i | 0 <= i < NUM_BOXES
      ensures BoxOpen(r, i) && BoxOk(r, i)
    {
      WaiterNotRunning(k, i, k.cur);
      assert BoxOpen(k, i) && BoxOk(k, i);
    }
  }

  lemma BlockSendKeeps(k: Kernel, b: nat, m: Message)
    requires Inv(k) && k.cur != TID_NULL && !Current(k).rt && Current(k).awaiting == None
    requires b < NUM_BOXES && k.box[b].active && |m| <= k.box[b].cap
    requires !Fitting(k.box[b], |m|) || k.q[WaitOf(b)] != []
    ensures var r := BlockSend(k, b, m);
      Inv(r) && PrioritySafe(r) && EdfSafe(r)
  {
    WaitingIsIdle(k, b, m);
    var blocked := k.(tcb := k.tcb[k.cur := Current(k).(state := BLK_SEND, msg := m, dest := b)]);
    var e := PushTail(blocked, k.cur, WaitOf(b));
    RunNewRuns(e);
    RanKeeps(e, RunNew(e));
    hide PushTail, RunNew, Inv, Mid;
  }

  /** The running task is on no waiting list. */
  lemma WaiterNotRunning(k: Kernel, b: nat, t: Tid)
    requires Shape(k) && Placed(k) && b < NUM_BOXES && k.tcb[t].state != BLK_SEND
    ensures t !in k.q[WaitOf(b)]
  {
    assert QueueIs(k, TID_NULL, WaitOf(b));
    assert !Lives(k, TID_NULL, WaitOf(b), t);
  }
}
