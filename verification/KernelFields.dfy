// What a step changes of tasks and mailboxes apart from where tasks wait: the fields that it was asked
// to set, and nothing else.
module KernelFields {
  import opened Readings
  import opened Seqs
  import opened Deadlines
  import opened Messages
  import opened TaskStates
  import opened Kernel
  import opened Syscalls
  import opened KernelInv
  import opened KernelMessages
  import opened KernelRealTime
  import opened KernelTheorems
  import opened KernelFrames

  /** The task is the same apart from its state and its link. */
  predicate SameFields(a: Task, b: Task) {
    b == a.(state := b.state, stale := b.stale)
  }

  /** Every task has kept its fields, every mailbox its size, and the clock stands. */
  ghost predicate Still(k: Kernel, r: Kernel) {
    && Shape(k) && Shape(r) && r.now == k.now
    && (forall t: Tid :: SameFields(k.tcb[t], r.tcb[t]))
    && (forall b :: 0 <= b < NUM_BOXES ==> r.box[b].active == k.box[b].active && r.box[b].cap == k.box[b].cap)
  }

  lemma StillThen(k: Kernel, m: Kernel, r: Kernel)
    requires Still(k, m) && Still(m, r)
    ensures Still(k, r)
  {
  }

  // ---------------------------------------------------------------- the moves

  lemma SetStateStill(k: Kernel, t: Tid, s: State)
    requires Shape(k)
    ensures Still(k, SetState(k, t, s))
    ensures forall c: Tid :: Still(k, SetState(k.(cur := c), t, s)) && Still(k, k.(cur := c))
  {
    hide Flatten;
  }

  lemma PushHeadStill(k: Kernel, t: Tid, i: int)
    requires Shape(k) && i < NUM_QUEUES
    ensures Still(k, PushHead(k, t, i))
  {
    hide Flatten;
  }

  lemma PushTailStill(k: Kernel, t: Tid, i: int)
    requires Shape(k) && i < NUM_QUEUES
    ensures Still(k, PushTail(k, t, i))
  {
    hide Flatten, TailPlace, SetState, Still;
    SameStill(k);
    if i >= 0 {
      var s := InsertAt(k.q[i], TailPlace(k, t, i), t);
      QueuedStill(k, t, i, s);
      SetStateStill(Relinked(k, t).(q := k.q[i := s]), s[|s| - 1], READY);
      StillThen(k, Relinked(k, t).(q := k.q[i := s]), SetState(Relinked(k, t).(q := k.q[i := s]), s[|s| - 1], READY));
    }
  }

  lemma QueuedStill(k: Kernel, t: Tid, i: nat, s: seq<Tid>)
    requires Shape(k) && i < NUM_QUEUES
    ensures Still(k, Relinked(k, t).(q := k.q[i := s]))
  {
    hide Flatten;
  }

  lemma PopHeadStill(k: Kernel, i: nat)
    requires Shape(k) && i < NUM_QUEUES && k.q[i] != []
    ensures Still(k, PopHead(k, i))
  {
    hide Flatten;
  }

  lemma PopTaskStill(how: Reading, k: Kernel, t: Tid, i: int)
    requires Shape(k) && i < NUM_QUEUES
    ensures Still(k, PopTask(how, k, t, i))
  {
    hide Flatten, Remove, IndexOf, InMiddle;
  }

  lemma SchedulerStill(k: Kernel)
    requires Shape(k)
    ensures Still(k, Scheduler(k).0)
  {
    hide Flatten, FirstReady, PopHead;
    if FirstReady(k) < NUM_READY {
      PopHeadStill(k, FirstReady(k));
    }
  }

  lemma DispatchStill(k: Kernel)
    requires Shape(k)
    ensures Still(k, Dispatch(k)) && Still(k, RunNew(k))
  {
    hide Still, Scheduler, SetState;
    SchedulerStill(k);
    var (s, t) := Scheduler(k);
    SetStateStill(k, k.cur, READY);
    SetStateStill(s, t, RUNNING);
    var r := SetState(s.(cur := t), t, RUNNING);
    StillThen(k, s, r);
    SetStateStill(r, k.cur, READY);
    StillThen(k, r, SetState(r, k.cur, READY));
    StillThen(k, s, s.(cur := t));
    assert k.(cur := k.cur) == k;
  }

  lemma PreemptStill(k: Kernel)
    requires Shape(k)
    ensures Still(k, Preempt(k))
  {
    hide Still, PushHead, RunNew;
    var m := PushHead(k, k.cur, ReadyOf(Current(k).prio));
    PushHeadStill(k, k.cur, ReadyOf(Current(k).prio));
    DispatchStill(m);
    StillThen(k, m, RunNew(m));
  }

  lemma RingStill(k: Kernel, b: nat, m: Message)
    requires Shape(k) && b < NUM_BOXES
    ensures Still(k, PushRing(k, b, m)) && (k.box[b].ring != [] ==> Still(k, PopRing(k, b)))
  {
  }

  lemma DeliverStill(k: Kernel, b: nat, m: Message)
    requires Shape(k) && b < NUM_BOXES
    ensures Still(k, Deliver(k, b, m))
  {
    hide Still, PushRing, PushTail, SetState;
    RingStill(k, b, m);
    var pushed := PushRing(k, b, m);
    if b < MAX_TASKS {
      var i := ReadyOf(pushed.tcb[b].prio);
      PushTailStill(pushed, b, i);
      SetStateStill(PushTail(pushed, b, i), b, READY);
      StillThen(k, pushed, PushTail(pushed, b, i));
      StillThen(k, PushTail(pushed, b, i), SetState(PushTail(pushed, b, i), b, READY));
    }
  }

  lemma DrainStepStill(k: Kernel, b: nat)
    requires Shape(k) && b < NUM_BOXES && k.q[WaitOf(b)] != []
    ensures Still(k, DrainStep(k, b))
  {
    hide Still, PushRing, PushTail, PopHead;
    var t := k.q[WaitOf(b)][0];
    var popped := PopHead(k, WaitOf(b));
    PopHeadStill(k, WaitOf(b));
    var pushed := PushRing(popped, b, k.tcb[t].msg);
    RingStill(popped, b, k.tcb[t].msg);
    StillThen(k, popped, pushed);
    PushTailStill(pushed, t, ReadyOf(pushed.tcb[t].prio));
    StillThen(k, pushed, PushTail(pushed, t, ReadyOf(pushed.tcb[t].prio)));
  }

  lemma {:induction false} DrainStill(k: Kernel, b: nat)
    requires Shape(k) && b < NUM_BOXES
    ensures Still(k, Drain(k, b))
    decreases |k.q[WaitOf(b)]|
  {
    hide Still;
    var w := k.q[WaitOf(b)];
    if w == [] || !Fitting(k.box[b], |k.tcb[w[0]].msg|) {
      SetStateStill(k, k.cur, READY);
      assert k.(cur := k.cur) == k;
    } else {
      DrainStepStill(k, b);
      Shorter(k, b);
      DrainStill(DrainStep(k, b), b);
      StillThen(k, DrainStep(k, b), Drain(k, b));
    }
  }

  /** Taking a message out, letting senders in, and perhaps giving way. */
  lemma TakenStill(k: Kernel, b: nat)
    requires Shape(k) && b < NUM_BOXES && k.box[b].ring != []
    ensures Still(k, Drain(PopRing(k, b), b)) && Still(k, Preempt(Drain(PopRing(k, b), b)))
  {
    hide Still, Drain, Preempt, PopRing;
    RingStill(k, b, k.box[b].ring[0]);
    GivenWayStill(PopRing(k, b), b);
    StillThen(k, PopRing(k, b), Drain(PopRing(k, b), b));
    StillThen(k, PopRing(k, b), Preempt(Drain(PopRing(k, b), b)));
  }

  lemma GivenWayStill(k: Kernel, b: nat)
    requires Shape(k) && b < NUM_BOXES
    ensures Still(k, Drain(k, b)) && Still(k, Preempt(Drain(k, b)))
  {
    hide Still, Drain, Preempt;
    DrainStill(k, b);
    PreemptStill(Drain(k, b));
    StillThen(k, Drain(k, b), Preempt(Drain(k, b)));
  }

  lemma ReleaseTaskStill(k: Kernel, t: Tid)
    requires Shape(k)
    ensures Still(k, ReleaseTask(k, t))
  {
    hide Still, PopTask, PushTail, SetState;
    var i := ReadyOf(k.tcb[t].prio);
    var popped := PopTask(AsWritten, k, t, SUSP);
    PopTaskStill(AsWritten, k, t, SUSP);
    SetStateStill(popped, t, READY);
    var ready := SetState(popped, t, READY);
    StillThen(k, popped, ready);
    PushTailStill(ready, t, i);
    StillThen(k, ready, PushTail(ready, t, i));
    SetStateStill(k, k.cur, READY);
    assert k.(cur := k.cur) == k;
  }

  lemma {:induction false} ReleaseAllStill(k: Kernel, ts: seq<Tid>)
    requires Shape(k)
    ensures Still(k, ReleaseAll(k, ts))
    decreases |ts|
  {
    hide Still, ReleaseTask;
    if ts == [] {
      SetStateStill(k, k.cur, READY);
      assert k.(cur := k.cur) == k;
    } else {
      ReleaseTaskStill(k, ts[0]);
      ReleaseAllStill(ReleaseTask(k, ts[0]), ts[1..]);
      StillThen(k, ReleaseTask(k, ts[0]), ReleaseAll(k, ts));
    }
  }

  lemma DecideStill(how: Reading, k: Kernel)
    requires Shape(k)
    ensures Still(k, Decide(how, k))
  {
    hide Still, Scheduler, PushTail, PushHead, SetState, ReadyOf;
    var (s, h) := Scheduler(k);
    SchedulerStill(k);
    SetStateStill(k, k.cur, READY);
    assert k.(cur := k.cur) == k;
    SetStateStill(s, h, RUNNING);
    StillThen(k, s, SetState(s.(cur := h), h, RUNNING));
    PushHeadStill(s, h, ReadyOf(s.tcb[h].prio));
    StillThen(k, s, PushHead(s, h, ReadyOf(s.tcb[h].prio)));
    StoppedStill(k, s, h);
  }

  /** The two ways in which the interrupt stops a task. */
  lemma StoppedStill(k: Kernel, s: Kernel, h: Tid)
    requires Still(k, s)
    ensures var i := ReadyOf(s.tcb[k.cur].prio);
      && Still(k, SetState(SetState(PushTail(s, k.cur, i), k.cur, READY).(cur := h), h, RUNNING))
      && Still(k, SetState(PushHead(SetState(s, k.cur, READY), k.cur, i).(cur := h), h, RUNNING))
  {
    hide PushTail, PushHead, SetState, ReadyOf;
    var c, i := k.cur, ReadyOf(s.tcb[k.cur].prio);
    var a := PushTail(s, c, i);
    PushTailStill(s, c, i);
    SetStateStill(a, c, READY);
    SetStateStill(SetState(a, c, READY), h, RUNNING);
    SetStateStill(s, c, READY);
    var b := SetState(s, c, READY);
    PushHeadStill(b, c, i);
    SetStateStill(PushHead(b, c, i), h, RUNNING);
    hide Still;
    StillThen(k, s, a);
    StillThen(k, a, SetState(a, c, READY));
    StillThen(k, SetState(a, c, READY), SetState(SetState(a, c, READY).(cur := h), h, RUNNING));
    StillThen(k, s, b);
    StillThen(k, b, PushHead(b, c, i));
    StillThen(k, PushHead(b, c, i), SetState(PushHead(b, c, i).(cur := h), h, RUNNING));
  }

  // ---------------------------------------------------------------- the calls

  /** What the step is to make of the fields of a task. */
  ghost function Asked(k: Kernel, op: Op, reply: Reply, t: Tid): Task
    requires Inv(k) && Enabled(k, op)
  {
    var c := k.tcb[t];
    match op
    case OpCreate(prio, memory) =>
      if reply != Created(t) then c
      else c.(prio := prio, priv := false, rt := false, period := 0, deadline := 0, awaiting := None)
    case OpSetPrio(tid, prio) =>
      if reply == Reply.Ok && t == tid && !(t == k.cur && prio < c.prio) then c.(prio := prio) else c
    case OpSend(dst, buf) =>
      if t == k.cur && MustWait(k, dst, buf)
      then c.(msg := MessageOf(buf), dest := if dst == TID_UART then UART_BOX else dst) else c
    case OpRecv(len) =>
      if t == k.cur && k.box[t].active && k.box[t].ring == [] then c.(awaiting := Some(len)) else c
    case OpResume => if t == k.cur then c.(awaiting := None) else c
    case OpRtSet(usec) =>
      if t == k.cur && !c.rt
      then c.(rt := true, prio := PRIO_RT, period := usec / 500, deadline := k.now + 1 + usec / 500) else c
    case OpRtSusp =>
      if t == k.cur && c.rt then
        TaskIsOk(k, t);
        c.(deadline := NextDeadline(c.deadline, c.period, k.now))
      else c
    case _ => c
  }

  /** What the step is to make of a mailbox, apart from its messages. */
  function SizeAsked(k: Kernel, op: Op, reply: Reply, b: nat): (bool, nat)
    requires Shape(k) && b < NUM_BOXES
  {
    if op.OpMbxCreate? && reply.Created? && b == k.cur then (true, op.size) else (k.box[b].active, k.box[b].cap)
  }

  /** `r` is `k` with these fields of task `t`, apart from states and links. */
  ghost predicate Becomes(k: Kernel, r: Kernel, t: Tid, c: Task)
    requires Shape(k)
  {
    Still(k.(tcb := k.tcb[t := c]), r)
  }

  lemma SameStill(k: Kernel)
    requires Shape(k)
    ensures Still(k, k) && Still(k, k.(fault := true)) && forall c: Tid :: Still(k, k.(cur := c))
  {
  }

  lemma CreateFields(k: Kernel, prio: nat, memory: bool)
    requires Shape(k)
    ensures var (r, reply) := Create(k, prio, memory);
      if reply.Created? then Becomes(k, r, reply.tid, NewTask(k, reply.tid, prio, false)) else r == k
  {
    hide Still, PushTail, PushHead, SetState;
    var t := FreeSlot(k);
    var made := k.(tcb := k.tcb[t := NewTask(k, t, prio, false)]);
    PushTailStill(made, t, ReadyOf(prio));
    SetStateStill(made, t, RUNNING);
    var running := SetState(made.(cur := t), t, RUNNING);
    var i := ReadyOf(made.tcb[k.cur].prio);
    PushHeadStill(running, k.cur, i);
    StillThen(made, running, PushHead(running, k.cur, i));
  }

  lemma SetPrioFields(how: Reading, k: Kernel, tid: nat, prio: nat)
    requires Inv(k) && k.cur != TID_NULL
    ensures var (r, reply) := SetPrio(how, k, tid, prio);
      if reply == Reply.Ok && tid < MAX_TASKS && !(tid == k.cur && prio < Current(k).prio)
      then Becomes(k, r, tid, k.tcb[tid].(prio := prio)) else Still(k, r)
  {
    hide Still, ChangePrio, Inv, ReadyOf;
    TaskIsOk(k, k.cur);
    SameStill(k);
    if tid < MAX_TASKS {
      TaskIsOk(k, tid);
      ChangePrioFields(how, k, tid, prio);
      SameStill(k.(tcb := k.tcb[tid := k.tcb[tid].(prio := prio)]));
      assert k.tcb[tid := k.tcb[tid]] == k.tcb;
    }
  }

  lemma ChangePrioFields(how: Reading, k: Kernel, t: Tid, prio: nat)
    requires Shape(k)
    ensures var r := ChangePrio(how, k, t, prio);
      if k.cur == t && prio <= k.tcb[t].prio then r == k else Becomes(k, r, t, k.tcb[t].(prio := prio))
  {
    hide Still, PopTask, PopHead, PushTail, PushHead, SetState, ReadyOf;
    var changed := k.(tcb := k.tcb[t := k.tcb[t].(prio := prio)]);
    SameStill(changed);
    var o := ReadyOf(k.tcb[t].prio);
    if k.cur != t && Current(k).prio > prio {
      var over := changed.(cur := t);
      var p := PopTask(how, over, t, o);
      PopTaskStill(how, over, t, o);
      StillThen(changed, over, p);
      PushHeadStill(p, k.cur, ReadyOf(p.tcb[k.cur].prio));
      Handed(changed, p, PushHead(p, k.cur, ReadyOf(p.tcb[k.cur].prio)), t);
    } else if k.cur != t {
      PopTaskStill(how, changed, t, o);
      var popped := PopTask(how, changed, t, o);
      PushTailStill(popped, t, ReadyOf(prio));
      StillThen(changed, popped, PushTail(popped, t, ReadyOf(prio)));
    } else if k.tcb[t].prio < prio {
      LowerFields(how, k, prio);
    }
  }

  lemma Handed(k: Kernel, m: Kernel, r: Kernel, h: Tid)
    requires Still(k, m) && Still(m, r)
    ensures Shape(r) && Still(k, SetState(r, h, RUNNING))
  {
    hide Still, SetState;
    StillShape(m, r);
    StillThen(k, m, r);
    SetStateStill(r, h, RUNNING);
    StillThen(k, r, SetState(r, h, RUNNING));
  }

  lemma LowerFields(how: Reading, k: Kernel, prio: nat)
    requires Shape(k) && Current(k).prio < prio
    ensures Still(k.(tcb := k.tcb[k.cur := Current(k).(prio := prio)]), ChangePrio(how, k, k.cur, prio))
  {
    hide Still, PopHead, PushTail, SetState, ReadyOf;
    var changed := k.(tcb := k.tcb[k.cur := Current(k).(prio := prio)]);
    SameStill(changed);
    var f := FirstReady(k);
    var h := if f < NUM_READY then k.q[f][0] else TID_NULL;
    var hq := ReadyOf(changed.tcb[h].prio);
    if hq >= 0 && changed.q[hq] != [] {
      PopHeadStill(changed, hq);
    }
    var popped := if hq < 0 then changed.(fault := true)
                  else if changed.q[hq] == [] then changed else PopHead(changed, hq);
    var over := popped.(cur := h);
    SameStill(popped);
    StillThen(changed, popped, over);
    PushTailStill(over, k.cur, ReadyOf(prio));
    Handed(changed, over, PushTail(over, k.cur, ReadyOf(prio)), h);
  }

  lemma StillShape(k: Kernel, r: Kernel)
    requires Still(k, r)
    ensures Shape(k) && Shape(r)
  {
  }

  lemma SendFields(k: Kernel, dst: nat, buf: seq<Byte>)
    requires Shape(k) && Readable(buf)
    ensures var r := Send(k, dst, buf).0;
      if MustWait(k, dst, buf)
      then Becomes(k, r, k.cur, Current(k).(state := BLK_SEND, msg := MessageOf(buf), dest := BoxOf(dst).value))
      else Still(k, r)
    ensures Still(k, SendNb(k, dst, buf).0)
  {
    hide Still, Deliver, Preempt, PushTail, RunNew;
    SameStill(k);
    if BoxOf(dst).Some? && SendError(k, dst, buf) == None {
      var b, m := BoxOf(dst).value, MessageOf(buf);
      DeliverStill(k, b, m);
      PreemptStill(Deliver(k, b, m));
      StillThen(k, Deliver(k, b, m), Preempt(Deliver(k, b, m)));
      var blocked := k.(tcb := k.tcb[k.cur := Current(k).(state := BLK_SEND, msg := m, dest := b)]);
      var e := PushTail(blocked, k.cur, WaitOf(b));
      PushTailStill(blocked, k.cur, WaitOf(b));
      DispatchStill(e);
      StillThen(blocked, e, RunNew(e));
    }
  }

  lemma RecvFields(k: Kernel, len: nat, uart: bool)
    requires Shape(k)
    ensures var r := Recv(k, len).0;
      if k.box[k.cur].active && k.box[k.cur].ring == []
      then Becomes(k, r, k.cur, Current(k).(state := BLK_RECV, awaiting := Some(len))) else Still(k, r)
    ensures Still(k, RecvNb(k, len, uart).0)
  {
    hide Still, Drain, PopRing, Preempt, RunNew;
    SameStill(k);
    var b := if uart then UART_BOX else k.cur;
    if k.box[b].ring != [] {
      TakenStill(k, b);
    }
    if k.box[k.cur].ring != [] {
      TakenStill(k, k.cur);
    } else {
      DispatchStill(k.(tcb := k.tcb[k.cur := Current(k).(state := BLK_RECV, awaiting := Some(len))]));
    }
  }

  lemma ResumeFields(k: Kernel)
    requires Shape(k) && Current(k).awaiting.Some?
    ensures Becomes(k, Resume(k).0, k.cur, Current(k).(awaiting := None))
  {
    hide Still, Drain, PopRing, Preempt;
    var back := k.(tcb := k.tcb[k.cur := Current(k).(awaiting := None)]);
    if k.box[k.cur].ring == [] || Current(k).awaiting.value < |k.box[k.cur].ring[0]| {
      GivenWayStill(back, k.cur);
    } else {
      TakenStill(back, k.cur);
    }
  }

  /** An ordinary task made real-time. */
  function JobOf(c: Task, period: nat, now: nat): Task {
    c.(rt := true, period := period, deadline := now + 1 + period, prio := PRIO_RT, state := READY)
  }

  lemma RtFields(k: Kernel, usec: nat)
    requires Shape(k)
    ensures var r, p := RtSet(k, usec).0, usec / 500;
      if Current(k).rt then r == k
      else Becomes(k, r, k.cur, JobOf(Current(k), p, k.now))
    ensures Current(k).rt && Current(k).period > 0 ==>
      var next := NextDeadline(Current(k).deadline, Current(k).period, k.now);
      Becomes(k, RtSusp(k).0, k.cur, Current(k).(state := SUSPENDED, deadline := next))
    ensures !Current(k).rt ==> RtSusp(k).0 == k
  {
    hide Still, PushTail, Dispatch, NextDeadline;
    var p := usec / 500;
    QueuedThenLeft(k, JobOf(Current(k), p, k.now), 0);
    if Current(k).rt && Current(k).period > 0 {
      var next := NextDeadline(Current(k).deadline, Current(k).period, k.now);
      QueuedThenLeft(k, Current(k).(state := SUSPENDED, deadline := next), SUSP);
    }
  }

  lemma QueuedThenLeft(k: Kernel, c: Task, i: nat)
    requires Shape(k) && i < NUM_QUEUES
    ensures Becomes(k, Dispatch(PushTail(k.(tcb := k.tcb[k.cur := c]), k.cur, i)), k.cur, c)
  {
    hide Still, PushTail, Dispatch;
    var m := k.(tcb := k.tcb[k.cur := c]);
    PushTailStill(m, k.cur, i);
    DispatchStill(PushTail(m, k.cur, i));
    StillThen(m, PushTail(m, k.cur, i), Dispatch(PushTail(m, k.cur, i)));
  }

  lemma TickFields(how: Reading, k: Kernel, now: nat)
    requires Shape(k)
    ensures Still(k.(now := now), Tick(how, k, now))
  {
    hide Still, ReleaseAll, Decide, SetState;
    var timed := k.(now := now);
    SameStill(timed);
    if k.q[SUSP] != [] {
      SetStateStill(timed, k.q[SUSP][0], SUSPENDED);
    }
    var marked := MarkFirst(timed);
    var rel := ReleaseAll(marked, timed.q[SUSP]);
    ReleaseAllStill(marked, timed.q[SUSP]);
    StillThen(timed, marked, rel);
    DecideStill(how, rel);
    StillThen(timed, rel, Decide(how, rel));
  }

  lemma YieldFields(k: Kernel)
    requires Shape(k)
    ensures Still(k, Yield(k).0)
  {
    hide Still, PushTail, RunNew;
    SameStill(k);
    var i := ReadyOf(Current(k).prio);
    PushTailStill(k, k.cur, i);
    DispatchStill(k);
    DispatchStill(PushTail(k, k.cur, i));
    StillThen(k, PushTail(k, k.cur, i), RunNew(PushTail(k, k.cur, i)));
  }

  /** `r` is the state after a step that set what it was asked to set, and no other field. */
  ghost predicate AsAsked(k: Kernel, op: Op, r: Kernel, reply: Reply)
    requires Inv(k) && Enabled(k, op) && Shape(r)
  {
    && r.now == (if op.OpTick? then op.now else k.now)
    && (forall t: Tid :: SameFields(Asked(k, op, reply, t), r.tcb[t]))
    && (forall b :: 0 <= b < NUM_BOXES ==> (r.box[b].active, r.box[b].cap) == SizeAsked(k, op, reply, b))
  }

  /** A step that sets the fields of one task to `c`. */
  lemma OneTaskAsked(k: Kernel, op: Op, r: Kernel, reply: Reply, t: Tid, c: Task)
    requires Inv(k) && Enabled(k, op) && !op.OpTick? && !op.OpMbxCreate? && Becomes(k, r, t, c)
    requires SameFields(Asked(k, op, reply, t), c) && forall s: Tid :: s != t ==> Asked(k, op, reply, s) == k.tcb[s]
    ensures Shape(r) && AsAsked(k, op, r, reply)
  {
    hide Inv, Asked, Flatten;
    TaskIsOk(k, k.cur);
  }

  /** A step that sets none. */
  lemma NothingAsked(k: Kernel, op: Op, r: Kernel, reply: Reply)
    requires Inv(k) && Enabled(k, op) && !op.OpTick? && !op.OpMbxCreate? && Still(k, r)
    requires forall t: Tid :: Asked(k, op, reply, t) == k.tcb[t]
    ensures Shape(r) && AsAsked(k, op, r, reply)
  {
    hide Inv, Asked, Flatten;
    TaskIsOk(k, k.cur);
  }

  /** A step sets the fields that it is asked to set, and changes no other field of any task, no size of
      any mailbox, and the clock only if it is the timer interrupt. */
  lemma OnlyAsked(how: Reading, k: Kernel, op: Op)
    requires Inv(k) && Enabled(k, op)
    ensures var (r, reply) := Do(how, k, op); AsAsked(k, op, r, reply)
  {
    hide Inv, Do, AsAsked;
    if op.OpCreate? || op.OpSetPrio? || op.OpYield? || op.OpMbxCreate? {
      TaskAsked(how, k, op);
    } else if op.OpRtSet? || op.OpRtSusp? || op.OpTick? {
      TimeAsked(how, k, op);
    } else {
      MailAsked(how, k, op);
    }
  }

  lemma TaskAsked(how: Reading, k: Kernel, op: Op)
    requires Inv(k) && Enabled(k, op) && (op.OpCreate? || op.OpSetPrio? || op.OpYield? || op.OpMbxCreate?)
    ensures var (r, reply) := Do(how, k, op); AsAsked(k, op, r, reply)
  {
    hide Inv, Do, Still, AsAsked, Yield, Create, SetPrio;
    TaskIsOk(k, k.cur);
    DoIs(how, k, op);
    SameStill(k);
    var (r, reply) := Do(how, k, op);
    match op
    case OpYield =>
      YieldFields(k);
      NothingAsked(k, op, r, reply);
    case OpCreate(prio, memory) =>
      CreateFields(k, prio, memory);
      if reply.Created? {
        OneTaskAsked(k, op, r, reply, reply.tid, NewTask(k, reply.tid, prio, false));
      } else {
        NothingAsked(k, op, r, reply);
      }
    case OpSetPrio(tid, prio) =>
      SetPrioFields(how, k, tid, prio);
      if reply == Reply.Ok && tid < MAX_TASKS && !(tid == k.cur && prio < Current(k).prio) {
        OneTaskAsked(k, op, r, reply, tid, k.tcb[tid].(prio := prio));
      } else {
        NothingAsked(k, op, r, reply);
      }
    case OpMbxCreate(size, memory) => MbxAsked(k, size, memory);
  }

  lemma MbxAsked(k: Kernel, size: nat, memory: bool)
    requires Inv(k) && Enabled(k, OpMbxCreate(size, memory))
    ensures var (r, reply) := MbxCreate(k, size, memory); AsAsked(k, OpMbxCreate(size, memory), r, reply)
  {
    hide Flatten;
  }

  lemma TimeAsked(how: Reading, k: Kernel, op: Op)
    requires Inv(k) && Enabled(k, op) && (op.OpRtSet? || op.OpRtSusp? || op.OpTick?)
    ensures var (r, reply) := Do(how, k, op); AsAsked(k, op, r, reply)
  {
    hide Inv, Do, Becomes, AsAsked, RtSet, RtSusp, Tick, NextDeadline;
    TaskIsOk(k, k.cur);
    DoIs(how, k, op);
    var (r, reply) := Do(how, k, op);
    match op
    case OpRtSet(usec) =>
      RtFields(k, usec);
      if Current(k).rt {
        SameStill(k);
        NothingAsked(k, op, r, reply);
      } else {
        var p := usec / 500;
        OneTaskAsked(k, op, r, reply, k.cur, JobOf(Current(k), p, k.now));
      }
    case OpRtSusp =>
      RtFields(k, 0);
      if Current(k).rt {
        var next := NextDeadline(Current(k).deadline, Current(k).period, k.now);
        OneTaskAsked(k, op, r, reply, k.cur, Current(k).(state := SUSPENDED, deadline := next));
      } else {
        SameStill(k);
        NothingAsked(k, op, r, reply);
      }
    case OpTick(now) => TickAsked(how, k, now);
  }

  lemma TickAsked(how: Reading, k: Kernel, now: nat)
    requires Inv(k) && Enabled(k, OpTick(now))
    ensures AsAsked(k, OpTick(now), Tick(how, k, now), Reply.Ok)
  {
    hide Inv, Tick;
    TaskIsOk(k, k.cur);
    TickFields(how, k, now);
  }

  lemma MailAsked(how: Reading, k: Kernel, op: Op)
    requires Inv(k) && Enabled(k, op)
    requires op.OpSend? || op.OpSendNb? || op.OpRecv? || op.OpResume? || op.OpRecvNb? || op.OpUartSend? || op.OpUartRecv?
    ensures var (r, reply) := Do(how, k, op); AsAsked(k, op, r, reply)
  {
    hide Inv, Do, Becomes, Still, AsAsked, Send, SendNb, Recv, RecvNb, Resume, MustWait;
    TaskIsOk(k, k.cur);
    DoIs(how, k, op);
    var (r, reply) := Do(how, k, op);
    match op
    case OpSend(dst, buf) => SendAsked(k, dst, buf);
    case OpSendNb(dst, buf) =>
      SendFields(k, dst, buf);
      NothingAsked(k, op, r, reply);
    case OpRecv(len) =>
      RecvFields(k, len, false);
      if k.box[k.cur].active && k.box[k.cur].ring == [] {
        OneTaskAsked(k, op, r, reply, k.cur, Current(k).(state := BLK_RECV, awaiting := Some(len)));
      } else {
        NothingAsked(k, op, r, reply);
      }
    case OpResume =>
      ResumeFields(k);
      OneTaskAsked(k, op, r, reply, k.cur, Current(k).(awaiting := None));
    case OpRecvNb(len) =>
      RecvFields(k, len, false);
      NothingAsked(k, op, r, reply);
    case OpUartSend(buf) =>
      SendFields(k, TID_KCD, buf);
      NothingAsked(k, op, r, reply);
    case OpUartRecv(len) =>
      RecvFields(k, len, true);
      NothingAsked(k, op, r, reply);
  }

  lemma SendAsked(k: Kernel, dst: nat, buf: seq<Byte>)
    requires Inv(k) && Enabled(k, OpSend(dst, buf))
    ensures var (r, reply) := Send(k, dst, buf); AsAsked(k, OpSend(dst, buf), r, reply)
  {
    hide Inv, Still, AsAsked, Send, Fitting, Becomes;
    TaskIsOk(k, k.cur);
    SendFields(k, dst, buf);
    var op := OpSend(dst, buf);
    var (r, reply) := Send(k, dst, buf);
    if MustWait(k, dst, buf) {
      OneTaskAsked(k, op, r, reply, k.cur,
                   Current(k).(state := BLK_SEND, msg := MessageOf(buf), dest := BoxOf(dst).value));
    } else {
      NothingAsked(k, op, r, reply);
    }
  }

  /** The state of a task can be told from where it is: with what is said of queues and fields, nothing
      is left open. */
  lemma StateTold(k: Kernel, t: Tid)
    requires Inv(k) && t != TID_NULL
    ensures k.tcb[t].state == RUNNING <==> t == k.cur
    ensures k.tcb[t].state == READY <==> exists i :: 0 <= i < NUM_READY && t in k.q[i]
    ensures k.tcb[t].state == BLK_SEND <==> exists i :: NUM_READY <= i < SUSP && t in k.q[i]
    ensures k.tcb[t].state == SUSPENDED <==> t in k.q[SUSP]
    ensures k.tcb[t].state == BLK_RECV <==>
      t != k.cur && k.tcb[t].awaiting.Some? && forall i :: 0 <= i < NUM_QUEUES ==> t !in k.q[i]
  {
    OnePlace(k, t);
    TaskIsOk(k, t);
    hide Inv;
    if k.tcb[t].state == BLK_SEND {
      assert t in k.q[WaitOf(k.tcb[t].dest)];
    }
  }
}
