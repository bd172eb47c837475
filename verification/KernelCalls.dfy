// The system calls and the timer interrupt, as they change the TCBs, queues and rings.  Each is proved
// to make the step of the same name in `Syscalls`, and to leave the links sound, wherever the model
// says that the step is not at fault.
module KernelCalls {
  import opened Readings
  import opened Seqs
  import opened Deadlines
  import opened Messages
  import opened TaskStates
  import opened TaskQueue
  import opened K = Kernel
  import opened S = Syscalls
  import opened KernelInv
  import opened KernelSteps
  import opened KernelMessages
  import opened KernelReceives
  import opened KernelRealTime
  import opened KernelTheorems
  import opened KernelObject

  // ---------------------------------------------------------------- which tasks are on no queue

  lemma NoHome(k: K.Kernel, t: Tid)
    requires Inv(k) && (t == TID_NULL || Home(k.tcb[t]) == None)
    ensures Off(k, t)
  {
    forall i | 0 <= i < NUM_QUEUES
      ensures t !in k.q[i]
    {
      assert QueueIs(k, TID_NULL, i) && !Lives(k, TID_NULL, i, t);
    }
  }

  lemma RunningOff(k: K.Kernel)
    requires Inv(k)
    ensures Off(k, k.cur)
  {
    NoHome(k, k.cur);
  }

  /** The scheduler puts no task on a queue. */
  lemma StillOff(k: K.Kernel, t: Tid)
    requires Shape(k) && Off(k, t)
    ensures Off(K.Scheduler(k).0, t)
  {
  }

  /** A push that is not at fault is on a queue that exists. */
  lemma QueueExists(k: K.Kernel, t: Tid, i: int)
    requires Shape(k) && i < NUM_QUEUES
    ensures i < 0 ==> K.PushTail(k, t, i).fault && K.PushHead(k, t, i).fault
  {
  }

  // ---------------------------------------------------------------- the scheduler

  /** `scheduler`. */
  method Scheduler(s: System) returns (t: Tid)
    requires s.Valid()
    modifies s`k, s.queues, s.tasks
    ensures s.Valid() && (s.k, t) == K.Scheduler(old(s.k))
    ensures FirstReady(old(s.k)) < NUM_READY ==> Off(s.k, t)
  {
    hide System.Valid, K.PopHead, Off;
    s.ReadQueue(0);
    var i := 0;
    while i < NUM_READY
      invariant 0 <= i <= NUM_READY && s.Valid() && s.k == old(s.k) && Shape(s.k)
      invariant FirstReady(s.k) == FirstReady(s.k, i)
    {
      s.ReadQueue(i);
      if s.queues[i].HEAD != null {
        t := s.PopHead(i);
        return;
      }
      i := i + 1;
    }
    return TID_NULL;
  }

  /** Ends of `k_rt_tsk_set` and `k_rt_tsk_susp`. */
  method Dispatch(s: System)
    requires s.Valid()
    modifies s`k, s`cur, s.queues, s.tasks
    ensures s.Valid() && s.k == K.Dispatch(old(s.k))
  {
    hide System.Valid, K.Scheduler;
    var t := Scheduler(s);
    s.Run(t);
    s.SetState(t, RUNNING);
  }

  /** `k_tsk_run_new`. */
  method RunNew(s: System)
    requires s.Valid()
    modifies s`k, s`cur, s.queues, s.tasks
    ensures s.Valid() && s.k == K.RunNew(old(s.k))
  {
    hide System.Valid, K.Scheduler;
    s.ReadTask(s.cur);
    if s.tasks[s.cur].realTime {
      return;
    }
    var was := s.cur;
    var t := Scheduler(s);
    s.Run(t);
    if t != was {
      s.SetState(t, RUNNING);
      s.ReadTask(was);
      var state := s.tasks[was].state;
      if state != BLK_RECV && state != BLK_SEND && state != SUSPENDED {
        s.SetState(was, READY);
      }
    }
  }

  // ---------------------------------------------------------------- tasks

  /** `k_tsk_yield`. */
  method Yield(s: System) returns (reply: Reply)
    requires s.Valid() && Off(s.k, s.k.cur)
    modifies s`k, s`cur, s.queues, s.tasks
    ensures s.Valid() && (s.k, reply) == S.Yield(old(s.k))
  {
    hide System.Valid, K.RunNew, K.PushTail, Off;
    s.ReadTask(s.cur);
    var c := s.tasks[s.cur];
    if c.state != RUNNING {
      return Error(Unset);
    }
    if c.realTime {
      return Ok;
    }
    if Order(c.prio) == -1 {
      return Error(Unset);
    }
    if c.prio != PRIO_NULL {
      s.PushTail(s.cur, ReadyOf(c.prio));
    }
    RunNew(s);
    return Ok;
  }

  /** The search for a slot in `k_tsk_create`. */
  method FindSlot(s: System) returns (t: Tid)
    requires s.Valid()
    ensures t == FreeSlot(s.k)
  {
    hide System.Valid;
    s.ReadTask(1);
    t := 1;
    while t < TID_WCLCK
      invariant 1 <= t <= TID_WCLCK && FreeSlot(s.k) == FreeSlot(s.k, t)
    {
      s.ReadTask(t);
      if s.tasks[t].state == DORMANT {
        break;
      }
      t := t + 1;
    }
  }

  /** `k_tsk_create`. */
  method Create(s: System, prio: nat, memory: bool) returns (reply: Reply)
    requires s.Valid() && Inv(s.k) && !S.Create(s.k, prio, memory).0.fault
    modifies s`k, s`cur, s.queues, s.tasks
    ensures s.Valid() && (s.k, reply) == S.Create(old(s.k), prio, memory)
  {
    hide System.Valid, Started, FreeSlot, Off, Inv, S.Create;
    var t := FindSlot(s);
    s.ReadTask(t);
    CreateIs(s.k, prio, memory);
    if t == TID_WCLCK && s.tasks[t].state != DORMANT {
      return Error(EAGAIN);
    }
    if Order(prio) == -1 {
      return Error(EINVAL);
    }
    if !memory {
      return Error(ENOMEM);
    }
    RunningOff(s.k);
    NoHome(s.k, t);
    Start(s, t, prio);
    return Created(t);
  }

  lemma CreateIs(k: K.Kernel, prio: nat, memory: bool)
    requires Shape(k)
    ensures var t := FreeSlot(k);
      S.Create(k, prio, memory) ==
        if t == TID_WCLCK && k.tcb[t].state != DORMANT then (k, Error(EAGAIN))
        else if Order(prio) == -1 then (k, Error(EINVAL))
        else if !memory then (k, Error(ENOMEM))
        else (Started(k, t, prio), Created(t))
  {
    hide K.PushTail, K.PushHead;
  }

  /** The new task is queued, or takes over. */
  method Start(s: System, t: Tid, prio: nat)
    requires s.Valid() && Off(s.k, t) && Off(s.k, s.k.cur) && Order(prio) >= 0
    requires !Started(s.k, t, prio).fault
    modifies s`k, s`cur, s.queues, s.tasks
    ensures s.Valid() && s.k == Started(old(s.k), t, prio)
  {
    hide System.Valid, K.PushTail, K.PushHead, Off;
    s.ReadTask(t);
    s.Write(t, TaskOf(s.tasks[t]).(
      prio := prio, priv := false, state := READY, rt := false, period := 0, deadline := 0, awaiting := None));
    SameOff(old(s.k), s.k, t);
    SameOff(old(s.k), s.k, s.k.cur);
    s.ReadTask(s.cur);
    if prio >= s.tasks[s.cur].prio {
      QueueExists(s.k, t, ReadyOf(prio));
      s.PushTail(t, ReadyOf(prio));
    } else {
      var stopped := s.cur;
      s.Run(t);
      s.SetState(t, RUNNING);
      SameOff(old(s.k), s.k, stopped);
      s.ReadTask(stopped);
      QueueExists(s.k, stopped, ReadyOf(s.tasks[stopped].prio));
      s.PushHead(stopped, ReadyOf(s.tasks[stopped].prio));
    }
  }

  function Started(k: K.Kernel, t: Tid, prio: nat): (r: K.Kernel)
    requires Shape(k)
    ensures Shape(r)
  {
    var made := k.(tcb := k.tcb[t := NewTask(k, t, prio, false)]);
    if prio >= Current(made).prio then K.PushTail(made, t, ReadyOf(prio))
    else K.PushHead(K.SetState(made.(cur := t), t, RUNNING), k.cur, ReadyOf(made.tcb[k.cur].prio))
  }

  lemma SameOff(k: K.Kernel, r: K.Kernel, t: Tid)
    requires Shape(k) && Shape(r) && r.q == k.q
    ensures Off(r, t) <==> Off(k, t)
  {
  }

  // ---------------------------------------------------------------- priorities

  /** A ready task is on the queue of its priority. */
  lemma ReadyOn(k: K.Kernel, t: Tid)
    requires Inv(k) && t != TID_NULL && k.tcb[t].state == READY && !k.tcb[t].rt
    ensures ReadyOf(k.tcb[t].prio) > 0 && t in k.q[ReadyOf(k.tcb[t].prio)]
  {
    assert TaskOk(k, t);
    OnePlace(k, t);
  }

  lemma PoppedOff(k: K.Kernel, t: Tid, i: nat, u: Tid)
    requires Shape(k) && i < NUM_QUEUES && t in k.q[i] && Off(k, u) && NoDup(k.q[i])
    ensures Off(K.PopTask(AsWritten, k, t, i), u)
  {
    RemoveFacts(k.q[i], t);
    hide Remove;
  }

  /** What `k_tsk_set_prio` does to another task that is made more urgent than the caller. */
  method Raise(s: System, t: Tid, prio: nat)
    requires s.Valid() && Inv(s.k) && t != TID_NULL && t != s.k.cur && s.k.tcb[t].state == READY && !s.k.tcb[t].rt
    requires prio < Current(s.k).prio && !S.ChangePrio(AsWritten, s.k, t, prio).fault
    modifies s`k, s`cur, s.queues, s.tasks
    ensures s.Valid() && s.k == S.ChangePrio(AsWritten, old(s.k), t, prio)
  {
    ReadyOn(s.k, t);
    RunningOff(s.k);
    assert NoDup(s.k.q[ReadyOf(s.k.tcb[t].prio)]);
    hide System.Valid, K.PopTask, K.PushHead, Off, Inv, S.ChangePrio;
    RaiseIs(s.k, t, prio);
    s.ReadTask(t);
    s.ReadTask(s.cur);
    var was, stopped := s.tasks[t].prio, s.cur;
    s.Write(t, TaskOf(s.tasks[t]).(prio := prio));
    s.Run(t);
    SameOff(old(s.k), s.k, stopped);
    PoppedOff(s.k, t, ReadyOf(was), stopped);
    s.PopTask(t, ReadyOf(was));
    s.ReadTask(stopped);
    QueueExists(s.k, stopped, ReadyOf(s.tasks[stopped].prio));
    s.PushHead(stopped, ReadyOf(s.tasks[stopped].prio));
    s.SetState(t, RUNNING);
  }

  lemma RaiseIs(k: K.Kernel, t: Tid, prio: nat)
    requires Shape(k) && t != k.cur && prio < Current(k).prio
    ensures var changed := k.(tcb := k.tcb[t := k.tcb[t].(prio := prio)], cur := t);
      var popped := K.PopTask(AsWritten, changed, t, ReadyOf(k.tcb[t].prio));
      S.ChangePrio(AsWritten, k, t, prio)
        == K.SetState(K.PushHead(popped, k.cur, ReadyOf(popped.tcb[k.cur].prio)), t, RUNNING)
  {
    hide K.PopTask, K.PushHead;
  }

  /** What it does to another task that is not. */
  method Move(s: System, t: Tid, prio: nat)
    requires s.Valid() && Inv(s.k) && t != TID_NULL && t != s.k.cur && s.k.tcb[t].state == READY && !s.k.tcb[t].rt
    requires prio >= Current(s.k).prio && Ordinary(prio)
    modifies s`k, s`cur, s.queues, s.tasks
    ensures s.Valid() && s.k == S.ChangePrio(AsWritten, old(s.k), t, prio)
  {
    ReadyOn(s.k, t);
    hide System.Valid, K.PopTask, K.PushTail, Off, Inv, S.ChangePrio;
    MoveIs(s.k, t, prio);
    s.ReadTask(t);
    var was := s.tasks[t].prio;
    s.Write(t, TaskOf(s.tasks[t]).(prio := prio));
    s.PopTask(t, ReadyOf(was));
    PoppedTask(old(s.k).(tcb := old(s.k).tcb[t := old(s.k).tcb[t].(prio := prio)]), t, ReadyOf(was));
    s.PushTail(t, ReadyOf(prio));
  }

  lemma MoveIs(k: K.Kernel, t: Tid, prio: nat)
    requires Shape(k) && t != k.cur && prio >= Current(k).prio
    ensures var changed := k.(tcb := k.tcb[t := k.tcb[t].(prio := prio)]);
      S.ChangePrio(AsWritten, k, t, prio)
        == K.PushTail(K.PopTask(AsWritten, changed, t, ReadyOf(k.tcb[t].prio)), t, ReadyOf(prio))
  {
    hide K.PopTask, K.PushTail;
  }

  lemma PoppedTask(k: K.Kernel, t: Tid, i: nat)
    requires Shape(k) && i < NUM_QUEUES
    ensures var c := K.PopTask(AsWritten, k, t, i).tcb[t]; c.rt == k.tcb[t].rt && c.prio == k.tcb[t].prio
  {
    hide Remove, InMiddle;
  }

  /** The head of the first ready queue that is not empty, which stays where it is. */
  method Highest(s: System) returns (h: Tid)
    requires s.Valid()
    ensures var f := FirstReady(s.k); h == if f < NUM_READY then s.k.q[f][0] else TID_NULL
  {
    hide System.Valid;
    s.ReadQueue(0);
    var i := 0;
    while i < NUM_READY
      invariant 0 <= i <= NUM_READY && FirstReady(s.k) == FirstReady(s.k, i)
    {
      s.ReadQueue(i);
      var head := s.queues[i].HEAD;
      if head != null {
        s.ReadTask(s.k.q[i][0]);
        return head.tid;
      }
      i := i + 1;
    }
    return TID_NULL;
  }

  /** What it does to the caller, if that makes itself less urgent. */
  method Lower(s: System, prio: nat)
    requires s.Valid() && Inv(s.k) && s.k.cur != TID_NULL && !Current(s.k).rt && Ordinary(prio) && Current(s.k).prio < prio
    modifies s`k, s`cur, s.queues, s.tasks
    ensures s.Valid() && s.k == S.ChangePrio(AsWritten, old(s.k), old(s.k.cur), prio)
  {
    HeadFacts(s.k);
    RunningOff(s.k);
    hide System.Valid, K.PopHead, K.PushTail, Off, Inv, S.ChangePrio;
    s.ReadTask(s.cur);
    LowerCases(s.k, prio);
    var h := Highest(s);
    var t := s.cur;
    s.Write(t, TaskOf(s.tasks[t]).(prio := prio));
    SameOff(old(s.k), s.k, t);
    s.ReadTask(h);
    if s.tasks[h].prio <= prio {
      Swap(s, h, t, prio);
    }
  }

  /** The first ready task runs, and the other goes to the end of the queue of its new priority. */
  method Swap(s: System, h: Tid, t: Tid, prio: nat)
    requires s.Valid() && Ordinary(prio) && Off(s.k, t) && !s.k.tcb[t].rt
    requires var f := FirstReady(s.k); f < NUM_READY && s.k.q[f][0] == h && ReadyOf(s.k.tcb[h].prio) == f
    modifies s`k, s`cur, s.queues, s.tasks
    ensures s.Valid()
    ensures var k, f := old(s.k).(cur := h), FirstReady(old(s.k));
      s.k == K.SetState(K.PushTail(K.PopHead(k, f), t, ReadyOf(prio)), h, RUNNING)
  {
    hide System.Valid, K.PopHead, K.PushTail, Off, FirstReady;
    s.ReadTask(h);
    s.Run(h);
    SameOff(old(s.k), s.k, t);
    s.ReadTask(h);
    PopHeadOff(s.k, FirstReady(old(s.k)), t);
    var popped := s.PopHead(ReadyOf(s.tasks[h].prio));
    s.PushTail(t, ReadyOf(prio));
    s.SetState(h, RUNNING);
  }

  lemma HeadFacts(k: K.Kernel)
    requires Inv(k)
    ensures var f := FirstReady(k);
      if f < NUM_READY then k.q[f][0] != k.cur && k.q[f][0] != TID_NULL && ReadyOf(k.tcb[k.q[f][0]].prio) == f
      else k.tcb[TID_NULL].prio == PRIO_NULL
  {
    var f := FirstReady(k);
    if f < NUM_READY {
      assert k.q[f][0] in k.q[f];
      ReadyMember(k, f, k.q[f][0]);
    }
  }

  lemma PopHeadOff(k: K.Kernel, i: nat, t: Tid)
    requires Shape(k) && i < NUM_QUEUES && k.q[i] != [] && Off(k, t)
    ensures var r := K.PopHead(k, i);
      Off(r, t) && (r.tcb[t].rt == k.tcb[t].rt)
  {
  }

  lemma LowerCases(k: K.Kernel, prio: nat)
    requires Shape(k) && Current(k).prio < prio
    ensures var t, f := k.cur, FirstReady(k);
      var h := if f < NUM_READY then k.q[f][0] else TID_NULL;
      var changed := k.(tcb := k.tcb[t := k.tcb[t].(prio := prio)]);
      && (changed.tcb[h].prio > prio ==> S.ChangePrio(AsWritten, k, t, prio) == changed)
      && (changed.tcb[h].prio <= prio && f < NUM_READY && ReadyOf(changed.tcb[h].prio) == f ==>
            S.ChangePrio(AsWritten, k, t, prio)
              == K.SetState(K.PushTail(K.PopHead(changed.(cur := h), f), t, ReadyOf(prio)), h, RUNNING))
  {
    hide K.PushTail;
  }

  /** The part of `k_tsk_set_prio` for a task that is not real-time and has another priority. */
  method ChangePrio(s: System, t: Tid, prio: nat)
    requires s.Valid() && Inv(s.k) && s.k.cur != TID_NULL && t != TID_NULL && Ordinary(prio) && s.k.tcb[t].prio != prio
    requires !s.k.tcb[t].rt && s.k.tcb[t].state in {READY, RUNNING} && !S.ChangePrio(AsWritten, s.k, t, prio).fault
    modifies s`k, s`cur, s.queues, s.tasks
    ensures s.Valid() && s.k == S.ChangePrio(AsWritten, old(s.k), t, prio)
  {
    assert s.k.tcb[t].state == RUNNING <==> t == s.k.cur;
    hide System.Valid, Inv, S.ChangePrio;
    s.ReadTask(t);
    s.ReadTask(s.cur);
    if s.tasks[s.cur].prio > prio && s.cur != t {
      Raise(s, t, prio);
    } else if s.cur == t {
      if s.tasks[t].prio < prio {
        Lower(s, prio);
      } else {
        OwnRaiseIs(s.k, prio);
      }
    } else {
      Move(s, t, prio);
    }
  }

  lemma OwnRaiseIs(k: K.Kernel, prio: nat)
    requires Shape(k) && prio <= Current(k).prio
    ensures S.ChangePrio(AsWritten, k, k.cur, prio) == k
  {
    hide K.PushTail, K.PopHead, K.PushHead, K.PopTask;
  }

  /** `k_tsk_set_prio`. */
  method SetPrio(s: System, tid: nat, prio: nat) returns (reply: Reply)
    requires s.Valid() && Inv(s.k) && s.k.cur != TID_NULL && !S.SetPrio(AsWritten, s.k, tid, prio).0.fault
    modifies s`k, s`cur, s.queues, s.tasks
    ensures s.Valid() && (s.k, reply) == S.SetPrio(AsWritten, old(s.k), tid, prio)
  {
    hide System.Valid, S.ChangePrio, Inv;
    s.ReadTask(s.cur);
    if tid > MAX_TASKS - 1 || Order(prio) > 5 || Order(prio) < 0 {
      return Error(EINVAL);
    }
    var t: Tid := tid;
    TaskFacts(s.k, t);
    s.ReadTask(t);
    var c := s.tasks[t];
    if c.prio == PRIO_NULL || prio == PRIO_NULL {
      return Error(EINVAL);
    }
    if (!s.tasks[s.cur].priv && c.priv) || t == TID_NULL || c.state == DORMANT {
      return Error(EPERM);
    }
    if c.realTime && prio != PRIO_RT {
      return Error(EPERM);
    }
    if !c.realTime && prio == PRIO_RT {
      return Error(EPERM);
    }
    if c.state == BLK_RECV || c.state == BLK_SEND {
      s.Write(t, TaskOf(c).(prio := prio));
      s.ReadTask(t);
    }
    if !c.realTime {
      if c.prio != prio {
        ChangePrio(s, t, prio);
      }
    } else {
      s.Write(t, TaskOf(c).(prio := prio));
    }
    return Ok;
  }

  /** The kinds of tasks. */
  lemma TaskFacts(k: K.Kernel, t: Tid)
    requires Inv(k)
    ensures t != TID_NULL && k.tcb[t].rt && k.tcb[t].state != DORMANT ==> k.tcb[t].state in {READY, RUNNING, SUSPENDED}
    ensures t != TID_NULL && !k.tcb[t].rt && k.tcb[t].state != DORMANT ==>
      k.tcb[t].state != SUSPENDED && Ordinary(k.tcb[t].prio)
    ensures t != TID_NULL && k.tcb[t].rt ==> k.tcb[t].prio == PRIO_RT || k.tcb[t].state == DORMANT
  {
    if t != TID_NULL {
      assert TaskOk(k, t);
    }
  }

  // ---------------------------------------------------------------- mailboxes

  /** `k_mbx_create`; `memory` says whether the allocator has room for the ring. */
  method MbxCreate(s: System, size: nat, memory: bool) returns (reply: Reply)
    requires s.Valid() && Inv(s.k)
    modifies s`k, s`rings, s.queues
    ensures s.Valid() && (s.k, reply) == S.MbxCreate(old(s.k), size, memory)
  {
    NobodyWaits(s.k);
    hide System.Valid, Inv;
    s.ReadTask(s.cur);
    s.ReadRing(s.cur);
    if s.rings[s.cur] != null {
      return Error(EEXIST);
    }
    if size < HDR {
      return Error(EINVAL);
    }
    if !memory {
      return Error(ENOMEM);
    }
    s.NewRing(s.cur, size);
    s.ResetQueue(WaitOf(s.cur));
    assert old(s.k).q[WaitOf(s.cur) := []] == old(s.k).q;
    return Created(s.cur);
  }

  lemma NobodyWaits(k: K.Kernel)
    requires Inv(k)
    ensures !k.box[k.cur].active ==> k.q[WaitOf(k.cur)] == []
  {
    assert BoxOpen(k, k.cur);
  }

  /** The front task gives way to a more urgent one. */
  method Preempt(s: System)
    requires s.Valid() && Off(s.k, s.k.cur) && !S.Preempt(s.k).fault
    modifies s`k, s`cur, s.queues, s.tasks
    ensures s.Valid() && s.k == S.Preempt(old(s.k))
  {
    hide System.Valid, K.RunNew, K.PushHead, Off;
    s.ReadTask(s.cur);
    var i := ReadyOf(s.tasks[s.cur].prio);
    QueueExists(s.k, s.cur, i);
    SameFault(K.PushHead(s.k, s.cur, i));
    s.PushHead(s.cur, i);
    RunNew(s);
  }

  lemma SameFault(k: K.Kernel)
    requires Shape(k)
    ensures K.RunNew(k).fault == k.fault
  {
  }

  /** The checks that both sends make first. */
  method CheckSend(s: System, dst: nat, buf: array<Byte>) returns (e: Option<Errno>)
    requires s.Valid() && Readable(buf[..]) && BoxOf(dst).Some?
    ensures e == SendError(s.k, dst, buf[..])
    ensures e == None ==> LengthField(buf[..]) >= HDR && s.k.box[BoxOf(dst).value].active
  {
    hide System.Valid, LengthField;
    var b := BoxOf(dst).value;
    s.ReadTask(s.cur);
    s.ReadRing(b);
    if dst != TID_UART {
      s.ReadTask(dst);
      if s.tasks[dst].state == DORMANT {
        return Some(EINVAL);
      }
    }
    if LengthField(buf[..]) < HDR {
      return Some(EINVAL);
    }
    if s.rings[b] == null {
      return Some(ENOENT);
    }
    if LengthField(buf[..]) > s.rings[b].mem.Length {
      return Some(EMSGSIZE);
    }
    return None;
  }

  /** The message fits, and nobody waits. */
  method HasRoom(s: System, b: nat, size: nat) returns (room: bool)
    requires s.Valid() && b < NUM_BOXES && s.k.box[b].active
    ensures room == (Fitting(s.k.box[b], size) && s.k.q[WaitOf(b)] == [])
  {
    hide System.Valid;
    s.RingFits(b);
    s.ReadQueue(WaitOf(b));
    room := CanFit(s.rings[b].mem.Length, s.rings[b].currentSize, size) == Fits && s.queues[WaitOf(b)].currentSize == 0;
  }

  /** The message goes into the ring, and a task blocked on receiving it becomes ready. */
  method Deliver(s: System, b: nat, buf: array<Byte>)
    requires s.Valid() && Inv(s.k) && b < NUM_BOXES && s.k.box[b].active && s.Foreign(buf)
    requires Readable(buf[..]) && LengthField(buf[..]) >= HDR
    modifies s`k, s.queues, s.tasks, s.rings, set r | r in s.rings && r != null :: r.mem
    ensures s.Valid() && s.k == S.Deliver(old(s.k), b, MessageOf(buf[..])) && buf[..] == old(buf[..])
  {
    hide System.Valid, K.PushTail, S.PushRing, Off, Inv, MessageOf, LengthField, Readable;
    if b < MAX_TASKS {
      WakeFacts(s.k, b);
    }
    s.RingFits(b);
    RingOnly(s.k, b, MessageOf(buf[..]));
    s.PushRing(b, buf);
    if b < MAX_TASKS {
      s.ReadTask(b);
      if s.tasks[b].state == BLK_RECV {
        SameOff(old(s.k), s.k, b);
        Wake(s, b);
      }
    }
  }

  /** A task that was blocked goes to the end of its ready queue. */
  method Wake(s: System, t: Tid)
    requires s.Valid() && Off(s.k, t) && !s.k.tcb[t].rt && ReadyOf(s.k.tcb[t].prio) > 0
    modifies s`k, s.queues, s.tasks
    ensures s.Valid() && s.k == K.SetState(K.PushTail(old(s.k), t, ReadyOf(old(s.k).tcb[t].prio)), t, READY)
  {
    hide System.Valid, K.PushTail, Off;
    s.ReadTask(t);
    s.PushTail(t, ReadyOf(s.tasks[t].prio));
    s.SetState(t, READY);
  }

  lemma RingOnly(k: K.Kernel, b: nat, m: Message)
    requires Shape(k) && b < NUM_BOXES
    ensures var r := S.PushRing(k, b, m); r.q == k.q && r.tcb == k.tcb && r.cur == k.cur && r.fault == k.fault
  {
  }

  /** A task blocked on receiving is ordinary, and on no queue. */
  lemma WakeFacts(k: K.Kernel, t: Tid)
    requires Inv(k)
    ensures k.tcb[t].state == BLK_RECV ==> Off(k, t) && !k.tcb[t].rt && ReadyOf(k.tcb[t].prio) > 0
  {
    if k.tcb[t].state == BLK_RECV {
      assert t == TID_NULL || TaskOk(k, t);
      NoHome(k, t);
    }
  }

  lemma TailKeepsOff(k: K.Kernel, t: Tid, i: int, u: Tid)
    requires Shape(k) && i < NUM_QUEUES && t != u && Off(k, u)
    ensures Off(K.PushTail(k, t, i), u)
  {
    hide TailPlace;
  }

  /** The task that runs is still on no queue after a delivery. */
  lemma DeliveredOff(k: K.Kernel, b: nat, m: Message)
    requires Inv(k) && b < NUM_BOXES && WakesHigher(k, b)
    ensures var d := S.Deliver(k, b, m); d.cur == k.cur && Off(d, k.cur)
  {
    RunningOff(k);
    RingOnly(k, b, m);
    var pushed := S.PushRing(k, b, m);
    SameOff(k, pushed, k.cur);
    TailKeepsOff(pushed, b, ReadyOf(pushed.tcb[b].prio), k.cur);
    hide Off, K.PushTail, S.PushRing, Inv;
    var r := K.PushTail(pushed, b, ReadyOf(pushed.tcb[b].prio));
    SameOff(r, K.SetState(r, b, READY), k.cur);
    TailCur(pushed, b, ReadyOf(pushed.tcb[b].prio));
  }

  lemma TailCur(k: K.Kernel, t: Tid, i: int)
    requires Shape(k) && i < NUM_QUEUES
    ensures K.PushTail(k, t, i).cur == k.cur
  {
    hide TailPlace;
  }

  /** The current task blocks on sending. */
  method BlockSend(s: System, b: nat, buf: array<Byte>)
    requires s.Valid() && Inv(s.k) && b < NUM_BOXES && Readable(buf[..]) && LengthField(buf[..]) >= HDR
    modifies s`k, s`cur, s.queues, s.tasks
    ensures s.Valid() && s.k == S.BlockSend(old(s.k), b, MessageOf(buf[..]))
  {
    hide System.Valid, K.RunNew, K.PushTail, Off, Inv, MessageOf, LengthField, Readable;
    s.ReadTask(s.cur);
    RunningOff(s.k);
    CurrentKind(s.k);
    s.Write(s.cur, TaskOf(s.tasks[s.cur]).(state := BLK_SEND, msg := MessageOf(buf[..]), dest := b));
    SameOff(old(s.k), s.k, s.k.cur);
    s.PushTail(s.cur, WaitOf(b));
    RunNew(s);
  }

  /** A real-time task that runs has the real-time priority. */
  lemma CurrentKind(k: K.Kernel)
    requires Inv(k)
    ensures Current(k).rt ==> Current(k).prio == PRIO_RT
  {
    assert k.cur == TID_NULL || TaskOk(k, k.cur);
  }

  /** A send that finds room. */
  method SendNow(s: System, b: nat, buf: array<Byte>, preempt: bool)
    requires s.Valid() && Inv(s.k) && b < NUM_BOXES && s.k.box[b].active && s.Foreign(buf)
    requires Readable(buf[..]) && LengthField(buf[..]) >= HDR
    requires preempt && WakesHigher(s.k, b) ==> !S.Preempt(S.Deliver(s.k, b, MessageOf(buf[..]))).fault
    modifies s`k, s`cur, s.queues, s.tasks, s.rings, set r | r in s.rings && r != null :: r.mem
    ensures s.Valid() && buf[..] == old(buf[..])
    ensures var d := S.Deliver(old(s.k), b, MessageOf(buf[..]));
      s.k == if preempt && WakesHigher(old(s.k), b) then S.Preempt(d) else d
  {
    hide System.Valid, S.Deliver, S.Preempt, Off, Inv, MessageOf, LengthField, Readable;
    s.ReadTask(s.cur);
    var higher := false;
    if b < MAX_TASKS {
      s.ReadTask(b);
      higher := s.tasks[b].state == BLK_RECV && s.tasks[b].prio < s.tasks[s.cur].prio;
    }
    if higher {
      DeliveredOff(s.k, b, MessageOf(buf[..]));
    }
    Deliver(s, b, buf);
    if preempt && higher {
      Preempt(s);
    }
  }

  /** `k_send_msg`. */
  method Send(s: System, dst: nat, buf: array<Byte>) returns (reply: Reply)
    requires s.Valid() && Inv(s.k) && s.Foreign(buf) && Readable(buf[..]) && !S.Send(s.k, dst, buf[..]).0.fault
    modifies s`k, s`cur, s.queues, s.tasks, s.rings, set r | r in s.rings && r != null :: r.mem
    ensures s.Valid() && (s.k, reply) == S.Send(old(s.k), dst, old(buf[..]))
  {
    hide System.Valid, S.Send, S.SendNb, S.Deliver, S.Preempt, S.BlockSend, Inv, SendError;
    hide MessageOf, LengthField, Readable, Fitting;
    s.ReadTask(s.cur);
    SendCases(s.k, dst, buf[..]);
    var e := CheckSend(s, dst, buf);
    if e.Some? {
      return Error(e.value);
    }
    var b := BoxOf(dst).value;
    var room := HasRoom(s, b, LengthField(buf[..]));
    if room {
      SendNow(s, b, buf, true);
    } else {
      BlockSend(s, b, buf);
    }
    return Ok;
  }

  /** `k_send_msg_nb`. */
  method SendNb(s: System, dst: nat, buf: array<Byte>) returns (reply: Reply)
    requires s.Valid() && Inv(s.k) && s.Foreign(buf) && Readable(buf[..]) && !S.SendNb(s.k, dst, buf[..]).0.fault
    modifies s`k, s`cur, s.queues, s.tasks, s.rings, set r | r in s.rings && r != null :: r.mem
    ensures s.Valid() && (s.k, reply) == S.SendNb(old(s.k), dst, old(buf[..]))
  {
    hide System.Valid, S.Send, S.SendNb, S.Deliver, S.Preempt, S.BlockSend, Inv, SendError;
    hide MessageOf, LengthField, SenderField, Readable, Fitting;
    s.ReadTask(s.cur);
    SendCases(s.k, dst, buf[..]);
    var e := CheckSend(s, dst, buf);
    if e.Some? {
      return Error(e.value);
    }
    var b := BoxOf(dst).value;
    var room := HasRoom(s, b, LengthField(buf[..]));
    if !room {
      return Error(ENOSPC);
    }
    SendNow(s, b, buf, SenderField(buf[..]) != TID_UART);
    return Ok;
  }

  /** What the two sends do, case by case. */
  lemma SendCases(k: K.Kernel, dst: nat, buf: seq<Byte>)
    requires Shape(k) && Readable(buf)
    ensures BoxOf(dst) == None ==> S.Send(k, dst, buf).0.fault && S.SendNb(k, dst, buf).0.fault
    ensures |buf| >= HDR
    ensures BoxOf(dst).Some? ==> var b, e := BoxOf(dst).value, SendError(k, dst, buf);
      && (e.Some? ==> S.Send(k, dst, buf) == (k, Error(e.value)) && S.SendNb(k, dst, buf) == (k, Error(e.value)))
      && (e == None ==>
            && LengthField(buf) >= HDR
            && var m := MessageOf(buf);
               var d := S.Deliver(k, b, m);
               if Fitting(k.box[b], LengthField(buf)) && k.q[WaitOf(b)] == [] then
                 && S.Send(k, dst, buf) == (if WakesHigher(k, b) then S.Preempt(d) else d, Reply.Ok)
                 && S.SendNb(k, dst, buf)
                      == (if SenderField(buf) != TID_UART && WakesHigher(k, b) then S.Preempt(d) else d, Reply.Ok)
               else S.Send(k, dst, buf) == (S.BlockSend(k, b, m), Reply.Ok) && S.SendNb(k, dst, buf) == (k, Error(ENOSPC)))
  {
    hide S.Deliver, S.Preempt, S.BlockSend;
  }

  // ---------------------------------------------------------------- receiving

  /** One round of the loop that lets blocked senders in. */
  method LetInFirst(s: System, b: nat)
    requires s.Valid() && b < NUM_BOXES && s.k.q[WaitOf(b)] != [] && s.k.box[b].active
    requires Placed(s.k) && TasksOk(s.k)
    modifies s`k, s.queues, s.tasks, s.rings, set r | r in s.rings && r != null :: r.mem
    ensures s.Valid() && s.k == DrainStep(old(s.k), b)
  {
    hide System.Valid, K.PushTail, K.PopHead, S.PushRing, Off, Placed, TasksOk, TaskOk, IndexOf, Remove;
    s.ReadQueue(WaitOf(b));
    FirstWaiter(s.k, b);
    PopHeadIs(s.k, WaitOf(b));
    var t := s.PopHead(WaitOf(b));
    LetIn(s, b, t);
  }

  /** The message of a task that is on no queue goes into the ring, and the task is ready. */
  method LetIn(s: System, b: nat, t: Tid)
    requires s.Valid() && b < NUM_BOXES && s.k.box[b].active && Off(s.k, t) && !s.k.tcb[t].rt
    requires ReadyOf(s.k.tcb[t].prio) > 0
    modifies s`k, s.queues, s.tasks, s.rings, set r | r in s.rings && r != null :: r.mem
    ensures s.Valid()
    ensures var r := S.PushRing(old(s.k), b, old(s.k).tcb[t].msg);
      s.k == K.PushTail(r, t, ReadyOf(r.tcb[t].prio))
  {
    hide System.Valid, K.PushTail, S.PushRing, Off;
    s.ReadTask(t);
    var m := s.tasks[t].msg;
    RingOnly(s.k, b, m);
    PushMessage(s, b, m);
    SameOff(old(s.k), s.k, t);
    s.ReadTask(t);
    s.PushTail(t, ReadyOf(s.tasks[t].prio));
  }

  /** `push_buffer` from the buffer that a blocked sender points to. */
  method PushMessage(s: System, b: nat, m: Message)
    requires s.Valid() && b < NUM_BOXES && s.k.box[b].active
    modifies s`k, s.rings, set r | r in s.rings && r != null :: r.mem
    ensures s.Valid() && s.k == S.PushRing(old(s.k), b, m)
  {
    hide System.Valid, S.PushRing;
    s.RingFits(b);
    var copy := new Byte[|m|](i requires 0 <= i < |m| => m[i]);
    assert copy[..] == m && m[..|m|] == m && MessageOf(copy[..]) == m;
    s.PushRing(b, copy);
  }

  lemma PopHeadIs(k: K.Kernel, i: nat)
    requires Shape(k) && i < NUM_QUEUES && k.q[i] != []
    ensures var r, t := K.PopHead(k, i), k.q[i][0];
      r.tcb[t] == k.tcb[t].(state := r.tcb[t].state) && r.box == k.box && r.cur == k.cur
  {
  }

  /** The loop at the end of both receives. */
  method Drain(s: System, b: nat)
    requires s.Valid() && b < NUM_BOXES && s.k.box[b].active && Mid(s.k, s.k.cur, b) && Unawaited(s.k, b)
    modifies s`k, s.queues, s.tasks, s.rings, set r | r in s.rings && r != null :: r.mem
    ensures s.Valid() && s.k == S.Drain(old(s.k), b)
  {
    hide System.Valid, Unawaited, Mid, DrainStep;
    s.ReadQueue(WaitOf(b));
    while s.queues[WaitOf(b)].currentSize > 0
      invariant s.Valid() && Shape(s.k) && |s.queues| == NUM_QUEUES && s.queues[WaitOf(b)].currentSize == |s.k.q[WaitOf(b)]|
      invariant s.k.box[b].active && Mid(s.k, s.k.cur, b) && Unawaited(s.k, b)
      invariant S.Drain(s.k, b) == S.Drain(old(s.k), b)
      decreases |s.k.q[WaitOf(b)]|
    {
      s.ReadQueue(WaitOf(b));
      s.ReadTask(s.k.q[WaitOf(b)][0]);
      s.RingFits(b);
      if CanFit(s.rings[b].mem.Length, s.rings[b].currentSize, |s.queues[WaitOf(b)].HEAD.msg|) != Fits {
        break;
      }
      MidParts(s.k, b);
      FirstRound(s.k, b);
      StillActive(s.k, b);
      LetInFirst(s, b);
      s.ReadQueue(WaitOf(b));
    }
  }

  lemma MidParts(k: K.Kernel, b: nat)
    requires Shape(k) && Mid(k, k.cur, b)
    ensures Placed(k) && TasksOk(k)
  {
  }

  lemma StillActive(k: K.Kernel, b: nat)
    requires Shape(k) && b < NUM_BOXES && k.q[WaitOf(b)] != [] && k.box[b].active
    ensures DrainStep(k, b).box[b].active
  {
    hide K.PopHead;
    PopHeadIs(k, WaitOf(b));
    var popped := K.PopHead(k, WaitOf(b));
    var m := k.tcb[k.q[WaitOf(b)][0]].msg;
    TailBox(S.PushRing(popped, b, m), k.q[WaitOf(b)][0], ReadyOf(S.PushRing(popped, b, m).tcb[k.q[WaitOf(b)][0]].prio));
    hide K.PushTail;
  }

  lemma TailBox(k: K.Kernel, t: Tid, i: int)
    requires Shape(k) && i < NUM_QUEUES
    ensures K.PushTail(k, t, i).box == k.box
  {
    hide TailPlace;
  }

  /** The end of a receive by the current task: senders are let in, and the receiver gives way. */
  method Finish(s: System, buf: array<Byte>)
    requires s.Valid() && s.Foreign(buf) && s.k.box[s.k.cur].active && Mid(s.k, s.k.cur, s.k.cur) && Unawaited(s.k, s.k.cur)
    requires !S.Preempt(S.Drain(s.k, s.k.cur)).fault
    modifies s`k, s`cur, s.queues, s.tasks, s.rings, set r | r in s.rings && r != null :: r.mem
    ensures s.Valid() && s.k == S.Preempt(S.Drain(old(s.k), old(s.k.cur))) && buf[..] == old(buf[..])
  {
    hide System.Valid, Mid, Unawaited, S.Drain, S.Preempt, Off;
    s.ReadTask(s.cur);
    DrainKeeps(s.k, s.k.cur);
    RunningOff(S.Drain(s.k, s.k.cur));
    Drain(s, s.cur);
    Preempt(s);
  }

  /** `k_recv_msg`, up to the switch point if there is no message. */
  method Recv(s: System, buf: array<Byte>, len: nat) returns (reply: Reply)
    requires s.Valid() && Inv(s.k) && Enabled(s.k, OpRecv(len)) && !S.Recv(s.k, len).0.fault
    requires s.Foreign(buf) && len <= buf.Length
    modifies s`k, s`cur, s.queues, s.tasks, s.rings, (set r | r in s.rings && r != null :: r.mem), buf
    ensures s.Valid() && (s.k, reply) == S.Recv(old(s.k), len)
    ensures reply.Received? ==> |reply.m| <= buf.Length && buf[..|reply.m|] == reply.m
  {
    hide System.Valid, K.RunNew, S.Preempt, S.Drain, S.Recv, S.PopRing, Inv, Mid, Unawaited, Flatten;
    s.ReadTask(s.cur);
    NotWaiting(s.k);
    RecvCases(s.k, len);
    if s.k.box[s.k.cur].ring != [] {
      PopRingKeeps(s.k, s.k.cur);
    }
    s.ReadRing(s.cur);
    if s.rings[s.cur] == null {
      return Error(ENOENT);
    }
    PopKeepsBox(s.k, s.k.cur);
    var code := Take(s, s.cur, buf, len);
    if code == -1 {
      return Error(ENOSPC);
    } else if code == 0 {
      s.ReadTask(s.cur);
      s.Write(s.cur, TaskOf(s.tasks[s.cur]).(state := BLK_RECV, awaiting := Some(len)));
      RunNew(s);
      return Blocked;
    }
    reply := Received(Taken(buf, old(s.k).box[old(s.k).cur].ring[0]));
    Finish(s, buf);
  }

  lemma NotWaiting(k: K.Kernel)
    requires Shape(k)
    ensures Unawaited(k, UART_BOX) && (Current(k).awaiting == None ==> Unawaited(k, k.cur))
  {
  }

  /** `pop_buffer` on the ring of mailbox `b`. */
  method Take(s: System, b: nat, buf: array<Byte>, len: nat) returns (code: int)
    requires s.Valid() && b < NUM_BOXES && s.k.box[b].active && s.Foreign(buf) && len <= buf.Length
    modifies s`k, s.rings, buf
    ensures s.Valid() && s.Foreign(buf)
    ensures var ring := old(s.k).box[b].ring;
      && code == (if ring == [] then 0 else if len < |ring[0]| then -1 else 1)
      && s.k == (if code == 1 then S.PopRing(old(s.k), b) else old(s.k))
      && (code == 1 ==> buf[..|ring[0]|] == ring[0])
  {
    hide System.Valid, S.PopRing;
    s.ReadRing(b);
    code := s.PopRing(b, buf, len);
  }

  /** The message that a receive has copied to the front of the caller's buffer. */
  function Taken(buf: array<Byte>, ghost m: Message): (r: Message)
    requires |m| <= buf.Length && buf[..|m|] == m
    reads buf
    ensures r == m
  {
    assert forall i :: 0 <= i < HDR ==> buf[..][i] == m[i];
    buf[..LengthField(buf[..])]
  }

  lemma RecvCases(k: K.Kernel, len: nat)
    requires Shape(k)
    ensures var c, ring := k.cur, k.box[k.cur].ring;
      S.Recv(k, len) ==
        if !k.box[c].active then (k, Error(ENOENT))
        else if ring == [] then
          (K.RunNew(k.(tcb := k.tcb[c := Current(k).(state := BLK_RECV, awaiting := Some(len))])), Blocked)
        else if len < |ring[0]| then (k, Error(ENOSPC))
        else (S.Preempt(S.Drain(S.PopRing(k, c), c)), Received(ring[0]))
  {
    hide K.RunNew, S.Preempt, S.PopRing, S.Drain;
  }

  lemma PopKeepsBox(k: K.Kernel, b: nat)
    requires Shape(k) && b < NUM_BOXES
    ensures k.box[b].ring != [] ==> var r := S.PopRing(k, b);
      r.box[b].active == k.box[b].active && r.cur == k.cur && r.tcb == k.tcb
  {
  }

  /** `k_recv_msg`, from the switch point on. */
  method Resume(s: System, buf: array<Byte>) returns (reply: Reply)
    requires s.Valid() && Inv(s.k) && Enabled(s.k, OpResume) && !S.Resume(s.k).0.fault
    requires s.Foreign(buf) && Current(s.k).awaiting.value <= buf.Length
    modifies s`k, s`cur, s.queues, s.tasks, s.rings, (set r | r in s.rings && r != null :: r.mem), buf
    ensures s.Valid() && (s.k, reply) == S.Resume(old(s.k))
    ensures reply.Received? ==> |reply.m| <= buf.Length && buf[..|reply.m|] == reply.m
  {
    hide System.Valid, S.Preempt, S.Drain, S.Resume, S.PopRing, Inv, Mid, Unawaited;
    s.ReadTask(s.cur);
    ghost var back := Back(s.k);
    ResumeFacts(s.k);
    var len := s.tasks[s.cur].awaiting.value;
    s.Write(s.cur, TaskOf(s.tasks[s.cur]).(awaiting := None));
    assert s.k == back;
    PopKeepsBox(s.k, s.k.cur);
    var code := Take(s, s.cur, buf, len);
    reply := if code == 1 then Received(Taken(buf, back.box[back.cur].ring[0])) else Ok;
    Finish(s, buf);
  }

  function Back(k: K.Kernel): (r: K.Kernel)
    requires Shape(k)
    ensures Shape(r)
  {
    k.(tcb := k.tcb[k.cur := Current(k).(awaiting := None)])
  }

  lemma ResumeFacts(k: K.Kernel)
    requires Inv(k) && Enabled(k, OpResume)
    ensures var c, r, ring := k.cur, Back(k), k.box[k.cur].ring;
      && k.box[c].active && Unawaited(r, c) && Mid(r, c, c)
      && if ring == [] || Current(k).awaiting.value < |ring[0]| then
           S.Resume(k) == (S.Preempt(S.Drain(r, c)), Reply.Ok)
         else
           && S.Resume(k) == (S.Preempt(S.Drain(S.PopRing(r, c), c)), Received(ring[0]))
           && Mid(S.PopRing(r, c), c, c) && Unawaited(S.PopRing(r, c), c)
  {
    assert k.cur != TID_NULL && TaskOk(k, k.cur);
    LeaveReceive(k);
    StillClosed(Back(k), k.cur);
    if k.box[k.cur].ring != [] {
      PopRingKeeps(Back(k), k.cur);
    }
    hide S.Preempt, S.Drain, S.PopRing, Inv, Mid;
  }

  /** `k_recv_msg_nb`, for the current task or, in the UART handler, for the UART mailbox. */
  method RecvNb(s: System, buf: array<Byte>, len: nat, uart: bool) returns (reply: Reply)
    requires s.Valid() && Inv(s.k) && (uart || Enabled(s.k, OpRecvNb(len))) && !S.RecvNb(s.k, len, uart).0.fault
    requires s.Foreign(buf) && len <= buf.Length
    modifies s`k, s`cur, s.queues, s.tasks, s.rings, (set r | r in s.rings && r != null :: r.mem), buf
    ensures s.Valid() && (s.k, reply) == S.RecvNb(old(s.k), len, uart)
    ensures reply.Received? ==> |reply.m| <= buf.Length && buf[..|reply.m|] == reply.m
  {
    hide System.Valid, S.Preempt, S.Drain, S.RecvNb, S.PopRing, Inv, Mid, Unawaited, Flatten;
    s.ReadTask(s.cur);
    NotWaiting(s.k);
    var b := if uart then UART_BOX else s.cur;
    RecvNbCases(s.k, len, uart);
    s.ReadRing(b);
    if s.rings[b] == null {
      return Error(ENOENT);
    }
    s.RingFits(b);
    EmptyRing(s.k.box[b].ring);
    if s.rings[b].currentSize == 0 {
      return Error(ENOMSG);
    }
    PopRingKeeps(s.k, b);
    PopKeepsBox(s.k, b);
    var code := Take(s, b, buf, len);
    if code == -1 {
      return Error(ENOSPC);
    }
    reply := Received(Taken(buf, old(s.k).box[b].ring[0]));
    FinishNb(s, b, buf, uart);
  }

  /** In the UART handler nobody gives way. */
  method FinishNb(s: System, b: nat, buf: array<Byte>, uart: bool)
    requires s.Valid() && s.Foreign(buf) && b == (if uart then UART_BOX else s.k.cur) && s.k.box[b].active
    requires Mid(s.k, s.k.cur, b) && Unawaited(s.k, b) && (!uart ==> !S.Preempt(S.Drain(s.k, b)).fault)
    modifies s`k, s`cur, s.queues, s.tasks, s.rings, set r | r in s.rings && r != null :: r.mem
    ensures s.Valid() && buf[..] == old(buf[..])
    ensures var d := S.Drain(old(s.k), b); s.k == if uart then d else S.Preempt(d)
  {
    hide System.Valid, S.Preempt, S.Drain, Mid, Unawaited;
    if uart {
      Drain(s, b);
    } else {
      Finish(s, buf);
    }
  }

  /** A ring is empty exactly if it holds no bytes. */
  lemma EmptyRing(ring: seq<Message>)
    ensures ring == [] <==> |Flatten(ring)| == 0
  {
  }

  lemma RecvNbCases(k: K.Kernel, len: nat, uart: bool)
    requires Shape(k)
    ensures var b := if uart then UART_BOX else k.cur;
      var ring := k.box[b].ring;
      S.RecvNb(k, len, uart) ==
        if !k.box[b].active then (k, Error(ENOENT))
        else if ring == [] then (k, Error(ENOMSG))
        else if len < |ring[0]| then (k, Error(ENOSPC))
        else
          var d := S.Drain(S.PopRing(k, b), b);
          (if uart then d else S.Preempt(d), Received(ring[0]))
  {
    hide S.Preempt, S.PopRing, S.Drain;
  }

  // ---------------------------------------------------------------- real-time tasks

  /** `k_rt_tsk_set`. */
  method RtSet(s: System, usec: nat) returns (reply: Reply)
    requires s.Valid() && Inv(s.k)
    modifies s`k, s`cur, s.queues, s.tasks
    ensures s.Valid() && (s.k, reply) == S.RtSet(old(s.k), usec)
  {
    hide System.Valid, K.Dispatch, K.PushTail, Off, Inv;
    s.ReadTask(s.cur);
    RunningOff(s.k);
    if s.tasks[s.cur].realTime {
      return Error(EPERM);
    }
    var period := usec / 500;
    s.Write(s.cur, TaskOf(s.tasks[s.cur]).(
      rt := true, period := period, deadline := s.now + 1 + period, prio := PRIO_RT, state := READY));
    SameOff(old(s.k), s.k, s.k.cur);
    s.PushTail(s.cur, ReadyOf(PRIO_RT));
    Dispatch(s);
    return Ok;
  }

  /** `k_rt_tsk_susp`. */
  method RtSusp(s: System) returns (reply: Reply)
    requires s.Valid() && Inv(s.k)
    modifies s`k, s`cur, s.queues, s.tasks
    ensures s.Valid() && (s.k, reply) == S.RtSusp(old(s.k))
  {
    hide System.Valid, K.Dispatch, K.PushTail, Off, Inv;
    s.ReadTask(s.cur);
    RunningOff(s.k);
    HasPeriod(s.k);
    var c := s.tasks[s.cur];
    if !c.realTime {
      return Error(EPERM);
    }
    var next := c.deadline + c.period;
    if c.deadline < s.now {
      var missed := (s.now - c.deadline) / c.period;
      next := c.deadline + (missed + 1) * c.period;
    }
    assert next == NextDeadline(c.deadline, c.period, s.now);
    s.Write(s.cur, TaskOf(c).(state := SUSPENDED, deadline := next));
    SameOff(old(s.k), s.k, s.k.cur);
    s.PushTail(s.cur, SUSP);
    Dispatch(s);
    return Ok;
  }

  lemma HasPeriod(k: K.Kernel)
    requires Inv(k)
    ensures Current(k).rt ==> Current(k).prio == PRIO_RT && Current(k).period > 0
  {
    assert k.cur == TID_NULL || TaskOk(k, k.cur);
  }

  // ---------------------------------------------------------------- the timer interrupt

  /** One round of the release loop. */
  method ReleaseIfDue(s: System, t: Tid)
    requires s.Valid() && Inv(s.k) && t in s.k.q[SUSP]
    modifies s`k, s.queues, s.tasks
    ensures s.Valid() && s.k == ReleaseTask(old(s.k), t)
  {
    hide System.Valid, K.PushTail, K.PopTask, Off, Inv;
    s.ReadTask(t);
    SuspendedJob(s.k, t);
    var c := s.tasks[t];
    if c.deadline - c.period <= s.now {
      PoppedTask(s.k, t, SUSP);
      s.PopTask(t, SUSP);
      s.SetState(t, READY);
      SameOff(K.PopTask(AsWritten, old(s.k), t, SUSP), s.k, t);
      s.ReadTask(t);
      s.PushTail(t, ReadyOf(s.tasks[t].prio));
    }
  }

  lemma SuspendedJob(k: K.Kernel, t: Tid)
    requires Inv(k) && t in k.q[SUSP]
    ensures k.tcb[t].rt && k.tcb[t].prio == PRIO_RT
  {
    SuspendedMember(k, t);
  }

  /** The release loop: it takes tasks from the very list that it walks. */
  method Release(s: System)
    requires s.Valid() && Inv(s.k)
    modifies s`k, s.queues, s.tasks
    ensures s.Valid() && s.k == ReleaseAll(old(s.k), old(s.k.q[SUSP]))
  {
    hide System.Valid, Inv, ReleaseTask;
    s.ReadQueue(SUSP);
    ghost var ts, i, kept: seq<Tid> := s.k.q[SUSP], 0, [];
    var temp := s.queues[SUSP].HEAD;
    while temp != null
      invariant i <= |ts| && s.Valid() && Inv(s.k) && Shape(s.k) && |s.tasks| == MAX_TASKS
      invariant temp == if i < |ts| then s.tasks[ts[i]] else null
      invariant s.k.q[SUSP] == kept + ts[i..]
      invariant ReleaseAll(s.k, ts[i..]) == ReleaseAll(old(s.k), ts)
      decreases |ts| - i
    {
      var add := temp;
      assert s.k.q[SUSP][|kept|] == ts[i];
      s.NextOf(SUSP, |kept|);
      s.ReadTask(ts[i]);
      temp := temp.next;
      Released1(s.k, ts, kept, i);
      kept := if IsDue(s.k.tcb[ts[i]], s.k.now) then kept else kept + [ts[i]];
      ReleaseIfDue(s, add.tid);
      s.ReadTask(0);
      i := i + 1;
    }
  }

  /** What one round leaves of the list, and of the work. */
  lemma Released1(k: K.Kernel, ts: seq<Tid>, kept: seq<Tid>, i: nat)
    requires Inv(k) && i < |ts| && k.q[SUSP] == kept + ts[i..]
    ensures var r, t := ReleaseTask(k, ts[i]), ts[i];
      && t in k.q[SUSP] && Inv(r) && ReleaseAll(k, ts[i..]) == ReleaseAll(r, ts[i + 1..])
      && r.q[SUSP] == (if IsDue(k.tcb[t], k.now) then kept else kept + [t]) + ts[i + 1..]
      && |k.q[SUSP]| == |kept| + |ts| - i && k.q[SUSP][|kept|] == t
      && (i + 1 < |ts| ==> k.q[SUSP][|kept| + 1] == ts[i + 1])
  {
    assert NoDup(k.q[SUSP]);
    SkipOver(k.q[SUSP], kept, ts, i);
    ReleaseTaskKeeps(k, ts[i]);
    assert ts[i..][0] == ts[i] && ts[i..][1..] == ts[i + 1..];
    hide Inv, ReleaseTask;
  }

  /** The decision at the end of the timer interrupt. */
  method Decide(s: System)
    requires s.Valid() && Inv(s.k) && !S.Decide(AsWritten, s.k).fault
    modifies s`k, s`cur, s.queues, s.tasks
    ensures s.Valid() && s.k == S.Decide(AsWritten, old(s.k))
  {
    hide System.Valid, Inv, S.Decide, K.Scheduler;
    s.ReadTask(s.cur);
    DecideCases(s.k);
    if s.cur == TID_NULL {
      var h := Scheduler(s);
      if h != TID_NULL {
        s.Run(h);
        s.SetState(h, RUNNING);
      }
    } else if s.tasks[s.cur].realTime {
      DecideJob(s);
    } else {
      DecideOrdinary(s);
    }
  }

  /** What is decided while a real-time task runs. */
  method DecideJob(s: System)
    requires s.Valid() && Inv(s.k) && s.k.cur != TID_NULL && Current(s.k).rt && !S.Decide(AsWritten, s.k).fault
    modifies s`k, s`cur, s.queues, s.tasks
    ensures s.Valid() && s.k == S.Decide(AsWritten, old(s.k))
  {
    hide System.Valid, Inv, S.Decide, K.Scheduler, K.PushHead, K.PushTail, Off;
    s.ReadTask(s.cur);
    DecideCases(s.k);
    JobFacts(s.k);
    var h := Scheduler(s);
    s.ReadTask(h);
    s.ReadTask(s.cur);
    if s.tasks[h].realTime && s.tasks[h].deadline < s.tasks[s.cur].deadline {
      var stopped := s.cur;
      s.PushTail(stopped, ReadyOf(s.tasks[stopped].prio));
      s.SetState(stopped, READY);
      s.Run(h);
      s.SetState(h, RUNNING);
    } else {
      QueueExists(s.k, h, ReadyOf(s.tasks[h].prio));
      s.PushHead(h, ReadyOf(s.tasks[h].prio));
    }
  }

  /** What is decided while an ordinary task runs. */
  method DecideOrdinary(s: System)
    requires s.Valid() && Inv(s.k) && s.k.cur != TID_NULL && !Current(s.k).rt && !S.Decide(AsWritten, s.k).fault
    modifies s`k, s`cur, s.queues, s.tasks
    ensures s.Valid() && s.k == S.Decide(AsWritten, old(s.k))
  {
    hide System.Valid, Inv, S.Decide, K.Scheduler, K.PushHead, Off;
    s.ReadTask(s.cur);
    DecideCases(s.k);
    JobFacts(s.k);
    var h := Scheduler(s);
    if h != TID_NULL {
      s.ReadTask(h);
      if s.tasks[h].realTime {
        var stopped := s.cur;
        label popped:
        s.SetState(stopped, READY);
        SameOff(old@popped(s.k), s.k, stopped);
        s.ReadTask(stopped);
        QueueExists(s.k, stopped, ReadyOf(s.tasks[stopped].prio));
        s.PushHead(stopped, ReadyOf(s.tasks[stopped].prio));
        s.Run(h);
        s.SetState(h, RUNNING);
      } else {
        QueueExists(s.k, h, ReadyOf(s.tasks[h].prio));
        s.PushHead(h, ReadyOf(s.tasks[h].prio));
      }
    }
  }

  /** The decision, case by case. */
  lemma DecideCases(k: K.Kernel)
    requires Inv(k)
    ensures var (s, h) := K.Scheduler(k);
      S.Decide(AsWritten, k) ==
        if k.cur == TID_NULL then (if h != TID_NULL then K.SetState(s.(cur := h), h, RUNNING) else s)
        else if Current(k).rt then
          if s.tcb[h].rt && s.tcb[h].deadline < s.tcb[k.cur].deadline then
            K.SetState(K.SetState(K.PushTail(s, k.cur, ReadyOf(s.tcb[k.cur].prio)), k.cur, READY).(cur := h), h, RUNNING)
          else K.PushHead(s, h, ReadyOf(s.tcb[h].prio))
        else if h == TID_NULL then s
        else if s.tcb[h].rt then
          K.SetState(K.PushHead(K.SetState(s, k.cur, READY), k.cur, ReadyOf(s.tcb[k.cur].prio)).(cur := h), h, RUNNING)
        else K.PushHead(s, h, ReadyOf(s.tcb[h].prio))
  {
    CurrentRuns(k);
    hide K.PushHead, K.PushTail, K.Scheduler, Inv;
  }

  lemma CurrentRuns(k: K.Kernel)
    requires Inv(k)
    ensures k.cur != TID_NULL ==> Current(k).state == RUNNING
  {
  }

  /** What the scheduler leaves as it was. */
  lemma JobFacts(k: K.Kernel)
    requires Inv(k) && k.cur != TID_NULL
    ensures var (s, h) := K.Scheduler(k);
      && Off(s, k.cur) && Off(s, h) && s.tcb[k.cur] == k.tcb[k.cur] && s.cur == k.cur
      && (Current(k).rt ==> Current(k).prio == PRIO_RT)
  {
    RunningOff(k);
    StillOff(k, k.cur);
    CurrentKind(k);
    HeadFacts(k);
    NoHome(k, TID_NULL);
    if FirstReady(k) < NUM_READY {
      HeadOff(k, FirstReady(k));
    }
    hide Inv;
  }

  lemma HeadOff(k: K.Kernel, i: nat)
    requires Inv(k) && i < NUM_READY && k.q[i] != []
    ensures Off(K.PopHead(k, i), k.q[i][0])
  {
    var h := k.q[i][0];
    TailFacts(k.q[i]);
    assert h in k.q[i];
    ReadyMember(k, i, h);
    forall j | 0 <= j < NUM_QUEUES && j != i
      ensures h !in k.q[j]
    {
      assert QueueIs(k, TID_NULL, j) && !Lives(k, TID_NULL, j, h);
    }
  }

  /** `TIMER0_IRQHandler`. */
  method Tick(s: System, count: nat)
    requires s.Valid() && Inv(s.k) && s.k.now <= count && !S.Tick(AsWritten, s.k, count).fault
    modifies s`k, s`cur, s`now, s.queues, s.tasks
    ensures s.Valid() && s.k == S.Tick(AsWritten, old(s.k), count)
  {
    hide System.Valid, Inv, S.Decide, ReleaseAll;
    MarkedKeeps(s.k, count);
    s.SetNow(count);
    s.ReadQueue(SUSP);
    var temp := s.queues[SUSP].HEAD;
    s.ReadTask(s.k.q[SUSP][0]);
    s.SetState(temp.tid, SUSPENDED);
    Release(s);
    Decide(s);
  }

  lemma MarkedKeeps(k: K.Kernel, now: nat)
    requires Inv(k) && k.now <= now && !S.Tick(AsWritten, k, now).fault
    ensures var timed := k.(now := now);
      && Shape(timed) && k.q[SUSP] != [] && Inv(MarkFirst(timed)) && Inv(ReleaseAll(MarkFirst(timed), k.q[SUSP]))
  {
    var timed := k.(now := now);
    TickIs(AsWritten, k, now);
    ReleasedKeeps(k, now);
    SameTasks(k, timed);
    StillOk(k, timed);
    var t := k.q[SUSP][0];
    SuspendedMember(k, t);
    assert k.tcb[t].(state := SUSPENDED) == k.tcb[t] && timed.tcb[t := k.tcb[t]] == timed.tcb;
    assert MarkFirst(timed) == timed;
  }

  // ---------------------------------------------------------------- boot

  /** One task of `k_tsk_init` is made and queued. */
  method AddTask(s: System, t: Tid, prio: nat, priv: bool)
    requires s.Valid() && Off(s.k, t) && Ordinary(prio)
    modifies s`k, s.queues, s.tasks
    ensures s.Valid() && s.k == S.AddTask(old(s.k), t, prio, priv)
    ensures forall u: Tid :: u != t && Off(old(s.k), u) ==> Off(s.k, u)
  {
    hide System.Valid, K.PushTail, Off;
    s.ReadTask(t);
    s.Write(t, TaskOf(s.tasks[t]).(
      prio := prio, priv := priv, state := READY, rt := false, period := 0, deadline := 0, awaiting := None));
    SameOff(old(s.k), s.k, t);
    forall u: Tid | u != t && Off(old(s.k), u)
      ensures Off(K.PushTail(s.k, t, ReadyOf(prio)), u)
    {
      SameOff(old(s.k), s.k, u);
      TailKeepsOff(s.k, t, ReadyOf(prio), u);
    }
    s.PushTail(t, ReadyOf(prio));
  }

  /** `k_tsk_init`: the three system tasks, those asked for, and the first one runs. */
  method Boot(inits: seq<TaskInit>) returns (s: System)
    requires |inits| < TID_WCLCK && forall i :: 0 <= i < |inits| ==> Ordinary(inits[i].prio)
    ensures s.Valid() && s.k == S.Boot(inits) && Inv(s.k)
  {
    hide System.Valid, S.AddTask, K.Dispatch, Off, Inv;
    s := new System();
    NoneQueued();
    AddTask(s, 14, HIGH, true);
    AddTask(s, TID_KCD, HIGH, false);
    AddTask(s, TID_WCLCK, HIGH, false);
    ghost var clock := s.k;
    var i := 0;
    while i < |inits|
      invariant i <= |inits| && s.Valid() && Shape(s.k)
      invariant forall u: Tid :: i < u < TID_WCLCK ==> Off(s.k, u)
      invariant AddTasks(s.k, inits[i..], i + 1) == AddTasks(clock, inits, 1)
    {
      assert inits[i..][0] == inits[i] && inits[i..][1..] == inits[i + 1..];
      AddTask(s, i + 1, inits[i].prio, inits[i].priv);
      s.ReadTask(0);
      i := i + 1;
    }
    Dispatch(s);
    BootKeeps(inits);
  }

  lemma NoneQueued()
    ensures forall t: Tid :: Off(Blank(), t)
  {
  }

  // ---------------------------------------------------------------- steps

  /** The caller's buffer holds what is sent, or is large enough for what is received. */
  ghost predicate Holds(k: K.Kernel, op: Op, buf: array<Byte>)
    requires Shape(k) && Enabled(k, op)
    reads buf
  {
    match op
    case OpSend(_, msg) => buf[..] == msg
    case OpSendNb(_, msg) => buf[..] == msg
    case OpUartSend(msg) => buf[..] == msg
    case OpRecv(len) => len <= buf.Length
    case OpResume => Current(k).awaiting.value <= buf.Length
    case OpRecvNb(len) => len <= buf.Length
    case OpUartRecv(len) => len <= buf.Length
    case _ => true
  }

  /** Every step that is harmless is made on the TCBs, the queues and the rings as it is in the model; it
      leaves them sound, and a message that is received is at the front of the caller's buffer. */
  method Handle(s: System, op: Op, buf: array<Byte>) returns (reply: Reply)
    requires s.Valid() && Inv(s.k) && Enabled(s.k, op) && Harmless(AsWritten, s.k, op)
    requires s.Foreign(buf) && Holds(s.k, op, buf)
    modifies s, s.queues, s.tasks, s.rings, (set r | r in s.rings && r != null :: r.mem), buf
    ensures s.Valid() && Inv(s.k) && (s.k, reply) == Do(AsWritten, old(s.k), op)
    ensures reply.Received? ==> |reply.m| <= buf.Length && buf[..|reply.m|] == reply.m
  {
    hide System.Valid, Inv, Harmless, Do;
    s.ReadTask(s.cur);
    HarmlessIsSound(s.k, op);
    DoIs(AsWritten, s.k, op);
    if op.OpSend? || op.OpSendNb? || op.OpUartSend? {
      reply := HandleSend(s, op, buf);
    } else if op.OpRecv? || op.OpResume? || op.OpRecvNb? || op.OpUartRecv? {
      reply := HandleReceive(s, op, buf);
    } else {
      reply := HandleTask(s, op);
    }
  }

  method HandleTask(s: System, op: Op) returns (reply: Reply)
    requires s.Valid() && Inv(s.k) && Enabled(s.k, op) && !Do(AsWritten, s.k, op).0.fault
    requires op.OpYield? || op.OpCreate? || op.OpSetPrio? || op.OpMbxCreate? || op.OpRtSet? || op.OpRtSusp? || op.OpTick?
    modifies s, s.queues, s.tasks
    ensures s.Valid() && (s.k, reply) == Do(AsWritten, old(s.k), op) && !reply.Received?
  {
    hide System.Valid, Inv, Do, Off, S.Yield, S.Create, S.SetPrio, S.MbxCreate, S.RtSet, S.RtSusp, S.Tick;
    s.ReadTask(s.cur);
    DoIs(AsWritten, s.k, op);
    NoMessage(s.k, op);
    match op
    case OpYield => RunningOff(s.k); reply := Yield(s);
    case OpCreate(prio, memory) => reply := Create(s, prio, memory);
    case OpSetPrio(tid, prio) => reply := SetPrio(s, tid, prio);
    case OpMbxCreate(size, memory) => reply := MbxCreate(s, size, memory);
    case OpRtSet(usec) => reply := RtSet(s, usec);
    case OpRtSusp => reply := RtSusp(s);
    case OpTick(count) => Tick(s, count); reply := Ok;
  }

  lemma NoMessage(k: K.Kernel, op: Op)
    requires Shape(k) && Enabled(k, op)
    requires !(op.OpRecv? || op.OpResume? || op.OpRecvNb? || op.OpUartRecv?)
    ensures !Do(AsWritten, k, op).1.Received?
  {
    hide S.ChangePrio, S.Deliver, S.Preempt, S.BlockSend, S.Tick, K.RunNew, K.Dispatch, K.PushTail, K.PushHead;
  }

  method HandleSend(s: System, op: Op, buf: array<Byte>) returns (reply: Reply)
    requires s.Valid() && Inv(s.k) && Enabled(s.k, op) && !Do(AsWritten, s.k, op).0.fault
    requires op.OpSend? || op.OpSendNb? || op.OpUartSend?
    requires s.Foreign(buf) && Holds(s.k, op, buf)
    modifies s, s.queues, s.tasks, s.rings, set r | r in s.rings && r != null :: r.mem
    ensures s.Valid() && (s.k, reply) == Do(AsWritten, old(s.k), op) && !reply.Received?
  {
    hide System.Valid, Inv, Do, S.Send, S.SendNb;
    s.ReadTask(s.cur);
    DoIs(AsWritten, s.k, op);
    NoMessage(s.k, op);
    match op
    case OpSend(dst, msg) => reply := Send(s, dst, buf);
    case OpSendNb(dst, msg) => reply := SendNb(s, dst, buf);
    case OpUartSend(msg) => reply := SendNb(s, TID_KCD, buf);
  }

  method HandleReceive(s: System, op: Op, buf: array<Byte>) returns (reply: Reply)
    requires s.Valid() && Inv(s.k) && Enabled(s.k, op) && !Do(AsWritten, s.k, op).0.fault
    requires op.OpRecv? || op.OpResume? || op.OpRecvNb? || op.OpUartRecv?
    requires s.Foreign(buf) && Holds(s.k, op, buf)
    modifies s, s.queues, s.tasks, s.rings, (set r | r in s.rings && r != null :: r.mem), buf
    ensures s.Valid() && (s.k, reply) == Do(AsWritten, old(s.k), op)
    ensures reply.Received? ==> |reply.m| <= buf.Length && buf[..|reply.m|] == reply.m
  {
    hide System.Valid, Inv, Do, S.Recv, S.Resume, S.RecvNb;
    s.ReadTask(s.cur);
    DoIs(AsWritten, s.k, op);
    match op
    case OpRecv(len) => reply := Recv(s, buf, len);
    case OpResume => reply := Resume(s, buf);
    case OpRecvNb(len) => reply := RecvNb(s, buf, len, false);
    case OpUartRecv(len) => reply := RecvNb(s, buf, len, true);
  }

  lemma HarmlessIsSound(k: K.Kernel, op: Op)
    requires Inv(k) && Enabled(k, op) && Harmless(AsWritten, k, op)
    ensures Inv(Do(AsWritten, k, op).0) && !Do(AsWritten, k, op).0.fault
  {
    HarmlessKeeps(AsWritten, k, op);
    hide Do, Harmless;
  }
}
