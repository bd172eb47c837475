// The promises of the kernel over whole runs.
module KernelTheorems {
  import opened Readings
  import opened Seqs
  import opened Messages
  import opened TaskStates
  import opened Kernel
  import opened Syscalls
  import opened KernelInv
  import opened KernelSteps
  import opened KernelMessages
  import opened KernelReceives
  import opened KernelRealTime

  // ---------------------------------------------------------------- exactly which steps are harmless

  /** What a caller must not do, whatever the links: create a task at the real-time or the null
      priority, block or receive in a real-time task, ask for a period below one tick, or name a
      receiver that does not exist. */
  predicate Handled(k: Kernel, op: Op)
    requires Shape(k) && Enabled(k, op)
  {
    match op
    case OpCreate(prio, memory) =>
      Ordinary(prio) || Order(prio) == -1 || !memory || k.tcb[FreeSlot(k)].state != DORMANT
    case OpSend(dst, buf) => BoxOf(dst).Some? && (MustWait(k, dst, buf) ==> !Current(k).rt)
    case OpSendNb(dst, buf) => BoxOf(dst).Some?
    case OpRecv(len) =>
      Current(k).rt ==> !k.box[k.cur].active || (k.box[k.cur].ring != [] && !Receives(k, len))
    case OpRecvNb(len) => Receives(k, len) ==> !Current(k).rt
    case OpRtSet(usec) => Current(k).rt || usec >= 500
    case _ => true
  }

  /** The step puts no task with a stale link at the front of an empty queue. */
  predicate LinksAllow(k: Kernel, op: Op)
    requires Shape(k) && Enabled(k, op)
  {
    match op
    case OpCreate(prio, memory) =>
      Ordinary(prio) && memory && k.tcb[FreeSlot(k)].state == DORMANT && prio < Current(k).prio ==> MayLead(k, k.cur)
    case OpSetPrio(tid, prio) => Raises(k, tid, prio) ==> LeadsWithout(k, tid)
    case OpSend(dst, buf) => GivesWayTo(k, dst, buf) ==> MayLead(k, k.cur)
    case OpSendNb(dst, buf) => GivesWayTo(k, dst, buf) && SenderField(buf) != TID_UART ==> MayLead(k, k.cur)
    case OpRecv(len) => Receives(k, len) && !Current(k).rt ==> LeadsAfterReceive(k)
    case OpResume => LeadsAfterResume(k)
    case OpRecvNb(len) => Receives(k, len) && !Current(k).rt ==> LeadsAfterReceive(k)
    case OpTick(now) => !StopsStale(k, now)
    case _ => true
  }

  /** What can be told before a step: the step is handled, the links allow it, and as written the timer
      interrupt finds something suspended, and, if a real-time task runs, something else to run. */
  predicate Harmless(how: Reading, k: Kernel, op: Op)
    requires Shape(k) && Enabled(k, op)
  {
    Handled(k, op) && LinksAllow(k, op) && (how == AsWritten && op.OpTick? ==> !NothingThere(k, op.now))
  }

  /** A harmless step keeps the invariant, and both orders of urgency, except that the UART handler
      may leave a more urgent task waiting. */
  lemma HarmlessKeeps(how: Reading, k: Kernel, op: Op)
    requires Inv(k) && Enabled(k, op) && Harmless(how, k, op)
    ensures var r := Do(how, k, op).0;
      && Inv(r)
      && (EdfSafe(k) ==> EdfSafe(r))
      && (PrioritySafe(k) && FromTask(op) ==> PrioritySafe(r))
  {
    if op.OpYield? || op.OpCreate? || op.OpSetPrio? || op.OpMbxCreate? {
      TaskCallKeeps(how, k, op);
    } else if op.OpRtSet? || op.OpRtSusp? || op.OpTick? {
      TimeStepKeeps(how, k, op);
    } else {
      MailCallKeeps(how, k, op);
    }
    hide PrioritySafe, EdfSafe, Inv, Do, Harmless;
  }

  lemma TaskCallKeeps(how: Reading, k: Kernel, op: Op)
    requires Inv(k) && Enabled(k, op) && Harmless(how, k, op)
    requires op.OpYield? || op.OpCreate? || op.OpSetPrio? || op.OpMbxCreate?
    ensures var r := Do(how, k, op).0;
      Inv(r) && (PrioritySafe(k) ==> PrioritySafe(r)) && (EdfSafe(k) ==> EdfSafe(r))
  {
    DoIs(how, k, op);
    hide PrioritySafe, EdfSafe, Inv, Do;
    match op
    case OpYield => YieldSafe(k);
    case OpCreate(prio, memory) =>
      if Ordinary(prio) && memory && k.tcb[FreeSlot(k)].state == DORMANT {
        CreateKeeps(k, prio, memory);
      }
    case OpSetPrio(tid, prio) => SetPrioKeeps(how, k, tid, prio);
    case OpMbxCreate(size, memory) => MbxCreateKeeps(k, size, memory);
  }

  lemma TimeStepKeeps(how: Reading, k: Kernel, op: Op)
    requires Inv(k) && Enabled(k, op) && Harmless(how, k, op)
    requires op.OpRtSet? || op.OpRtSusp? || op.OpTick?
    ensures var r := Do(how, k, op).0;
      Inv(r) && (PrioritySafe(k) ==> PrioritySafe(r)) && (EdfSafe(k) ==> EdfSafe(r))
  {
    DoIs(how, k, op);
    hide PrioritySafe, EdfSafe, Inv, Do;
    match op
    case OpRtSet(usec) =>
      if !Current(k).rt {
        RtSetKeeps(k, usec);
      }
    case OpRtSusp => RtSuspKeeps(k);
    case OpTick(now) =>
      TickKeeps(k, now);
      TickAsWritten(k, now);
  }

  lemma MailCallKeeps(how: Reading, k: Kernel, op: Op)
    requires Inv(k) && Enabled(k, op) && Harmless(how, k, op)
    requires op.OpSend? || op.OpSendNb? || op.OpRecv? || op.OpResume? || op.OpRecvNb? || op.OpUartSend? || op.OpUartRecv?
    ensures var r := Do(how, k, op).0;
      && Inv(r)
      && (EdfSafe(k) ==> EdfSafe(r))
      && (PrioritySafe(k) && FromTask(op) ==> PrioritySafe(r))
  {
    DoIs(how, k, op);
    hide PrioritySafe, EdfSafe, Inv, Do;
    match op
    case OpSend(dst, buf) => SendKeeps(k, dst, buf);
    case OpSendNb(dst, buf) => SendNbKeeps(k, dst, buf);
    case OpRecv(len) =>
      if !Current(k).rt {
        RecvKeeps(k, len);
      }
    case OpResume => ResumeKeeps(k);
    case OpRecvNb(len) =>
      if !Current(k).rt {
        RecvNbKeeps(k, len);
      }
    case OpUartSend(buf) => SendNbKeeps(k, TID_KCD, buf);
    case OpUartRecv(len) => UartRecvKeeps(k, len);
  }

  /** A system call of a task whose message, if it sends one, does not claim to be the handler's, or
      the timer interrupt. */
  predicate FromTask(op: Op) {
    match op
    case OpUartSend(buf) => false
    case OpUartRecv(len) => false
    case OpSendNb(dst, buf) => |buf| >= HDR && SenderField(buf) != TID_UART
    case _ => true
  }

  lemma YieldSafe(k: Kernel)
    requires Inv(k) && Enabled(k, OpYield)
    ensures var r := Yield(k).0;
      Inv(r) && (PrioritySafe(k) ==> PrioritySafe(r)) && (EdfSafe(k) ==> EdfSafe(r))
  {
    YieldKeeps(k);
  }

  /** A step of each kind is the function of that kind. */
  lemma DoIs(how: Reading, k: Kernel, op: Op)
    requires Shape(k) && Enabled(k, op)
    ensures Do(how, k, op) == match op
      case OpYield => Yield(k)
      case OpCreate(prio, memory) => Create(k, prio, memory)
      case OpSetPrio(tid, prio) => SetPrio(how, k, tid, prio)
      case OpMbxCreate(size, memory) => MbxCreate(k, size, memory)
      case OpSend(dst, buf) => Send(k, dst, buf)
      case OpSendNb(dst, buf) => SendNb(k, dst, buf)
      case OpRecv(len) => Recv(k, len)
      case OpResume => Resume(k)
      case OpRecvNb(len) => RecvNb(k, len, false)
      case OpRtSet(usec) => RtSet(k, usec)
      case OpRtSusp => RtSusp(k)
      case OpTick(now) => (Tick(how, k, now), Reply.Ok)
      case OpUartSend(buf) => SendNb(k, TID_KCD, buf)
      case OpUartRecv(len) => RecvNb(k, len, true)
  {
  }

  // ---------------------------------------------------------------- the other steps break it

  /** A real-time task is not switched away from: whatever it did to itself, it is still current. */
  lemma RealTimeStays(k: Kernel)
    requires Shape(k) && Current(k).rt
    ensures RunNew(k) == k
  {
  }

  lemma NotRunning(k: Kernel)
    requires Shape(k) && k.cur != TID_NULL && Current(k).state != RUNNING
    ensures !Inv(k)
  {
  }

  lemma RealTimeSendBreaks(k: Kernel, dst: nat, buf: seq<Byte>)
    requires Inv(k) && Enabled(k, OpSend(dst, buf)) && MustWait(k, dst, buf) && Current(k).rt
    ensures !Inv(Send(k, dst, buf).0)
  {
    var b, m := BoxOf(dst).value, MessageOf(buf);
    var blocked := k.(tcb := k.tcb[k.cur := Current(k).(state := BLK_SEND, msg := m, dest := b)]);
    var r := PushTail(blocked, k.cur, WaitOf(b));
    RealTimeStays(r);
    NotRunning(r);
  }

  lemma PreemptRealTimeBreaks(k: Kernel)
    requires Inv(k) && k.cur != TID_NULL && Current(k).rt
    ensures !Inv(Preempt(k))
  {
    var r := PushHead(k, k.cur, ReadyOf(Current(k).prio));
    assert TaskOk(k, k.cur);
    RealTimeStays(r);
    NotRunning(r);
  }

  /** A real-time task whose receive does not fail is queued, or marked blocked, and keeps running. */
  lemma RealTimeReceiveBreaks(k: Kernel, len: nat)
    requires Inv(k) && Enabled(k, OpRecv(len)) && Current(k).rt && k.box[k.cur].active
    ensures Receives(k, len) ==> !Inv(Recv(k, len).0) && !Inv(RecvNb(k, len, false).0)
    ensures k.box[k.cur].ring == [] ==> !Inv(Recv(k, len).0)
  {
    if k.box[k.cur].ring == [] {
      var r := k.(tcb := k.tcb[k.cur := Current(k).(state := BLK_RECV, awaiting := Some(len))]);
      RealTimeStays(r);
      NotRunning(r);
    } else if Receives(k, len) {
      PopRingKeeps(k, k.cur);
      var p := PopRing(k, k.cur);
      DrainKeeps(p, k.cur);
      PreemptRealTimeBreaks(Drain(p, k.cur));
    }
  }

  /** A task created with the priority of real-time or null tasks fits no kind. */
  lemma OddPriorityBreaks(k: Kernel, prio: nat)
    requires Inv(k) && Enabled(k, OpCreate(prio, true)) && k.tcb[FreeSlot(k)].state == DORMANT
    requires Order(prio) >= 0 && !Ordinary(prio)
    ensures !Inv(Create(k, prio, true).0)
  {
    hide Create;
    TaskIsOk(k, k.cur);
    if prio == PRIO_NULL {
      NullCreated(k);
    } else {
      var t := FreeSlot(k);
      OddPriorityTask(k, t);
      assert !TaskOk(Create(k, prio, true).0, t);
    }
  }

  lemma NullCreated(k: Kernel)
    requires Inv(k) && k.cur != TID_NULL && k.tcb[FreeSlot(k)].state == DORMANT
    ensures Create(k, PRIO_NULL, true).0.fault
  {
    TaskIsOk(k, k.cur);
    hide Inv;
  }

  lemma OddPriorityTask(k: Kernel, t: Tid)
    requires Inv(k) && k.cur != TID_NULL && t == FreeSlot(k) && k.tcb[t].state == DORMANT
    ensures var c := Create(k, PRIO_RT, true).0.tcb[t];
      !c.rt && c.state != DORMANT && c.prio == PRIO_RT
  {
    hide Inv, PushTail;
    TaskIsOk(k, k.cur);
    TaskIsOk(k, t);
    var made := k.(tcb := k.tcb[t := NewTask(k, t, PRIO_RT, false)]);
    TailOrdinary(made, t, 0);
  }

  /** A period of no ticks is accepted.  The task then has no period, and the next time it suspends
      itself after its deadline, one tick later, has passed, the kernel divides by it. */
  lemma NoPeriodBreaks(k: Kernel, usec: nat)
    requires Inv(k) && Enabled(k, OpRtSet(usec)) && !Current(k).rt && usec < 500
    ensures var r := RtSet(k, usec).0;
      && !Inv(r)
      && r.tcb[k.cur].rt && r.tcb[k.cur].period == 0 && r.tcb[k.cur].deadline == k.now + 1
      && forall s: Kernel :: Shape(s) && !s.fault && s.cur == k.cur && s.tcb[k.cur] == r.tcb[k.cur] ==>
           (RtSusp(s).0.fault <==> k.now + 1 < s.now)
  {
    hide RtSusp, Dispatch, PushTail, Flatten;
    var t := k.cur;
    var e := PushTail(Promoted(k, usec), t, 0);
    var r := Dispatch(e);
    RtSetForm(k, usec);
    PromotedTask(k, usec);
    DispatchStates(e, t);
    assert !TaskOk(r, t);
    forall s: Kernel | Shape(s) && !s.fault && s.cur == t && s.tcb[t] == r.tcb[t]
      ensures RtSusp(s).0.fault <==> k.now + 1 < s.now
    {
      SuspFaults(s);
    }
  }

  lemma PromotedTask(k: Kernel, usec: nat)
    requires Shape(k) && k.cur != TID_NULL
    ensures var c := PushTail(Promoted(k, usec), k.cur, 0).tcb[k.cur];
      c.rt && c.period == usec / 500 && c.deadline == k.now + 1 + usec / 500 && c.state == READY
  {
    hide TailPlace, Flatten;
  }

  /** A suspension divides by zero exactly after a missed deadline and without a period. */
  lemma SuspFaults(s: Kernel)
    requires Shape(s) && !s.fault && Current(s).rt
    ensures RtSusp(s).0.fault <==> Current(s).deadline < s.now && Current(s).period == 0
  {
    hide NextDeadline;
  }

  /** Choosing the next task changes nothing of a task but its state, and makes none dormant. */
  lemma DispatchStates(k: Kernel, t: Tid)
    requires Shape(k) && k.tcb[t].state != DORMANT
    ensures var c := Dispatch(k).tcb[t]; c == k.tcb[t].(state := c.state) && c.state != DORMANT
  {
  }

  // ---------------------------------------------------------------- stale links

  /** Creating a more urgent task puts the creator at the front of its queue. */
  lemma CreateFaults(k: Kernel, prio: nat)
    requires Inv(k) && Enabled(k, OpCreate(prio, true)) && k.tcb[FreeSlot(k)].state == DORMANT
    requires Ordinary(prio) && prio < Current(k).prio && !MayLead(k, k.cur)
    ensures Create(k, prio, true).0.fault
  {
    assert TaskOk(k, k.cur);
  }

  /** So does waking one by a send. */
  lemma SendFaults(k: Kernel, dst: nat, buf: seq<Byte>)
    requires Inv(k) && Enabled(k, OpSend(dst, buf)) && GivesWayTo(k, dst, buf) && !MayLead(k, k.cur)
    ensures Send(k, dst, buf).0.fault
    ensures SenderField(buf) != TID_UART ==> SendNb(k, dst, buf).0.fault
  {
    var b, m := BoxOf(dst).value, MessageOf(buf);
    DeliverKeeps(k, b, m);
    DeliverLeads(k, b, m);
    PreemptFaults(Deliver(k, b, m));
    hide Deliver, Preempt, Inv;
  }

  /** A step keeps the invariant exactly when it is harmless. */
  lemma StepKeepsIff(how: Reading, k: Kernel, op: Op)
    requires Inv(k) && Enabled(k, op)
    ensures Inv(Do(how, k, op).0) <==> Harmless(how, k, op)
  {
    if Harmless(how, k, op) {
      HarmlessKeeps(how, k, op);
    } else {
      HarmfulBreaks(how, k, op);
    }
    hide Inv, Do, Harmless;
  }

  lemma HarmfulBreaks(how: Reading, k: Kernel, op: Op)
    requires Inv(k) && Enabled(k, op) && !Harmless(how, k, op)
    ensures !Inv(Do(how, k, op).0)
  {
    if op.OpCreate? || op.OpSetPrio? || op.OpRtSet? || op.OpTick? {
      HarmfulCall(how, k, op);
    } else {
      HarmfulMail(how, k, op);
    }
    hide Inv, Do, Harmless;
  }

  lemma HarmfulCall(how: Reading, k: Kernel, op: Op)
    requires Inv(k) && Enabled(k, op) && !Harmless(how, k, op)
    requires op.OpCreate? || op.OpSetPrio? || op.OpRtSet? || op.OpTick?
    ensures !Inv(Do(how, k, op).0)
  {
    DoIs(how, k, op);
    hide Do, Create, SetPrio, RtSet, Tick, StopsStale, NothingThere, Raises, LeadsWithout, MayLead;
    match op
    case OpCreate(prio, memory) => HarmfulCreate(k, prio, memory);
    case OpSetPrio(tid, prio) => RaiseFaults(how, k, tid, prio);
    case OpRtSet(usec) => NoPeriodBreaks(k, usec);
    case OpTick(now) =>
      TickKeeps(k, now);
      TickAsWritten(k, now);
  }

  lemma HarmfulCreate(k: Kernel, prio: nat, memory: bool)
    requires Inv(k) && Enabled(k, OpCreate(prio, memory))
    requires !Handled(k, OpCreate(prio, memory)) || !LinksAllow(k, OpCreate(prio, memory))
    ensures !Inv(Create(k, prio, memory).0)
  {
    if Ordinary(prio) {
      CreateFaults(k, prio);
    } else {
      OddPriorityBreaks(k, prio);
    }
    hide Create, Inv;
  }

  lemma HarmfulMail(how: Reading, k: Kernel, op: Op)
    requires Inv(k) && Enabled(k, op) && !Harmless(how, k, op)
    requires op.OpSend? || op.OpSendNb? || op.OpRecv? || op.OpResume? || op.OpRecvNb? || op.OpUartSend? || op.OpUartRecv?
    ensures !Inv(Do(how, k, op).0)
  {
    DoIs(how, k, op);
    hide Do, Send, SendNb, Recv, RecvNb, Resume, LeadsAfterReceive, LeadsAfterResume;
    match op
    case OpSend(dst, buf) =>
      if BoxOf(dst).None? {
        NoBoxFaults(k, dst, buf);
      } else if GivesWayTo(k, dst, buf) {
        SendFaults(k, dst, buf);
      } else {
        RealTimeSendBreaks(k, dst, buf);
      }
    case OpSendNb(dst, buf) =>
      if BoxOf(dst).None? {
        NoBoxFaults(k, dst, buf);
      } else {
        SendFaults(k, dst, buf);
      }
    case OpRecv(len) =>
      if Current(k).rt {
        RealTimeReceiveBreaks(k, len);
      } else {
        ReceiveFaults(k, len);
      }
    case OpResume => ResumeKeeps(k);
    case OpRecvNb(len) =>
      if Current(k).rt {
        RealTimeReceiveBreaks(k, len);
      } else {
        ReceiveFaults(k, len);
      }
  }

  lemma NoBoxFaults(k: Kernel, dst: nat, buf: seq<Byte>)
    requires Shape(k) && Readable(buf) && BoxOf(dst).None?
    ensures Send(k, dst, buf).0.fault && SendNb(k, dst, buf).0.fault
  {
  }

  // ---------------------------------------------------------------- runs

  ghost predicate HarmlessRun(how: Reading, k: Kernel, run: seq<Op>)
    requires Shape(k)
    decreases |run|
  {
    run == [] || (Enabled(k, run[0]) && Harmless(how, k, run[0]) && HarmlessRun(how, Do(how, k, run[0]).0, run[1..]))
  }

  function After(how: Reading, k: Kernel, run: seq<Op>): (r: Kernel)
    requires Shape(k) && HarmlessRun(how, k, run)
    ensures Shape(r)
    decreases |run|
  {
    if run == [] then k else After(how, Do(how, k, run[0]).0, run[1..])
  }

  /** After boot the invariant and both orders of urgency hold. */
  lemma BootKeeps(inits: seq<TaskInit>)
    requires |inits| < TID_WCLCK && forall i :: 0 <= i < |inits| ==> Ordinary(inits[i].prio)
    ensures Inv(Boot(inits)) && PrioritySafe(Boot(inits)) && EdfSafe(Boot(inits))
  {
    var k := Blank();
    BlankInv();
    var con := AddTask(k, 14, HIGH, true);
    CreateQueues(k, 14, HIGH, true);
    var kcd := AddTask(con, TID_KCD, HIGH, false);
    CreateQueues(con, TID_KCD, HIGH, false);
    var clock := AddTask(kcd, TID_WCLCK, HIGH, false);
    CreateQueues(kcd, TID_WCLCK, HIGH, false);
    AddTasksKeeps(clock, inits, 1);
    var all := AddTasks(clock, inits, 1);
    DispatchRuns(all);
    RanKeeps(all, Dispatch(all));
  }

  lemma BlankInv()
    ensures Inv(Blank()) && Blank().cur == TID_NULL
  {
    var k := Blank();
    forall i | 0 <= i < NUM_QUEUES
      ensures QueueIs(k, TID_NULL, i)
    {
      assert forall t: Tid :: !Lives(k, TID_NULL, i, t);
    }
    forall t: Tid | t != TID_NULL
      ensures TaskOk(k, t)
    {
    }
    forall b | 0 <= b < NUM_BOXES
      ensures BoxOpen(k, b) && BoxOk(k, b)
    {
    }
  }

  lemma {:induction false} AddTasksKeeps(k: Kernel, inits: seq<TaskInit>, i: nat)
    requires Inv(k) && k.cur == TID_NULL && 0 < i && i + |inits| <= TID_WCLCK
    requires forall j :: 0 <= j < |inits| ==> Ordinary(inits[j].prio)
    requires forall t: Tid :: i <= t < TID_WCLCK ==> k.tcb[t].state == DORMANT
    ensures Inv(AddTasks(k, inits, i)) && AddTasks(k, inits, i).cur == TID_NULL
    decreases |inits|
  {
    if inits == [] {
    } else {
      var t := inits[0];
      CreateQueues(k, i, t.prio, t.priv);
      AddTasksKeeps(AddTask(k, i, t.prio, t.priv), inits[1..], i + 1);
    }
  }

  /** The invariant holds after every run of harmless steps; real-time jobs never run out of deadline
      order; and as long as no step is the UART handler's, nothing ready outranks what runs. */
  lemma {:induction false} RunKeeps(how: Reading, k: Kernel, run: seq<Op>)
    requires Inv(k) && HarmlessRun(how, k, run)
    ensures var r := After(how, k, run);
      && Inv(r)
      && (EdfSafe(k) ==> EdfSafe(r))
      && (PrioritySafe(k) && (forall i :: 0 <= i < |run| ==> FromTask(run[i])) ==> PrioritySafe(r))
    decreases |run|
  {
    if run == [] {
    } else {
      HarmlessKeeps(how, k, run[0]);
      RunKeeps(how, Do(how, k, run[0]).0, run[1..]);
    }
  }

  /** From boot on, whatever ordinary priorities the boot-time tasks have. */
  lemma FromBoot(how: Reading, inits: seq<TaskInit>, run: seq<Op>)
    requires |inits| < TID_WCLCK && forall i :: 0 <= i < |inits| ==> Ordinary(inits[i].prio)
    requires HarmlessRun(how, Boot(inits), run)
    ensures var r := After(how, Boot(inits), run);
      Inv(r) && EdfSafe(r) && ((forall i :: 0 <= i < |run| ==> FromTask(run[i])) ==> PrioritySafe(r))
  {
    BootKeeps(inits);
    RunKeeps(how, Boot(inits), run);
  }

  /** Raising one's own priority is accepted, and does nothing. */
  lemma OwnRaiseIgnored(how: Reading, k: Kernel, prio: nat)
    requires Inv(k) && k.cur != TID_NULL && !Current(k).rt && Ordinary(prio) && prio < Current(k).prio
    ensures SetPrio(how, k, k.cur, prio) == (k, Reply.Ok)
  {
    assert TaskOk(k, k.cur);
  }

  // ---------------------------------------------------------------- what the invariant says

  /** Every task but the null task is in exactly one place, the one its state names: it runs, or it is
      once on one queue, or, dormant or blocked on receiving, it is on none. */
  lemma OnePlace(k: Kernel, t: Tid)
    requires Inv(k) && t != TID_NULL
    ensures t == k.cur <==> k.tcb[t].state == RUNNING
    ensures forall i :: 0 <= i < NUM_QUEUES ==> (t in k.q[i] <==> Home(k.tcb[t]) == Some(i))
    ensures forall i, a, b :: 0 <= i < NUM_QUEUES && 0 <= a < b < |k.q[i]| ==> k.q[i][a] != k.q[i][b]
    ensures k.tcb[t].state in {READY, BLK_SEND, SUSPENDED} <==> Home(k.tcb[t]).Some?
    ensures k.tcb[t].state == READY ==> t in k.q[Order(k.tcb[t].prio)]
    ensures k.tcb[t].state == SUSPENDED ==> t in k.q[SUSP] && k.tcb[t].rt
  {
    assert TaskOk(k, t);
    forall i | 0 <= i < NUM_QUEUES
      ensures t in k.q[i] <==> Home(k.tcb[t]) == Some(i)
    {
      assert QueueIs(k, TID_NULL, i);
      assert t in k.q[i] <==> Lives(k, TID_NULL, i, t);
    }
    forall i | 0 <= i < NUM_QUEUES
      ensures NoDup(k.q[i])
    {
      assert QueueIs(k, TID_NULL, i);
    }
  }

  /** No mailbox is stuck: if senders wait, the first message does not fit now; a task blocked on
      receiving has an empty ring and nobody waiting; a task woken from a receive has a message. */
  lemma NoStuckMailbox(k: Kernel, b: nat)
    requires Inv(k) && b < NUM_BOXES
    ensures k.q[WaitOf(b)] != [] ==> !Fitting(k.box[b], |k.tcb[k.q[WaitOf(b)][0]].msg|) && k.box[b].ring != []
    ensures b < MAX_TASKS && k.tcb[b].state == BLK_RECV ==> k.box[b].ring == [] && k.q[WaitOf(b)] == []
    ensures b < MAX_TASKS && k.tcb[b].awaiting.Some? && k.tcb[b].state != BLK_RECV ==> k.box[b].ring != []
  {
    assert BoxOk(k, b);
    if b < MAX_TASKS {
      var t: Tid := b;
      if t == TID_NULL {
        assert NullOk(k);
      } else {
        assert TaskOk(k, t);
      }
    }
    if k.q[WaitOf(b)] != [] {
      FirstWaiter(k, b);
    }
  }

  /** A send to a task that is blocked on receiving never has to wait. */
  lemma SendToReceiverFits(k: Kernel, dst: nat, buf: seq<Byte>)
    requires Inv(k) && Readable(buf) && dst < MAX_TASKS && k.tcb[dst].state == BLK_RECV
    ensures !MustWait(k, dst, buf)
  {
    NoStuckMailbox(k, dst);
  }

  /** A receive that was woken returns a message, unless the caller's buffer is too small for it; then
      it returns success without one, and the message stays first in the ring. */
  lemma ResumeReceives(k: Kernel)
    requires Inv(k) && Enabled(k, OpResume)
    ensures k.box[k.cur].ring != []
    ensures Resume(k).1 == if Current(k).awaiting.value < |k.box[k.cur].ring[0]| then Reply.Ok
                           else Received(k.box[k.cur].ring[0])
  {
    assert k.cur != TID_NULL;
    NoStuckMailbox(k, k.cur);
  }
}
