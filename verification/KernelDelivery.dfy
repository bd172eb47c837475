// Every message that a send accepts is delivered once, whole, and in order.
module KernelDelivery {
  import opened Readings
  import opened Deadlines
  import opened Messages
  import opened TaskStates
  import opened Kernel
  import opened Syscalls
  import opened KernelInv
  import opened KernelFrames
  import opened KernelMessages
  import opened KernelReceives
  import opened KernelTheorems

  // ---------------------------------------------------------------- what is under way

  /** What was sent to the mailbox and not received: first the ring, then the blocked senders. */
  function Pending(k: Kernel, b: nat): seq<Message>
    requires Shape(k) && b < NUM_BOXES
  {
    k.box[b].ring + Held(k, k.q[WaitOf(b)])
  }

  /** The message that this step takes over for the mailbox. */
  function Accepted(how: Reading, k: Kernel, op: Op, b: nat): seq<Message>
    requires Shape(k) && Enabled(k, op)
  {
    match op
    case OpSend(dst, buf) =>
      if BoxOf(dst) == Some(b) && Send(k, dst, buf).1 == Reply.Ok then [MessageSent(k, dst, buf)] else []
    case OpSendNb(dst, buf) =>
      if BoxOf(dst) == Some(b) && SendNb(k, dst, buf).1 == Reply.Ok then [MessageSent(k, dst, buf)] else []
    case OpUartSend(buf) =>
      if b == TID_KCD && SendNb(k, TID_KCD, buf).1 == Reply.Ok then [MessageSent(k, TID_KCD, buf)] else []
    case _ => []
  }

  /** As many bytes of the caller's buffer as its length field says. */
  function MessageSent(k: Kernel, dst: nat, buf: seq<Byte>): Message
    requires Shape(k) && Readable(buf) && BoxOf(dst).Some? && SendError(k, dst, buf) == None
  {
    MessageOf(buf)
  }

  /** The message that this step hands out of the mailbox. */
  function Delivered(how: Reading, k: Kernel, op: Op, b: nat): seq<Message>
    requires Shape(k) && Enabled(k, op)
  {
    match Do(how, k, op).1
    case Received(m) => if b == (if op.OpUartRecv? then UART_BOX else k.cur) then [m] else []
    case _ => []
  }

  lemma SamePending(k: Kernel, r: Kernel)
    requires SameMail(k, r)
    ensures forall b :: 0 <= b < NUM_BOXES ==> Pending(r, b) == Pending(k, b)
  {
  }

  // ---------------------------------------------------------------- steps that move mail

  /** A message that fits goes to the end of the ring; nobody waits, so that is the end of the line. */
  lemma DeliverAppends(k: Kernel, b: nat, m: Message)
    requires Shape(k) && b < NUM_BOXES && Fitting(k.box[b], |m|) && k.q[WaitOf(b)] == []
    ensures forall a :: 0 <= a < NUM_BOXES ==> Pending(Deliver(k, b, m), a) == Pending(k, a) + if a == b then [m] else []
  {
    var pushed := PushRing(k, b, m);
    assert Pending(pushed, b) == Pending(k, b) + [m];
    assert forall a :: 0 <= a < NUM_BOXES && a != b ==> Pending(pushed, a) == Pending(k, a);
    if b < MAX_TASKS {
      PushTailKept(pushed, b, ReadyOf(pushed.tcb[b].prio));
    }
    SamePending(pushed, Deliver(k, b, m));
  }

  /** A message that has to wait goes to the end of the waiting list. */
  lemma BlockAppends(k: Kernel, b: nat, m: Message)
    requires Inv(k) && k.cur != TID_NULL && !Current(k).rt && b < NUM_BOXES
    ensures forall a :: 0 <= a < NUM_BOXES ==> Pending(BlockSend(k, b, m), a) == Pending(k, a) + if a == b then [m] else []
  {
    var c := k.cur;
    var blocked := k.(tcb := k.tcb[c := Current(k).(state := BLK_SEND, msg := m, dest := b)]);
    var r := PushTail(blocked, c, WaitOf(b));
    assert r.q[WaitOf(b)] == k.q[WaitOf(b)] + [c];
    forall a | 0 <= a < NUM_BOXES
      ensures c !in k.q[WaitOf(a)]
    {
      assert QueueIs(k, TID_NULL, WaitOf(a));
      assert !Lives(k, TID_NULL, WaitOf(a), c);
    }
    forall a | 0 <= a < NUM_BOXES
      ensures Pending(r, a) == Pending(k, a) + if a == b then [m] else []
    {
      HeldSame(k, r, k.q[WaitOf(a)]);
      if a == b {
        assert Held(r, r.q[WaitOf(b)]) == Held(k, k.q[WaitOf(b)]) + [m];
      }
    }
    DispatchKept(r);
    SamePending(r, RunNew(r));
  }

  /** Letting blocked senders in moves messages from the waiting list to the ring, and none past
      another. */
  lemma {:induction false} DrainSamePending(k: Kernel, b: nat)
    requires Shape(k) && b < NUM_BOXES
    ensures forall a :: 0 <= a < NUM_BOXES ==> Pending(Drain(k, b), a) == Pending(k, a)
    decreases |k.q[WaitOf(b)]|
  {
    var w := k.q[WaitOf(b)];
    if w == [] || !Fitting(k.box[b], |k.tcb[w[0]].msg|) {
    } else {
      var m := k.tcb[w[0]].msg;
      var pushed := PushRing(PopHead(k, WaitOf(b)), b, m);
      assert pushed.box[b].ring == k.box[b].ring + [m];
      assert [m] + Held(k, w[1..]) == Held(k, w);
      HeldSame(k, pushed, w[1..]);
      assert Pending(pushed, b) == k.box[b].ring + ([m] + Held(pushed, w[1..]));
      assert forall a :: 0 <= a < NUM_BOXES && a != b ==> Pending(pushed, a) == Pending(k, a);
      var i := ReadyOf(pushed.tcb[w[0]].prio);
      PushTailKept(pushed, w[0], i);
      SamePending(pushed, PushTail(pushed, w[0], i));
      DrainSamePending(DrainStep(k, b), b);
    }
  }

  // ---------------------------------------------------------------- one call

  /** A send, blocking or not, puts its message at the end exactly when it succeeds. */
  ghost predicate SendsTo(k: Kernel, s: Step, dst: nat, buf: seq<Byte>)
    requires Shape(k) && Shape(s.0) && Readable(buf) && BoxOf(dst).Some?
  {
    && (s.1 == Reply.Ok || s.1.Error?) && (s.1 == Reply.Ok ==> SendError(k, dst, buf) == None)
    && forall b :: 0 <= b < NUM_BOXES ==>
         Pending(s.0, b) == Pending(k, b) + if BoxOf(dst) == Some(b) && s.1 == Reply.Ok then [MessageOf(buf)] else []
  }

  lemma SendConserves(k: Kernel, dst: nat, buf: seq<Byte>)
    requires Inv(k) && Enabled(k, OpSend(dst, buf)) && BoxOf(dst).Some?
    requires MustWait(k, dst, buf) ==> !Current(k).rt
    ensures SendsTo(k, Send(k, dst, buf), dst, buf)
  {
    if SendError(k, dst, buf) == None {
      var b, m := BoxOf(dst).value, MessageOf(buf);
      if MustWait(k, dst, buf) {
        BlockAppends(k, b, m);
      } else {
        DeliveredConserves(k, b, m);
      }
      hide Inv, Deliver, Preempt, BlockSend, Pending;
    }
  }

  lemma DeliveredConserves(k: Kernel, b: nat, m: Message)
    requires Shape(k) && b < NUM_BOXES && Fitting(k.box[b], |m|) && k.q[WaitOf(b)] == []
    ensures forall a :: 0 <= a < NUM_BOXES ==>
      && Pending(Deliver(k, b, m), a) == Pending(k, a) + (if a == b then [m] else [])
      && Pending(Preempt(Deliver(k, b, m)), a) == Pending(k, a) + (if a == b then [m] else [])
  {
    DeliverAppends(k, b, m);
    var d := Deliver(k, b, m);
    PreemptKept(d);
    SamePending(d, Preempt(d));
  }

  lemma SendNbConserves(k: Kernel, dst: nat, buf: seq<Byte>)
    requires Shape(k) && Readable(buf) && BoxOf(dst).Some?
    ensures SendsTo(k, SendNb(k, dst, buf), dst, buf)
  {
    if SendError(k, dst, buf) == None && !MustWait(k, dst, buf) {
      DeliveredConserves(k, BoxOf(dst).value, MessageOf(buf));
    }
    hide Deliver, Preempt, Pending;
  }

  /** A receive takes its message from the front, and only when it hands one out. */
  ghost predicate TakesFrom(k: Kernel, s: Step, b: nat)
    requires Shape(k) && Shape(s.0)
  {
    forall a :: 0 <= a < NUM_BOXES ==>
      Pending(k, a) == (if a == b && s.1.Received? then [s.1.m] else []) + Pending(s.0, a)
  }

  lemma DrainThenPreempt(k: Kernel, b: nat)
    requires Shape(k) && b < NUM_BOXES
    ensures forall a :: 0 <= a < NUM_BOXES ==>
      Pending(Drain(k, b), a) == Pending(k, a) && Pending(Preempt(Drain(k, b)), a) == Pending(k, a)
  {
    DrainSamePending(k, b);
    PreemptKept(Drain(k, b));
    SamePending(Drain(k, b), Preempt(Drain(k, b)));
  }

  /** Taking the first message out, letting senders in, and giving way. */
  lemma FrontConserves(k: Kernel, b: nat)
    requires Shape(k) && b < NUM_BOXES && k.box[b].ring != []
    ensures TakesFrom(k, (Drain(PopRing(k, b), b), Received(k.box[b].ring[0])), b)
    ensures TakesFrom(k, (Preempt(Drain(PopRing(k, b), b)), Received(k.box[b].ring[0])), b)
  {
    FrontTaken(k, b);
    DrainThenPreempt(PopRing(k, b), b);
    hide Pending, Drain, Preempt, PopRing, Flatten;
  }

  lemma FrontTaken(k: Kernel, b: nat)
    requires Shape(k) && b < NUM_BOXES && k.box[b].ring != []
    ensures TakesFrom(k, (PopRing(k, b), Received(k.box[b].ring[0])), b)
  {
    assert k.box[b].ring == [k.box[b].ring[0]] + k.box[b].ring[1..];
    assert Pending(k, b) == [k.box[b].ring[0]] + Pending(PopRing(k, b), b);
  }

  lemma NothingTaken(k: Kernel, s: Step, b: nat)
    requires Shape(k) && Shape(s.0) && !s.1.Received?
    requires SameMail(k, s.0)
    ensures TakesFrom(k, s, b)
  {
    SamePending(k, s.0);
  }

  lemma RecvConserves(k: Kernel, len: nat)
    requires Shape(k)
    ensures TakesFrom(k, Recv(k, len), k.cur)
  {
    hide TakesFrom, SameMail, SameClocks, RunNew, Preempt, PopRing;
    if k.box[k.cur].ring != [] {
      FrontConserves(k, k.cur);
      NothingTaken(k, (k, Error(ENOSPC)), k.cur);
    }
    var m := k.(tcb := k.tcb[k.cur := Current(k).(state := BLK_RECV, awaiting := Some(len))]);
    Edited(k, k.cur, k.cur, m.tcb[k.cur]);
    DispatchKept(m);
    Then(Repaired, k, m, RunNew(m));
    NothingTaken(k, (RunNew(m), Blocked), k.cur);
    NothingTaken(k, (k, Error(ENOENT)), k.cur);
  }

  lemma RecvNbConserves(k: Kernel, len: nat, uart: bool)
    requires Shape(k)
    ensures TakesFrom(k, RecvNb(k, len, uart), if uart then UART_BOX else k.cur)
  {
    var b := if uart then UART_BOX else k.cur;
    assert SameMail(k, k);
    if k.box[b].ring != [] {
      FrontConserves(k, b);
    }
    hide TakesFrom, SameMail, Preempt, PopRing;
    NothingTaken(k, (k, Error(ENOENT)), b);
    NothingTaken(k, (k, Error(ENOMSG)), b);
    NothingTaken(k, (k, Error(ENOSPC)), b);
  }

  lemma ResumeConserves(k: Kernel)
    requires Shape(k) && Current(k).awaiting.Some?
    ensures TakesFrom(k, Resume(k), k.cur)
  {
    var back := k.(tcb := k.tcb[k.cur := Current(k).(awaiting := None)]);
    Edited(k, k.cur, k.cur, back.tcb[k.cur]);
    SamePending(k, back);
    if k.box[k.cur].ring == [] || Current(k).awaiting.value < |k.box[k.cur].ring[0]| {
      DrainThenPreempt(back, k.cur);
      hide Drain, Preempt, Pending, SameMail;
    } else {
      FrontConserves(back, k.cur);
      hide Drain, Preempt, PopRing, Pending, SameMail;
    }
  }

  lemma MbxCreateConserves(k: Kernel, size: nat, memory: bool)
    requires Inv(k)
    ensures TakesFrom(k, MbxCreate(k, size, memory), k.cur)
  {
    assert BoxOpen(k, k.cur);
    var r := MbxCreate(k, size, memory).0;
    hide Inv;
    assert r.box[k.cur].ring == k.box[k.cur].ring && r.q[WaitOf(k.cur)] == k.q[WaitOf(k.cur)];
    assert r.tcb == k.tcb;
  }

  /** Every harmless step conserves the messages of every mailbox: what is pending grows, at its end,
      by what the step accepts, and shrinks, at its front, by what it delivers. */
  lemma StepConserves(how: Reading, k: Kernel, op: Op, b: nat)
    requires Inv(k) && Enabled(k, op) && Harmless(how, k, op) && b < NUM_BOXES
    ensures Pending(k, b) + Accepted(how, k, op, b) == Delivered(how, k, op, b) + Pending(Do(how, k, op).0, b)
  {
    if op.OpSend? || op.OpSendNb? || op.OpUartSend? {
      SendStep(how, k, op, b);
    } else if op.OpRecv? || op.OpResume? || op.OpRecvNb? || op.OpUartRecv? || op.OpMbxCreate? {
      ReceiveStep(how, k, op, b);
    } else {
      QuietSteps(how, k, op);
    }
    hide Inv, Pending, Do, Harmless;
  }

  lemma SendStep(how: Reading, k: Kernel, op: Op, b: nat)
    requires Inv(k) && Enabled(k, op) && Harmless(how, k, op) && b < NUM_BOXES
    requires op.OpSend? || op.OpSendNb? || op.OpUartSend?
    ensures Delivered(how, k, op, b) == []
    ensures Pending(k, b) + Accepted(how, k, op, b) == Pending(Do(how, k, op).0, b)
  {
    match op
    case OpSend(dst, buf) =>
      SendConserves(k, dst, buf);
      hide Inv, Pending, Send, Harmless;
    case OpSendNb(dst, buf) =>
      SendNbConserves(k, dst, buf);
      hide Inv, Pending, SendNb;
    case OpUartSend(buf) =>
      SendNbConserves(k, TID_KCD, buf);
      hide Inv, Pending, SendNb;
  }

  lemma ReceiveStep(how: Reading, k: Kernel, op: Op, b: nat)
    requires Inv(k) && Enabled(k, op) && b < NUM_BOXES
    requires op.OpRecv? || op.OpResume? || op.OpRecvNb? || op.OpUartRecv? || op.OpMbxCreate?
    ensures Accepted(how, k, op, b) == []
    ensures Pending(k, b) == Delivered(how, k, op, b) + Pending(Do(how, k, op).0, b)
  {
    ReceiveTakes(how, k, op);
    hide Pending, Do;
  }

  lemma ReceiveTakes(how: Reading, k: Kernel, op: Op)
    requires Inv(k) && Enabled(k, op)
    requires op.OpRecv? || op.OpResume? || op.OpRecvNb? || op.OpUartRecv? || op.OpMbxCreate?
    ensures TakesFrom(k, Do(how, k, op), if op.OpUartRecv? then UART_BOX else k.cur)
  {
    DoIs(how, k, op);
    hide TakesFrom, Do, MbxCreate, Recv, Resume, RecvNb;
    match op
    case OpMbxCreate(size, memory) => MbxCreateConserves(k, size, memory);
    case OpRecv(len) => RecvConserves(k, len);
    case OpResume => ResumeConserves(k);
    case OpRecvNb(len) => RecvNbConserves(k, len, false);
    case OpUartRecv(len) => RecvNbConserves(k, len, true);
  }

  /** The steps of one task, and the timer interrupt, leave all mail alone. */
  lemma QuietSteps(how: Reading, k: Kernel, op: Op)
    requires Inv(k) && Enabled(k, op)
    requires op.OpYield? || op.OpCreate? || op.OpSetPrio? || op.OpRtSet? || op.OpRtSusp? || op.OpTick?
    ensures !Do(how, k, op).1.Received?
    ensures forall b :: 0 <= b < NUM_BOXES ==> Pending(Do(how, k, op).0, b) == Pending(k, b)
  {
    DoIs(how, k, op);
    hide Inv, Do, Yield, Create, SetPrio, RtSet, RtSusp, Tick;
    match op
    case OpYield =>
      YieldKept(k);
      SamePending(k, Yield(k).0);
    case OpCreate(prio, memory) =>
      CreateFrame(k, prio, memory, k.cur);
      SamePending(k, Create(k, prio, memory).0);
    case OpSetPrio(tid, prio) =>
      SetPrioKept(how, k, tid, prio);
      SamePending(k, SetPrio(how, k, tid, prio).0);
    case OpRtSet(usec) =>
      RtSetFrame(k, usec);
      SamePending(k, RtSet(k, usec).0);
    case OpRtSusp =>
      RtSuspFrame(k);
      SamePending(k, RtSusp(k).0);
    case OpTick(now) =>
      TickKept(how, k, now);
      SamePending(k, Tick(how, k, now));
  }

  // ---------------------------------------------------------------- whole runs

  function AllAccepted(how: Reading, k: Kernel, run: seq<Op>, b: nat): seq<Message>
    requires Shape(k) && HarmlessRun(how, k, run)
    decreases |run|
  {
    if run == [] then [] else Accepted(how, k, run[0], b) + AllAccepted(how, Do(how, k, run[0]).0, run[1..], b)
  }

  function AllDelivered(how: Reading, k: Kernel, run: seq<Op>, b: nat): seq<Message>
    requires Shape(k) && HarmlessRun(how, k, run)
    decreases |run|
  {
    if run == [] then [] else Delivered(how, k, run[0], b) + AllDelivered(how, Do(how, k, run[0]).0, run[1..], b)
  }

  /** Exactly once and in order: over any run of harmless steps, what a mailbox held at first and what
      its sends accepted since is what was received from it, then what its ring holds, then what its
      blocked senders hold. */
  lemma {:induction false} RunDelivers(how: Reading, k: Kernel, run: seq<Op>, b: nat)
    requires Inv(k) && HarmlessRun(how, k, run) && b < NUM_BOXES
    ensures Pending(k, b) + AllAccepted(how, k, run, b) == AllDelivered(how, k, run, b) + Pending(After(how, k, run), b)
    decreases |run|
  {
    if run == [] {
      assert Pending(k, b) + [] == [] + Pending(k, b);
    } else {
      var n := Do(how, k, run[0]).0;
      HarmlessKeeps(how, k, run[0]);
      StepConserves(how, k, run[0], b);
      RunDelivers(how, n, run[1..], b);
      Chain(Pending(k, b), Accepted(how, k, run[0], b), Delivered(how, k, run[0], b), Pending(n, b),
            AllAccepted(how, n, run[1..], b), AllDelivered(how, n, run[1..], b), Pending(After(how, k, run), b));
    }
  }

  lemma Chain(p: seq<Message>, a: seq<Message>, d: seq<Message>, q: seq<Message>,
              a': seq<Message>, d': seq<Message>, r: seq<Message>)
    requires p + a == d + q && q + a' == d' + r
    ensures p + (a + a') == (d + d') + r
  {
    assert p + (a + a') == (p + a) + a';
    assert (d + q) + a' == d + (q + a');
    assert d + (d' + r) == (d + d') + r;
  }
}
