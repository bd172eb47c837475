// What each call answers, in terms of what a caller can see before it, and what the calls change that
// move no task.
module KernelReplies {
  import opened Readings
  import opened Seqs
  import opened Deadlines
  import opened Messages
  import opened TaskStates
  import opened Kernel
  import opened Syscalls
  import opened KernelInv
  import opened KernelSteps
  import opened KernelMessages
  import opened KernelReceives
  import opened KernelRealTime
  import opened KernelTheorems
  import opened KernelFrames
  import opened KernelOrder
  import opened KernelLinks

  // ---------------------------------------------------------------- creating a task

  /** A slot that a new task can take. */
  predicate Vacant(k: Kernel, t: Tid)
    requires Shape(k)
  {
    1 <= t <= TID_WCLCK && k.tcb[t].state == DORMANT
  }

  /** A priority of the kernel's, be it one that a task should have or not. */
  predicate Known(prio: nat) {
    prio in {PRIO_RT, HIGH, MEDIUM, LOW, LOWEST, PRIO_NULL}
  }

  /** The first vacant slot is taken; each refusal has its reason, and they are looked at in this order. */
  lemma CreateReply(k: Kernel, prio: nat, memory: bool)
    requires Shape(k)
    ensures var (r, reply) := Create(k, prio, memory);
      var full := forall t: Tid :: !Vacant(k, t);
      && (reply == Error(EAGAIN) <==> full)
      && (reply == Error(EINVAL) <==> !full && !Known(prio))
      && (reply == Error(ENOMEM) <==> !full && Known(prio) && !memory)
      && (reply.Created? <==> !full && Known(prio) && memory)
      && (reply.Created? ==> Vacant(k, reply.tid) && forall t: Tid :: Vacant(k, t) ==> reply.tid <= t)
      && (reply.Error? ==> r == k)
  {
    hide PushTail, PushHead, SetState, NewTask, FreeSlot, Vacant, Flatten;
    FirstVacant(k);
  }

  lemma FirstVacant(k: Kernel)
    requires Shape(k)
    ensures var t := FreeSlot(k);
      && (Vacant(k, t) <==> k.tcb[t].state == DORMANT)
      && (Vacant(k, t) <==> exists u: Tid :: Vacant(k, u)) && (t < TID_WCLCK ==> Vacant(k, t))
      && forall u: Tid :: Vacant(k, u) ==> t <= u
  {
  }

  // ---------------------------------------------------------------- setting a priority

  /** The refusals of `k_tsk_set_prio`. */
  lemma SetPrioReply(how: Reading, k: Kernel, tid: nat, prio: nat)
    requires Inv(k) && Enabled(k, OpSetPrio(tid, prio))
    ensures var (r, reply) := SetPrio(how, k, tid, prio);
      var invalid := tid >= MAX_TASKS || k.tcb[tid].prio == PRIO_NULL || !(prio == PRIO_RT || HIGH <= prio <= LOWEST);
      var denied := tid < MAX_TASKS && (
        || k.tcb[tid].state == DORMANT
        || (k.tcb[tid].priv && !Current(k).priv)
        || (k.tcb[tid].rt != (prio == PRIO_RT)));
      && (reply == Error(EINVAL) <==> invalid)
      && (reply == Error(EPERM) <==> !invalid && denied)
      && (reply == Reply.Ok <==> !invalid && !denied)
      && (reply.Error? ==> r == k)
  {
    hide ChangePrio;
    assert NullOk(k);
  }

  /** A blocked task gets its new priority where it is; the caller goes on. */
  lemma SetPrioBlocked(how: Reading, k: Kernel, t: Tid, prio: nat)
    requires Inv(k) && Enabled(k, OpSetPrio(t, prio)) && MaySet(k, t, prio) && k.tcb[t].state in {BLK_RECV, BLK_SEND}
    ensures SetPrio(how, k, t, prio) == (k.(tcb := k.tcb[t := k.tcb[t].(prio := prio)]), Reply.Ok)
  {
    TaskIsOk(k, t);
  }

  /** A priority that a task already has, which is the only one that a real-time task can be given, changes
      nothing; nor does one's own if it is raised. */
  lemma SetPrioSame(how: Reading, k: Kernel, t: Tid, prio: nat)
    requires Inv(k) && Enabled(k, OpSetPrio(t, prio)) && SetPrio(how, k, t, prio).1 == Reply.Ok
    requires k.tcb[t].rt || k.tcb[t].prio == prio || (t == k.cur && prio < k.tcb[t].prio)
    ensures SetPrio(how, k, t, prio).0 == k
  {
    hide Inv;
    TaskIsOk(k, t);
    assert k.tcb[t].prio == prio ==> k.tcb[t := k.tcb[t].(prio := prio)] == k.tcb;
  }

  // ---------------------------------------------------------------- mailboxes

  /** A mailbox is made with the size that was asked for. */
  lemma MbxOutcome(k: Kernel, size: nat, memory: bool)
    requires Inv(k) && Enabled(k, OpMbxCreate(size, memory))
    ensures var (r, reply) := MbxCreate(k, size, memory);
      && (reply == Error(EEXIST) <==> k.box[k.cur].active)
      && (reply == Error(EINVAL) <==> !k.box[k.cur].active && size < HDR)
      && (reply == Error(ENOMEM) <==> !k.box[k.cur].active && size >= HDR && !memory)
      && (reply == Created(k.cur) <==> !k.box[k.cur].active && size >= HDR && memory)
      && (reply.Error? || reply == Created(k.cur))
      && r == if reply.Error? then k else k.(box := k.box[k.cur := Mailbox(true, size, [])])
  {
    assert BoxOpen(k, k.cur);
    hide Inv;
    assert k.q[WaitOf(k.cur) := []] == k.q || k.box[k.cur].active;
  }

  /** So any message up to that size can be sent to it, and goes in at once. */
  lemma NewMailboxTakes(k: Kernel, size: nat, buf: seq<Byte>)
    requires Inv(k) && Enabled(k, OpMbxCreate(size, true)) && !k.box[k.cur].active && size >= HDR && Readable(buf)
    ensures var r := MbxCreate(k, size, true).0;
      && (SendNb(r, k.cur, buf).1 == Reply.Ok <==> HDR <= LengthField(buf) <= size)
      && (HDR <= LengthField(buf) <= size ==> SendNb(r, k.cur, buf).0.box[k.cur].ring == [MessageOf(buf)])
  {
    MbxOutcome(k, size, true);
    MbxCreateKeeps(k, size, true);
    TaskIsOk(k, k.cur);
    var r := MbxCreate(k, size, true).0;
    SendNbReply(r, k.cur, buf);
    if HDR <= LengthField(buf) <= size {
      var m := MessageOf(buf);
      DeliverKeeps(r, k.cur, m);
      hide Inv, Deliver, Preempt, MbxCreate, Flatten;
      PreemptKept(Deliver(r, k.cur, m));
    }
  }

  // ---------------------------------------------------------------- sending

  /** There is room in the mailbox for so many bytes, and nobody waits in front. */
  predicate RoomNow(k: Kernel, b: nat, n: nat)
    requires Shape(k) && b < NUM_BOXES
  {
    |Flatten(k.box[b].ring)| + n <= k.box[b].cap && k.q[WaitOf(b)] == []
  }

  /** What a send refuses: a receiver that is dormant, a length below that of a header, a receiver without
      a mailbox, and a message that its mailbox could never hold. */
  lemma SendReply(k: Kernel, dst: nat, buf: seq<Byte>)
    requires Shape(k) && Readable(buf) && (dst == TID_UART || dst < MAX_TASKS)
    ensures var (r, reply) := Send(k, dst, buf);
      var b, n := if dst == TID_UART then UART_BOX else dst, LengthField(buf);
      var invalid := (dst != TID_UART && k.tcb[dst].state == DORMANT) || n < HDR;
      && (reply == Error(EINVAL) <==> invalid)
      && (reply == Error(ENOENT) <==> !invalid && !k.box[b].active)
      && (reply == Error(EMSGSIZE) <==> !invalid && k.box[b].active && n > k.box[b].cap)
      && (reply == Reply.Ok <==> !invalid && k.box[b].active && n <= k.box[b].cap)
      && (MustWait(k, dst, buf) <==> reply == Reply.Ok && !RoomNow(k, b, n))
      && (reply.Error? ==> r == k)
  {
    hide Deliver, Preempt, BlockSend, Flatten;
  }

  /** The non-blocking send refuses the same, and also to wait. */
  lemma SendNbReply(k: Kernel, dst: nat, buf: seq<Byte>)
    requires Shape(k) && Readable(buf) && (dst == TID_UART || dst < MAX_TASKS)
    ensures var (r, reply) := SendNb(k, dst, buf);
      var b, n := if dst == TID_UART then UART_BOX else dst, LengthField(buf);
      var invalid := (dst != TID_UART && k.tcb[dst].state == DORMANT) || n < HDR;
      && (reply == Error(EINVAL) <==> invalid)
      && (reply == Error(ENOENT) <==> !invalid && !k.box[b].active)
      && (reply == Error(EMSGSIZE) <==> !invalid && k.box[b].active && n > k.box[b].cap)
      && (reply == Error(ENOSPC) <==> !invalid && k.box[b].active && n <= k.box[b].cap && !RoomNow(k, b, n))
      && (reply == Reply.Ok <==> !invalid && k.box[b].active && n <= k.box[b].cap && RoomNow(k, b, n))
      && (reply.Error? ==> r == k)
  {
    hide Deliver, Preempt, BlockSend, Flatten;
  }

  /** A send that claims to come from the UART handler does not give way: the message joins the ring, the
      task that it wakes goes to the end of its queue, and who runs goes on. */
  lemma HandlerSendOutcome(k: Kernel, dst: nat, buf: seq<Byte>)
    requires Inv(k) && Readable(buf) && (dst == TID_UART || dst < MAX_TASKS)
    requires SenderField(buf) == TID_UART && SendNb(k, dst, buf).1 == Reply.Ok
    ensures HDR <= LengthField(buf)
    ensures var r, b := SendNb(k, dst, buf).0, if dst == TID_UART then UART_BOX else dst;
      && r.cur == k.cur && r.box == k.box[b := k.box[b].(ring := k.box[b].ring + [MessageOf(buf)])]
      && (if b < MAX_TASKS && k.tcb[b].state == BLK_RECV
          then var o := Order(k.tcb[b].prio); 0 < o < NUM_READY && r.q == k.q[o := k.q[o] + [b]]
          else r.q == k.q)
  {
    SendNbReply(k, dst, buf);
    var b, m := if dst == TID_UART then UART_BOX else dst, MessageOf(buf);
    DeliverKeeps(k, b, m);
    DeliverQueues(k, b, m);
    hide Inv, Deliver, Preempt, Flatten;
  }

  // ---------------------------------------------------------------- receiving

  lemma RecvReply(k: Kernel, len: nat)
    requires Shape(k)
    ensures var (r, reply) := Recv(k, len);
      var ring := k.box[k.cur].ring;
      && (reply == Error(ENOENT) <==> !k.box[k.cur].active)
      && (reply == Blocked <==> k.box[k.cur].active && ring == [])
      && (reply == Error(ENOSPC) <==> k.box[k.cur].active && ring != [] && |ring[0]| > len)
      && (reply.Received? <==> k.box[k.cur].active && ring != [] && |ring[0]| <= len)
      && (reply.Received? ==> reply.m == ring[0])
      && (reply.Error? ==> r == k)
  {
    hide Drain, Preempt, PopRing, RunNew;
  }

  lemma RecvNbReply(k: Kernel, len: nat, uart: bool)
    requires Shape(k)
    ensures var (r, reply) := RecvNb(k, len, uart);
      var b := if uart then UART_BOX else k.cur;
      var ring := k.box[b].ring;
      && (reply == Error(ENOENT) <==> !k.box[b].active)
      && (reply == Error(ENOMSG) <==> k.box[b].active && ring == [])
      && (reply == Error(ENOSPC) <==> k.box[b].active && ring != [] && |ring[0]| > len)
      && (reply.Received? <==> k.box[b].active && ring != [] && |ring[0]| <= len)
      && (reply.Received? ==> reply.m == ring[0])
      && (reply.Error? ==> r == k)
  {
    hide Drain, Preempt, PopRing, RunNew;
  }

  /** A receive without a message stops the task, and the first ready one runs. */
  lemma BlockOutcome(k: Kernel, len: nat)
    requires Inv(k) && Enabled(k, OpRecv(len)) && !Current(k).rt && k.box[k.cur].active && k.box[k.cur].ring == []
    ensures var r, f := Recv(k, len).0, FirstReady(k);
      && r.box == k.box && r.tcb[k.cur].state == BLK_RECV
      && if f < NUM_READY then r.cur == k.q[f][0] && r.q == k.q[f := k.q[f][1..]] else r.cur == TID_NULL && r.q == k.q
  {
    hide Inv, RunNew, Flatten;
    TaskIsOk(k, k.cur);
    var m := k.(tcb := k.tcb[k.cur := Current(k).(state := BLK_RECV, awaiting := Some(len))]);
    BlockedIsIdle(k, len);
    SameFirst(k, m);
    RunNewRuns(m);
    if FirstReady(k) < NUM_READY {
      FirstIsReady(m);
    }
  }

  lemma FirstIsReady(k: Kernel)
    requires Shape(k) && Placed(k) && FirstReady(k) < NUM_READY
    ensures var h := k.q[FirstReady(k)][0]; h != TID_NULL && k.tcb[h].state == READY
  {
    ReadyMember(k, FirstReady(k), FirstOf(k, FirstReady(k)));
  }

  /** In the UART handler a receive lets senders in, and who runs goes on. */
  lemma HandlerRecvOutcome(k: Kernel, len: nat)
    requires Inv(k) && RecvNb(k, len, true).1.Received?
    ensures var r, ring, w := RecvNb(k, len, true).0, k.box[UART_BOX].ring, k.q[WaitOf(UART_BOX)];
      && ring != []
      && var n := Admitted(k.box[UART_BOX].cap, |Flatten(RestOfRing(ring))|, Held(k, w));
         r.cur == k.cur && r.box[UART_BOX].ring == ring[1..] + Held(k, w[..n]) && r.q[WaitOf(UART_BOX)] == w[n..]
         && forall i :: 0 <= i < NUM_READY ==> r.q[i] == k.q[i] + Of(k, w[..n], i)
  {
    var p, w := PopRing(k, UART_BOX), k.q[WaitOf(UART_BOX)];
    PopRingKeeps(k, UART_BOX);
    DrainLetsIn(p, UART_BOX);
    HeldSame(k, p, w);
    var n := Admitted(p.box[UART_BOX].cap, Used(p.box[UART_BOX]), Held(p, w));
    HeldSame(k, p, w[..n]);
    forall i | 0 <= i < NUM_READY
      ensures Of(p, w[..n], i) == Of(k, w[..n], i)
    {
      OfSame(k, p, w[..n], i);
    }
    hide Inv, Mid, Drain, Flatten;
  }

  /** The second half of a receive takes the message that it was woken for, if that fits the buffer, and lets
      senders in; it runs on exactly if none of those outranks it, and otherwise keeps its turn.  If the
      message does not fit, nobody is let in. */
  lemma ResumeOutcome(k: Kernel)
    requires Inv(k) && Enabled(k, OpResume) && PrioritySafe(k) && LeadsAfterResume(k)
    ensures k.box[k.cur].ring != []
    ensures var (r, reply), i := Resume(k), Order(Current(k).prio);
      && 0 < i < NUM_READY
      && if |k.box[k.cur].ring[0]| > Current(k).awaiting.value
         then reply == Reply.Ok && r.cur == k.cur && r.q == k.q && r.box == k.box
         else
           var let := LetInBy(k);
           && reply == Received(k.box[k.cur].ring[0])
           && (r.cur == k.cur <==> forall t: Tid :: t in let ==> i <= Order(k.tcb[t].prio))
           && (r.cur != k.cur ==> r.q[i] == [k.cur] + (k.q[i] + Of(k, let, i)))
  {
    hide Inv, Mid, Preempt, Drain, PopRing, LeadsAfterReceive, LetInBy, PrioritySafe, MayLead, Resume, Flatten;
    TaskIsOk(k, k.cur);
    NullFirst(k);
    ResumeReceives(k);
    LeaveReceive(k);
    SameSafe(k);
    var back := k.(tcb := k.tcb[k.cur := Current(k).(awaiting := None)]);
    ResumeIs(k);
    if |k.box[k.cur].ring[0]| > Current(k).awaiting.value {
      StaysFirst(back);
    } else {
      SameReceive(k);
      SameLetIn(k);
      TakenOutcome(back);
    }
  }

  lemma ResumeIs(k: Kernel)
    requires Shape(k) && Current(k).awaiting.Some? && k.box[k.cur].ring != []
    ensures var back := k.(tcb := k.tcb[k.cur := Current(k).(awaiting := None)]);
      Resume(k).0 ==
        if |k.box[k.cur].ring[0]| > Current(k).awaiting.value then Preempt(Drain(back, k.cur))
        else Preempt(Drain(PopRing(back, k.cur), k.cur))
  {
    hide Preempt, Drain, PopRing, Flatten;
  }

  lemma SameSafe(k: Kernel)
    requires Shape(k)
    ensures var back := k.(tcb := k.tcb[k.cur := Current(k).(awaiting := None)]);
      (PrioritySafe(back) <==> PrioritySafe(k)) && (MayLead(back, k.cur) <==> MayLead(k, k.cur))
  {
    hide Flatten;
  }

  /** Nobody fits, and nobody is more urgent. */
  lemma StaysFirst(k: Kernel)
    requires Inv(k) && k.cur != TID_NULL && !Current(k).rt && Current(k).awaiting == None && MayLead(k, k.cur)
    requires PrioritySafe(k)
    ensures var r, i := Preempt(Drain(k, k.cur)), Order(Current(k).prio);
      0 < i < NUM_READY && r.cur == k.cur && r.q == k.q && r.box == k.box
  {
    hide Inv, Preempt, Drain, MayLead;
    NobodyFits(k);
    GivesWay(k);
    PreemptKept(k);
  }

  lemma SameLetIn(k: Kernel)
    requires Shape(k) && k.box[k.cur].ring != []
    ensures var back := k.(tcb := k.tcb[k.cur := Current(k).(awaiting := None)]);
      LetInBy(back) == LetInBy(k) && forall i: nat :: Of(back, LetInBy(k), i) == Of(k, LetInBy(k), i)
  {
    hide Flatten;
    var back := k.(tcb := k.tcb[k.cur := Current(k).(awaiting := None)]);
    HeldSame(PopRing(k, k.cur), PopRing(back, k.cur), k.q[WaitOf(k.cur)]);
    forall i: nat
      ensures Of(back, LetInBy(k), i) == Of(k, LetInBy(k), i)
    {
      OfSame(k, back, LetInBy(k), i);
    }
  }

  // ---------------------------------------------------------------- real-time calls, yielding

  /** Becoming real-time is for ordinary tasks, suspending oneself for real-time ones. */
  lemma RtReply(k: Kernel, usec: nat)
    requires Inv(k)
    ensures var (r, reply) := RtSet(k, usec);
      && (reply == Error(EPERM) <==> Current(k).rt) && (reply == Reply.Ok <==> !Current(k).rt)
      && (reply.Error? ==> r == k)
    ensures var (r, reply) := RtSusp(k);
      && (reply == Error(EPERM) <==> !Current(k).rt) && (reply == Reply.Ok <==> Current(k).rt)
      && (reply.Error? ==> r == k)
  {
    hide PushTail, Dispatch, NextDeadline;
  }

  /** Yielding always succeeds.  A real-time task goes on; the null task makes way for the first ready
      one. */
  lemma YieldReply(k: Kernel)
    requires Inv(k) && Enabled(k, OpYield) && Current(k).state == RUNNING
    ensures var (r, reply), f := Yield(k), FirstReady(k);
      && reply == Reply.Ok
      && (Current(k).rt ==> r == k)
      && (k.cur == TID_NULL ==>
            if f < NUM_READY then r.cur == k.q[f][0] && r.q == k.q[f := k.q[f][1..]] && r.tcb[TID_NULL].state == READY
            else r == k)
  {
    hide Inv, PushTail, RunNew, FirstReady, Flatten;
    TaskIsOk(k, k.cur);
    NullFirst(k);
    if k.cur == TID_NULL {
      NullMakesWay(k);
    }
  }

  lemma NullMakesWay(k: Kernel)
    requires Shape(k) && !Current(k).rt && k.cur == TID_NULL && Current(k).state == RUNNING
    requires FirstReady(k) < NUM_READY ==> k.q[FirstReady(k)][0] != TID_NULL
    ensures var r, f := RunNew(k), FirstReady(k);
      if f < NUM_READY then r.cur == k.q[f][0] && r.q == k.q[f := k.q[f][1..]] && r.tcb[TID_NULL].state == READY
      else r == k
  {
    hide FirstReady, Flatten;
  }

  lemma NullFirst(k: Kernel)
    requires Inv(k)
    ensures Shape(k) && k.tcb[TID_NULL].prio == PRIO_NULL && !k.tcb[TID_NULL].rt && k.tcb[TID_NULL].awaiting == None
    ensures FirstReady(k) < NUM_READY ==> k.q[FirstReady(k)][0] != TID_NULL
  {
    assert NullOk(k);
    if FirstReady(k) < NUM_READY {
      FirstIsReady(k);
    }
  }

  // ---------------------------------------------------------------- the timer interrupt

  /** The interrupt leaves suspended exactly the tasks whose next period is still to begin. */
  lemma TickReleases(how: Reading, k: Kernel, now: nat)
    requires Inv(k) && k.now <= now && !Tick(how, k, now).fault
    ensures var r := Tick(how, k, now);
      && (forall t: Tid :: t in r.q[SUSP] <==> t in k.q[SUSP] && k.tcb[t].deadline - k.tcb[t].period > now)
      && (forall t: Tid :: t in k.q[SUSP] && k.tcb[t].deadline - k.tcb[t].period <= now ==> t in r.q[0] || t == r.cur)
  {
    hide Inv, Tick, Released, StopsStale, NothingThere, Decided;
    TaskIsOk(k, k.cur);
    TickOutcome(how, k, now);
    ReleasedKeeps(k, now);
    DecidedKeeps(Released(k, now), Tick(how, k, now));
  }

  /** The decision moves no suspended task, and leaves every real-time job ready or lets it run. */
  lemma DecidedKeeps(k: Kernel, r: Kernel)
    requires Shape(k) && Shape(r) && Decided(k, r)
    ensures r.q[SUSP] == k.q[SUSP] && forall t: Tid :: t in k.q[0] ==> t in r.q[0] || t == r.cur
  {
    hide Flatten, Position, Ds;
    var jobs, c := k.q[0], Current(k);
    if jobs != [] {
      var rest := jobs[1..];
      StillIn(rest, Position(Ds(k, rest), c.deadline), k.cur);
      assert jobs == [jobs[0]] + rest;
    }
  }

  lemma StillIn(s: seq<Tid>, p: nat, t: Tid)
    requires p <= |s|
    ensures forall u :: u in s ==> u in InsertAt(s, p, t)
  {
    forall u | u in s
      ensures u in InsertAt(s, p, t)
    {
      var i :| 0 <= i < |s| && s[i] == u;
      assert InsertAt(s, p, t)[if i < p then i else i + 1] == u;
    }
  }

  // ---------------------------------------------------------------- boot

  /** Those of the tasks from number `t` on that belong to ready queue `o`, in order. */
  function AtLevel(inits: seq<TaskInit>, t: nat, o: nat): (ts: seq<Tid>)
    requires t + |inits| <= TID_WCLCK
    decreases |inits|
  {
    if inits == [] then [] else (if Order(inits[0].prio) == o then [t] else []) + AtLevel(inits[1..], t + 1, o)
  }

  /** A task that was made at boot: ready, ordinary, with this priority and privilege. */
  predicate IsNew(c: Task, prio: nat, priv: bool) {
    c.prio == prio && c.priv == priv && c.state == READY && !c.rt && c.awaiting == None
  }

  /** `r` is `k` with tasks from number `t` on made and queued. */
  ghost predicate Added(k: Kernel, r: Kernel, inits: seq<TaskInit>, t: nat)
    requires Shape(k) && t + |inits| <= TID_WCLCK
  {
    && Shape(r) && r.box == k.box && r.cur == k.cur && r.now == k.now && r.fault == k.fault
    && (forall j :: 0 <= j < NUM_QUEUES ==> r.q[j] == if j < NUM_READY then k.q[j] + AtLevel(inits, t, j) else k.q[j])
    && (forall i :: 0 <= i < |inits| ==> IsNew(r.tcb[t + i], inits[i].prio, inits[i].priv))
    && (forall s: Tid :: s < t || s >= t + |inits| ==> r.tcb[s] == k.tcb[s])
  }

  lemma {:induction false} AddTasksForm(k: Kernel, inits: seq<TaskInit>, t: nat)
    requires Shape(k) && t + |inits| <= TID_WCLCK && forall i :: 0 <= i < |inits| ==> Ordinary(inits[i].prio)
    ensures Added(k, AddTasks(k, inits, t), inits, t)
    decreases |inits|
  {
    if inits == [] {
    } else {
      hide AddTask, Added;
      AddTaskForm(k, t, inits[0].prio, inits[0].priv);
      var m := AddTask(k, t, inits[0].prio, inits[0].priv);
      AddTasksForm(m, inits[1..], t + 1);
      OneMoreAdded(k, m, AddTasks(k, inits, t), inits, t);
    }
  }

  lemma OneMoreAdded(k: Kernel, m: Kernel, r: Kernel, inits: seq<TaskInit>, t: nat)
    requires Shape(k) && Shape(m) && inits != [] && t + |inits| <= TID_WCLCK && 0 < Order(inits[0].prio) < NUM_READY
    requires var o := Order(inits[0].prio);
      m == k.(q := k.q[o := k.q[o] + [t]], tcb := k.tcb[t := Queued(NewTask(k, t, inits[0].prio, inits[0].priv))])
    requires Added(m, r, inits[1..], t + 1)
    ensures Added(k, r, inits, t)
  {
    hide Flatten, IsNew, NewTask, Queued, Order;
    NewIsNew(k, t, inits[0]);
    assert r.tcb[t] == m.tcb[t];
    forall i | 0 <= i < |inits|
      ensures IsNew(r.tcb[t + i], inits[i].prio, inits[i].priv)
    {
      if i > 0 {
        assert inits[i] == inits[1..][i - 1];
        assert IsNew(r.tcb[t + 1 + (i - 1)], inits[1..][i - 1].prio, inits[1..][i - 1].priv);
      }
    }
    forall j | 0 <= j < NUM_READY
      ensures r.q[j] == k.q[j] + AtLevel(inits, t, j)
    {
    }
  }

  lemma NewIsNew(k: Kernel, t: Tid, init: TaskInit)
    requires Shape(k)
    ensures IsNew(Queued(NewTask(k, t, init.prio, init.priv)), init.prio, init.priv)
  {
  }

  /** The system tasks, before the others are made. */
  lemma SystemTasks() returns (k: Kernel)
    ensures Made(k, [14, TID_KCD, TID_WCLCK], []) && k.now == 0 && !k.fault
    ensures IsNew(k.tcb[14], HIGH, true) && IsNew(k.tcb[TID_KCD], HIGH, false) && IsNew(k.tcb[TID_WCLCK], HIGH, false)
    ensures forall t: Tid :: 0 < t < TID_WCLCK ==> k.tcb[t].state == DORMANT
    ensures forall inits: seq<TaskInit> :: |inits| < TID_WCLCK ==> Boot(inits) == Dispatch(AddTasks(k, inits, 1))
  {
    hide AddTask, AddTasks, Dispatch, Made, Flatten;
    var none := Blank();
    BlankMade();
    var con := AddTask(none, 14, HIGH, true);
    MakesTask(none, 14, HIGH, true, [], []);
    AddTaskForm(none, 14, HIGH, true);
    var kcd := AddTask(con, TID_KCD, HIGH, false);
    MakesTask(con, TID_KCD, HIGH, false, [] + [14], []);
    AddTaskForm(con, TID_KCD, HIGH, false);
    k := AddTask(kcd, TID_WCLCK, HIGH, false);
    MakesTask(kcd, TID_WCLCK, HIGH, false, [] + [14] + [TID_KCD], []);
    AddTaskForm(kcd, TID_WCLCK, HIGH, false);
    assert [] + [14] + [TID_KCD] + [TID_WCLCK] == [14, TID_KCD, TID_WCLCK];
  }

  /** After boot the console runs; behind it, at its priority, the keyboard decoder, the wall clock and then the
      boot-time tasks are ready, each at its own priority and in order.  Nothing else exists but the UART's
      mailbox. */
  lemma BootOutcome(inits: seq<TaskInit>)
    requires |inits| < TID_WCLCK && forall i :: 0 <= i < |inits| ==> Ordinary(inits[i].prio)
    ensures var k := Boot(inits);
      && k.cur == 14 && IsNew(k.tcb[14].(state := READY), HIGH, true) && k.tcb[14].state == RUNNING
      && IsNew(k.tcb[TID_KCD], HIGH, false) && IsNew(k.tcb[TID_WCLCK], HIGH, false)
      && (forall i :: 0 <= i < |inits| ==> IsNew(k.tcb[1 + i], inits[i].prio, inits[i].priv))
      && (forall t: Tid :: |inits| < t < TID_WCLCK ==> k.tcb[t].state == DORMANT)
      && k.q[1] == [TID_KCD, TID_WCLCK] + AtLevel(inits, 1, 1)
      && (forall j :: 2 <= j < NUM_READY ==> k.q[j] == AtLevel(inits, 1, j))
      && k.q[0] == [] && (forall j :: NUM_READY <= j < NUM_QUEUES ==> k.q[j] == [])
      && (forall b :: 0 <= b < NUM_BOXES ==> k.box[b] == Mailbox(b == UART_BOX, if b == UART_BOX then 0x80 else 0, []))
      && k.now == 0 && !k.fault
  {
    hide Dispatch, Boot, AtLevel, IsNew, Flatten;
    var all := AllMade(inits);
    ReadyWhenNew(all.tcb[14], HIGH, true);
    FirstLeaves(all, [TID_KCD, TID_WCLCK] + AtLevel(inits, 1, 1));
  }

  lemma ReadyWhenNew(c: Task, prio: nat, priv: bool)
    requires IsNew(c, prio, priv)
    ensures c.state == READY
  {
  }

  /** All tasks are made, and none runs yet. */
  lemma AllMade(inits: seq<TaskInit>) returns (all: Kernel)
    requires |inits| < TID_WCLCK && forall i :: 0 <= i < |inits| ==> Ordinary(inits[i].prio)
    ensures Shape(all) && Boot(inits) == Dispatch(all) && all.now == 0 && !all.fault
    ensures IsNew(all.tcb[14], HIGH, true)
    ensures IsNew(all.tcb[TID_KCD], HIGH, false) && IsNew(all.tcb[TID_WCLCK], HIGH, false)
    ensures forall i :: 0 <= i < |inits| ==> IsNew(all.tcb[1 + i], inits[i].prio, inits[i].priv)
    ensures forall t: Tid :: |inits| < t < TID_WCLCK ==> all.tcb[t].state == DORMANT
    ensures all.q[0] == [] && all.q[1] == [14] + ([TID_KCD, TID_WCLCK] + AtLevel(inits, 1, 1))
    ensures forall j :: 2 <= j < NUM_READY ==> all.q[j] == AtLevel(inits, 1, j)
    ensures forall j :: NUM_READY <= j < NUM_QUEUES ==> all.q[j] == []
    ensures forall b :: 0 <= b < NUM_BOXES ==> all.box[b] == Mailbox(b == UART_BOX, if b == UART_BOX then 0x80 else 0, [])
  {
    hide AddTasks, Dispatch, Boot, Made, AtLevel, IsNew, Added, Flatten;
    var sys := SystemTasks();
    MadeQueues(sys, [14, TID_KCD, TID_WCLCK]);
    all := AddTasks(sys, inits, 1);
    AddTasksForm(sys, inits, 1);
    AddedQueues(sys, all, inits);
    AddedTasks(sys, all, inits);
  }

  lemma AddedQueues(sys: Kernel, all: Kernel, inits: seq<TaskInit>)
    requires Shape(sys) && |inits| < TID_WCLCK && forall i :: 0 <= i < |inits| ==> Ordinary(inits[i].prio)
    requires forall j :: 0 <= j < NUM_QUEUES ==> sys.q[j] == if j == 1 then [14, TID_KCD, TID_WCLCK] else []
    requires Added(sys, all, inits, 1)
    ensures Shape(all) && all.box == sys.box && all.now == sys.now && all.fault == sys.fault
    ensures all.q[0] == [] && all.q[1] == [14] + ([TID_KCD, TID_WCLCK] + AtLevel(inits, 1, 1))
    ensures forall j :: 2 <= j < NUM_READY ==> all.q[j] == AtLevel(inits, 1, j)
    ensures forall j :: NUM_READY <= j < NUM_QUEUES ==> all.q[j] == []
  {
    hide AtLevel, IsNew, Added, Shape;
    LevelZero(inits, 1);
    QueueAdded(sys, all, inits, 0);
    QueueAdded(sys, all, inits, 1);
    forall j | 2 <= j < NUM_QUEUES
      ensures all.q[j] == if j < NUM_READY then AtLevel(inits, 1, j) else []
    {
      QueueAdded(sys, all, inits, j);
    }
  }

  lemma QueueAdded(sys: Kernel, all: Kernel, inits: seq<TaskInit>, j: nat)
    requires Shape(sys) && |inits| < TID_WCLCK && Added(sys, all, inits, 1) && j < NUM_QUEUES
    ensures |sys.q| == |all.q| == NUM_QUEUES
    ensures Shape(all) && all.box == sys.box && all.now == sys.now && all.fault == sys.fault
    ensures sys.q[j] == [] ==> all.q[j] == if j < NUM_READY then AtLevel(inits, 1, j) else []
    ensures j == 1 && sys.q[1] == [14, TID_KCD, TID_WCLCK] ==>
      all.q[1] == [14] + ([TID_KCD, TID_WCLCK] + AtLevel(inits, 1, 1))
  {
    hide AtLevel, IsNew, Flatten;
  }

  lemma AddedTasks(sys: Kernel, all: Kernel, inits: seq<TaskInit>)
    requires Shape(sys) && |inits| < TID_WCLCK && Added(sys, all, inits, 1)
    ensures Shape(all) && forall i :: 0 <= i < |inits| ==> IsNew(all.tcb[1 + i], inits[i].prio, inits[i].priv)
    ensures forall t: Tid :: |inits| < t ==> all.tcb[t] == sys.tcb[t]
  {
    hide AtLevel, IsNew, Flatten;
  }

  lemma {:induction false} LevelZero(inits: seq<TaskInit>, t: nat)
    requires t + |inits| <= TID_WCLCK && forall i :: 0 <= i < |inits| ==> Ordinary(inits[i].prio)
    ensures AtLevel(inits, t, 0) == []
    decreases |inits|
  {
    if inits == [] {
    } else {
      LevelZero(inits[1..], t + 1);
    }
  }

  lemma MadeQueues(k: Kernel, high: seq<Tid>)
    requires Made(k, high, [])
    ensures Shape(k) && forall j :: 0 <= j < NUM_QUEUES ==> k.q[j] == if j == 1 then high else []
    ensures forall b :: 0 <= b < NUM_BOXES ==> k.box[b] == Mailbox(b == UART_BOX, if b == UART_BOX then 0x80 else 0, [])
  {
    hide Flatten;
  }

  /** The first of the console's queue runs. */
  lemma FirstLeaves(all: Kernel, rest: seq<Tid>)
    requires Shape(all) && all.q[0] == [] && all.q[1] == [14] + rest && all.tcb[14].state == READY
    ensures var r := Dispatch(all);
      && r.cur == 14 && r.box == all.box && r.now == all.now && r.fault == all.fault
      && r.q[1] == rest && (forall j :: 0 <= j < NUM_QUEUES && j != 1 ==> r.q[j] == all.q[j])
      && r.tcb[14].state == RUNNING && r.tcb[14].(state := READY) == all.tcb[14]
      && (forall t: Tid :: t != 14 ==> r.tcb[t] == all.tcb[t])
  {
    hide Dispatch, Flatten, FirstReady;
    assert ([14] + rest)[1..] == rest;
    FirstReadyIs(all, 1);
    DispatchForm(all, 1, 14);
  }
}
