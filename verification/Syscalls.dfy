// The system calls and the timer interrupt as steps on the kernel state.
module Syscalls {
  import opened Readings
  import opened Seqs
  import opened Deadlines
  import opened Messages
  import opened TaskStates
  import opened Kernel

  datatype Errno = Unset | EPERM | ENOENT | EAGAIN | ENOMEM | EEXIST | EINVAL | ENOSPC | ENOMSG | EMSGSIZE

  /** What a call hands back.  `Blocked` marks a receive that has not returned yet. */
  datatype Reply = Ok | Error(e: Errno) | Created(tid: Tid) | Received(m: Message) | Blocked

  type Step = (Kernel, Reply)

  // ---------------------------------------------------------------- tasks

  /** `k_tsk_yield`. */
  function Yield(k: Kernel): (r: Step)
    requires Shape(k)
    ensures Shape(r.0)
  {
    var c := Current(k);
    if c.state != RUNNING then (k, Error(Unset))
    else if c.rt then (k, Ok)
    else if Order(c.prio) == -1 then (k, Error(Unset))
    else (RunNew(if c.prio == PRIO_NULL then k else PushTail(k, k.cur, ReadyOf(c.prio))), Ok)
  }

  /** The slot `k_tsk_create` settles on: the first dormant one of 1..12, else 13. */
  function FreeSlot(k: Kernel, t: Tid := 1): (s: Tid)
    requires Shape(k) && 1 <= t <= TID_WCLCK
    ensures t <= s <= TID_WCLCK
    ensures s < TID_WCLCK ==> k.tcb[s].state == DORMANT
    ensures forall u: Tid :: t <= u < s ==> k.tcb[u].state != DORMANT
    decreases TID_WCLCK - t
  {
    if t == TID_WCLCK || k.tcb[t].state == DORMANT then t else FreeSlot(k, t + 1)
  }

  function NewTask(k: Kernel, t: Tid, prio: nat, priv: bool): Task
    requires Shape(k)
  {
    k.tcb[t].(prio := prio, priv := priv, state := READY, rt := false, period := 0, deadline := 0, awaiting := None)
  }

  /** `k_tsk_create`; `memory` says whether the stack can be allocated. */
  function Create(k: Kernel, prio: nat, memory: bool): (r: Step)
    requires Shape(k)
    ensures Shape(r.0)
  {
    var t := FreeSlot(k);
    if t == TID_WCLCK && k.tcb[t].state != DORMANT then (k, Error(EAGAIN))
    else if Order(prio) == -1 then (k, Error(EINVAL))
    else if !memory then (k, Error(ENOMEM))
    else
      var made := k.(tcb := k.tcb[t := NewTask(k, t, prio, false)]);
      if prio >= Current(made).prio then (PushTail(made, t, ReadyOf(prio)), Created(t))
      else
        var running := SetState(made.(cur := t), t, RUNNING);
        (PushHead(running, k.cur, ReadyOf(made.tcb[k.cur].prio)), Created(t))
  }

  /** The part of `k_tsk_set_prio` for a task that is not real-time and has another priority. */
  function ChangePrio(how: Reading, k: Kernel, t: Tid, prio: nat): (r: Kernel)
    requires Shape(k)
    ensures Shape(r)
  {
    var was := k.tcb[t].prio;
    var changed := k.(tcb := k.tcb[t := k.tcb[t].(prio := prio)]);
    if Current(k).prio > prio && k.cur != t then
      var popped := PopTask(how, changed.(cur := t), t, ReadyOf(was));
      SetState(PushHead(popped, k.cur, ReadyOf(popped.tcb[k.cur].prio)), t, RUNNING)
    else if k.cur == t then
      if was < prio then
        var f := FirstReady(k);
        var h := if f < NUM_READY then k.q[f][0] else TID_NULL;
        if changed.tcb[h].prio <= prio then
          var hq := ReadyOf(changed.tcb[h].prio);
          var popped := if hq < 0 then changed.(fault := true)
                        else if changed.q[hq] == [] then changed else PopHead(changed, hq);
          SetState(PushTail(popped.(cur := h), t, ReadyOf(prio)), h, RUNNING)
        else changed
      else k
    else
      PushTail(PopTask(how, changed, t, ReadyOf(was)), t, ReadyOf(prio))
  }

  /** `k_tsk_set_prio`. */
  function SetPrio(how: Reading, k: Kernel, tid: nat, prio: nat): (r: Step)
    requires Shape(k)
    ensures Shape(r.0)
  {
    if tid > MAX_TASKS - 1 || Order(prio) > 5 || Order(prio) < 0 then (k, Error(EINVAL))
    else
      var t: Tid := tid;
      if k.tcb[t].prio == PRIO_NULL || prio == PRIO_NULL then (k, Error(EINVAL))
      else if (!Current(k).priv && k.tcb[t].priv) || t == TID_NULL || k.tcb[t].state == DORMANT then (k, Error(EPERM))
      else if k.tcb[t].rt && prio != PRIO_RT then (k, Error(EPERM))
      else if !k.tcb[t].rt && prio == PRIO_RT then (k, Error(EPERM))
      else
        var set0 := k.(tcb := k.tcb[t := k.tcb[t].(prio := prio)]);
        var s := if k.tcb[t].state in {BLK_RECV, BLK_SEND} then set0 else k;
        if s.tcb[t].rt then (set0, Ok)
        else if s.tcb[t].prio != prio then (ChangePrio(how, s, t, prio), Ok)
        else (s, Ok)
  }

  // ---------------------------------------------------------------- mailboxes

  function Used(m: Mailbox): nat {
    |Flatten(m.ring)|
  }

  predicate Fitting(m: Mailbox, size: nat) {
    Used(m) <= m.cap && CanFit(m.cap, Used(m), size) == Fits
  }

  /** `push_buffer`. */
  function PushRing(k: Kernel, b: nat, m: Message): (r: Kernel)
    requires Shape(k) && b < NUM_BOXES
    ensures Shape(r)
  {
    if Fitting(k.box[b], |m|) then
      FlattenAppend(k.box[b].ring, m);
      k.(box := k.box[b := k.box[b].(ring := k.box[b].ring + [m])])
    else k
  }

  function RestOfRing(ring: seq<Message>): (rest: seq<Message>)
    requires ring != []
    ensures |Flatten(rest)| <= |Flatten(ring)|
  {
    ring[1..]
  }

  /** `pop_buffer` when the message fits the caller's buffer. */
  function PopRing(k: Kernel, b: nat): (r: Kernel)
    requires Shape(k) && b < NUM_BOXES && k.box[b].ring != []
    ensures Shape(r)
  {
    k.(box := k.box[b := k.box[b].(ring := RestOfRing(k.box[b].ring))])
  }

  /** `k_mbx_create`; `memory` says whether the ring can be allocated. */
  function MbxCreate(k: Kernel, size: nat, memory: bool): (r: Step)
    requires Shape(k)
    ensures Shape(r.0)
  {
    if k.box[k.cur].active then (k, Error(EEXIST))
    else if size < HDR then (k, Error(EINVAL))
    else if !memory then (k, Error(ENOMEM))
    else (k.(box := k.box[k.cur := Mailbox(true, size, [])],
             q := k.q[WaitOf(k.cur) := []]), Created(k.cur))
  }

  /** The bytes a caller passes: readable as far as its length field says. */
  predicate Readable(buf: seq<Byte>) {
    |buf| >= HDR && LengthField(buf) <= |buf|
  }

  /** The mailbox that a receiver id names; there is none for ids that are no task's. */
  function BoxOf(dst: nat): Option<nat> {
    if dst == TID_UART then Some(UART_BOX) else if dst < MAX_TASKS then Some(dst) else None
  }

  /** The checks that both sends make first. */
  function SendError(k: Kernel, dst: nat, buf: seq<Byte>): Option<Errno>
    requires Shape(k) && Readable(buf) && BoxOf(dst).Some?
  {
    var b := BoxOf(dst).value;
    if dst != TID_UART && k.tcb[dst].state == DORMANT then Some(EINVAL)
    else if LengthField(buf) < HDR then Some(EINVAL)
    else if !k.box[b].active then Some(ENOENT)
    else if LengthField(buf) > k.box[b].cap then Some(EMSGSIZE)
    else None
  }

  function MessageOf(buf: seq<Byte>): Message
    requires Readable(buf) && LengthField(buf) >= HDR
  {
    var m := buf[..LengthField(buf)];
    assert LengthField(m) == LengthField(buf);
    m
  }

  /** The message goes into the ring, and a task blocked on receiving it becomes ready. */
  function Deliver(k: Kernel, b: nat, m: Message): (r: Kernel)
    requires Shape(k) && b < NUM_BOXES
    ensures Shape(r)
  {
    var pushed := PushRing(k, b, m);
    if b < MAX_TASKS && pushed.tcb[b].state == BLK_RECV then
      SetState(PushTail(pushed, b, ReadyOf(pushed.tcb[b].prio)), b, READY)
    else pushed
  }

  /** The current task goes to the front of its queue and the scheduler decides. */
  function Preempt(k: Kernel): (r: Kernel)
    requires Shape(k)
    ensures Shape(r)
  {
    RunNew(PushHead(k, k.cur, ReadyOf(Current(k).prio)))
  }

  predicate WakesHigher(k: Kernel, b: nat)
    requires Shape(k)
  {
    b < MAX_TASKS && k.tcb[b].state == BLK_RECV && k.tcb[b].prio < Current(k).prio
  }

  /** The current task blocks on sending. */
  function BlockSend(k: Kernel, b: nat, m: Message): (r: Kernel)
    requires Shape(k) && b < NUM_BOXES
    ensures Shape(r)
  {
    var blocked := k.(tcb := k.tcb[k.cur := Current(k).(state := BLK_SEND, msg := m, dest := b)]);
    RunNew(PushTail(blocked, k.cur, WaitOf(b)))
  }

  /** `k_send_msg`. */
  function Send(k: Kernel, dst: nat, buf: seq<Byte>): (r: Step)
    requires Shape(k) && Readable(buf)
    ensures Shape(r.0)
  {
    if BoxOf(dst) == None then (k.(fault := true), Error(Unset))
    else if SendError(k, dst, buf).Some? then (k, Error(SendError(k, dst, buf).value))
    else
      var b, m := BoxOf(dst).value, MessageOf(buf);
      if Fitting(k.box[b], |m|) && k.q[WaitOf(b)] == [] then
        var delivered := Deliver(k, b, m);
        (if WakesHigher(k, b) then Preempt(delivered) else delivered, Ok)
      else (BlockSend(k, b, m), Ok)
  }

  /** `k_send_msg_nb`. */
  function SendNb(k: Kernel, dst: nat, buf: seq<Byte>): (r: Step)
    requires Shape(k) && Readable(buf)
    ensures Shape(r.0)
  {
    if BoxOf(dst) == None then (k.(fault := true), Error(Unset))
    else if SendError(k, dst, buf).Some? then (k, Error(SendError(k, dst, buf).value))
    else
      var b, m := BoxOf(dst).value, MessageOf(buf);
      if !Fitting(k.box[b], |m|) || k.q[WaitOf(b)] != [] then (k, Error(ENOSPC))
      else
        var delivered := Deliver(k, b, m);
        (if WakesHigher(k, b) && SenderField(buf) != TID_UART then Preempt(delivered) else delivered, Ok)
  }

  /** The loop that lets blocked senders in while the first of them fits. */
  function Drain(k: Kernel, b: nat): (r: Kernel)
    requires Shape(k) && b < NUM_BOXES
    ensures Shape(r)
    decreases |k.q[WaitOf(b)]|
  {
    var w := k.q[WaitOf(b)];
    if w == [] || !Fitting(k.box[b], |k.tcb[w[0]].msg|) then k
    else
      var pushed := PushRing(PopHead(k, WaitOf(b)), b, k.tcb[w[0]].msg);
      Drain(PushTail(pushed, w[0], ReadyOf(pushed.tcb[w[0]].prio)), b)
  }

  /** `k_recv_msg` up to its switch point, or to its end if there is a message.  `len` is the size of
      the caller's buffer. */
  function Recv(k: Kernel, len: nat): (r: Step)
    requires Shape(k)
    ensures Shape(r.0)
  {
    var ring := k.box[k.cur].ring;
    if !k.box[k.cur].active then (k, Error(ENOENT))
    else if ring == [] then
      (RunNew(k.(tcb := k.tcb[k.cur := Current(k).(state := BLK_RECV, awaiting := Some(len))])), Blocked)
    else if len < |ring[0]| then (k, Error(ENOSPC))
    else (Preempt(Drain(PopRing(k, k.cur), k.cur)), Received(ring[0]))
  }

  /** `k_recv_msg` from its switch point on.  The result of this second `pop_buffer` is not looked
      at: if the message does not fit it stays, and the call still returns `RTX_OK`. */
  function Resume(k: Kernel): (r: Step)
    requires Shape(k) && Current(k).awaiting.Some?
    ensures Shape(r.0)
  {
    var ring := k.box[k.cur].ring;
    var back := k.(tcb := k.tcb[k.cur := Current(k).(awaiting := None)]);
    if ring == [] || Current(k).awaiting.value < |ring[0]| then
      (Preempt(Drain(back, k.cur)), Ok)
    else
      (Preempt(Drain(PopRing(back, k.cur), k.cur)), Received(ring[0]))
  }

  /** `k_recv_msg_nb`, for the current task or, in the UART handler, for the UART mailbox. */
  function RecvNb(k: Kernel, len: nat, uart: bool): (r: Step)
    requires Shape(k)
    ensures Shape(r.0)
  {
    var b := if uart then UART_BOX else k.cur;
    var ring := k.box[b].ring;
    if !k.box[b].active then (k, Error(ENOENT))
    else if ring == [] then (k, Error(ENOMSG))
    else if len < |ring[0]| then (k, Error(ENOSPC))
    else
      var drained := Drain(PopRing(k, b), b);
      (if uart then drained else Preempt(drained), Received(ring[0]))
  }

  // ---------------------------------------------------------------- real-time tasks

  /** `k_rt_tsk_set`.  The test of the period in the source can never fail; this is the rest. */
  function RtSet(k: Kernel, usec: nat): (r: Step)
    requires Shape(k)
    ensures Shape(r.0)
  {
    if Current(k).rt then (k, Error(EPERM))
    else
      var period := usec / 500;
      var t := Current(k).(rt := true, period := period, deadline := k.now + 1 + period, prio := PRIO_RT, state := READY);
      (Dispatch(PushTail(k.(tcb := k.tcb[k.cur := t]), k.cur, ReadyOf(PRIO_RT))), Ok)
  }

  /** The deadline after a suspension: the next grid point, or after a miss the first one that is
      still to come. */
  function NextDeadline(deadline: nat, period: nat, now: nat): (d: nat)
    requires deadline < now ==> period > 0
  {
    if deadline < now then deadline + ((now - deadline) / period + 1) * period
    else deadline + period
  }

  /** `k_rt_tsk_susp`. */
  function RtSusp(k: Kernel): (r: Step)
    requires Shape(k)
    ensures Shape(r.0)
  {
    var c := Current(k);
    if !c.rt then (k, Error(EPERM))
    else if c.deadline < k.now && c.period == 0 then (k.(fault := true), Ok)
    else
      var t := c.(state := SUSPENDED, deadline := NextDeadline(c.deadline, c.period, k.now));
      (Dispatch(PushTail(k.(tcb := k.tcb[k.cur := t]), k.cur, SUSP)), Ok)
  }

  // ---------------------------------------------------------------- the timer interrupt

  predicate IsDue(t: Task, now: nat) {
    t.deadline - t.period <= now
  }

  /** One round of the release loop.  Whatever link `pop_task` leaves, `push_tail` writes it next. */
  function ReleaseTask(k: Kernel, t: Tid): (r: Kernel)
    requires Shape(k)
    ensures Shape(r)
  {
    if IsDue(k.tcb[t], k.now) then
      PushTail(SetState(PopTask(AsWritten, k, t, SUSP), t, READY), t, ReadyOf(k.tcb[t].prio))
    else k
  }

  function ReleaseAll(k: Kernel, ts: seq<Tid>): (r: Kernel)
    requires Shape(k)
    ensures Shape(r)
    decreases |ts|
  {
    if ts == [] then k else ReleaseAll(ReleaseTask(k, ts[0]), ts[1..])
  }

  /** The decision at the end of the timer interrupt.  As written, a running real-time task with
      nothing ready behind it makes the handler push the null task to a queue that does not exist. */
  function Decide(how: Reading, k: Kernel): (r: Kernel)
    requires Shape(k)
    ensures Shape(r)
  {
    var (s, h) := Scheduler(k);
    if k.cur == TID_NULL then
      if h != TID_NULL then SetState(s.(cur := h), h, RUNNING) else s
    else if Current(k).rt then
      if Current(k).state in {DORMANT, SUSPENDED, READY} then SetState(s.(cur := h), h, RUNNING)
      else if Current(k).state == RUNNING then
        if s.tcb[h].rt && s.tcb[h].deadline < s.tcb[k.cur].deadline then
          var stopped := SetState(PushTail(s, k.cur, ReadyOf(s.tcb[k.cur].prio)), k.cur, READY);
          SetState(stopped.(cur := h), h, RUNNING)
        else if h == TID_NULL && how == Repaired then s
        else PushHead(s, h, ReadyOf(s.tcb[h].prio))
      else k
    else if h == TID_NULL then s
    else if s.tcb[h].rt then
      var stopped := PushHead(SetState(s, k.cur, READY), k.cur, ReadyOf(s.tcb[k.cur].prio));
      SetState(stopped.(cur := h), h, RUNNING)
    else PushHead(s, h, ReadyOf(s.tcb[h].prio))
  }

  /** The first suspended task is marked as suspended again. */
  function MarkFirst(k: Kernel): (r: Kernel)
    requires Shape(k)
    ensures Shape(r)
  {
    if k.q[SUSP] == [] then k else SetState(k, k.q[SUSP][0], SUSPENDED)
  }

  /** `TIMER0_IRQHandler`.  As written it goes through the null head of an empty list first. */
  function Tick(how: Reading, k: Kernel, now: nat): (r: Kernel)
    requires Shape(k)
    ensures Shape(r)
  {
    var timed := k.(now := now);
    if how == AsWritten && k.q[SUSP] == [] then timed.(fault := true)
    else Decide(how, ReleaseAll(MarkFirst(timed), timed.q[SUSP]))
  }

  // ---------------------------------------------------------------- boot

  /** One task of `k_tsk_init` is made and queued. */
  function AddTask(k: Kernel, t: Tid, prio: nat, priv: bool): (r: Kernel)
    requires Shape(k)
    ensures Shape(r)
  {
    PushTail(k.(tcb := k.tcb[t := NewTask(k, t, prio, priv)]), t, ReadyOf(prio))
  }

  /** What `k_tsk_init` is told of a boot-time task. */
  datatype TaskInit = TaskInit(prio: nat, priv: bool)

  function AddTasks(k: Kernel, inits: seq<TaskInit>, i: nat): (r: Kernel)
    requires Shape(k) && i + |inits| <= TID_WCLCK
    ensures Shape(r)
    decreases |inits|
  {
    if inits == [] then k else AddTasks(AddTask(k, i, inits[0].prio, inits[0].priv), inits[1..], i + 1)
  }

  const NO_MESSAGE: Message := [6, 0, 0, 0, 0, 0]

  /** Before any task but the null task exists. */
  function Blank(): (k: Kernel)
    ensures Shape(k)
  {
    var none := Task(PRIO_RT, false, DORMANT, false, 0, 0, NO_MESSAGE, 0, None, false);
    Kernel(TID_NULL,
           seq(MAX_TASKS, i => if i == TID_NULL then none.(prio := PRIO_NULL, state := READY) else none),
           seq(NUM_QUEUES, _ => []),
           seq(NUM_BOXES, i => Mailbox(i == UART_BOX, if i == UART_BOX then 0x80 else 0, [])),
           0, false)
  }

  /** `k_tsk_init` with the given boot-time tasks: the three system tasks first. */
  function Boot(inits: seq<TaskInit>): (k: Kernel)
    requires |inits| < TID_WCLCK
    ensures Shape(k)
  {
    var con := AddTask(Blank(), 14, HIGH, true);
    var kcd := AddTask(con, TID_KCD, HIGH, false);
    var clock := AddTask(kcd, TID_WCLCK, HIGH, false);
    Dispatch(AddTasks(clock, inits, 1))
  }

  // ---------------------------------------------------------------- steps

  datatype Op =
    | OpYield | OpCreate(prio: nat, memory: bool) | OpSetPrio(tid: nat, prio: nat)
    | OpMbxCreate(size: nat, memory: bool)
    | OpSend(dst: nat, buf: seq<Byte>) | OpSendNb(dst: nat, buf: seq<Byte>)
    | OpRecv(len: nat) | OpResume | OpRecvNb(len: nat)
    | OpRtSet(usec: nat) | OpRtSusp
    | OpTick(now: nat) | OpUartSend(buf: seq<Byte>) | OpUartRecv(len: nat)

  /** When a step can happen.  Interrupts always can; a task inside `k_recv_msg` can only go on with
      it; the null task only yields. */
  predicate Enabled(k: Kernel, op: Op)
    requires Shape(k)
  {
    match op
    case OpTick(now) => k.now <= now
    case OpUartSend(buf) => Readable(buf) && SenderField(buf) == TID_UART
    case OpUartRecv(len) => true
    case OpResume => Current(k).awaiting.Some?
    case OpYield => Current(k).awaiting.None?
    case OpSend(dst, buf) => k.cur != TID_NULL && Current(k).awaiting.None? && Readable(buf)
    case OpSendNb(dst, buf) => k.cur != TID_NULL && Current(k).awaiting.None? && Readable(buf)
    case _ => k.cur != TID_NULL && Current(k).awaiting.None?
  }

  function Do(how: Reading, k: Kernel, op: Op): (r: Step)
    requires Shape(k) && Enabled(k, op)
    ensures Shape(r.0)
  {
    match op
    case OpYield => Yield(k)
    case OpCreate(prio, memory) => Create(k, prio, memory)
    case OpSetPrio(tid, prio) => SetPrio(how, k, tid, prio)
    case OpMbxCreate(size, memory) => MbxCreate(k, size, memory)
    case OpSend(dst, buf) => Send(k, dst, buf)
    case OpSendNb(dst, buf) => SendNb(k, dst, buf)
    case OpRecv(len) => Recv(k, len)
    case OpResume => Resume(k)
    case OpRecvNb(len) => RecvNb(k, len, false)
    case OpRtSet(usec) => RtSet(k, usec)
    case OpRtSusp => RtSusp(k)
    case OpTick(now) => (Tick(how, k, now), Ok)
    case OpUartSend(buf) => SendNb(k, TID_KCD, buf)
    case OpUartRecv(len) => RecvNb(k, len, true)
  }
}
