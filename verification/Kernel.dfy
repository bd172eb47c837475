// The kernel's global state, and the primitive moves that its system calls are made of.
module Kernel {
  import opened Readings
  import opened Seqs
  import opened Deadlines
  import opened Messages
  import opened TaskStates

  // ---------------------------------------------------------------- constants

  const TID_NULL: Tid := 0
  const TID_WCLCK: nat := 13
  const TID_KCD: nat := 15
  const TID_UART: nat := 0xFE

  const HIGH: nat := 0x80
  const MEDIUM: nat := 0x81
  const LOW: nat := 0x82
  const LOWEST: nat := 0x83
  const PRIO_NULL: nat := 0xFF

  /** The queues of the kernel, in one row: five ready queues, the waiting lists of the sixteen task
      mailboxes and of the UART mailbox, and the list of suspended tasks. */
  const NUM_READY: nat := 5
  const UART_BOX: nat := 16
  const NUM_BOXES: nat := 17
  const SUSP: nat := 22
  const NUM_QUEUES: nat := 23

  function WaitOf(b: nat): nat { NUM_READY + b }

  /** `priority2order`. */
  function Order(prio: nat): int {
    if prio == PRIO_RT then 0
    else if prio == HIGH then 1
    else if prio == MEDIUM then 2
    else if prio == LOW then 3
    else if prio == LOWEST then 4
    else if prio == PRIO_NULL then 5
    else -1
  }

  // ---------------------------------------------------------------- state

  /** What a TCB holds.  Two things the source keeps elsewhere are recorded here: the mailbox whose
      waiting list a blocked sender is on, and the buffer length of a `k_recv_msg` that has reached
      its switch point and not yet gone on (on the source's kernel stack).  Of the links only one fact
      is not told by the queues: `stale` says that the task is on none, and that its `next` still
      points at a task, the one that was behind it when it was taken from the middle of a queue. */
  datatype Task = Task(
    prio: nat, priv: bool, state: State,
    rt: bool, period: nat, deadline: nat,
    msg: Message, dest: nat, awaiting: Option<nat>, stale: bool)

  datatype Mailbox = Mailbox(active: bool, cap: nat, ring: seq<Message>)

  /** `fault` records that the C code would have read or written outside its arrays, gone through a
      null pointer, divided by zero, or left a queue whose links lead to a task that is not on it. */
  datatype Kernel = Kernel(
    cur: Tid, tcb: seq<Task>, q: seq<seq<Tid>>, box: seq<Mailbox>, now: nat, fault: bool)

  ghost predicate Shape(k: Kernel) {
    && |k.tcb| == MAX_TASKS && |k.q| == NUM_QUEUES && |k.box| == NUM_BOXES
    && (forall b :: 0 <= b < NUM_BOXES ==> |Flatten(k.box[b].ring)| <= k.box[b].cap)
  }

  function Current(k: Kernel): Task
    requires Shape(k)
  {
    k.tcb[k.cur]
  }

  // ---------------------------------------------------------------- primitive moves

  function SetState(k: Kernel, t: Tid, s: State): (r: Kernel)
    requires Shape(k)
    ensures Shape(r)
  {
    k.(tcb := k.tcb[t := k.tcb[t].(state := s)])
  }

  function Ds(k: Kernel, ts: seq<Tid>): (ds: seq<nat>)
    requires |k.tcb| == MAX_TASKS
    ensures |ds| == |ts|
  {
    seq(|ts|, i requires 0 <= i < |ts| => k.tcb[ts[i]].deadline)
  }

  /** Where `push_tail` puts a task. */
  function TailPlace(k: Kernel, t: Tid, i: nat): (p: nat)
    requires Shape(k) && i < NUM_QUEUES
    ensures p <= |k.q[i]|
  {
    if k.tcb[t].rt then Position(Ds(k, k.q[i]), k.tcb[t].deadline) else |k.q[i]|
  }

  /** A task that has been put on a ready queue. */
  function Queued(c: Task): Task {
    c.(state := READY, stale := false)
  }

  /** The task's `next` has been written. */
  function Relinked(k: Kernel, t: Tid): (r: Kernel)
    requires Shape(k)
    ensures Shape(r)
  {
    if k.tcb[t].stale then k.(tcb := k.tcb[t := k.tcb[t].(stale := false)]) else k
  }

  /** `push_head`, on the queue with this index; a ready queue that does not exist has index -1.  On
      an empty queue it does not write the task's `next`, so a stale link becomes part of the queue. */
  function PushHead(k: Kernel, t: Tid, i: int): (r: Kernel)
    requires Shape(k) && i < NUM_QUEUES
    ensures Shape(r)
  {
    if i < 0 || (k.q[i] == [] && k.tcb[t].stale) then k.(fault := true)
    else
      var queued := Relinked(k, t).(q := k.q[i := [t] + k.q[i]]);
      if k.tcb[t].state == SUSPENDED then queued else SetState(queued, t, READY)
  }

  /** `push_tail`, which always writes the link of the task it queues. */
  function PushTail(k: Kernel, t: Tid, i: int): (r: Kernel)
    requires Shape(k) && i < NUM_QUEUES
    ensures Shape(r)
  {
    if i < 0 then k.(fault := true)
    else if k.q[i] != [] && k.tcb[t].rt && k.tcb[t].prio != PRIO_RT then k
    else
      var s := InsertAt(k.q[i], TailPlace(k, t, i), t);
      var queued := Relinked(k, t).(q := k.q[i := s]);
      if k.tcb[t].state == BLK_SEND || k.tcb[t].state == SUSPENDED then queued
      else SetState(queued, s[|s| - 1], READY)
  }

  /** `pop_head`, on a queue that is not empty.  It clears the links of the task, which is on a queue
      and so has no stale one. */
  function PopHead(k: Kernel, i: nat): (r: Kernel)
    requires Shape(k) && i < NUM_QUEUES && k.q[i] != []
    ensures Shape(r)
  {
    var t := k.q[i][0];
    SetState(k.(q := k.q[i := k.q[i][1..]]), t, if k.tcb[t].state == BLK_SEND then READY else RUNNING)
  }

  /** `pop_task`.  As written, a task that is neither first nor last keeps its links. */
  function PopTask(how: Reading, k: Kernel, t: Tid, i: int): (r: Kernel)
    requires Shape(k) && i < NUM_QUEUES
    ensures Shape(r)
  {
    if i < 0 then k.(fault := true)
    else if t !in k.q[i] then (if |k.q[i]| == 1 then k.(fault := true) else k)
    else
      var removed := k.(q := k.q[i := Remove(k.q[i], t)]);
      if k.q[i][0] == t then SetState(removed, t, READY)
      else if how == AsWritten && InMiddle(k.q[i], t) then removed.(tcb := k.tcb[t := k.tcb[t].(stale := true)])
      else removed
  }

  /** The task is on the queue, neither first nor last. */
  predicate InMiddle(ts: seq<Tid>, t: Tid) {
    t in ts && ts[0] != t && ts[|ts| - 1] != t
  }

  /** The ready queue of a priority, or -1. */
  function ReadyOf(prio: nat): (i: int)
    ensures -1 <= i < NUM_READY
  {
    var o := Order(prio);
    if o < NUM_READY then o else -1
  }

  /** The first ready queue that is not empty; `NUM_READY` if all are. */
  function FirstReady(k: Kernel, i: nat := 0): (f: nat)
    requires Shape(k) && i <= NUM_READY
    ensures i <= f <= NUM_READY
    ensures f < NUM_READY ==> k.q[f] != []
    ensures forall j :: i <= j < f ==> k.q[j] == []
    decreases NUM_READY - i
  {
    if i == NUM_READY || k.q[i] != [] then i else FirstReady(k, i + 1)
  }

  /** `scheduler`: the head of the first ready queue that is not empty, else the null task. */
  function Scheduler(k: Kernel): (r: (Kernel, Tid))
    requires Shape(k)
    ensures Shape(r.0)
  {
    var f := FirstReady(k);
    if f < NUM_READY then (PopHead(k, f), k.q[f][0]) else (k, TID_NULL)
  }

  /** The current task becomes what the scheduler returns, and is running. */
  function Dispatch(k: Kernel): (r: Kernel)
    requires Shape(k)
    ensures Shape(r)
  {
    var (s, t) := Scheduler(k);
    SetState(s.(cur := t), t, RUNNING)
  }

  /** `k_tsk_run_new`. */
  function RunNew(k: Kernel): (r: Kernel)
    requires Shape(k)
    ensures Shape(r)
  {
    if Current(k).rt then k
    else
      var (s, t) := Scheduler(k);
      if t == k.cur then s.(cur := t)
      else
        var r := SetState(s.(cur := t), t, RUNNING);
        if r.tcb[k.cur].state in {BLK_RECV, BLK_SEND, SUSPENDED} then r else SetState(r, k.cur, READY)
  }

  // ---------------------------------------------------------------- where every task is

  /** The queue that a task's fields say it is on. */
  function Home(t: Task): Option<nat> {
    match t.state
    case READY => (if 0 <= Order(t.prio) < NUM_READY then Some(Order(t.prio)) else None)
    case BLK_SEND => (if t.dest < NUM_BOXES then Some(WaitOf(t.dest)) else None)
    case SUSPENDED => Some(SUSP)
    case _ => None
  }

  /** Every task but the null task and `x` is on the one queue its fields name, once, or on none;
      `x` is on none. */
  ghost predicate PlacedBut(k: Kernel, x: Tid)
    requires Shape(k)
  {
    forall i :: 0 <= i < NUM_QUEUES ==> NoDup(k.q[i]) && QueueIs(k, x, i)
  }

  ghost predicate QueueIs(k: Kernel, x: Tid, i: nat)
    requires Shape(k) && i < NUM_QUEUES
  {
    forall t: Tid :: t in k.q[i] <==> Lives(k, x, i, t)
  }

  ghost predicate Lives(k: Kernel, x: Tid, i: nat, t: Tid)
    requires Shape(k)
  {
    t != TID_NULL && t != x && Home(k.tcb[t]) == Some(i)
  }

  ghost predicate Placed(k: Kernel)
    requires Shape(k)
  {
    PlacedBut(k, TID_NULL)
  }

  /** No task but `c` is running; `c` is, unless it is the null task. */
  ghost predicate OnlyRunning(k: Kernel, c: Tid)
    requires Shape(k)
  {
    forall t: Tid :: t != TID_NULL ==> (k.tcb[t].state == RUNNING <==> t == c)
  }

  // ---------------------------------------------------------------- lemmas on the primitives

  lemma Enter(k: Kernel, r: Kernel, x: Tid, i: nat, p: nat)
    requires Shape(k) && Shape(r) && PlacedBut(k, x) && x != TID_NULL && i < NUM_QUEUES && p <= |k.q[i]|
    requires r.q == k.q[i := InsertAt(k.q[i], p, x)]
    requires Home(r.tcb[x]) == Some(i)
    requires forall t: Tid :: t != TID_NULL && t != x ==> Home(r.tcb[t]) == Home(k.tcb[t])
    ensures Placed(r)
  {
    forall j | 0 <= j < NUM_QUEUES
      ensures NoDup(r.q[j]) && QueueIs(r, TID_NULL, j)
    {
      assert QueueIs(k, x, j);
      assert !Lives(k, x, i, x);
      InsertFacts(k.q[i], p, x);
      forall t: Tid
        ensures t in r.q[j] <==> Lives(r, TID_NULL, j, t)
      {
        assert t in k.q[j] <==> Lives(k, x, j, t);
      }
    }
  }

  lemma Leave(k: Kernel, r: Kernel, x: Tid, i: nat)
    requires Shape(k) && Shape(r) && Placed(k) && x != TID_NULL && i < NUM_QUEUES && x in k.q[i]
    requires r.q == k.q[i := Remove(k.q[i], x)]
    requires forall t: Tid :: t != TID_NULL && t != x ==> Home(r.tcb[t]) == Home(k.tcb[t])
    ensures PlacedBut(r, x)
  {
    forall j | 0 <= j < NUM_QUEUES
      ensures NoDup(r.q[j]) && QueueIs(r, x, j)
    {
      assert QueueIs(k, TID_NULL, j) && QueueIs(k, TID_NULL, i);
      RemoveFacts(k.q[i], x);
      assert Lives(k, TID_NULL, i, x);
      forall t: Tid
        ensures t in r.q[j] <==> Lives(r, x, j, t)
      {
        assert t in k.q[j] <==> Lives(k, TID_NULL, j, t);
      }
    }
  }

  /** A task that is on no queue may change in any way. */
  lemma Change(k: Kernel, r: Kernel, x: Tid)
    requires Shape(k) && Shape(r) && PlacedBut(k, x) && r.q == k.q
    requires forall t: Tid :: t != TID_NULL && t != x ==> Home(r.tcb[t]) == Home(k.tcb[t])
    ensures PlacedBut(r, x)
    ensures x != TID_NULL && Home(r.tcb[x]) == None ==> Placed(r)
  {
    forall j | 0 <= j < NUM_QUEUES
      ensures QueueIs(r, x, j)
      ensures x != TID_NULL && Home(r.tcb[x]) == None ==> QueueIs(r, TID_NULL, j)
    {
      assert QueueIs(k, x, j);
      forall t: Tid
        ensures Lives(k, x, j, t) <==> Lives(r, x, j, t)
        ensures x != TID_NULL && Home(r.tcb[x]) == None ==> (Lives(k, x, j, t) <==> Lives(r, TID_NULL, j, t))
      {
      }
    }
  }

  lemma Homeless(k: Kernel, x: Tid)
    requires Shape(k) && Placed(k) && x != TID_NULL && Home(k.tcb[x]) == None
    ensures PlacedBut(k, x)
  {
    forall j | 0 <= j < NUM_QUEUES
      ensures QueueIs(k, x, j)
    {
      assert QueueIs(k, TID_NULL, j);
      forall t: Tid
        ensures Lives(k, TID_NULL, j, t) <==> Lives(k, x, j, t)
      {
      }
    }
  }
}
