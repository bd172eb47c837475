// The kernel as the source has it: the array of TCBs, the linked queues, the rings of the mailboxes and
// the global variables, changed step by step.  A ghost field holds the state of `Kernel` that they
// stand for, and every method is proved to make the step of the same name in `Kernel` or `Syscalls`.
// Where the model puts a stale link into a queue, a fault there, the linked queue here is not sound.
module KernelObject {
  import opened Readings
  import opened Seqs
  import opened Deadlines
  import opened Messages
  import opened Ring
  import opened TaskStates
  import opened TaskQueue
  import opened K = Kernel
  import opened S = Syscalls
  import opened KernelInv
  import opened KernelSteps

  /** The task is on no queue. */
  predicate Off(k: K.Kernel, t: Tid)
    requires Shape(k)
  {
    forall i :: 0 <= i < NUM_QUEUES ==> t !in k.q[i]
  }

  /** No task is on two queues. */
  ghost predicate Disjoint(k: K.Kernel)
    requires Shape(k)
  {
    forall i, j, t: Tid :: 0 <= i < j < NUM_QUEUES && t in k.q[i] ==> t !in k.q[j]
  }

  /** The task that a TCB stands for, apart from its link. */
  function TaskOf(c: Tcb): Task
    reads c`prio, c`priv, c`state, c`realTime, c`period, c`deadline, c`msg, c`dest, c`awaiting
  {
    Task(c.prio, c.priv, c.state, c.realTime, c.period, c.deadline, c.msg, c.dest, c.awaiting, false)
  }

  /** The array of TCBs. */
  method NewTasks() returns (ts: seq<Tcb>)
    ensures |ts| == MAX_TASKS && fresh(ts)
    ensures forall t: Tid :: ts[t].tid == t && ts[t].next == null && TaskOf(ts[t]) == Blank().tcb[t]
  {
    ts := [];
    while |ts| < MAX_TASKS
      invariant |ts| <= MAX_TASKS && fresh(ts)
      invariant forall t :: 0 <= t < |ts| ==> ts[t].tid == t && ts[t].next == null && TaskOf(ts[t]) == Blank().tcb[t]
    {
      var c := new Tcb(|ts|, if |ts| == TID_NULL then PRIO_NULL else PRIO_RT,
                       if |ts| == TID_NULL then READY else DORMANT, NO_MESSAGE);
      ts := ts + [c];
    }
  }

  /** The queues, all empty. */
  method NewQueues() returns (qs: seq<Queue>)
    ensures |qs| == NUM_QUEUES && fresh(qs)
    ensures forall i :: 0 <= i < NUM_QUEUES ==> qs[i].slot == i && qs[i].nodes == [] && qs[i].Valid()
  {
    hide Queue.Valid;
    qs := [];
    while |qs| < NUM_QUEUES
      invariant |qs| <= NUM_QUEUES && fresh(qs)
      invariant forall i :: 0 <= i < |qs| ==> qs[i].slot == i && qs[i].nodes == [] && qs[i].Valid()
    {
      var queue := new Queue(|qs|);
      qs := qs + [queue];
    }
  }

  class System {
    const tasks: seq<Tcb>
    const queues: seq<Queue>
    var rings: seq<Buffer?>
    var cur: Tid
    var now: nat
    ghost var k: K.Kernel

    // -------------------------------------------------------------- what the state stands for

    ghost predicate Fixed() {
      && |tasks| == MAX_TASKS && |queues| == NUM_QUEUES
      && (forall t: Tid :: tasks[t].tid == t)
      && (forall i :: 0 <= i < NUM_QUEUES ==> queues[i].slot == i)
    }

    /** The TCBs with these ids. */
    function Tcbs(ts: seq<Tid>): (s: seq<Tcb>)
      requires |tasks| == MAX_TASKS
      ensures |s| == |ts|
    {
      seq(|ts|, i requires 0 <= i < |ts| => tasks[ts[i]])
    }

    /** The links of queue `i` spell out the model's queue. */
    ghost predicate ListIs(k: K.Kernel, i: nat)
      requires Fixed() && Shape(k) && i < NUM_QUEUES
      reads queues[i], tasks`next, tasks`prev
    {
      queues[i].nodes == Tcbs(k.q[i]) && queues[i].Valid()
    }

    /** A task has a stale link if it is on no queue and its link still leads to another. */
    ghost predicate LinkIs(k: K.Kernel, t: Tid)
      requires Fixed() && Shape(k)
      reads tasks`next
    {
      k.tcb[t].stale <==> Off(k, t) && tasks[t].next != null
    }

    ghost predicate TaskIs(k: K.Kernel, t: Tid)
      requires Fixed() && Shape(k)
      reads tasks[t]
    {
      TaskOf(tasks[t]) == k.tcb[t].(stale := false)
    }

    ghost predicate Lists(k: K.Kernel)
      requires Fixed() && Shape(k)
      reads queues, tasks`next, tasks`prev
    {
      && Disjoint(k) && (forall t: Tid :: LinkIs(k, t))
      && (forall i :: 0 <= i < NUM_QUEUES ==> ListIs(k, i))
    }

    /** The TCBs and the queues are those of the model. */
    ghost predicate Core(k: K.Kernel)
      requires Fixed() && Shape(k)
      reads tasks, queues
    {
      Lists(k) && forall t: Tid :: TaskIs(k, t)
    }

    /** The mailbox has a ring if it is active, and that holds its messages. */
    ghost predicate RingIs(m: Mailbox, b: nat)
      requires b < |rings|
      reads this`rings, rings, set r | r in rings && r != null :: r.mem
    {
      if rings[b] == null then m == Mailbox(false, 0, [])
      else rings[b].Valid() && m == Mailbox(true, rings[b].mem.Length, rings[b].msgs)
    }

    ghost predicate RingsApart()
      reads this`rings
    {
      forall a, b :: 0 <= a < b < |rings| && rings[a] != null && rings[b] != null ==>
        rings[a] != rings[b] && rings[a].mem != rings[b].mem
    }

    ghost predicate Mail(box: seq<Mailbox>)
      reads this`rings, rings, set r | r in rings && r != null :: r.mem
    {
      |rings| == |box| && RingsApart() && forall b :: 0 <= b < |rings| ==> RingIs(box[b], b)
    }

    /** All of the state is that of the model, which is not at fault. */
    ghost predicate Valid()
      reads this, tasks, queues, rings, set r | r in rings && r != null :: r.mem
    {
      && Fixed() && Shape(k) && !k.fault && k.cur == cur && k.now == now
      && Core(k) && Mail(k.box)
    }

    /** Before any task but the null task exists. */
    constructor ()
      ensures Valid() && k == Blank() && fresh(tasks) && fresh(queues)
    {
      hide System.Valid, Queue.Valid, TaskOf, Flatten;
      var ts := NewTasks();
      var qs := NewQueues();
      var memory := new Byte[0x80];
      var ring := new Buffer(memory);
      tasks, queues, rings := ts, qs, seq(NUM_BOXES, b => if b == UART_BOX then ring else null);
      cur, now, k := TID_NULL, 0, Blank();
      new;
      StartIsValid(ring);
    }

    lemma StartIsValid(ring: Buffer)
      requires k == Blank() && cur == TID_NULL && now == 0 && |tasks| == MAX_TASKS && |queues| == NUM_QUEUES
      requires forall t: Tid :: tasks[t].tid == t && tasks[t].next == null && TaskOf(tasks[t]) == k.tcb[t]
      requires forall i :: 0 <= i < NUM_QUEUES ==> queues[i].slot == i && queues[i].nodes == [] && queues[i].Valid()
      requires rings == seq(NUM_BOXES, b => if b == UART_BOX then ring else null)
      requires ring.Valid() && ring.mem.Length == 0x80 && ring.msgs == []
      ensures Valid()
    {
      hide Queue.Valid, TaskOf, Flatten;
      assert forall t: Tid :: TaskIs(k, t) && LinkIs(k, t);
      assert forall i :: 0 <= i < NUM_QUEUES ==> ListIs(k, i);
      assert forall b :: 0 <= b < NUM_BOXES ==> RingIs(k.box[b], b);
    }

    // -------------------------------------------------------------- queues

    lemma TcbsIn(ts: seq<Tid>, t: Tid)
      requires Fixed()
      ensures tasks[t] in Tcbs(ts) <==> t in ts
    {
      if t in ts {
        var i :| 0 <= i < |ts| && ts[i] == t;
        assert Tcbs(ts)[i] == tasks[t];
      }
      if tasks[t] in Tcbs(ts) {
        var i :| 0 <= i < |ts| && Tcbs(ts)[i] == tasks[t];
        assert ts[i] == tasks[ts[i]].tid == t;
      }
    }

    /** But for queue `i`, the link of task `t` and the states of tasks, everything is as in the model. */
    ghost predicate Besides(k: K.Kernel, i: nat, t: Tid)
      requires Fixed() && Shape(k) && i < NUM_QUEUES
      reads queues, tasks
    {
      && (forall j :: 0 <= j < NUM_QUEUES && j != i ==> ListIs(k, j))
      && (forall u: Tid :: u != t && Off(k, u) ==> LinkIs(k, u))
      && (forall u: Tid :: k.tcb[u].stale ==> Off(k, u))
      && (forall u: Tid :: TaskOf(tasks[u]) == k.tcb[u].(stale := false, state := tasks[u].state))
    }

    /** That is so after a move on queue `i` with task `t`. */
    twostate lemma Around(new k: K.Kernel, new i: nat, new t: Tid)
      requires Fixed() && Shape(k) && old(Core(k)) && i < NUM_QUEUES
      requires forall j :: 0 <= j < NUM_QUEUES && j != i ==> t !in k.q[j] && unchanged(queues[j])
      requires forall u: Tid :: u !in k.q[i] && u != t ==>
        tasks[u].next == old(tasks[u].next) && tasks[u].prev == old(tasks[u].prev)
      requires forall u: Tid :: var c := tasks[u];
        && c.prio == old(c.prio) && c.priv == old(c.priv) && c.realTime == old(c.realTime) && c.period == old(c.period)
        && c.deadline == old(c.deadline) && c.msg == old(c.msg) && c.dest == old(c.dest) && c.awaiting == old(c.awaiting)
      ensures Besides(k, i, t)
    {
      OtherLists(k, i, t);
      hide Queue.Valid;
      forall u: Tid
        ensures u != t && Off(k, u) ==> LinkIs(k, u)
        ensures k.tcb[u].stale ==> Off(k, u)
        ensures TaskOf(tasks[u]) == k.tcb[u].(stale := false, state := tasks[u].state)
      {
        assert old(LinkIs(k, u) && TaskIs(k, u));
      }
    }

    twostate lemma OtherLists(new k: K.Kernel, new i: nat, new t: Tid)
      requires Fixed() && Shape(k) && old(Core(k)) && i < NUM_QUEUES
      requires forall j :: 0 <= j < NUM_QUEUES && j != i ==> t !in k.q[j] && unchanged(queues[j])
      requires forall u: Tid :: u !in k.q[i] && u != t ==>
        tasks[u].next == old(tasks[u].next) && tasks[u].prev == old(tasks[u].prev)
      ensures forall j :: 0 <= j < NUM_QUEUES && j != i ==> ListIs(k, j)
    {
      forall j | 0 <= j < NUM_QUEUES && j != i
        ensures ListIs(k, j)
      {
        hide Queue.Valid, Disjoint;
        assert old(ListIs(k, j));
        OtherList(k, i, t, j);
      }
    }

    twostate lemma OtherList(new k: K.Kernel, new i: nat, new t: Tid, new j: nat)
      requires Fixed() && Shape(k) && Disjoint(k) && i < NUM_QUEUES && j < NUM_QUEUES && i != j
      requires old(ListIs(k, j)) && t !in k.q[j] && unchanged(queues[j])
      requires forall u: Tid :: u !in k.q[i] && u != t ==>
        tasks[u].next == old(tasks[u].next) && tasks[u].prev == old(tasks[u].prev)
      ensures ListIs(k, j)
    {
      hide Queue.Valid;
      forall u: Tid | u in k.q[j]
        ensures u !in k.q[i] && u != t
      {
        hide Fixed;
      }
      NodesAre(k.q[j]);
    }

    /** The nodes of a queue are TCBs of its tasks. */
    lemma NodesAre(ts: seq<Tid>)
      requires Fixed()
      ensures forall n :: n in Tcbs(ts) ==> n.tid in ts && n == tasks[n.tid]
    {
      forall n | n in Tcbs(ts)
        ensures n.tid in ts && n == tasks[n.tid]
      {
        var a :| 0 <= a < |ts| && Tcbs(ts)[a] == n;
      }
    }

    /** So the model's move is the one that was made, if queue `i`, the link of `t` and the states are
        those that it makes. */
    lemma MoveMade(was: K.Kernel, k: K.Kernel, i: nat, t: Tid)
      requires Shape(was) && Shape(k) && Fixed() && Disjoint(was) && i < NUM_QUEUES && OneQueue(was, k, i, t)
      requires Besides(was, i, t)
      requires forall j :: 0 <= j < NUM_QUEUES && j != i ==> t !in was.q[j]
      requires queues[i].nodes == Tcbs(k.q[i]) && queues[i].Valid() && LinkIs(k, t)
      requires forall u: Tid :: tasks[u].state == k.tcb[u].state
      ensures Core(k)
    {
      hide Queue.Valid, TaskOf;
      forall u: Tid
        ensures LinkIs(k, u) && TaskIs(k, u)
      {
        assert u != t ==> (Off(k, u) <==> Off(was, u));
      }
      forall j | 0 <= j < NUM_QUEUES && j != i
        ensures ListIs(k, j)
      {
        assert ListIs(was, j);
      }
    }

    /** `push_head`.  A stale link that gets into an empty queue leaves it unsound. */
    method PushHead(t: Tid, i: int)
      requires Valid() && 0 <= i < NUM_QUEUES && Off(k, t)
      modifies this`k, queues[i], tasks`next, tasks`prev, tasks`state
      ensures k == K.PushHead(old(k), t, i)
      ensures if k.fault then !queues[i].Valid() else Valid()
    {
      hide K.PushHead, Disjoint, System.Core, System.Mail, System.ListIs, System.Besides, Queue.Valid, OneQueue, Flatten;
      NoneTwice();
      ghost var was := k;
      PushHeadForm(k, t, i);
      LinkHead(t, i);
      k := K.PushHead(k, t, i);
      if !k.fault {
        MoveMade(was, k, i, t);
      }
    }

    method LinkHead(t: Tid, i: nat)
      requires Fixed() && Shape(k) && Core(k) && !k.fault && i < NUM_QUEUES && Off(k, t)
      modifies queues[i], tasks`next, tasks`prev, tasks`state
      ensures Besides(k, i, t) && queues[i].nodes == Tcbs([t] + k.q[i])
      ensures queues[i].Valid() <==> k.q[i] != [] || !k.tcb[t].stale
      ensures forall u: Tid :: tasks[u].state == if u == t then HeadState(k.tcb[t]) else k.tcb[u].state
    {
      hide System.Core, System.Besides, System.TaskIs, System.ListIs, TaskOf, Queue.Valid;
      QueueFacts(i);
      LinkFacts(t);
      CallHead(t, i, k.q[i]);
      Around(k, i, t);
    }

    method CallHead(t: Tid, i: nat, ghost ts: seq<Tid>)
      requires Fixed() && i < NUM_QUEUES && queues[i].Valid() && queues[i].nodes == Tcbs(ts) && t !in ts
      modifies queues[i], tasks`next, tasks`prev, tasks`state
      ensures queues[i].nodes == Tcbs([t] + ts)
      ensures queues[i].Valid() <==> ts != [] || old(tasks[t].next) == null
      ensures tasks[t].state == if old(tasks[t].state) == SUSPENDED then SUSPENDED else READY
      ensures forall u: Tid :: u != t ==> tasks[u].state == old(tasks[u].state)
      ensures forall u: Tid :: u !in ts && u != t ==>
        tasks[u].next == old(tasks[u].next) && tasks[u].prev == old(tasks[u].prev)
    {
      hide Queue.Valid;
      TcbsIn(ts, t);
      LinksOutside(ts);
      var code := queues[i].PushHead(tasks[t]);
      assert [tasks[t]] + Tcbs(ts) == Tcbs([t] + ts);
    }

    /** `push_tail`, of a task that it does not refuse. */
    method PushTail(t: Tid, i: int)
      requires Valid() && 0 <= i < NUM_QUEUES && Off(k, t) && !Refused(k, t, i)
      modifies this`k, queues[i], tasks`next, tasks`prev, tasks`state
      ensures Valid() && k == K.PushTail(old(k), t, i)
    {
      hide K.PushTail, Disjoint, System.Core, System.Mail, System.ListIs, System.Besides, Queue.Valid, OneQueue, Flatten, TailPlace;
      NoneTwice();
      ghost var was := k;
      PushTailForm(k, t, i);
      LinkTail(t, i);
      k := K.PushTail(k, t, i);
      MoveMade(was, k, i, t);
    }

    method LinkTail(t: Tid, i: nat)
      requires Fixed() && Shape(k) && Core(k) && i < NUM_QUEUES && Off(k, t) && !Refused(k, t, i)
      modifies queues[i], tasks`next, tasks`prev, tasks`state
      ensures Besides(k, i, t) && queues[i].Valid()
      ensures var s := InsertAt(k.q[i], TailPlace(k, t, i), t);
        queues[i].nodes == Tcbs(s) && forall u: Tid :: tasks[u].state == TailState(k, t, s, u)
    {
      hide System.Core, System.Besides, System.TaskIs, System.ListIs, TaskOf, Queue.Valid, TailPlace, Enqueued;
      QueueFacts(i);
      LinkFacts(t);
      EnqueuedIs(t, i);
      ghost var s := InsertAt(k.q[i], TailPlace(k, t, i), t);
      TailByTask(t, i, k.q[i], s);
      Around(k, i, t);
    }

    method TailByTask(t: Tid, i: nat, ghost ts: seq<Tid>, ghost s: seq<Tid>)
      requires Fixed() && i < NUM_QUEUES && queues[i].Valid() && queues[i].nodes == Tcbs(ts) && t !in ts
      requires s != [] && Enqueued(Tcbs(ts), tasks[t]) == Tcbs(s)
      requires !(ts != [] && tasks[t].realTime && tasks[t].prio != PRIO_RT)
      modifies queues[i], tasks`next, tasks`prev, tasks`state
      ensures queues[i].Valid() && queues[i].nodes == Tcbs(s)
      ensures var c := old(tasks[t].state);
        forall u: Tid :: tasks[u].state ==
                         if u == s[|s| - 1] && c != BLK_SEND && c != SUSPENDED then READY else old(tasks[u].state)
      ensures forall u: Tid :: u !in ts && u != t ==>
        tasks[u].next == old(tasks[u].next) && tasks[u].prev == old(tasks[u].prev)
    {
      hide Queue.Valid, Enqueued;
      CallTail(t, i, ts, s);
      TailStates(i, t, s);
    }

    method CallTail(t: Tid, i: nat, ghost ts: seq<Tid>, ghost s: seq<Tid>)
      requires Fixed() && i < NUM_QUEUES && queues[i].Valid() && queues[i].nodes == Tcbs(ts) && t !in ts
      requires s != [] && Enqueued(Tcbs(ts), tasks[t]) == Tcbs(s)
      requires !(ts != [] && tasks[t].realTime && tasks[t].prio != PRIO_RT)
      modifies queues[i], tasks`next, tasks`prev, tasks`state
      ensures queues[i].Valid() && queues[i].nodes == Tcbs(s)
      ensures var l, c := Tcbs(s)[|s| - 1], old(tasks[t].state);
        forall n :: n in queues[i].nodes ==>
          n.state == if n == l && c != BLK_SEND && c != SUSPENDED then READY else old(n.state)
      ensures forall u: Tid :: tasks[u] !in queues[i].nodes ==> tasks[u].state == old(tasks[u].state)
      ensures forall u: Tid :: u !in ts && u != t ==>
        tasks[u].next == old(tasks[u].next) && tasks[u].prev == old(tasks[u].prev)
    {
      hide Queue.Valid, Enqueued;
      TcbsIn(ts, t);
      LinksOutside(ts);
      var code := queues[i].PushTail(tasks[t]);
    }

    /** The same of tasks, not of nodes. */
    twostate lemma TailStates(new i: nat, new t: Tid, new s: seq<Tid>)
      requires Fixed() && i < NUM_QUEUES && s != [] && queues[i].nodes == Tcbs(s)
      requires var l, c := Tcbs(s)[|s| - 1], old(tasks[t].state);
        forall n :: n in queues[i].nodes ==>
          n.state == if n == l && c != BLK_SEND && c != SUSPENDED then READY else old(n.state)
      requires forall u: Tid :: tasks[u] !in queues[i].nodes ==> tasks[u].state == old(tasks[u].state)
      ensures var c := old(tasks[t].state);
        forall u: Tid :: tasks[u].state ==
                         if u == s[|s| - 1] && c != BLK_SEND && c != SUSPENDED then READY else old(tasks[u].state)
    {
      forall u: Tid
        ensures tasks[u] in Tcbs(s) <==> u in s
        ensures tasks[u] == Tcbs(s)[|s| - 1] <==> u == s[|s| - 1]
      {
        TcbsIn(s, u);
      }
    }

    lemma EnqueuedIs(t: Tid, i: nat)
      requires Fixed() && Shape(k) && Core(k) && i < NUM_QUEUES
      ensures Enqueued(Tcbs(k.q[i]), tasks[t]) == Tcbs(InsertAt(k.q[i], TailPlace(k, t, i), t))
    {
      assert TaskIs(k, t);
      DeadlinesAre(k.q[i]);
      hide System.Core, DeadlinesOf, Position, Ds;
    }

    lemma {:induction false} DeadlinesAre(ts: seq<Tid>)
      requires Fixed() && Shape(k) && Core(k)
      ensures DeadlinesOf(Tcbs(ts)) == Ds(k, ts)
    {
      if ts == [] {
      } else {
        assert TaskIs(k, ts[0]);
        hide System.Core;
        assert Tcbs(ts)[1..] == Tcbs(ts[1..]) && Ds(k, ts)[1..] == Ds(k, ts[1..]);
        DeadlinesAre(ts[1..]);
      }
    }

    /** `pop_head`, of a queue that is not empty. */
    method PopHead(i: nat) returns (t: Tid)
      requires Valid() && i < NUM_QUEUES && k.q[i] != []
      modifies this`k, queues[i], tasks`next, tasks`prev, tasks`state
      ensures Valid() && k == K.PopHead(old(k), i) && t == old(k.q[i][0]) && Off(k, t)
    {
      hide K.PopHead, Disjoint, System.Core, System.Mail, System.ListIs, System.Besides, Queue.Valid, OneQueue, Flatten;
      NoneTwice();
      QueueOnce(i);
      ghost var was := k;
      PopHeadForm(k, i);
      t := UnlinkHead(i);
      k := K.PopHead(k, i);
      StaysOff(was, k, i, t);
      MoveMade(was, k, i, t);
    }

    method UnlinkHead(i: nat) returns (t: Tid)
      requires Fixed() && Shape(k) && Core(k) && i < NUM_QUEUES && k.q[i] != []
      modifies queues[i], tasks`next, tasks`prev, tasks`state
      ensures t == k.q[i][0] && Besides(k, i, t) && queues[i].Valid() && tasks[t].next == null
      ensures queues[i].nodes == Tcbs(k.q[i][1..]) && !k.tcb[t].stale
      ensures forall u: Tid :: tasks[u].state == if u == t then PoppedState(k.tcb[t]) else k.tcb[u].state
      ensures forall j :: 0 <= j < NUM_QUEUES && j != i ==> t !in k.q[j]
    {
      hide System.Core, System.Besides, System.TaskIs, System.ListIs, TaskOf, Queue.Valid;
      QueueFacts(i);
      OnlyHere(i, k.q[i][0]);
      t := CallPop(i, k.q[i]);
      Around(k, i, t);
    }

    method CallPop(i: nat, ghost ts: seq<Tid>) returns (t: Tid)
      requires Fixed() && i < NUM_QUEUES && queues[i].Valid() && queues[i].nodes == Tcbs(ts) && ts != []
      modifies queues[i], tasks`next, tasks`prev, tasks`state
      ensures t == ts[0] && queues[i].Valid() && queues[i].nodes == Tcbs(ts[1..]) && tasks[t].next == null
      ensures tasks[t].state == if old(tasks[ts[0]].state) == BLK_SEND then READY else RUNNING
      ensures forall u: Tid :: u != t ==> tasks[u].state == old(tasks[u].state)
      ensures forall u: Tid :: u !in ts ==> tasks[u].next == old(tasks[u].next) && tasks[u].prev == old(tasks[u].prev)
    {
      hide Queue.Valid;
      assert Tcbs(ts)[0] == tasks[ts[0]] && Tcbs(ts)[1..] == Tcbs(ts[1..]);
      LinksOutside(ts);
      var c := queues[i].PopHead();
      t := c.tid;
    }

    /** No task is twice on a queue. */
    lemma QueueOnce(i: nat)
      requires Fixed() && Shape(k) && Core(k) && i < NUM_QUEUES
      ensures NoDup(k.q[i])
    {
      assert ListIs(k, i);
      forall a, b | 0 <= a < b < |k.q[i]|
        ensures k.q[i][a] != k.q[i][b]
      {
        assert Tcbs(k.q[i])[a] != Tcbs(k.q[i])[b];
      }
    }

    /** `pop_task`, of a task that is on the queue. */
    method PopTask(t: Tid, i: int)
      requires Valid() && 0 <= i < NUM_QUEUES && t in k.q[i]
      modifies this`k, queues[i], tasks`next, tasks`prev, tasks`state
      ensures Valid() && k == K.PopTask(AsWritten, old(k), t, i) && Off(k, t)
    {
      hide K.PopTask, Disjoint, System.Core, System.Mail, System.ListIs, System.Besides, Queue.Valid, OneQueue, Flatten, InMiddle, Remove, Off;
      NoneTwice();
      QueueOnce(i);
      ghost var was := k;
      PopTaskForm(k, t, i);
      UnlinkTask(t, i);
      k := K.PopTask(AsWritten, k, t, i);
      StaysOff(was, k, i, t);
      MoveMade(was, k, i, t);
    }

    method UnlinkTask(t: Tid, i: nat)
      requires Fixed() && Shape(k) && Core(k) && i < NUM_QUEUES && t in k.q[i]
      modifies queues[i], tasks`next, tasks`prev, tasks`state
      ensures Besides(k, i, t) && queues[i].Valid() && queues[i].nodes == Tcbs(Remove(k.q[i], t))
      ensures (tasks[t].next != null <==> InMiddle(k.q[i], t)) && !k.tcb[t].stale
      ensures forall u: Tid :: tasks[u].state == if u == t == k.q[i][0] then READY else k.tcb[u].state
      ensures forall j :: 0 <= j < NUM_QUEUES && j != i ==> t !in k.q[j]
    {
      hide System.Core, System.Besides, System.TaskIs, System.ListIs, TaskOf, Queue.Valid, InMiddle, Remove;
      QueueFacts(i);
      OnlyHere(i, t);
      QueueOnce(i);
      CallUnlink(t, i, k.q[i]);
      Around(k, i, t);
    }

    method CallUnlink(t: Tid, i: nat, ghost ts: seq<Tid>)
      requires Fixed() && i < NUM_QUEUES && queues[i].Valid() && queues[i].nodes == Tcbs(ts) && NoDup(ts) && t in ts
      modifies queues[i], tasks`next, tasks`prev, tasks`state
      ensures queues[i].Valid() && queues[i].nodes == Tcbs(Remove(ts, t))
      ensures tasks[t].next != null <==> InMiddle(ts, t)
      ensures tasks[t].state == if t == ts[0] then READY else old(tasks[t].state)
      ensures forall u: Tid :: u != t ==> tasks[u].state == old(tasks[u].state)
      ensures forall u: Tid :: u !in ts ==> tasks[u].next == old(tasks[u].next) && tasks[u].prev == old(tasks[u].prev)
    {
      hide Queue.Valid, Remove, IndexOf, InMiddle;
      LinksOutside(ts);
      RemoveTcbs(ts, t);
      MiddleTcbs(ts, t);
      LinkAfter(queues[i], IndexOf(ts, t));
      var code := queues[i].PopTask(tasks[t]);
    }

    /** Taking a task out of a queue, and where it is there, in terms of ids and of TCBs. */
    lemma RemoveTcbs(ts: seq<Tid>, t: Tid)
      requires Fixed() && NoDup(ts) && t in ts
      ensures tasks[t] in Tcbs(ts) && Tcbs(Remove(ts, t)) == Remove(Tcbs(ts), tasks[t])
      ensures IndexOf(Tcbs(ts), tasks[t]) == IndexOf(ts, t)
    {
      TcbsIn(ts, t);
      IndexTcbs(ts, t);
      hide IndexOf;
      var i := IndexOf(ts, t);
      assert Tcbs(RemoveAt(ts, i)) == RemoveAt(Tcbs(ts), i);
    }

    lemma MiddleTcbs(ts: seq<Tid>, t: Tid)
      requires Fixed() && NoDup(ts) && t in ts
      ensures InMiddle(ts, t) <==> 0 < IndexOf(ts, t) < |ts| - 1
      ensures t == ts[0] <==> tasks[t] == Tcbs(ts)[0]
      ensures Tcbs(ts)[IndexOf(ts, t)] == tasks[t]
    {
      assert tasks[ts[0]].tid == ts[0];
      hide IndexOf;
    }

    lemma {:induction false} IndexTcbs(ts: seq<Tid>, t: Tid)
      requires Fixed() && t in ts && tasks[t] in Tcbs(ts)
      ensures IndexOf(Tcbs(ts), tasks[t]) == IndexOf(ts, t)
    {
      if ts[0] == t {
      } else {
        assert Tcbs(ts)[1..] == Tcbs(ts[1..]);
        assert tasks[ts[0]].tid == ts[0] && tasks[t].tid == t;
        TcbsIn(ts[1..], t);
        IndexTcbs(ts[1..], t);
      }
    }

    // -------------------------------------------------------------- rings

    /** A caller's buffer is no ring's memory. */
    ghost predicate Foreign(buf: array<Byte>)
      reads this`rings
    {
      forall r :: r in rings && r != null ==> r.mem != buf
    }

    /** `push_buffer` on the ring of mailbox `b`. */
    method PushRing(b: nat, buf: array<Byte>)
      requires Valid() && b < NUM_BOXES && k.box[b].active && Foreign(buf)
      requires Readable(buf[..]) && LengthField(buf[..]) >= HDR
      modifies this`k, rings[b], (if rings[b] == null then {} else {rings[b].mem})
      ensures Valid() && k == S.PushRing(old(k), b, MessageOf(buf[..])) && buf[..] == old(buf[..])
    {
      hide System.Core, Buffer.Valid;
      ghost var was, m := k, MessageOf(buf[..]);
      RingFits(b);
      var ok := rings[b].PushBuffer(buf);
      k := S.PushRing(k, b, m);
      SameCore(was, k);
      OneRing(was.box, b, k.box[b]);
      assert k.box == was.box[b := k.box[b]];
    }

    /** `pop_buffer` on the ring of mailbox `b`. */
    method PopRing(b: nat, buf: array<Byte>, length: nat) returns (code: int)
      requires Valid() && b < NUM_BOXES && k.box[b].active && Foreign(buf) && length <= buf.Length
      modifies this`k, rings[b], buf
      ensures Valid()
      ensures var ring := old(k).box[b].ring;
        && code == (if ring == [] then 0 else if length < |ring[0]| then -1 else 1)
        && k == (if code == 1 then S.PopRing(old(k), b) else old(k))
        && (code == 1 ==> buf[..|ring[0]|] == ring[0])
    {
      hide System.Core, Buffer.Valid, Flatten;
      ghost var was := k;
      RingFits(b);
      code := rings[b].PopBuffer(buf, length);
      if code == 1 {
        k := S.PopRing(k, b);
        SameCore(was, k);
      }
      OneRing(was.box, b, k.box[b]);
      assert k.box == was.box[b := k.box[b]];
    }

    /** A mailbox gets its ring. */
    method NewRing(b: nat, size: nat)
      requires Valid() && b < NUM_BOXES && !k.box[b].active && size >= HDR
      modifies this`k, this`rings
      ensures Valid() && k == old(k).(box := old(k).box[b := Mailbox(true, size, [])])
    {
      hide System.Core;
      ghost var was := k;
      NewMailbox(was, b, size);
      var memory := new Byte[size];
      var ring := new Buffer(memory);
      rings := rings[b := ring];
      k := k.(box := k.box[b := Mailbox(true, size, [])]);
      SameCore(was, k);
      AddedRing(was.box, b, ring);
    }

    twostate lemma AddedRing(new box: seq<Mailbox>, new b: nat, new ring: Buffer)
      requires old(Mail(box)) && b < |box| && rings == old(rings)[b := ring] && fresh(ring) && fresh(ring.mem)
      requires ring.Valid() && ring.msgs == []
      requires forall r :: r in old(rings) && r != null ==> unchanged(r) && unchanged(r.mem)
      ensures Mail(box[b := Mailbox(true, ring.mem.Length, [])])
    {
      forall a | 0 <= a < |box| && a != b
        ensures RingIs(box[a], a)
      {
        assert old(RingIs(box[a], a));
      }
    }

    /** The empty waiting list of a new mailbox is made empty. */
    method ResetQueue(i: nat)
      requires Valid() && i < NUM_QUEUES && k.q[i] == []
      modifies queues[i]
      ensures Valid() && k == old(k)
    {
      hide System.Mail;
      assert ListIs(k, i) && queues[i].nodes == [];
      queues[i].HEAD, queues[i].TAIL, queues[i].currentSize := null, null, 0;
      forall j | 0 <= j < NUM_QUEUES
        ensures ListIs(k, j)
      {
        assert old(ListIs(k, j));
      }
    }

    lemma ReadRing(b: nat)
      requires Valid() && b < NUM_BOXES
      ensures Shape(k) && |rings| == NUM_BOXES && cur == k.cur
      ensures rings[b] != null <==> k.box[b].active
      ensures rings[b] != null ==> k.box[b].cap == rings[b].mem.Length && k.box[b].ring == rings[b].msgs
      ensures rings[b] == null ==> k.box[b].ring == []
    {
      assert RingIs(k.box[b], b);
    }

    lemma RingFits(b: nat)
      requires Valid() && b < NUM_BOXES && k.box[b].active
      ensures |rings| == NUM_BOXES && Shape(k) && rings[b] != null && rings[b].Valid()
      ensures k.box[b] == Mailbox(true, rings[b].mem.Length, rings[b].msgs)
      ensures rings[b].currentSize == Used(k.box[b]) <= k.box[b].cap
    {
      assert RingIs(k.box[b], b);
    }

    /** An operation on ring `b` leaves the other rings alone. */
    twostate lemma OneRing(new box: seq<Mailbox>, new b: nat, new m: Mailbox)
      requires old(Mail(box)) && rings == old(rings) && b < |rings| && rings[b] != null && RingIs(m, b)
      requires forall a :: 0 <= a < |rings| && a != b && rings[a] != null ==>
        unchanged(rings[a]) && unchanged(rings[a].mem)
      ensures Mail(box[b := m])
    {
      forall a | 0 <= a < |rings| && a != b
        ensures RingIs(box[a], a)
      {
        assert old(RingIs(box[a], a));
      }
    }

    // -------------------------------------------------------------- fields

    /** The fields of a TCB, apart from its links. */
    method Write(t: Tid, c: Task)
      requires Valid()
      modifies this`k, tasks`prio, tasks`priv, tasks`state, tasks`realTime, tasks`period, tasks`deadline
      modifies tasks`msg, tasks`dest, tasks`awaiting
      ensures Valid() && k == old(k).(tcb := old(k).tcb[t := c.(stale := old(k).tcb[t].stale)])
    {
      hide System.Mail, System.Lists, TaskOf;
      ghost var was := k;
      assert forall u: Tid :: TaskIs(k, u);
      WriteFields(t, c);
      k := k.(tcb := k.tcb[t := c.(stale := k.tcb[t].stale)]);
      forall u: Tid
        ensures TaskIs(k, u)
      {
        assert old(TaskIs(k, u));
      }
      ListsSame(was, k);
    }

    method WriteFields(t: Tid, c: Task)
      requires Fixed()
      modifies tasks`prio, tasks`priv, tasks`state, tasks`realTime, tasks`period, tasks`deadline
      modifies tasks`msg, tasks`dest, tasks`awaiting
      ensures TaskOf(tasks[t]) == c.(stale := false)
      ensures forall u: Tid :: u != t ==> TaskOf(tasks[u]) == old(TaskOf(tasks[u]))
    {
      var b := tasks[t];
      b.prio, b.priv, b.state, b.realTime, b.period := c.prio, c.priv, c.state, c.rt, c.period;
      b.deadline, b.msg, b.dest, b.awaiting := c.deadline, c.msg, c.dest, c.awaiting;
      assert forall u: Tid :: u != t ==> tasks[u] != b;
    }

    /** The queues do not depend on the other fields. */
    lemma ListsSame(was: K.Kernel, k: K.Kernel)
      requires Fixed() && Shape(was) && Shape(k) && Lists(was) && k.q == was.q
      requires forall t: Tid :: k.tcb[t].stale == was.tcb[t].stale
      ensures Lists(k)
    {
      hide Queue.Valid;
      forall t: Tid
        ensures LinkIs(k, t)
      {
        assert LinkIs(was, t);
      }
      forall i | 0 <= i < NUM_QUEUES
        ensures ListIs(k, i)
      {
        assert ListIs(was, i);
      }
    }

    method SetState(t: Tid, s: State)
      requires Valid()
      modifies this`k, tasks`prio, tasks`priv, tasks`state, tasks`realTime, tasks`period, tasks`deadline
      modifies tasks`msg, tasks`dest, tasks`awaiting
      ensures Valid() && k == K.SetState(old(k), t, s)
    {
      hide System.Valid;
      ReadTask(t);
      Write(t, TaskOf(tasks[t]).(state := s));
    }

    method Run(t: Tid)
      requires Valid()
      modifies this`k, this`cur
      ensures Valid() && k == old(k).(cur := t)
    {
      hide System.Mail, System.Core;
      SameCore(k, k.(cur := t));
      cur := t;
      k := k.(cur := t);
    }

    method SetNow(count: nat)
      requires Valid()
      modifies this`k, this`now
      ensures Valid() && k == old(k).(now := count)
    {
      hide System.Mail, System.Core;
      SameCore(k, k.(now := count));
      now := count;
      k := k.(now := count);
    }

    lemma SameCore(was: K.Kernel, k: K.Kernel)
      requires Fixed() && Shape(was) && Shape(k) && Core(was) && k.q == was.q && k.tcb == was.tcb
      ensures Core(k)
    {
      ListsSame(was, k);
      hide System.Lists;
      forall t: Tid
        ensures TaskIs(k, t)
      {
        assert TaskIs(was, t);
      }
    }

    lemma ReadTask(t: Tid)
      requires Valid()
      ensures Shape(k) && |tasks| == MAX_TASKS && |queues| == NUM_QUEUES && cur == k.cur && now == k.now
      ensures tasks[t].tid == t && TaskOf(tasks[t]) == k.tcb[t].(stale := false)
    {
      assert TaskIs(k, t);
    }

    lemma ReadQueue(i: nat)
      requires Valid() && i < NUM_QUEUES
      ensures Shape(k) && |tasks| == MAX_TASKS && |queues| == NUM_QUEUES && cur == k.cur && now == k.now
      ensures queues[i].HEAD == if k.q[i] == [] then null else tasks[k.q[i][0]]
      ensures queues[i].currentSize == |k.q[i]|
    {
      assert ListIs(k, i);
    }

    /** Where the link of a task on a queue leads. */
    lemma NextOf(i: nat, a: nat)
      requires Valid() && i < NUM_QUEUES && a < |k.q[i]|
      ensures tasks[k.q[i][a]].next == if a + 1 < |k.q[i]| then tasks[k.q[i][a + 1]] else null
    {
      assert ListIs(k, i);
      LinkAfter(queues[i], a);
    }

    /** What the calls on queue `i` need to know. */
    lemma QueueFacts(i: nat)
      requires Fixed() && Shape(k) && Core(k) && i < NUM_QUEUES
      ensures queues[i].nodes == Tcbs(k.q[i]) && queues[i].Valid()
      ensures forall u: Tid :: tasks[u].state == k.tcb[u].state
    {
      assert ListIs(k, i);
      forall u: Tid
        ensures tasks[u].state == k.tcb[u].state
      {
        assert TaskIs(k, u);
      }
    }

    lemma LinkFacts(t: Tid)
      requires Fixed() && Shape(k) && Core(k)
      ensures tasks[t].realTime == k.tcb[t].rt && tasks[t].prio == k.tcb[t].prio
      ensures k.tcb[t].stale <==> Off(k, t) && tasks[t].next != null
    {
      assert TaskIs(k, t) && LinkIs(k, t);
    }

    lemma NoneTwice()
      requires Fixed() && Shape(k) && Core(k)
      ensures Disjoint(k)
    {
    }

    /** A task on queue `i` is on no other. */
    lemma OnlyHere(i: nat, t: Tid)
      requires Fixed() && Shape(k) && Core(k) && i < NUM_QUEUES && t in k.q[i]
      ensures forall j :: 0 <= j < NUM_QUEUES && j != i ==> t !in k.q[j]
      ensures !k.tcb[t].stale
    {
      assert Disjoint(k) && LinkIs(k, t);
    }

    /** Tasks that are not on the queue are none of its nodes. */
    lemma LinksOutside(ts: seq<Tid>)
      requires Fixed()
      ensures forall u: Tid :: u !in ts ==> tasks[u] !in Tcbs(ts)
    {
      forall u: Tid | u !in ts
        ensures tasks[u] !in Tcbs(ts)
      {
        TcbsIn(ts, u);
      }
    }
  }

  // ---------------------------------------------------------------- the moves of the model, spelled out

  /** Only queue `i` and the link of `t` may differ, and the states of tasks. */
  ghost predicate OneQueue(was: K.Kernel, k: K.Kernel, i: nat, t: Tid)
    requires Shape(was) && Shape(k) && i < NUM_QUEUES
  {
    && (forall j :: 0 <= j < NUM_QUEUES && j != i ==> k.q[j] == was.q[j])
    && (forall u: Tid :: u != t ==> (u in k.q[i] <==> u in was.q[i]) && k.tcb[u].stale == was.tcb[u].stale)
    && (forall u: Tid :: k.tcb[u] == was.tcb[u].(state := k.tcb[u].state, stale := k.tcb[u].stale))
  }

  /** `push_tail` does not queue a real-time task with another priority than the real-time one. */
  predicate Refused(k: K.Kernel, t: Tid, i: nat)
    requires Shape(k) && i < NUM_QUEUES
  {
    k.q[i] != [] && k.tcb[t].rt && k.tcb[t].prio != PRIO_RT
  }

  /** The state of a task after `push_tail` has made the queue `s`. */
  function TailState(k: K.Kernel, t: Tid, s: seq<Tid>, u: Tid): State
    requires Shape(k) && s != []
  {
    if u == s[|s| - 1] && k.tcb[t].state != BLK_SEND && k.tcb[t].state != SUSPENDED then READY else k.tcb[u].state
  }

  lemma PushTailForm(k: K.Kernel, t: Tid, i: nat)
    requires Shape(k) && i < NUM_QUEUES && !Refused(k, t, i)
    ensures var r := K.PushTail(k, t, i);
      && r.fault == k.fault && r.cur == k.cur && r.now == k.now && r.box == k.box
      && r.q[i] == InsertAt(k.q[i], TailPlace(k, t, i), t) && t in r.q[i] && !r.tcb[t].stale && OneQueue(k, r, i, t)
      && forall u: Tid :: r.tcb[u].state == TailState(k, t, r.q[i], u)
  {
    hide TailPlace, InsertAt, Flatten, K.PushTail;
    PushTailIs(k, t, i);
    InsertIn(k.q[i], TailPlace(k, t, i), t);
  }

  lemma PushTailIs(k: K.Kernel, t: Tid, i: nat)
    requires Shape(k) && i < NUM_QUEUES && !Refused(k, t, i)
    ensures var s := InsertAt(k.q[i], TailPlace(k, t, i), t);
      var l := s[|s| - 1];
      var linked := k.tcb[t := k.tcb[t].(stale := false)];
      K.PushTail(k, t, i) == k.(
        q := k.q[i := s],
        tcb := if k.tcb[t].state == BLK_SEND || k.tcb[t].state == SUSPENDED then linked
               else linked[l := linked[l].(state := READY)])
  {
  }

  lemma InsertIn(ts: seq<Tid>, p: nat, t: Tid)
    requires p <= |ts|
    ensures InsertAt(ts, p, t) != [] && forall u: Tid :: u in InsertAt(ts, p, t) <==> u in ts || u == t
  {
    assert InsertAt(ts, p, t)[p] == t;
  }

  function PoppedState(c: Task): State {
    if c.state == BLK_SEND then READY else RUNNING
  }

  lemma PopHeadForm(k: K.Kernel, i: nat)
    requires Shape(k) && i < NUM_QUEUES && k.q[i] != [] && NoDup(k.q[i])
    ensures var r, t := K.PopHead(k, i), k.q[i][0];
      && r.fault == k.fault && r.cur == k.cur && r.now == k.now && r.box == k.box
      && r.q[i] == k.q[i][1..] && t !in r.q[i] && r.tcb[t].stale == k.tcb[t].stale && OneQueue(k, r, i, t)
      && forall u: Tid :: r.tcb[u].state == if u == t then PoppedState(k.tcb[t]) else k.tcb[u].state
  {
    TailFacts(k.q[i]);
  }

  lemma PopTaskForm(k: K.Kernel, t: Tid, i: nat)
    requires Shape(k) && i < NUM_QUEUES && NoDup(k.q[i]) && t in k.q[i]
    ensures var r := K.PopTask(AsWritten, k, t, i);
      && r.fault == k.fault && r.cur == k.cur && r.now == k.now && r.box == k.box
      && r.q[i] == Remove(k.q[i], t) && t !in r.q[i] && OneQueue(k, r, i, t)
      && (r.tcb[t].stale <==> InMiddle(k.q[i], t) || k.tcb[t].stale)
      && forall u: Tid :: r.tcb[u].state == if u == t == k.q[i][0] then READY else k.tcb[u].state
  {
    RemoveFacts(k.q[i], t);
    hide Remove, Flatten;
  }

  lemma StaysOff(was: K.Kernel, k: K.Kernel, i: nat, t: Tid)
    requires Shape(was) && Shape(k) && i < NUM_QUEUES && OneQueue(was, k, i, t) && t !in k.q[i]
    requires forall j :: 0 <= j < NUM_QUEUES && j != i ==> t !in was.q[j]
    ensures Off(k, t)
  {
  }

  function HeadState(c: Task): State {
    if c.state == SUSPENDED then SUSPENDED else READY
  }

  lemma PushHeadForm(k: K.Kernel, t: Tid, i: nat)
    requires Shape(k) && i < NUM_QUEUES && !k.fault
    ensures var r := K.PushHead(k, t, i);
      && (r.fault <==> k.q[i] == [] && k.tcb[t].stale) && r.cur == k.cur && r.now == k.now && r.box == k.box
      && (!r.fault ==>
            && r.q[i] == [t] + k.q[i] && !r.tcb[t].stale && t in r.q[i] && OneQueue(k, r, i, t)
            && forall u: Tid :: r.tcb[u].state == if u == t then HeadState(k.tcb[t]) else k.tcb[u].state)
  {
    var r := K.PushHead(k, t, i);
    if !r.fault {
      assert r.q[i][0] == t;
    }
  }

  lemma NewMailbox(k: K.Kernel, b: nat, size: nat)
    requires Shape(k) && b < NUM_BOXES
    ensures Shape(k.(box := k.box[b := Mailbox(true, size, [])]))
  {
  }
}
