// The names and states of tasks, shared by the linked queue and the kernel.
module TaskStates {
  const MAX_TASKS: nat := 16
  type Tid = t: nat | t < MAX_TASKS witness 0

  datatype Option<T> = None | Some(value: T)

  datatype State = DORMANT | READY | RUNNING | BLK_SEND | BLK_RECV | SUSPENDED

  const PRIO_RT: nat := 0
}

// The intrusive doubly linked queue of task control blocks, as links and as a sequence.
module TaskQueue {
  import opened Seqs
  import opened Deadlines
  import opened Messages
  import opened TaskStates

  /** A task control block.  The message of a blocked sender is kept as a value, where the source has a
      pointer to it; the mailbox whose waiting list it is on (`dest`) and the buffer length of a
      `k_recv_msg` that has reached its switch point (`awaiting`) are on the task's kernel stack. */
  class Tcb {
    const tid: Tid
    var prio: nat
    var priv: bool
    var realTime: bool
    var deadline: nat
    var period: nat
    var msg: Message
    var dest: nat
    var awaiting: Option<nat>
    var state: State
    var prev: Tcb?
    var next: Tcb?

    constructor (tid: Tid, prio: nat, state: State, msg: Message)
      ensures this.tid == tid && this.prio == prio && this.state == state && this.msg == msg
      ensures !priv && !realTime && deadline == 0 && period == 0 && dest == 0 && awaiting == None
      ensures prev == null && next == null
    {
      this.tid, this.prio, this.state, this.msg := tid, prio, state, msg;
      priv, realTime, deadline, period, dest, awaiting := false, false, 0, 0, 0, None;
      prev, next := null, null;
    }
  }

  function DeadlinesOf(s: seq<Tcb>): (ds: seq<nat>)
    reads s`deadline
    ensures |ds| == |s| && forall i {:trigger ds[i]} :: 0 <= i < |s| ==> ds[i] == s[i].deadline
  {
    if s == [] then [] else [s[0].deadline] + DeadlinesOf(s[1..])
  }

  function InsertByDeadline(s: seq<Tcb>, t: Tcb): seq<Tcb>
    reads s`deadline, t`deadline
  {
    InsertAt(s, Position(DeadlinesOf(s), t.deadline), t)
  }

  /** What `push_tail` makes of a queue: sorted insertion for a real-time task, else appending. */
  function Enqueued(s: seq<Tcb>, t: Tcb): seq<Tcb>
    reads s`deadline, t`deadline, t`realTime
  {
    if t.realTime then InsertByDeadline(s, t) else s + [t]
  }

  /** The task, if there is one. */
  ghost function OneOf(t: Tcb?): set<Tcb> {
    if t == null then {} else {t}
  }

  lemma EnqueuedEmpty(t: Tcb)
    ensures Enqueued([], t) == [t]
  {
  }

  class Queue {
    ghost const slot: nat  // which of the kernel's queues it is
    var HEAD: Tcb?
    var TAIL: Tcb?
    var currentSize: nat
    ghost var nodes: seq<Tcb>

    /** The links spell out `nodes`.  Nothing is said of `HEAD.prev`: insertion before the head and
        pushing to an empty queue leave it as it was. */
    ghost predicate Valid()
      reads this, nodes`next, nodes`prev
    {
      && Linked()
      && currentSize == |nodes|
      && (nodes != [] ==> nodes[|nodes| - 1].next == null)
    }

    /** As `Valid`, apart from the count and the link that ends the queue. */
    ghost predicate Linked()
      reads this, nodes`next, nodes`prev
    {
      && NoDup(nodes)
      && (nodes == [] ==> HEAD == null && TAIL == null)
      && (nodes != [] ==> HEAD == nodes[0] && TAIL == nodes[|nodes| - 1])
      && (forall i {:trigger nodes[i].next} :: 0 <= i < |nodes| - 1 ==> nodes[i].next == nodes[i + 1])
      && (forall i {:trigger nodes[i].prev} :: 1 <= i < |nodes| ==> nodes[i].prev == nodes[i - 1])
    }

    constructor (ghost slot: nat)
      ensures Valid() && nodes == [] && this.slot == slot
    {
      this.slot := slot;
      HEAD, TAIL, currentSize := null, null, 0;
      nodes := [];
    }

    /** `pop_head`. */
    method PopHead() returns (t: Tcb?)
      requires Valid()
      modifies this, nodes`next, nodes`prev, nodes`state
      ensures Valid()
      ensures old(nodes) == [] ==> t == null && nodes == []
      ensures old(nodes) != [] ==>
        && t == old(nodes)[0] && nodes == old(nodes)[1..]
        && t.prev == null && t.next == null
        && t.state == if old(nodes[0].state) == BLK_SEND then READY else RUNNING
      ensures forall n :: n in nodes ==> n.state == old(n.state)
    {
      t := HEAD;
      if t == null {
        return;
      }
      HEAD := HEAD.next;
      if HEAD == null {
        TAIL := null;
      } else {
        HEAD.prev := null;
      }
      currentSize := currentSize - 1;
      t.next := null;
      t.prev := null;
      t.state := if t.state == BLK_SEND then READY else RUNNING;
      nodes := nodes[1..];
    }

    /** `pop_tail`.  On a queue of one it reads `HEAD.prev`; if that was stale, it leads to a task that
        is not on the queue, and the queue is not sound afterwards. */
    method PopTail() returns (t: Tcb?)
      requires Valid()
      modifies this, nodes`next, nodes`prev, (if TAIL != null && TAIL.prev != null then {TAIL.prev} else {})`next
      ensures old(nodes) == [] ==> t == null && nodes == []
      ensures old(nodes) != [] ==>
        && t == old(nodes)[|old(nodes)| - 1] && nodes == old(nodes)[..|old(nodes)| - 1]
        && t.prev == null && t.next == null
      ensures Valid() <==> |old(nodes)| != 1 || old(nodes[0].prev) == null
    {
      t := TAIL;
      if t == null || currentSize == 0 {
        return;
      }
      TAIL := TAIL.prev;
      if TAIL == null {
        HEAD := null;
      } else {
        TAIL.next := null;
      }
      currentSize := currentSize - 1;
      t.next := null;
      t.prev := null;
      nodes := nodes[..|nodes| - 1];
    }

    /** `push_head`.  Pushing to an empty queue keeps the task's `next`, so the queue is sound
        afterwards exactly when it was not empty or the task carried no stale link. */
    method PushHead(t: Tcb?) returns (code: int)
      requires Valid() && t !in nodes
      modifies this, nodes`prev, OneOf(t)`next, OneOf(t)`prev, OneOf(t)`state
      ensures t == null ==> code == -1 && Valid() && nodes == old(nodes)
      ensures t != null ==>
        && code == 1 && nodes == [t] + old(nodes)
        && (Valid() <==> old(nodes) != [] || old(t.next) == null)
        && t.state == if old(t.state) == SUSPENDED then SUSPENDED else READY
    {
      if t == null {
        return -1;
      }
      if HEAD == null {
        HEAD := t;
        TAIL := t;
      } else {
        t.next := HEAD;
        HEAD.prev := t;
        HEAD := t;
      }
      currentSize := currentSize + 1;
      if t.state != SUSPENDED {
        HEAD.state := READY;
      }
      HEAD.prev := null;
      nodes := [t] + nodes;
      assert old(nodes) == [] ==> nodes[0].next == old(t.next);
      assert old(nodes) != [] ==> NoDup(nodes) && Linked();
      return 1;
    }

    /** The walk of `push_tail` for a real-time task: where it stops, and at which index. */
    method FindPlace(d: nat) returns (temp: Tcb?, ghost p: nat)
      requires Valid() && nodes != []
      ensures p == Position(DeadlinesOf(nodes), d)
      ensures temp == if p < |nodes| then nodes[p] else null
    {
      temp := HEAD;
      p := 0;
      while temp.deadline < d
        invariant p < |nodes| && temp == nodes[p]
        invariant forall i :: 0 <= i < p ==> DeadlinesOf(nodes)[i] < d
        decreases |nodes| - p
      {
        temp := temp.next;
        p := p + 1;
        if temp == null {
          break;
        }
      }
      PositionUnique(DeadlinesOf(nodes), d, p);
    }

    /** The three places where `push_tail` links a task in: first, before another task, last. */
    method LinkFirst(t: Tcb)
      requires Valid() && t !in nodes && nodes != []
      modifies this`HEAD, this`nodes, nodes`prev, t`next
      ensures Linked() && nodes == InsertAt(old(nodes), 0, t) && nodes[|nodes| - 1].next == null
    {
      HEAD.prev := t;
      t.next := HEAD;
      HEAD := t;
      nodes := InsertAt(nodes, 0, t);
    }

    method LinkBefore(t: Tcb, temp: Tcb, ghost p: nat)
      requires Valid() && t !in nodes && 0 < p < |nodes| && temp == nodes[p]
      modifies this`nodes, nodes`next, nodes`prev, t`next, t`prev
      ensures Linked() && nodes == InsertAt(old(nodes), p, t) && nodes[|nodes| - 1].next == null
    {
      assert temp.prev == nodes[p - 1];
      t.prev := temp.prev;
      t.next := temp;
      temp.prev.next := t;
      temp.prev := t;
      ghost var was := nodes;
      nodes := InsertAt(was, p, t);
      InsertFacts(was, p, t);
      forall i | 0 <= i < |nodes| - 1
        ensures nodes[i].next == nodes[i + 1]
      {
        if i < p - 1 {
          assert nodes[i] == was[i];
        } else if i > p {
          assert nodes[i] == was[i - 1];
        }
      }
    }

    method LinkLast(t: Tcb)
      requires Valid() && t !in nodes && nodes != []
      modifies this`TAIL, this`nodes, nodes`next, t`prev
      ensures Linked() && nodes == old(nodes) + [t]
    {
      t.prev := TAIL;
      TAIL.next := t;
      TAIL := t;
      nodes := nodes + [t];
    }

    /** Link a real-time task in at the place of its deadline. */
    method LinkSorted(t: Tcb)
      requires Valid() && t !in nodes && nodes != []
      modifies this`HEAD, this`TAIL, this`nodes, nodes`next, nodes`prev, t`next, t`prev
      ensures Linked() && nodes == InsertByDeadline(old(nodes), t)
      ensures |nodes| == |old(nodes)| + 1 && (forall n :: n in nodes <==> n in old(nodes) || n == t)
    {
      hide DeadlinesOf, Position;
      var temp, p := FindPlace(t.deadline);
      assert p == 0 <==> temp == HEAD by {
        assert p < |nodes| ==> (nodes[p] == nodes[0] <==> p == 0);
      }
      if temp == HEAD {
        LinkFirst(t);
      } else if temp != null {
        LinkBefore(t, temp, p);
      } else {
        LinkLast(t);
        assert nodes == InsertAt(old(nodes), |old(nodes)|, t);
      }
      InsertFacts(old(nodes), p, t);
    }

    /** `push_tail`: an ordinary task goes last, a real-time task before the first whose deadline is
        not earlier.  A real-time task without the real-time priority is refused, but only by a
        queue that is not empty.  The state that is set is that of the last task of the queue. */
    method PushTail(t: Tcb?) returns (code: int)
      requires Valid() && t !in nodes
      modifies this, nodes`next, nodes`prev, nodes`state, OneOf(t)`next, OneOf(t)`prev, OneOf(t)`state
      ensures Valid()
      ensures code == if t == null || (old(nodes) != [] && t.realTime && t.prio != PRIO_RT) then -1 else 1
      ensures code == -1 ==> unchanged(this) && (t != null ==> unchanged(t))
      ensures code == -1 ==>
        (forall n :: n in nodes ==> n.state == old(n.state) && n.next == old(n.next) && n.prev == old(n.prev))
      ensures code == 1 ==> nodes == Enqueued(old(nodes), t)
      ensures code == 1 ==> (forall n :: n in nodes <==> n in old(nodes) || n == t)
      ensures code == 1 ==> (forall n :: n in nodes ==>
        n.state == if n == nodes[|nodes| - 1] && old(t.state) != BLK_SEND && old(t.state) != SUSPENDED
                   then READY else old(n.state))
    {
      hide InsertByDeadline;
      if t == null {
        return -1;
      }
      if TAIL == null {
        HEAD := t;
        TAIL := t;
        nodes := [t];
        EnqueuedEmpty(t);
      } else if t.realTime {
        if t.prio != PRIO_RT {
          return -1;
        }
        LinkSorted(t);
      } else {
        LinkLast(t);
      }
      assert TAIL == nodes[|nodes| - 1] && (TAIL == t || TAIL in old(nodes));
      FinishPush(t, TAIL);
      return 1;
    }

    /** The end of `push_tail`. */
    method FinishPush(t: Tcb, last: Tcb)
      requires Linked() && nodes != [] && currentSize + 1 == |nodes| && t in nodes && last == nodes[|nodes| - 1]
      modifies this`currentSize, last`next, last`state
      ensures Valid()
      ensures last.state == if old(t.state) != BLK_SEND && old(t.state) != SUSPENDED then READY else old(last.state)
    {
      currentSize := currentSize + 1;
      TAIL.next := null;
      if t.state != BLK_SEND && t.state != SUSPENDED {
        TAIL.state := READY;
      }
    }

    /** `pop_task`: remove exactly the given task, wherever it is.  Found in the middle it keeps its
        links, which are then stale.  On a queue of one other task the walk would run off the end. */
    method PopTask(t: Tcb) returns (code: int)
      requires Valid() && (t in nodes || |nodes| != 1)
      modifies this, nodes`next, nodes`prev, nodes`state
      ensures Valid() && nodes == Remove(old(nodes), t)
      ensures forall n :: n in nodes <==> n in old(nodes) && n != t
      ensures code == if old(nodes) == [] then -1 else if t in old(nodes) then 1 else 0
      ensures forall n :: n in old(nodes) ==>
        n.state == if n == t && t == old(nodes)[0] then READY else old(n.state)
      ensures t in old(nodes) ==>
        var middle := 0 < IndexOf(old(nodes), t) < |old(nodes)| - 1;
        && t.next == (if middle then old(t.next) else null)
        && t.prev == (if middle then old(t.prev) else null)
    {
      hide IndexOf;
      if HEAD == null || TAIL == null {
        EmptyRemove(t);
        return -1;
      }
      ghost var was := nodes;
      RemoveFacts(was, t);
      if HEAD == t {
        RemoveIs(was, t, 0);
        var head := PopHead();
        t.state := READY;
        return 1;
      }
      if TAIL == t {
        RemoveIs(was, t, |was| - 1);
        var tail := PopTail();
        return 1;
      }
      code := PopMiddle(t);
    }

    lemma EmptyRemove(t: Tcb)
      ensures Remove([], t) == []
    {
    }

    /** The walk over the tasks that are neither first nor last. */
    method PopMiddle(t: Tcb) returns (code: int)
      requires Valid() && |nodes| > 1 && nodes[0] != t && nodes[|nodes| - 1] != t
      modifies this`currentSize, this`nodes, nodes`next, nodes`prev
      ensures Valid() && nodes == Remove(old(nodes), t)
      ensures code == if t in old(nodes) then 1 else 0
      ensures t in old(nodes) ==> 0 < IndexOf(old(nodes), t) < |old(nodes)| - 1
      ensures t in old(nodes) ==> t.next == old(t.next) && t.prev == old(t.prev)
    {
      var temp := HEAD.next;
      ghost var i := 1;
      while temp != TAIL
        invariant 1 <= i < |nodes| && temp == nodes[i]
        invariant forall k :: 0 <= k < i ==> nodes[k] != t
        decreases |nodes| - i
      {
        if temp == t {
          RemoveIs(nodes, t, i);
          Unlink(t, i);
          return 1;
        }
        temp := temp.next;
        i := i + 1;
      }
      assert t !in nodes;
      return 0;
    }

    /** The links around a task in the middle are closed over it; its own are left. */
    method Unlink(t: Tcb, ghost i: nat)
      requires Valid() && 0 < i < |nodes| - 1 && nodes[i] == t
      modifies this`currentSize, this`nodes, nodes`next, nodes`prev
      ensures Valid() && nodes == RemoveAt(old(nodes), i)
      ensures t.next == old(t.next) && t.prev == old(t.prev)
    {
      ghost var was := nodes;
      assert t.prev == was[i - 1] && t.next == was[i + 1];
      t.prev.next := t.next;
      t.next.prev := t.prev;
      currentSize := currentSize - 1;
      nodes := RemoveAt(was, i);
      assert NoDup(nodes);
      forall k | 0 <= k < |nodes| - 1
        ensures nodes[k].next == nodes[k + 1]
      {
        assert nodes[k] == was[if k < i then k else k + 1];
      }
      forall k | 1 <= k < |nodes|
        ensures nodes[k].prev == nodes[k - 1]
      {
        assert nodes[k] == was[if k < i then k else k + 1];
      }
    }
  }

  lemma RemoveIs<T>(s: seq<T>, e: T, i: nat)
    requires NoDup(s) && i < |s| && s[i] == e
    ensures e in s && IndexOf(s, e) == i && Remove(s, e) == RemoveAt(s, i)
  {
  }

  // ---------------------------------------------------------------- the release loop of the tick

  predicate Due(t: Tcb, now: nat)
    reads t`deadline, t`period
  {
    t.deadline - t.period <= now
  }

  function DueOf(s: seq<Tcb>, now: nat): (r: seq<Tcb>)
    reads s`deadline, s`period
    ensures forall n :: n in r ==> n in s
  {
    if s == [] then [] else (if Due(s[0], now) then [s[0]] else []) + DueOf(s[1..], now)
  }

  function NotDueOf(s: seq<Tcb>, now: nat): seq<Tcb>
    reads s`deadline, s`period
  {
    if s == [] then [] else (if Due(s[0], now) then [] else [s[0]]) + NotDueOf(s[1..], now)
  }

  function EnqueueAll(s: seq<Tcb>, ts: seq<Tcb>): (r: seq<Tcb>)
    reads s`deadline, ts`deadline, ts`realTime
    ensures forall n :: n in r ==> n in s || n in ts
    decreases |ts|
  {
    if ts == [] then s else EnqueueAll(Enqueued(s, ts[0]), ts[1..])
  }

  /** The walk has come to where the suspended queue is `s` and the ready queue `r`; at its start they
      were `all` and `ready0`. */
  ghost predicate Walked(suspended: Queue, ready: Queue, s: seq<Tcb>, r: seq<Tcb>, all: seq<Tcb>, ready0: seq<Tcb>)
    reads suspended, suspended.nodes`next, suspended.nodes`prev, ready, ready.nodes`next, ready.nodes`prev
  {
    && suspended.Valid() && ready.Valid() && suspended.nodes == s && ready.nodes == r
    && Apart(s, r) && Among(s, all, ready0) && Among(r, all, ready0)
  }

  ghost predicate Apart(s: seq<Tcb>, t: seq<Tcb>) {
    forall x :: x in s ==> x !in t
  }

  ghost predicate Among(s: seq<Tcb>, t: seq<Tcb>, u: seq<Tcb>) {
    forall x :: x in s ==> x in t || x in u
  }

  /** The loop of the timer interrupt that moves due tasks from the suspended queue to the real-time
      ready queue.  It takes a task out of the very queue it is walking; it still visits every task
      once, moves exactly the due ones, in order, and ends. */
  method ReleaseDue(suspended: Queue, ready: Queue, now: nat)
    requires suspended != ready && suspended.Valid() && ready.Valid() && Apart(suspended.nodes, ready.nodes)
    requires forall t :: t in suspended.nodes ==> t.realTime && t.prio == PRIO_RT
    modifies suspended, ready, suspended.nodes`next, suspended.nodes`prev, suspended.nodes`state
    modifies ready.nodes`next, ready.nodes`prev, ready.nodes`state
    ensures suspended.Valid() && ready.Valid()
    ensures suspended.nodes == NotDueOf(old(suspended.nodes), now)
    ensures ready.nodes == EnqueueAll(old(ready.nodes), DueOf(old(suspended.nodes), now))
  {
    ghost var all, ready0 := suspended.nodes, ready.nodes;
    WalkStart(suspended, ready, now);
    hide Walked, Queue.Valid, NotDueOf, DueOf, EnqueueAll;
    Walk(suspended, ready, all, ready0, now);
    assert all[..|all|] == all && all[|all|..] == [] && NotDueOf(all, now) + [] == NotDueOf(all, now);
    WalkDone(suspended, ready, NotDueOf(all, now), EnqueueAll(ready0, DueOf(all, now)), all, ready0);
  }

  /** The loop itself. */
  method Walk(suspended: Queue, ready: Queue, ghost all: seq<Tcb>, ghost ready0: seq<Tcb>, now: nat)
    requires suspended != ready && forall k :: 0 <= k < |all| ==> all[k].realTime && all[k].prio == PRIO_RT
    requires Walked(suspended, ready, NotDueOf(all[..0], now) + all[0..],
                    EnqueueAll(ready0, DueOf(all[..0], now)), all, ready0)
    requires suspended.HEAD == if all == [] then null else all[0]
    modifies suspended, ready, all`next, all`prev, all`state, ready0`next, ready0`prev, ready0`state
    ensures Walked(suspended, ready, NotDueOf(all[..|all|], now) + all[|all|..],
                   EnqueueAll(ready0, DueOf(all[..|all|], now)), all, ready0)
  {
    hide Walked, Queue.Valid, NotDueOf, DueOf, EnqueueAll;
    var temp := suspended.HEAD;
    ghost var i := 0;
    while temp != null
      invariant i <= |all|
      invariant Walked(suspended, ready, NotDueOf(all[..i], now) + all[i..],
                       EnqueueAll(ready0, DueOf(all[..i], now)), all, ready0)
      invariant temp == if i < |all| then all[i] else null
      decreases |all| - i
    {
      var add := temp;
      WalkNext(suspended, ready, NotDueOf(all[..i], now), EnqueueAll(ready0, DueOf(all[..i], now)), all, ready0, i);
      temp := temp.next;
      ReleaseIfDue(suspended, ready, add, all, ready0, i, now);
      i := i + 1;
    }
  }

  lemma WalkStart(suspended: Queue, ready: Queue, now: nat)
    requires suspended.Valid() && ready.Valid() && Apart(suspended.nodes, ready.nodes)
    ensures var all, ready0 := suspended.nodes, ready.nodes;
      && Walked(suspended, ready, NotDueOf(all[..0], now) + all[0..], EnqueueAll(ready0, DueOf(all[..0], now)), all, ready0)
      && suspended.HEAD == if all == [] then null else all[0]
  {
    var all := suspended.nodes;
    assert all[..0] == [] && NotDueOf([], now) + all[0..] == all;
  }

  lemma WalkDone(suspended: Queue, ready: Queue, s: seq<Tcb>, r: seq<Tcb>, all: seq<Tcb>, ready0: seq<Tcb>)
    requires Walked(suspended, ready, s, r, all, ready0)
    ensures suspended.Valid() && ready.Valid() && suspended.nodes == s && ready.nodes == r
  {
  }

  /** Where the walk goes next, and which tasks it may touch. */
  lemma WalkNext(suspended: Queue, ready: Queue, kept: seq<Tcb>, r: seq<Tcb>, all: seq<Tcb>, ready0: seq<Tcb>, i: nat)
    requires i < |all| && Walked(suspended, ready, kept + all[i..], r, all, ready0)
    ensures NoDup(suspended.nodes) && suspended.nodes == kept + all[i..] && ready.nodes == r
    ensures forall k :: 0 <= k < |suspended.nodes| ==> suspended.nodes[k] in all || suspended.nodes[k] in ready0
    ensures forall k :: 0 <= k < |ready.nodes| ==> ready.nodes[k] in all || ready.nodes[k] in ready0
    ensures all[i].next == if i + 1 < |all| then all[i + 1] else null
  {
    var k := |kept|;
    assert suspended.nodes[k] == all[i];
    assert k + 1 < |suspended.nodes| ==> suspended.nodes[k + 1] == all[i + 1];
  }

  /** One round of the loop. */
  method ReleaseIfDue(suspended: Queue, ready: Queue, add: Tcb,
                      ghost all: seq<Tcb>, ghost ready0: seq<Tcb>, ghost i: nat, now: nat)
    requires i < |all| && add == all[i] && add.realTime && add.prio == PRIO_RT && suspended != ready
    requires Walked(suspended, ready, NotDueOf(all[..i], now) + all[i..],
                    EnqueueAll(ready0, DueOf(all[..i], now)), all, ready0)
    modifies suspended, ready, all`next, all`prev, all`state, ready0`next, ready0`prev, ready0`state
    ensures Walked(suspended, ready, NotDueOf(all[..i + 1], now) + all[i + 1..],
                   EnqueueAll(ready0, DueOf(all[..i + 1], now)), all, ready0)
  {
    hide Walked, Queue.Valid, NotDueOf, DueOf, EnqueueAll, Enqueued, Remove;
    WalkNext(suspended, ready, NotDueOf(all[..i], now), EnqueueAll(ready0, DueOf(all[..i], now)), all, ready0, i);
    WalkedOn(suspended.nodes, all, ready0, i, now);
    if add.deadline - add.period <= now {
      ReleaseStep(suspended, ready, add, all, ready0);
      assert NotDueOf(all[..i + 1], now) == old(NotDueOf(all[..i + 1], now));
      assert EnqueueAll(ready0, DueOf(all[..i + 1], now)) == old(EnqueueAll(ready0, DueOf(all[..i + 1], now)));
      assert Enqueued(old(ready.nodes), add) == old(Enqueued(ready.nodes, add));
    }
  }

  /** One task that is due leaves the suspended queue and enters the ready queue. */
  method ReleaseStep(suspended: Queue, ready: Queue, add: Tcb, ghost all: seq<Tcb>, ghost ready0: seq<Tcb>)
    requires suspended != ready && Walked(suspended, ready, suspended.nodes, ready.nodes, all, ready0)
    requires add in suspended.nodes && add.realTime && add.prio == PRIO_RT
    modifies suspended, ready, suspended.nodes`next, suspended.nodes`prev, suspended.nodes`state
    modifies ready.nodes`next, ready.nodes`prev, ready.nodes`state
    ensures Walked(suspended, ready, Remove(old(suspended.nodes), add), Enqueued(old(ready.nodes), add), all, ready0)
  {
    hide Apart, Among, Enqueued;
    ghost var s, r := suspended.nodes, ready.nodes;
    ReleaseOne(suspended, ready, add);
    MovedOver(s, r, suspended.nodes, ready.nodes, add, all, ready0);
  }

  lemma MovedOver(s: seq<Tcb>, r: seq<Tcb>, s': seq<Tcb>, r': seq<Tcb>, add: Tcb, all: seq<Tcb>, ready0: seq<Tcb>)
    requires Apart(s, r) && Among(s, all, ready0) && Among(r, all, ready0) && add in s
    requires forall t :: t in s' <==> t in s && t != add
    requires forall t :: t in r' <==> t in r || t == add
    ensures Apart(s', r') && Among(s', all, ready0) && Among(r', all, ready0)
  {
  }

  /** What one step adds to the two sequences. */
  lemma WalkedOn(nodes: seq<Tcb>, all: seq<Tcb>, ready0: seq<Tcb>, i: nat, now: nat)
    requires NoDup(nodes) && i < |all| && nodes == NotDueOf(all[..i], now) + all[i..]
    ensures all[i] in nodes
    ensures NotDueOf(all[..i + 1], now) + all[i + 1..] == if Due(all[i], now) then Remove(nodes, all[i]) else nodes
    ensures var r := EnqueueAll(ready0, DueOf(all[..i], now));
      EnqueueAll(ready0, DueOf(all[..i + 1], now)) == if Due(all[i], now) then Enqueued(r, all[i]) else r
  {
    var kept := NotDueOf(all[..i], now);
    assert all[..i + 1] == all[..i] + [all[i]];
    DueAppend(all[..i], all[i], now);
    SkipOver(nodes, kept, all, i);
    EnqueueAppend(ready0, DueOf(all[..i], now), all[i]);
  }

  lemma SkipOver<T>(nodes: seq<T>, kept: seq<T>, all: seq<T>, i: nat)
    requires NoDup(nodes) && i < |all| && nodes == kept + all[i..]
    ensures all[i] in nodes
    ensures (kept + [all[i]]) + all[i + 1..] == nodes && kept + all[i + 1..] == Remove(nodes, all[i])
  {
    assert nodes[|kept|] == all[i];
    RemoveIs(nodes, all[i], |kept|);
  }

  lemma {:induction false} DueAppend(s: seq<Tcb>, t: Tcb, now: nat)
    ensures NotDueOf(s + [t], now) == if Due(t, now) then NotDueOf(s, now) else NotDueOf(s, now) + [t]
    ensures DueOf(s + [t], now) == if Due(t, now) then DueOf(s, now) + [t] else DueOf(s, now)
  {
    if s == [] {
    } else {
      assert (s + [t])[1..] == s[1..] + [t];
      DueAppend(s[1..], t, now);
    }
  }

  lemma {:induction false} EnqueueAppend(s: seq<Tcb>, ts: seq<Tcb>, t: Tcb)
    ensures EnqueueAll(s, ts + [t]) == Enqueued(EnqueueAll(s, ts), t)
    decreases |ts|
  {
    if ts == [] {
    } else {
      assert (ts + [t])[1..] == ts[1..] + [t];
      EnqueueAppend(Enqueued(s, ts[0]), ts[1..], t);
    }
  }

  /** One task leaves the suspended queue and enters the ready queue. */
  method ReleaseOne(suspended: Queue, ready: Queue, add: Tcb)
    requires suspended != ready && suspended.Valid() && ready.Valid()
    requires add in suspended.nodes && Apart(suspended.nodes, ready.nodes)
    requires add.realTime && add.prio == PRIO_RT
    modifies suspended, ready, suspended.nodes`next, suspended.nodes`prev, suspended.nodes`state
    modifies ready.nodes`next, ready.nodes`prev, ready.nodes`state
    ensures suspended.Valid() && ready.Valid()
    ensures suspended.nodes == Remove(old(suspended.nodes), add)
    ensures ready.nodes == Enqueued(old(ready.nodes), add)
    ensures forall t :: t in suspended.nodes <==> t in old(suspended.nodes) && t != add
    ensures forall t :: t in ready.nodes <==> t in old(ready.nodes) || t == add
  {
    hide Enqueued, Queue.Valid, Remove;
    var code := suspended.PopTask(add);
    StillValid(ready);
    add.state := READY;
    label popped:
    code := ready.PushTail(add);
    StillValid@popped(suspended);
  }

  /** A queue whose fields and links did not change is still sound. */
  twostate lemma StillValid(q: Queue)
    requires old(q.Valid()) && unchanged(q)
    requires forall t :: t in q.nodes ==> t.next == old(t.next) && t.prev == old(t.prev)
    ensures q.Valid()
  {
  }

  /** The loop splits the suspended tasks into those that are due and those that are not; nobody is
      lost or counted twice. */
  lemma {:induction false} DuePartition(s: seq<Tcb>, now: nat)
    ensures multiset(s) == multiset(DueOf(s, now)) + multiset(NotDueOf(s, now))
    ensures forall t :: t in DueOf(s, now) ==> t.deadline - t.period <= now
    ensures forall t :: t in NotDueOf(s, now) ==> t.deadline - t.period > now
  {
    if s == [] {
      DueTimes(s, now);
    } else {
      var rest := s[1..];
      DuePartition(rest, now);
      DueTimes(s, now);
      OneMorePart(s, rest, DueOf(s, now), DueOf(rest, now), NotDueOf(s, now), NotDueOf(rest, now));
    }
  }

  lemma {:induction false} DueTimes(s: seq<Tcb>, now: nat)
    ensures forall t :: t in DueOf(s, now) ==> t.deadline - t.period <= now
    ensures forall t :: t in NotDueOf(s, now) ==> t.deadline - t.period > now
  {
    if s == [] {
    } else {
      DueTimes(s[1..], now);
    }
  }

  /** The first of a list joins one of its two parts. */
  lemma OneMorePart<T>(s: seq<T>, rest: seq<T>, a: seq<T>, a': seq<T>, b: seq<T>, b': seq<T>)
    requires s != [] && rest == s[1..] && multiset(rest) == multiset(a') + multiset(b')
    requires (a == [s[0]] + a' && b == b') || (a == a' && b == [s[0]] + b')
    ensures multiset(s) == multiset(a) + multiset(b)
  {
    assert s == [s[0]] + rest;
  }

  lemma {:induction false} DeadlinesAppend(s: seq<Tcb>, t: seq<Tcb>)
    ensures DeadlinesOf(s + t) == DeadlinesOf(s) + DeadlinesOf(t)
  {
    if s == [] {
      assert s + t == t;
    } else {
      assert (s + t)[1..] == s[1..] + t;
      DeadlinesAppend(s[1..], t);
    }
  }

  lemma InsertDeadline(s: seq<Tcb>, p: nat, t: Tcb)
    requires p <= |s|
    ensures DeadlinesOf(InsertAt(s, p, t)) == InsertAt(DeadlinesOf(s), p, t.deadline)
  {
    var a, b := s[..p], s[p..];
    assert s == a + b && DeadlinesOf([t]) == [t.deadline];
    DeadlinesAppend(a, b);
    DeadlinesAppend(a, [t]);
    DeadlinesAppend(a + [t], b);
    hide DeadlinesOf;
  }

  /** A ready queue in deadline order is in deadline order after the loop. */
  lemma {:induction false} StaysSorted(s: seq<Tcb>, ts: seq<Tcb>)
    requires Ascending(DeadlinesOf(s)) && forall t :: t in ts ==> t.realTime
    ensures Ascending(DeadlinesOf(EnqueueAll(s, ts)))
    ensures multiset(EnqueueAll(s, ts)) == multiset(s) + multiset(ts)
    decreases |ts|
  {
    if ts == [] {
    } else {
      var t := ts[0];
      var p := Position(DeadlinesOf(s), t.deadline);
      InsertAscending(DeadlinesOf(s), t.deadline);
      InsertDeadline(s, p, t);
      OneMoreIn(s, p, t);
      assert ts == [t] + ts[1..];
      StaysSorted(Enqueued(s, t), ts[1..]);
    }
  }

  lemma OneMoreIn<T>(s: seq<T>, p: nat, e: T)
    requires p <= |s|
    ensures multiset(InsertAt(s, p, e)) == multiset(s) + multiset([e])
  {
    assert s == s[..p] + s[p..];
  }

  /** What raising a task's priority and preempting it later comes to: it is taken from one queue and
      put at the head of another.  If the other queue is empty, that goes wrong exactly when the task
      stood in the middle: it still points at the task that was behind it. */
  method TakeThenPush(from: Queue, to: Queue, t: Tcb) returns (code: int)
    requires from != to && from.Valid() && to.Valid() && t in from.nodes && Apart(from.nodes, to.nodes)
    modifies from, to, from.nodes`next, from.nodes`prev, from.nodes`state
    modifies to.nodes`next, to.nodes`prev, to.nodes`state
    ensures from.nodes == Remove(old(from.nodes), t) && to.nodes == [t] + old(to.nodes)
    ensures to.Valid() <==>
      old(to.nodes) != [] || !(0 < IndexOf(old(from.nodes), t) < |old(from.nodes)| - 1)
  {
    hide Queue.Valid, Remove, IndexOf;
    LinkAfter(from, IndexOf(from.nodes, t));
    code := from.PopTask(t);
    StillValid(to);
    code := to.PushHead(t);
  }

  lemma LinkAfter(q: Queue, i: nat)
    requires q.Valid() && i < |q.nodes|
    ensures q.nodes[i].next == if i + 1 < |q.nodes| then q.nodes[i + 1] else null
  {
  }
}
