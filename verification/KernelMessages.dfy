// Sending and receiving keep the invariant.
module KernelMessages {
  import opened Seqs
  import opened Deadlines
  import opened Messages
  import opened TaskStates
  import opened Kernel
  import opened Syscalls
  import opened KernelInv
  import opened KernelSteps

  // ---------------------------------------------------------------- sends

  /** The send passes its checks, but has to wait. */
  predicate MustWait(k: Kernel, dst: nat, buf: seq<Byte>)
    requires Shape(k) && Readable(buf)
  {
    && BoxOf(dst).Some? && SendError(k, dst, buf) == None
    && !(Fitting(k.box[BoxOf(dst).value], LengthField(buf)) && k.q[WaitOf(BoxOf(dst).value)] == [])
  }

  /** The send makes the sender give way to the task it wakes. */
  predicate GivesWayTo(k: Kernel, dst: nat, buf: seq<Byte>)
    requires Shape(k) && Readable(buf)
  {
    && BoxOf(dst).Some? && SendError(k, dst, buf) == None && !MustWait(k, dst, buf)
    && WakesHigher(k, BoxOf(dst).value)
  }

  lemma OrderMonotone(p: nat, q: nat)
    requires Order(p) >= 0 && Order(q) >= 0
    ensures p < q <==> Order(p) < Order(q)
  {
  }

  lemma CurrentPrio(k: Kernel)
    requires Inv(k)
    ensures Order(Current(k).prio) >= 0
  {
    if k.cur != TID_NULL {
      assert TaskOk(k, k.cur);
    }
  }

  /** A delivery without a preemption leaves the order of urgency exactly when it woke no task that is
      more urgent than the running one. */
  lemma DeliverSafe(k: Kernel, b: nat, m: Message)
    requires Inv(k) && b < NUM_BOXES && k.box[b].active && Fitting(k.box[b], |m|) && k.q[WaitOf(b)] == []
    requires PrioritySafe(k)
    ensures PrioritySafe(Deliver(k, b, m)) <==> !WakesHigher(k, b)
  {
    DeliverKeeps(k, b, m);
    var r := Deliver(k, b, m);
    CurrentPrio(k);
    if Wakes(k, b) {
      var t: Tid := b;
      assert TaskOk(k, t) && t != TID_NULL;
      OrderMonotone(k.tcb[b].prio, Current(k).prio);
      var i := Order(k.tcb[b].prio);
      assert r.q[i] == k.q[i] + [t] && r.q[i] != [];
    }
  }

  lemma WokenOrder(k: Kernel, t: Tid)
    requires Inv(k) && k.tcb[t].state == BLK_RECV
    ensures 0 < Order(k.tcb[t].prio) < NUM_READY
  {
    assert NullOk(k);
    TaskIsOk(k, t);
  }

  lemma WokenPrio(k: Kernel, t: Tid)
    requires Inv(k) && k.cur != TID_NULL && k.tcb[t].state == BLK_RECV
    ensures t != TID_NULL && t != k.cur && Order(k.tcb[t].prio) > 0 && Order(Current(k).prio) >= 0
  {
    TaskIsOk(k, t);
    TaskIsOk(k, k.cur);
  }

  /** A delivery that wakes a more urgent task does not touch the sender's own queue. */
  lemma DeliverLeads(k: Kernel, b: nat, m: Message)
    requires Inv(k) && k.cur != TID_NULL && WakesHigher(k, b)
    requires b < NUM_BOXES && k.box[b].active && Fitting(k.box[b], |m|) && k.q[WaitOf(b)] == []
    ensures MayLead(Deliver(k, b, m), k.cur) <==> MayLead(k, k.cur)
  {
    hide Inv, Mid, Deliver, TaskOk, Fitting;
    TaskIsOk(k, k.cur);
    TaskIsOk(k, b);
    WokenPrio(k, b);
    DeliverKeeps(k, b, m);
    OrderMonotone(k.tcb[b].prio, Current(k).prio);
  }

  /** A blocking send keeps the invariant, unless it must wait and the sender is real-time, or the
      sender gives way and cannot lead its queue. */
  lemma SendKeeps(k: Kernel, dst: nat, buf: seq<Byte>)
    requires Inv(k) && Enabled(k, OpSend(dst, buf)) && BoxOf(dst).Some?
    requires MustWait(k, dst, buf) ==> !Current(k).rt
    requires GivesWayTo(k, dst, buf) ==> MayLead(k, k.cur)
    ensures var r := Send(k, dst, buf).0;
      Inv(r) && (PrioritySafe(k) ==> PrioritySafe(r)) && (EdfSafe(k) ==> EdfSafe(r))
  {
    if SendError(k, dst, buf) == None {
      var b, m := BoxOf(dst).value, MessageOf(buf);
      assert TaskOk(k, k.cur);
      if Fitting(k.box[b], |m|) && k.q[WaitOf(b)] == [] {
        DeliverKeeps(k, b, m);
        if WakesHigher(k, b) {
          DeliverLeads(k, b, m);
          PreemptKeeps(Deliver(k, b, m));
        } else {
          if PrioritySafe(k) {
            DeliverSafe(k, b, m);
          }
          DeliverEdf(k, b, m);
        }
      } else {
        BlockSendKeeps(k, b, m);
      }
    }
  }

  /** No deadline changes, and the real-time queue is not touched. */
  lemma DeliverEdf(k: Kernel, b: nat, m: Message)
    requires Inv(k) && b < NUM_BOXES && k.box[b].active && Fitting(k.box[b], |m|) && k.q[WaitOf(b)] == []
    ensures EdfSafe(k) ==> EdfSafe(Deliver(k, b, m))
  {
    hide Inv, Mid, Deliver, TaskOk, Fitting;
    TaskIsOk(k, k.cur);
    DeliverKeeps(k, b, m);
    DeliverDeadlines(k, b, m);
    if Wakes(k, b) {
      WokenOrder(k, b);
    }
  }

  lemma DeliverDeadlines(k: Kernel, b: nat, m: Message)
    requires Shape(k) && b < NUM_BOXES
    ensures forall t: Tid :: Deliver(k, b, m).tcb[t].deadline == k.tcb[t].deadline
  {
    hide PushTail, Flatten;
    if Wakes(k, b) {
      TailDeadlines(PushRing(k, b, m), b, ReadyOf(k.tcb[b].prio));
    }
  }

  lemma TailDeadlines(k: Kernel, t: Tid, i: int)
    requires Shape(k) && i < NUM_QUEUES
    ensures forall u: Tid :: PushTail(k, t, i).tcb[u].deadline == k.tcb[u].deadline
  {
    hide TailPlace, Flatten;
  }

  /** A non-blocking send keeps the invariant, and the order of urgency unless its header claims to
      come from the UART handler. */
  lemma SendNbKeeps(k: Kernel, dst: nat, buf: seq<Byte>)
    requires Inv(k) && Readable(buf) && BoxOf(dst).Some?
    requires SenderField(buf) == TID_UART || (k.cur != TID_NULL && Current(k).awaiting == None)
    requires GivesWayTo(k, dst, buf) && SenderField(buf) != TID_UART ==> MayLead(k, k.cur)
    ensures var r := SendNb(k, dst, buf).0;
      && Inv(r) && (EdfSafe(k) ==> EdfSafe(r))
      && (PrioritySafe(k) && SenderField(buf) != TID_UART ==> PrioritySafe(r))
  {
    if SendError(k, dst, buf) == None {
      var b, m := BoxOf(dst).value, MessageOf(buf);
      if k.cur != TID_NULL {
        assert TaskOk(k, k.cur);
      }
      if Fitting(k.box[b], |m|) && k.q[WaitOf(b)] == [] {
        DeliverKeeps(k, b, m);
        if WakesHigher(k, b) && SenderField(buf) != TID_UART {
          DeliverLeads(k, b, m);
          PreemptKeeps(Deliver(k, b, m));
        } else {
          if PrioritySafe(k) {
            DeliverSafe(k, b, m);
          }
          DeliverEdf(k, b, m);
        }
      }
    }
  }

  // ---------------------------------------------------------------- letting blocked senders in

  /** Nobody is inside a receive on this mailbox. */
  predicate Unawaited(k: Kernel, b: nat)
    requires Shape(k)
  {
    b < MAX_TASKS ==> b == k.cur && k.tcb[b].awaiting == None
  }

  /** One round of the loop: the first sender's message goes in, and the sender becomes ready. */
  function DrainStep(k: Kernel, b: nat): (r: Kernel)
    requires Shape(k) && b < NUM_BOXES && k.q[WaitOf(b)] != []
    ensures Shape(r)
  {
    var t := k.q[WaitOf(b)][0];
    var pushed := PushRing(PopHead(k, WaitOf(b)), b, k.tcb[t].msg);
    PushTail(pushed, t, ReadyOf(pushed.tcb[t].prio))
  }

  /** Each round shortens the waiting list. */
  lemma Shorter(k: Kernel, b: nat)
    requires Shape(k) && b < NUM_BOXES && k.q[WaitOf(b)] != []
    ensures |DrainStep(k, b).q[WaitOf(b)]| < |k.q[WaitOf(b)]|
  {
  }

  lemma FirstWaiter(k: Kernel, b: nat)
    requires Shape(k) && Placed(k) && TasksOk(k) && b < NUM_BOXES && k.q[WaitOf(b)] != []
    ensures var t := k.q[WaitOf(b)][0];
      && t != TID_NULL && k.tcb[t].state == BLK_SEND && k.tcb[t].dest == b && TaskOk(k, t)
      && !k.tcb[t].rt && Ordinary(k.tcb[t].prio) && k.tcb[t].awaiting == None
      && IndexOf(k.q[WaitOf(b)], t) == 0 && Remove(k.q[WaitOf(b)], t) == k.q[WaitOf(b)][1..]
  {
    var w := k.q[WaitOf(b)];
    var t := w[0];
    assert QueueIs(k, TID_NULL, WaitOf(b));
    assert t in w;
    assert Lives(k, TID_NULL, WaitOf(b), t);
    assert TaskOk(k, t);
    assert RemoveAt(w, 0) == w[1..];
  }

  /** The round written out. */
  lemma DrainStepForm(k: Kernel, b: nat)
    requires Shape(k) && Placed(k) && TasksOk(k) && b < NUM_BOXES && k.q[WaitOf(b)] != []
    requires Fitting(k.box[b], |k.tcb[k.q[WaitOf(b)][0]].msg|)
    ensures var t := k.q[WaitOf(b)][0];
      var i := ReadyOf(k.tcb[t].prio);
      && i > 0
      && DrainStep(k, b) == k.(
           q := k.q[WaitOf(b) := k.q[WaitOf(b)][1..]][i := k.q[i] + [t]],
           tcb := k.tcb[t := k.tcb[t].(state := READY)],
           box := k.box[b := k.box[b].(ring := k.box[b].ring + [k.tcb[t].msg])])
  {
    FirstWaiter(k, b);
    var t := k.q[WaitOf(b)][0];
    var pushed := PushRing(PopHead(k, WaitOf(b)), b, k.tcb[t].msg);
    TailOrdinary(pushed, t, ReadyOf(k.tcb[t].prio));
  }

  lemma DrainStepKeeps(k: Kernel, b: nat)
    requires Shape(k) && Mid(k, k.cur, b) && b < NUM_BOXES && Unawaited(k, b) && k.q[WaitOf(b)] != []
    requires Fitting(k.box[b], |k.tcb[k.q[WaitOf(b)][0]].msg|)
    ensures var r := DrainStep(k, b);
      && Mid(r, k.cur, b) && r.cur == k.cur && r.tcb[k.cur] == k.tcb[k.cur]
      && r.q[0] == k.q[0] && forall t: Tid :: r.tcb[t].deadline == k.tcb[t].deadline
  {
    var w := WaitOf(b);
    var t := k.q[w][0];
    var r := DrainStep(k, b);
    DrainStepForm(k, b);
    hide DrainStep, Fitting;
    FirstWaiter(k, b);
    var mid := k.(q := k.q[w := k.q[w][1..]], box := r.box);
    assert t in k.q[w];
    Leave(k, mid, t, w);
    SortedSame(k, mid);
    var i := ReadyOf(k.tcb[t].prio);
    assert InsertAt(mid.q[i], |mid.q[i]|, t) == mid.q[i] + [t];
    assert Entered(mid, r, t, |mid.q[i]|);
    LetInOk(k, r, b);
    hide Placed, PlacedBut, TasksOk, BoxesOkBut, Sorted;
    EnteredKeeps(mid, r, t, |mid.q[i]|, k.cur, b);
  }

  /** The tasks and mailboxes after a round. */
  lemma LetInOk(k: Kernel, r: Kernel, b: nat)
    requires Shape(k) && Mid(k, k.cur, b) && b < NUM_BOXES && Unawaited(k, b) && k.q[WaitOf(b)] != [] && Shape(r)
    requires var t, w := k.q[WaitOf(b)][0], WaitOf(b);
      var i := ReadyOf(k.tcb[t].prio);
      i > 0 && r == k.(q := k.q[w := k.q[w][1..]][i := k.q[i] + [t]],
                       tcb := k.tcb[t := k.tcb[t].(state := READY)],
                       box := k.box[b := k.box[b].(ring := k.box[b].ring + [k.tcb[t].msg])])
    ensures TasksOk(r) && BoxesOkBut(r, b)
  {
    hide Placed, OnlyRunning, Sorted, Fitting;
    FirstWaiter(k, b);
    forall s: Tid | s != TID_NULL
      ensures TaskOk(r, s)
    {
      assert TaskOk(k, s);
    }
    forall j | 0 <= j < NUM_BOXES
      ensures BoxOpen(r, j) && (j != b ==> BoxOk(r, j))
    {
      assert BoxOpen(k, j) && (j != b ==> BoxOk(k, j));
      if j != b && k.q[WaitOf(j)] != [] {
        FirstWaiter(k, j);
      }
    }
  }

  /** The whole loop: afterwards nobody waits whose message fits. */
  lemma {:induction false} DrainKeeps(k: Kernel, b: nat)
    requires Shape(k) && Mid(k, k.cur, b) && b < NUM_BOXES && Unawaited(k, b)
    ensures var r := Drain(k, b);
      && Inv(r) && r.cur == k.cur && r.tcb[k.cur] == k.tcb[k.cur]
      && r.q[0] == k.q[0] && forall t: Tid :: r.tcb[t].deadline == k.tcb[t].deadline
    decreases |k.q[WaitOf(b)]|
  {
    if k.q[WaitOf(b)] == [] || !Fitting(k.box[b], |k.tcb[k.q[WaitOf(b)][0]].msg|) {
      forall j | 0 <= j < NUM_BOXES
        ensures BoxOpen(k, j) && BoxOk(k, j)
      {
        assert BoxOpen(k, j) && (j != b ==> BoxOk(k, j));
      }
    } else {
      DrainStepForm(k, b);
      DrainStepKeeps(k, b);
      DrainKeeps(DrainStep(k, b), b);
    }
  }
}
