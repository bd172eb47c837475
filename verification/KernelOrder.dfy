// Who runs next, and in what order the others wait: tasks of one priority take turns, and a task that
// is made to wait by a more urgent one keeps its turn.
module KernelOrder {
  import opened Readings
  import opened Seqs
  import opened Deadlines
  import opened Messages
  import opened TaskStates
  import opened Kernel
  import opened Syscalls
  import opened KernelDelivery
  import opened KernelFrames
  import opened KernelInv
  import opened KernelSteps
  import opened KernelMessages
  import opened KernelReceives
  import opened KernelRealTime

  /** A task that yields goes to the end of its queue, and the first of that queue runs: the tasks of
      its priority take turns, and nobody else is affected. */
  lemma YieldRotates(k: Kernel)
    requires Inv(k) && Enabled(k, OpYield) && k.cur != TID_NULL && !Current(k).rt && PrioritySafe(k)
    ensures var r, i := Yield(k).0, Order(Current(k).prio);
      && 0 < i < NUM_READY
      && [r.cur] + r.q[i] == k.q[i] + [k.cur]
      && (forall j :: 0 <= j < NUM_QUEUES && j != i ==> r.q[j] == k.q[j])
  {
    hide Yield, PushTail, RunNew, Mid, PrioritySafe;
    TaskIsOk(k, k.cur);
    YieldForm(k);
    StopKeeps(k, NUM_BOXES);
    var i := ReadyOf(Current(k).prio);
    var m := PushTail(k, k.cur, i);
    TailOrdinary(k, k.cur, i);
    RunNewRuns(m);
    NoneAbove(k);
    hide RanTo;
    FirstReadyIs(m, i);
    RanQueues(m, RunNew(m), i);
  }

  lemma NoneAbove(k: Kernel)
    requires Shape(k) && PrioritySafe(k)
    ensures forall j :: 0 <= j < NUM_READY && j < Order(Current(k).prio) ==> k.q[j] == []
  {
  }

  lemma RanQueues(k: Kernel, r: Kernel, f: nat)
    requires Shape(k) && RanTo(k, r) && FirstReady(k) == f < NUM_READY
    ensures [r.cur] + r.q[f] == k.q[f] && forall j :: 0 <= j < NUM_QUEUES && j != f ==> r.q[j] == k.q[j]
  {
  }

  lemma YieldForm(k: Kernel)
    requires Shape(k) && Current(k).state == RUNNING && !Current(k).rt && Ordinary(Current(k).prio)
    ensures Yield(k).0 == RunNew(PushTail(k, k.cur, ReadyOf(Current(k).prio)))
  {
    hide PushTail, RunNew;
  }

  /** A task that gives way, and can lead its queue, goes to the front of it.  If a more urgent task is
      ready, the first such runs; otherwise no queue has changed. */
  lemma GivesWay(k: Kernel)
    requires Inv(k) && k.cur != TID_NULL && !Current(k).rt && Current(k).awaiting == None && MayLead(k, k.cur)
    ensures var r, i, f := Preempt(k), Order(Current(k).prio), FirstReady(k);
      && 0 < i < NUM_READY
      && (f < i ==> r.cur == k.q[f][0] != k.cur && r.q == k.q[i := [k.cur] + k.q[i]][f := k.q[f][1..]])
      && (f >= i ==> r.cur == k.cur && r.q == k.q)
  {
    assert TaskOk(k, k.cur);
    StopKeeps(k, NUM_BOXES);
    var i, f := ReadyOf(Current(k).prio), FirstReady(k);
    HeadOrdinary(k, k.cur, i);
    var m := PushHead(k, k.cur, i);
    RunNewRuns(m);
    FirstWith(k, m, k.cur, i);
    if f < i {
      ReadyMember(k, f, k.q[f][0]);
    }
    hide RunNew, PushHead, Inv, Mid;
  }

  /** It runs on exactly if no more urgent task is ready; else it is first in its queue. */
  lemma RunsOn(k: Kernel)
    requires Inv(k) && k.cur != TID_NULL && !Current(k).rt && Current(k).awaiting == None && MayLead(k, k.cur)
    ensures var r, i := Preempt(k), Order(Current(k).prio);
      && 0 < i < NUM_READY
      && (r.cur == k.cur <==> FirstReady(k) >= i)
      && (r.cur != k.cur ==> r.q[i] == [k.cur] + k.q[i])
  {
    GivesWay(k);
    hide Preempt, Inv, MayLead;
  }

  /** The first task of the ready queues, when another has been put at the front of one. */
  lemma FirstWith(k: Kernel, m: Kernel, t: Tid, i: nat)
    requires Shape(k) && Shape(m) && i < NUM_READY && m.q == k.q[i := [t] + k.q[i]]
    ensures var f := FirstReady(k);
      && FirstReady(m) == (if f < i then f else i)
      && (f < i ==> k.q[f][0] in k.q[f])
      && (f >= i ==> m.q[i][0] == t && m.q[i := m.q[i][1..]] == k.q)
  {
    FirstReadyIs(m, if FirstReady(k) < i then FirstReady(k) else i);
    assert ([t] + k.q[i])[1..] == k.q[i];
    assert k.q[i := [t] + k.q[i]][i := k.q[i]] == k.q;
  }

  // ---------------------------------------------------------------- sending

  /** A delivered message joins the ring.  If it wakes no task, nothing else changes; if it wakes one,
      that task goes to the end of its queue, unless it outranks the sender: then it runs at once, and
      the sender keeps its turn, or, if it cannot lead its queue, leaves a stale link in it. */
  lemma DeliveryOutcome(k: Kernel, dst: nat, buf: seq<Byte>)
    requires Inv(k) && Enabled(k, OpSend(dst, buf)) && BoxOf(dst).Some? && PrioritySafe(k)
    requires SendError(k, dst, buf) == None && !MustWait(k, dst, buf)
    ensures var r, b, m := Send(k, dst, buf).0, BoxOf(dst).value, MessageOf(buf);
      && r.box == k.box[b := k.box[b].(ring := k.box[b].ring + [m])]
      && (!Wakes(k, b) ==> r.cur == k.cur && r.q == k.q)
      && (Wakes(k, b) ==>
            var o, i := Order(k.tcb[b].prio), Order(Current(k).prio);
            && 0 < o < NUM_READY && 0 <= i < NUM_READY
            && (o >= i ==> r.cur == k.cur && r.q == k.q[o := k.q[o] + [b]])
            && (o < i ==> if MayLead(k, k.cur) then r.cur == b && r.q == k.q[i := [k.cur] + k.q[i]] else r.fault))
  {
    var b, m := BoxOf(dst).value, MessageOf(buf);
    assert TaskOk(k, k.cur);
    DeliveryCases(k, b, m);
    PreemptKept(Deliver(k, b, m));
    hide Inv, Deliver, Preempt, MayLead, SameClocks, NoNewStale;
  }

  lemma DeliveryCases(k: Kernel, b: nat, m: Message)
    requires Inv(k) && PrioritySafe(k) && k.cur != TID_NULL && Current(k).awaiting == None
    requires b < NUM_BOXES && k.box[b].active && Fitting(k.box[b], |m|) && k.q[WaitOf(b)] == []
    ensures var d, o, i := Deliver(k, b, m), if Wakes(k, b) then Order(k.tcb[b].prio) else 0, Order(Current(k).prio);
      && d.cur == k.cur && d.box == k.box[b := k.box[b].(ring := k.box[b].ring + [m])] && 0 <= i < NUM_READY
      && (!Wakes(k, b) ==> d.q == k.q)
      && (Wakes(k, b) ==> 0 < o < NUM_READY && d.q == k.q[o := k.q[o] + [b]] && (WakesHigher(k, b) <==> o < i))
      && (WakesHigher(k, b) ==>
            if MayLead(k, k.cur) then Preempt(d).cur == b && Preempt(d).q == k.q[i := [k.cur] + k.q[i]]
            else Preempt(d).fault)
  {
    hide Deliver, Mid, Preempt, MayLead;
    TaskIsOk(k, k.cur);
    DeliverKeeps(k, b, m);
    DeliverQueues(k, b, m);
    if Wakes(k, b) {
      OrderMonotone(k.tcb[b].prio, Current(k).prio);
      if WakesHigher(k, b) {
        if MayLead(k, k.cur) {
          HigherRuns(k, b, m);
        } else {
          DeliverLeads(k, b, m);
          PreemptFaults(Deliver(k, b, m));
        }
      }
    }
    hide Inv;
  }

  lemma HigherRuns(k: Kernel, b: nat, m: Message)
    requires Inv(k) && PrioritySafe(k) && k.cur != TID_NULL && Current(k).awaiting == None
    requires b < NUM_BOXES && k.box[b].active && Fitting(k.box[b], |m|) && k.q[WaitOf(b)] == [] && WakesHigher(k, b)
    requires MayLead(k, k.cur)
    ensures var d, i := Deliver(k, b, m), Order(Current(k).prio);
      0 < i < NUM_READY && Preempt(d).cur == b && Preempt(d).q == k.q[i := [k.cur] + k.q[i]]
  {
    hide Deliver, Mid, Preempt, MayLead;
    var d, o := Deliver(k, b, m), ReadyOf(k.tcb[b].prio);
    TaskIsOk(k, k.cur);
    DeliverKeeps(k, b, m);
    DeliverQueues(k, b, m);
    OrderMonotone(k.tcb[b].prio, Current(k).prio);
    DeliverLeads(k, b, m);
    OutrankedGivesWay(d, o, b);
    SameUpdate(k.q, o, Order(Current(k).prio), b, k.cur);
    hide Inv;
  }

  lemma SameUpdate(q: seq<seq<Tid>>, o: nat, i: nat, b: Tid, c: Tid)
    requires o < |q| && i < |q| && o != i && q[o] == []
    ensures var d := q[o := q[o] + [b]]; d[o] == [b] && d[i := [c] + d[i]][o := []] == q[i := [c] + q[i]]
  {
  }

  /** The only task ready above the running one runs, and the other goes to the front of its queue. */
  lemma OutrankedGivesWay(d: Kernel, o: nat, b: Tid)
    requires Inv(d) && d.cur != TID_NULL && !Current(d).rt && Current(d).awaiting == None && MayLead(d, d.cur)
    requires o < Order(Current(d).prio) && o < NUM_READY && d.q[o] == [b] && forall j :: 0 <= j < o ==> d.q[j] == []
    ensures var r, i := Preempt(d), Order(Current(d).prio);
      0 < i < NUM_READY && r.cur == b && r.q == d.q[i := [d.cur] + d.q[i]][o := []]
  {
    GivesWay(d);
    FirstReadyIs(d, o);
    assert [b][1..] == [];
    hide Inv, Preempt, MayLead;
  }

  lemma DeliverQueues(k: Kernel, b: nat, m: Message)
    requires Inv(k) && b < NUM_BOXES && k.box[b].active && Fitting(k.box[b], |m|) && k.q[WaitOf(b)] == []
    ensures Deliver(k, b, m).q ==
      if Wakes(k, b) && ReadyOf(k.tcb[b].prio) >= 0
      then k.q[ReadyOf(k.tcb[b].prio) := k.q[ReadyOf(k.tcb[b].prio)] + [b]] else k.q
    ensures Wakes(k, b) ==> b != TID_NULL && b != k.cur && Ordinary(k.tcb[b].prio)
  {
    if Wakes(k, b) {
      assert b != TID_NULL && TaskOk(k, b);
      var pushed := PushRing(k, b, m);
      TailOrdinary(pushed, b, ReadyOf(k.tcb[b].prio));
    }
  }

  /** A sender that has to wait goes to the end of the mailbox's waiting list, with its message, and
      the first task of the ready queues runs. */
  lemma WaitOutcome(k: Kernel, dst: nat, buf: seq<Byte>)
    requires Inv(k) && Enabled(k, OpSend(dst, buf)) && MustWait(k, dst, buf) && !Current(k).rt
    ensures var r, b, f := Send(k, dst, buf).0, BoxOf(dst).value, FirstReady(k);
      && r.box == k.box
      && r.tcb[k.cur].state == BLK_SEND && r.tcb[k.cur].msg == MessageOf(buf) && r.tcb[k.cur].dest == b
      && (var waiting := k.q[WaitOf(b) := k.q[WaitOf(b)] + [k.cur]];
          if f < NUM_READY then r.cur == k.q[f][0] && r.q == waiting[f := k.q[f][1..]]
          else r.cur == TID_NULL && r.q == waiting)
  {
    var b, m := BoxOf(dst).value, MessageOf(buf);
    assert TaskOk(k, k.cur);
    var blocked := k.(tcb := k.tcb[k.cur := Current(k).(state := BLK_SEND, msg := m, dest := b)]);
    var e := PushTail(blocked, k.cur, WaitOf(b));
    WaitingIsIdle(k, b, m);
    SameFirst(k, e);
    RunNewRuns(e);
    hide Inv, Mid, PushTail, RunNew;
  }

  lemma {:induction false} SameFirst(k: Kernel, r: Kernel, i: nat := 0)
    requires Shape(k) && Shape(r) && i <= NUM_READY && forall j :: 0 <= j < NUM_READY ==> r.q[j] == k.q[j]
    ensures FirstReady(r, i) == FirstReady(k, i)
    decreases NUM_READY - i
  {
    if i == NUM_READY {
    } else {
      SameFirst(k, r, i + 1);
    }
  }

  /** The non-blocking send fails exactly where the blocking one would wait, and changes nothing then;
      otherwise the two do the same, for a message that does not claim to be the UART handler's. */
  lemma NbSendAgrees(k: Kernel, dst: nat, buf: seq<Byte>)
    requires Shape(k) && Readable(buf) && BoxOf(dst).Some?
    ensures MustWait(k, dst, buf) <==> SendNb(k, dst, buf).1 == Error(ENOSPC)
    ensures MustWait(k, dst, buf) ==> SendNb(k, dst, buf).0 == k
    ensures !MustWait(k, dst, buf) && SenderField(buf) != TID_UART ==> SendNb(k, dst, buf) == Send(k, dst, buf)
  {
    hide Deliver, Preempt, BlockSend;
  }

  /** A call that reports an error has changed nothing. */
  lemma ErrorChangesNothing(how: Reading, k: Kernel, op: Op)
    requires Shape(k) && Enabled(k, op)
    ensures var (r, reply) := Do(how, k, op); reply.Error? ==> r == k || r == k.(fault := true)
  {
    hide ChangePrio, Deliver, Preempt, BlockSend, RunNew, Dispatch, PushTail, PushHead, Tick, PopRing;
  }

  // ---------------------------------------------------------------- receiving

  /** A receive hands out the oldest message and lets waiting senders in.  The receiver goes on
      running exactly if none of those outranks it; otherwise it keeps its turn, at the front of its
      queue.  If it cannot lead that queue, it leaves a stale link in it. */
  lemma ReceiverOutcome(k: Kernel, len: nat)
    requires Inv(k) && Enabled(k, OpRecv(len)) && !Current(k).rt && PrioritySafe(k) && Receives(k, len)
    ensures Recv(k, len) == RecvNb(k, len, false) && Recv(k, len).1 == Received(k.box[k.cur].ring[0])
    ensures var r, i := Recv(k, len).0, Order(Current(k).prio);
      var let := LetInBy(k);
      && 0 < i < NUM_READY
      && if !LeadsAfterReceive(k) then r.fault
         else && (r.cur == k.cur <==> forall t: Tid :: t in let ==> i <= Order(k.tcb[t].prio))
              && (r.cur != k.cur ==> r.q[i] == [k.cur] + (k.q[i] + Of(k, let, i)))
  {
    hide PopRing, Recv, RecvNb, LetInBy, LeadsAfterReceive, Drain, Preempt, Inv, PrioritySafe;
    TaskIsOk(k, k.cur);
    ReceivesAs(k, len);
    TakenOutcome(k);
  }

  lemma TakenOutcome(k: Kernel)
    requires Shape(k) && Inv(k) && PrioritySafe(k) && k.cur != TID_NULL && !Current(k).rt && Current(k).awaiting == None
    requires k.box[k.cur].ring != []
    ensures var r, i := Preempt(Drain(PopRing(k, k.cur), k.cur)), Order(Current(k).prio);
      var let := LetInBy(k);
      && 0 < i < NUM_READY
      && if !LeadsAfterReceive(k) then r.fault
         else && (r.cur == k.cur <==> forall t: Tid :: t in let ==> i <= Order(k.tcb[t].prio))
              && (r.cur != k.cur ==> r.q[i] == [k.cur] + (k.q[i] + Of(k, let, i)))
  {
    hide Drain, Preempt, Inv, LetIn, PopRing, LetInBy, LeadsAfterReceive, MayLead, FirstReady, PrioritySafe;
    var p := PopRing(k, k.cur);
    var d := Drain(p, k.cur);
    TaskIsOk(k, k.cur);
    LetInByReceive(k);
    ReceiveLeads(k);
    if LeadsAfterReceive(k) {
      RunsOn(d);
      LetInRanks(k, p, d, |LetInBy(k)|);
    } else {
      PreemptFaults(d);
    }
  }

  lemma ReceivesAs(k: Kernel, len: nat)
    requires Shape(k) && k.box[k.cur].active && k.box[k.cur].ring != [] && len >= |k.box[k.cur].ring[0]|
    ensures var s := (Preempt(Drain(PopRing(k, k.cur), k.cur)), Received(k.box[k.cur].ring[0]));
      Recv(k, len) == s && RecvNb(k, len, false) == s
  {
    hide Preempt, PopRing, RunNew;
  }

  /** A ready task outranks the receiver exactly if it is one of the senders let in. */
  lemma LetInRanks(k: Kernel, p: Kernel, d: Kernel, n: nat)
    requires Inv(k) && PrioritySafe(k) && Shape(p) && p.q == k.q && p.tcb == k.tcb && p.cur == k.cur
    requires LetIn(p, d, k.cur, n) && 0 < Order(Current(k).prio) < NUM_READY
    ensures var let, i := k.q[WaitOf(k.cur)][..n], Order(Current(k).prio);
      && (FirstReady(d) >= i <==> forall t: Tid :: t in let ==> i <= Order(k.tcb[t].prio))
      && d.q[i] == k.q[i] + Of(k, let, i)
  {
    var let, i := k.q[WaitOf(k.cur)][..n], Order(Current(k).prio);
    OfSame(k, p, let, i);
    forall t: Tid | t in let
      ensures 0 <= Order(k.tcb[t].prio) < NUM_READY && (FirstReady(d) >= i ==> i <= Order(k.tcb[t].prio))
    {
      assert t in k.q[WaitOf(k.cur)];
      assert QueueIs(k, TID_NULL, WaitOf(k.cur));
      assert Lives(k, TID_NULL, WaitOf(k.cur), t);
      assert TaskOk(k, t);
      var o := Order(k.tcb[t].prio);
      OfMember(p, let, o);
      assert o < i ==> t in d.q[o];
    }
    if FirstReady(d) < i {
      var f := FirstReady(d);
      OfMember(p, let, f);
      assert d.q[f] == Of(p, let, f);
      assert d.q[f][0] in let;
    }
  }

  // ---------------------------------------------------------------- creating, changing priority

  /** A new task takes the first free slot.  It goes to the end of its queue, unless it outranks its
      creator: then it runs at once, and the creator keeps its turn, or, if it cannot lead its queue,
      leaves a stale link in it. */
  lemma CreateOutcome(k: Kernel, prio: nat)
    requires Inv(k) && Enabled(k, OpCreate(prio, true)) && Ordinary(prio) && k.tcb[FreeSlot(k)].state == DORMANT
    ensures var (r, reply), t := Create(k, prio, true), FreeSlot(k);
      var o, i := Order(prio), Order(Current(k).prio);
      && reply == Created(t) && r.tcb[t].prio == prio && !r.tcb[t].rt && 0 <= i < NUM_READY
      && (o >= i ==> r.cur == k.cur && r.q == k.q[o := k.q[o] + [t]])
      && (o < i ==> if MayLead(k, k.cur) then r.cur == t && r.q == k.q[i := [k.cur] + k.q[i]] else r.fault)
  {
    hide Inv, PushTail, FreeSlot;
    TaskIsOk(k, k.cur);
    var t := FreeSlot(k);
    TaskIsOk(k, t);
    OrderMonotone(prio, Current(k).prio);
    var made := k.(tcb := k.tcb[t := NewTask(k, t, prio, false)]);
    TailOrdinary(made, t, ReadyOf(prio));
  }

  /** The task may be given another priority by the running one. */
  predicate MaySet(k: Kernel, t: Tid, prio: nat)
    requires Shape(k)
  {
    && t != TID_NULL && Ordinary(prio) && !k.tcb[t].rt && k.tcb[t].prio != prio
    && (Current(k).priv || !k.tcb[t].priv)
  }

  lemma SetPrioIs(how: Reading, k: Kernel, t: Tid, prio: nat)
    requires Inv(k) && MaySet(k, t, prio) && k.tcb[t].state in {READY, RUNNING}
    ensures SetPrio(how, k, t, prio) == (ChangePrio(how, k, t, prio), Reply.Ok)
  {
    assert TaskOk(k, t);
    hide ChangePrio, Inv;
  }

  /** No other task's priority has changed. */
  ghost predicate OnlyPrioOf(k: Kernel, r: Kernel, t: Tid)
    requires Shape(k) && Shape(r)
  {
    forall s: Tid :: s != t ==> r.tcb[s].prio == k.tcb[s].prio
  }

  /** Another ready task that is made more urgent than the caller leaves its queue and runs at once;
      the caller keeps its turn, or, if it cannot lead its queue, leaves a stale link in it.  As
      written the task keeps its own links if it was neither first nor last. */
  lemma RaiseOutcome(how: Reading, k: Kernel, t: Tid, prio: nat)
    requires Inv(k) && k.cur != TID_NULL && MaySet(k, t, prio) && k.tcb[t].state == READY && prio < Current(k).prio
    ensures var (r, reply), o, i := SetPrio(how, k, t, prio), Order(k.tcb[t].prio), Order(Current(k).prio);
      && 0 < o < NUM_READY && 0 < i < NUM_READY && reply == Reply.Ok
      && if !LeadsWithout(k, t) then r.fault
         else && r.cur == t && r.tcb[t].prio == prio
              && OnlyPrioOf(k, r, t) && (r.tcb[t].stale <==> how == AsWritten && InMiddle(k.q[o], t))
              && (var q := k.q[o := Remove(k.q[o], t)]; r.q == q[i := [k.cur] + q[i]])
  {
    hide Inv, ChangePrio, SetPrio, Raised, PushHead, MayLead, LeadsWithout, Mid, InMiddle;
    TaskIsOk(k, t);
    TaskIsOk(k, k.cur);
    SetPrioIs(how, k, t, prio);
    RaisedThenPushed(how, k, t, prio);
    RaisedKeeps(how, k, t, prio);
    LeadsAfterRaise(how, k, t, prio);
    if LeadsWithout(k, t) {
      PushedBack(k, Raised(how, k, t, prio), t, prio);
    } else {
      RaiseFaults(how, k, t, prio);
    }
  }

  /** Another ready task that does not get more urgent than the caller goes to the end of its new
      queue; no link of its is stale. */
  lemma MoveOutcome(how: Reading, k: Kernel, t: Tid, prio: nat)
    requires Inv(k) && k.cur != TID_NULL && MaySet(k, t, prio) && k.tcb[t].state == READY && prio >= Current(k).prio
    ensures var (r, reply), o, i := SetPrio(how, k, t, prio), Order(k.tcb[t].prio), Order(prio);
      && 0 < o < NUM_READY && 0 < i < NUM_READY
      && reply == Reply.Ok && r.cur == k.cur && r.tcb[t] == k.tcb[t].(prio := prio) && OnlyPrioOf(k, r, t)
      && (var q := k.q[o := Remove(k.q[o], t)]; r.q == q[i := q[i] + [t]])
  {
    assert TaskOk(k, t);
    SetPrioIs(how, k, t, prio);
    PulledOut(how, k, t, prio);
    var m := PopTask(how, k.(tcb := k.tcb[t := k.tcb[t].(prio := prio)]), t, ReadyOf(k.tcb[t].prio));
    TailOrdinary(m, t, ReadyOf(prio));
    hide Inv, SetPrio, PopTask, PushTail;
  }

  /** A task that lowers itself goes to the end of its new queue if a ready task is at least as urgent
      then, and the first such runs; otherwise it runs on. */
  lemma LowerOutcome(how: Reading, k: Kernel, prio: nat)
    requires Inv(k) && k.cur != TID_NULL && MaySet(k, k.cur, prio) && prio > Current(k).prio
    ensures var (r, reply), f, i := SetPrio(how, k, k.cur, prio), FirstReady(k), Order(prio);
      && 0 < i < NUM_READY && reply == Reply.Ok && r.tcb[k.cur].prio == prio && OnlyPrioOf(k, r, k.cur)
      && (f <= i ==> r.cur == k.q[f][0] && (var q := k.q[f := k.q[f][1..]]; r.q == q[i := q[i] + [k.cur]]))
      && (f > i ==> r.cur == k.cur && r.q == k.q)
  {
    var f := FirstReady(k);
    assert TaskOk(k, k.cur);
    SetPrioIs(how, k, k.cur, prio);
    if f < NUM_READY {
      var h := k.q[f][0];
      assert h in k.q[f];
      ReadyMember(k, f, h);
      assert TaskOk(k, h);
      OrderMonotone(prio, k.tcb[h].prio);
      if k.tcb[h].prio <= prio {
        LowerByHand(how, k, prio, h);
        hide ChangePrio;
      }
    } else {
      LowerAlone(how, k, prio);
      hide ChangePrio;
    }
    hide Inv, SetPrio, PopHead, PushTail;
  }

  /** With nobody ready the null task is compared, and is less urgent. */
  lemma LowerAlone(how: Reading, k: Kernel, prio: nat)
    requires Inv(k) && k.cur != TID_NULL && Ordinary(prio) && Current(k).prio < prio && FirstReady(k) == NUM_READY
    ensures ChangePrio(how, k, k.cur, prio) == k.(tcb := k.tcb[k.cur := Current(k).(prio := prio)])
  {
    assert NullOk(k);
    hide PopHead, PushTail, PushHead, PopTask;
  }

  // ---------------------------------------------------------------- real-time tasks, the interrupt

  /** The queue with a task of this deadline put in before the first that is not earlier. */
  function Sooner(k: Kernel, ts: seq<Tid>, t: Tid, deadline: nat): seq<Tid>
    requires Shape(k)
  {
    InsertAt(ts, Position(Ds(k, ts), deadline), t)
  }

  lemma DispatchOutcome(k: Kernel)
    requires Shape(k) && Idle(k)
    ensures var r, f := Dispatch(k), FirstReady(k);
      if f < NUM_READY then r.cur == k.q[f][0] && r.q == k.q[f := k.q[f][1..]] else r.cur == TID_NULL && r.q == k.q
  {
    DispatchRuns(k);
  }

  /** A task that becomes real-time takes its place by deadline among the ready real-time jobs, and
      the first of them runs. */
  lemma RtSetOutcome(k: Kernel, usec: nat)
    requires Inv(k) && Enabled(k, OpRtSet(usec)) && !Current(k).rt && usec >= 500
    ensures var (r, reply), jobs := RtSet(k, usec), Sooner(k, k.q[0], k.cur, k.now + 1 + usec / 500);
      reply == Reply.Ok && jobs != [] && [r.cur] + r.q[0] == jobs
      && forall j :: 1 <= j < NUM_QUEUES ==> r.q[j] == k.q[j]
  {
    assert Shape(k);
    hide PushTail, Dispatch, Inv, Mid, Promoted, Sooner;
    var e := PushTail(Promoted(k, usec), k.cur, 0);
    PromotedKeeps(k, usec);
    PromotedQueues(k, usec);
    DispatchOutcome(e);
    RtSetForm(k, usec);
    FirstReadyIs(e, 0);
  }

  lemma PromotedQueues(k: Kernel, usec: nat)
    requires Inv(k) && k.cur != TID_NULL && !Current(k).rt
    ensures var jobs := Sooner(k, k.q[0], k.cur, k.now + 1 + usec / 500);
      jobs != [] && PushTail(Promoted(k, usec), k.cur, 0).q == k.q[0 := jobs]
  {
    CurrentNotReady(k);
    OthersDeadlines(k, Promoted(k, usec), k.q[0]);
    hide Inv;
  }

  lemma CurrentNotReady(k: Kernel)
    requires Inv(k) && k.cur != TID_NULL
    ensures k.cur !in k.q[0]
  {
    if k.cur in k.q[0] {
      ReadyMember(k, 0, k.cur);
    }
  }

  /** A task that suspends itself takes its place by its next deadline among the suspended, and the
      first task of the ready queues runs. */
  lemma RtSuspOutcome(k: Kernel)
    requires Inv(k) && Enabled(k, OpRtSusp) && Current(k).rt
    ensures Current(k).period > 0
    ensures var (r, reply), f := RtSusp(k), FirstReady(k);
      var next := NextDeadline(Current(k).deadline, Current(k).period, k.now);
      var resting := k.q[SUSP := Sooner(k, k.q[SUSP], k.cur, next)];
      && reply == Reply.Ok
      && if f < NUM_READY then r.cur == k.q[f][0] && r.q == resting[f := k.q[f][1..]]
         else r.cur == TID_NULL && r.q == resting
  {
    RestingKeeps(k);
    var e := PushTail(Resting(k), k.cur, SUSP);
    DispatchOutcome(e);
    SameFirst(k, e);
    hide PushTail, Dispatch, Inv, Mid, NextDeadline;
  }

  /** The interrupt, with `rel` the state after the release loop: a real-time job that is more urgent
      than what runs takes over, and what ran keeps its turn, an ordinary task at the front of its
      queue, a real-time one at the place of its deadline; the null task makes way for the first ready
      task.  Otherwise nothing changes.  It goes wrong exactly where it stops a task that cannot lead
      its queue, and as written where nothing is there. */
  lemma TickOutcome(how: Reading, k: Kernel, now: nat)
    requires Inv(k) && k.now <= now
    ensures var r, rel := Tick(how, k, now), Released(k, now);
      if StopsStale(k, now) || (how == AsWritten && NothingThere(k, now)) then r.fault else Decided(rel, r)
  {
    TickIs(Repaired, k, now);
    ReleasedKeeps(k, now);
    StopsStaleIff(k, now);
    TickAsWritten(k, now);
    TickKeeps(k, now);
    var rel := Released(k, now);
    hide Tick, Released, StopsStale, NothingThere, Decide, Decided, Inv, JobTakesOver, MayLead;
    if !StopsStale(k, now) {
      DecideOutcome(rel);
    }
  }

  /** What the decision of the interrupt makes of the state `k` after the release loop. */
  ghost predicate Decided(k: Kernel, r: Kernel)
    requires Shape(k) && Shape(r)
  {
    var f, jobs, c := FirstReady(k), k.q[0], Current(k);
    if k.cur == TID_NULL then
      if f < NUM_READY then r.cur == k.q[f][0] && r.q == k.q[f := k.q[f][1..]] else r == k
    else if jobs == [] || (c.rt && k.tcb[jobs[0]].deadline >= c.deadline) then r == k
    else
      && r.cur == jobs[0]
      && if c.rt then r.q == k.q[0 := Sooner(k, jobs[1..], k.cur, c.deadline)]
         else var i := Order(c.prio);
              0 < i < NUM_READY && r.q == k.q[i := [k.cur] + k.q[i]][0 := jobs[1..]]
  }

  lemma DecideOutcome(k: Kernel)
    requires Inv(k) && !(JobTakesOver(k) && !MayLead(k, k.cur))
    ensures Decided(k, Decide(Repaired, k))
  {
    var f := FirstReady(k);
    if k.cur == TID_NULL {
      if f < NUM_READY {
        ReadyMember(k, f, FirstOf(k, f));
      }
    } else if f < NUM_READY {
      TaskIsOk(k, k.cur);
      var h := FirstOf(k, f);
      ReadyMember(k, f, h);
      assert TaskOk(k, h);
      if f == 0 && !Current(k).rt {
        StopOrdinaryForm(k, h);
        HeadOrdinary(k, k.cur, ReadyOf(Current(k).prio));
        hide Decide, Inv, Mid, PushHead;
      } else if f == 0 && k.tcb[h].deadline < Current(k).deadline {
        LaterOutcome(k, h);
        hide Decide, Inv, Mid;
      } else {
        PutBack(k);
        hide PushHead, Scheduler, Inv, Mid;
      }
    } else {
      TaskIsOk(k, k.cur);
    }
  }

  function FirstOf(k: Kernel, f: nat): (h: Tid)
    requires Shape(k) && f < NUM_READY && k.q[f] != []
    ensures h == k.q[f][0] && h in k.q[f]
  {
    k.q[f][0]
  }

  lemma LaterOutcome(k: Kernel, h: Tid)
    requires Inv(k) && k.cur != TID_NULL && Current(k).rt && k.q[0] != [] && h == k.q[0][0]
    requires k.tcb[h].deadline < Current(k).deadline
    ensures var r := Decide(Repaired, k);
      r.cur == h && r.q == k.q[0 := Sooner(k, k.q[0][1..], k.cur, Current(k).deadline)]
  {
    TaskIsOk(k, k.cur);
    AllReady(k);
    assert h in k.q[0];
    ReadyMember(k, 0, h);
    assert TaskOk(k, h) && NoDup(k.q[0]);
    StopRealTimeForm(k, h);
    LaterQueued(k, h);
    hide Decide, Dispatch, PushTail, Inv, Mid;
    var m := SetState(PushTail(k, k.cur, 0), k.cur, READY);
    FirstReadyIs(m, 0);
    DispatchForm(m, 0, h);
  }

  lemma LaterQueued(k: Kernel, h: Tid)
    requires Shape(k) && Current(k).rt && Current(k).prio == PRIO_RT && Current(k).state == RUNNING
    requires k.q[0] != [] && h == k.q[0][0] && k.tcb[h].deadline < Current(k).deadline && h != k.cur
    requires forall s: Tid :: s in k.q[0] ==> k.tcb[s].state == READY
    ensures var m := SetState(PushTail(k, k.cur, 0), k.cur, READY);
      && m.q == k.q[0 := [h] + Sooner(k, k.q[0][1..], k.cur, Current(k).deadline)]
      && m.tcb[h].state != BLK_SEND
  {
    TailReady(k, k.cur);
    BehindHead(k, k.(q := k.q[0 := k.q[0][1..]]), k.cur);
    assert h in k.q[0];
    hide PushTail;
  }
}
