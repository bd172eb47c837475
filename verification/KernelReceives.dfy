// Receiving: the senders that are let in, and that every receive keeps the invariant.
module KernelReceives {
  import opened Readings
  import opened Seqs
  import opened Deadlines
  import opened Messages
  import opened TaskStates
  import opened Kernel
  import opened Syscalls
  import opened KernelInv
  import opened KernelSteps
  import opened KernelMessages

  // ---------------------------------------------------------------- letting senders in

  /** The messages of blocked senders, in the order in which they wait. */
  function Held(k: Kernel, ts: seq<Tid>): (ms: seq<Message>)
    requires |k.tcb| == MAX_TASKS
    ensures |ms| == |ts|
  {
    seq(|ts|, i requires 0 <= i < |ts| => k.tcb[ts[i]].msg)
  }

  lemma HeldSame(k: Kernel, r: Kernel, ts: seq<Tid>)
    requires Shape(k) && Shape(r) && forall t: Tid :: t in ts ==> r.tcb[t].msg == k.tcb[t].msg
    ensures Held(r, ts) == Held(k, ts)
  {
    assert forall i :: 0 <= i < |ts| ==> ts[i] in ts;
  }

  /** How many of these messages a ring takes in, one after another, before the first that does not
      fit. */
  function Admitted(cap: nat, used: nat, ms: seq<Message>): (n: nat)
    requires used <= cap
    ensures n <= |ms|
    decreases |ms|
  {
    if ms == [] || CanFit(cap, used, |ms[0]|) != Fits then 0
    else 1 + Admitted(cap, used + |ms[0]|, ms[1..])
  }

  /** They fit together, and with the next one they would not. */
  lemma {:induction false} AdmittedFits(cap: nat, used: nat, ms: seq<Message>)
    requires used <= cap
    ensures var n := Admitted(cap, used, ms);
      && used + |Flatten(ms[..n])| <= cap
      && (n < |ms| ==> used + |Flatten(ms[..n + 1])| > cap)
    decreases |ms|
  {
    var n := Admitted(cap, used, ms);
    if ms == [] {
    } else if CanFit(cap, used, |ms[0]|) != Fits {
      assert ms[..1][1..] == [];
    } else {
      AdmittedFits(cap, used + |ms[0]|, ms[1..]);
      assert ms[..n][0] == ms[0] && ms[..n][1..] == ms[1..][..n - 1];
      if n < |ms| {
        assert ms[..n + 1][0] == ms[0] && ms[..n + 1][1..] == ms[1..][..n];
      }
    }
  }

  /** The tasks among these that belong to ready queue `i`, in order. */
  function Of(k: Kernel, ts: seq<Tid>, i: nat): seq<Tid>
    requires |k.tcb| == MAX_TASKS
    decreases |ts|
  {
    if ts == [] then [] else (if Order(k.tcb[ts[0]].prio) == i then [ts[0]] else []) + Of(k, ts[1..], i)
  }

  lemma {:induction false} OfSame(k: Kernel, r: Kernel, ts: seq<Tid>, i: nat)
    requires Shape(k) && Shape(r) && forall t: Tid :: r.tcb[t].prio == k.tcb[t].prio
    ensures Of(r, ts, i) == Of(k, ts, i)
    decreases |ts|
  {
    if ts == [] {
    } else {
      OfSame(k, r, ts[1..], i);
    }
  }

  /** `d` is `k` after the first `n` waiters of mailbox `b` were let in: their messages are in the
      ring, in order, and they are ready, in order, behind those who were. */
  ghost predicate LetIn(k: Kernel, d: Kernel, b: nat, n: nat)
    requires Shape(k) && b < NUM_BOXES
  {
    var w := k.q[WaitOf(b)];
    && Shape(d) && d.cur == k.cur && n <= |w|
    && d.box == k.box[b := k.box[b].(ring := k.box[b].ring + Held(k, w[..n]))]
    && d.q[WaitOf(b)] == w[n..]
    && (forall i :: 0 <= i < NUM_READY ==> d.q[i] == k.q[i] + Of(k, w[..n], i))
    && (forall j :: NUM_READY <= j < NUM_QUEUES && j != WaitOf(b) ==> d.q[j] == k.q[j])
  }

  /** The loop lets in exactly the first waiters, one after another, up to the first that does not fit. */
  lemma {:induction false} DrainLetsIn(k: Kernel, b: nat)
    requires Shape(k) && b < NUM_BOXES && Mid(k, k.cur, b) && Unawaited(k, b)
    ensures LetIn(k, Drain(k, b), b, Admitted(k.box[b].cap, Used(k.box[b]), Held(k, k.q[WaitOf(b)])))
    decreases |k.q[WaitOf(b)]|
  {
    hide Drain, LetIn, Mid, Fitting, DrainStep, OneRound, Unawaited;
    var w := k.q[WaitOf(b)];
    if w == [] || !Fitting(k.box[b], |k.tcb[w[0]].msg|) {
      NoneLetIn(k, b);
    } else {
      var r := DrainStep(k, b);
      var n := Admitted(r.box[b].cap, Used(r.box[b]), Held(r, r.q[WaitOf(b)]));
      FirstRound(k, b);
      AfterFirst(k, r, b);
      DrainLetsIn(r, b);
      OneMore(k, r, Drain(r, b), b, n);
    }
  }

  lemma NoneLetIn(k: Kernel, b: nat)
    requires Shape(k) && b < NUM_BOXES
    requires k.q[WaitOf(b)] == [] || !Fitting(k.box[b], |k.tcb[k.q[WaitOf(b)][0]].msg|)
    ensures LetIn(k, Drain(k, b), b, Admitted(k.box[b].cap, Used(k.box[b]), Held(k, k.q[WaitOf(b)])))
  {
    var w := k.q[WaitOf(b)];
    assert w != [] ==> Held(k, w)[0] == k.tcb[w[0]].msg;
    assert w[..0] == [] && w[0..] == w && k.box[b].ring + [] == k.box[b].ring;
    assert k.box[b := k.box[b].(ring := k.box[b].ring)] == k.box;
  }

  /** `r` is `k` after one round of the loop. */
  ghost predicate OneRound(k: Kernel, r: Kernel, b: nat)
    requires Shape(k) && b < NUM_BOXES && k.q[WaitOf(b)] != []
  {
    var t := k.q[WaitOf(b)][0];
    var o := ReadyOf(k.tcb[t].prio);
    && Shape(r) && r.cur == k.cur && o > 0
    && Fitting(k.box[b], |k.tcb[t].msg|)
    && r.q == k.q[WaitOf(b) := k.q[WaitOf(b)][1..]][o := k.q[o] + [t]]
    && r.box == k.box[b := k.box[b].(ring := k.box[b].ring + [k.tcb[t].msg])]
    && (forall t: Tid :: r.tcb[t].msg == k.tcb[t].msg && r.tcb[t].prio == k.tcb[t].prio)
  }

  lemma FirstRound(k: Kernel, b: nat)
    requires Shape(k) && b < NUM_BOXES && Mid(k, k.cur, b) && Unawaited(k, b) && k.q[WaitOf(b)] != []
    requires Fitting(k.box[b], |k.tcb[k.q[WaitOf(b)][0]].msg|)
    ensures var r := DrainStep(k, b);
      && OneRound(k, r, b) && Mid(r, r.cur, b) && Unawaited(r, b)
      && Drain(k, b) == Drain(r, b) && |r.q[WaitOf(b)]| < |k.q[WaitOf(b)]|
  {
    DrainStepForm(k, b);
    FirstWaiter(k, b);
    DrainStepKeeps(k, b);
    hide Mid;
  }

  /** What the first round leaves the others to do. */
  lemma AfterFirst(k: Kernel, r: Kernel, b: nat)
    requires Shape(k) && Shape(r) && b < NUM_BOXES && k.q[WaitOf(b)] != [] && OneRound(k, r, b)
    ensures Admitted(k.box[b].cap, Used(k.box[b]), Held(k, k.q[WaitOf(b)]))
         == 1 + Admitted(r.box[b].cap, Used(r.box[b]), Held(r, r.q[WaitOf(b)]))
  {
    var w := k.q[WaitOf(b)];
    FlattenAppend(k.box[b].ring, k.tcb[w[0]].msg);
    assert Held(k, w)[0] == k.tcb[w[0]].msg && Held(k, w)[1..] == Held(k, w[1..]);
    HeldSame(k, r, w[1..]);
  }

  lemma OneMore(k: Kernel, r: Kernel, d: Kernel, b: nat, n: nat)
    requires Shape(k) && Shape(r) && b < NUM_BOXES && k.q[WaitOf(b)] != []
    requires OneRound(k, r, b) && LetIn(r, d, b, n)
    ensures LetIn(k, d, b, n + 1)
  {
    var w := k.q[WaitOf(b)];
    var t, v := w[0], w[1..][..n];
    assert r.q[WaitOf(b)] == w[1..];
    assert w[..n + 1] == [t] + v && w[1..][n..] == w[n + 1..];
    HeldSame(k, r, v);
    assert Held(k, [t] + v) == [k.tcb[t].msg] + Held(k, v);
    assert k.box[b].ring + [k.tcb[t].msg] + Held(k, v) == k.box[b].ring + ([k.tcb[t].msg] + Held(k, v));
    assert d.box == k.box[b := k.box[b].(ring := k.box[b].ring + Held(k, w[..n + 1]))];
    forall i | 0 <= i < NUM_READY
      ensures d.q[i] == k.q[i] + Of(k, w[..n + 1], i)
    {
      OfSame(k, r, v, i);
      assert ([t] + v)[0] == t && ([t] + v)[1..] == v;
    }
  }

  lemma {:induction false} OfMember(k: Kernel, ts: seq<Tid>, i: nat)
    requires |k.tcb| == MAX_TASKS
    ensures forall t: Tid :: t in Of(k, ts, i) <==> t in ts && Order(k.tcb[t].prio) == i
    decreases |ts|
  {
    if ts == [] {
    } else {
      assert ts == [ts[0]] + ts[1..];
      OfMember(k, ts[1..], i);
    }
  }

  // ---------------------------------------------------------------- receives

  /** Taking the first message out of a ring nobody is inside a receive on. */
  lemma PopRingKeeps(k: Kernel, b: nat)
    requires Inv(k) && b < NUM_BOXES && k.box[b].ring != [] && Unawaited(k, b)
    ensures var r := PopRing(k, b);
      Mid(r, k.cur, b) && r.cur == k.cur && r.tcb == k.tcb && Unawaited(r, b)
  {
    var r := PopRing(k, b);
    SameTasks(k, r);
    forall s: Tid | s != TID_NULL
      ensures TaskOk(r, s)
    {
      assert TaskOk(k, s);
    }
    forall j | 0 <= j < NUM_BOXES
      ensures BoxOpen(r, j) && (j != b ==> BoxOk(r, j))
    {
      assert BoxOpen(k, j) && BoxOk(k, j);
    }
  }

  /** The current task leaves its receive. */
  lemma LeaveReceive(k: Kernel)
    requires Inv(k) && k.cur != TID_NULL
    ensures Inv(k.(tcb := k.tcb[k.cur := Current(k).(awaiting := None)]))
  {
    var t := k.cur;
    var r := k.(tcb := k.tcb[t := Current(k).(awaiting := None)]);
    assert TaskOk(k, t);
    Homeless(k, t);
    Change(k, r, t);
    SortedChange(k, r, t);
    OthersOk(k, r, t, NUM_BOXES);
  }

  /** The running ordinary task blocks on its empty ring. */
  lemma BlockReceiveKeeps(k: Kernel, len: nat)
    requires Inv(k) && k.cur != TID_NULL && !Current(k).rt && k.box[k.cur].active && k.box[k.cur].ring == []
    ensures var r := RunNew(k.(tcb := k.tcb[k.cur := Current(k).(state := BLK_RECV, awaiting := Some(len))]));
      Inv(r) && PrioritySafe(r) && EdfSafe(r)
  {
    var r := k.(tcb := k.tcb[k.cur := Current(k).(state := BLK_RECV, awaiting := Some(len))]);
    BlockedIsIdle(k, len);
    RunNewRuns(r);
    RanKeeps(r, RunNew(r));
  }

  lemma BlockedIsIdle(k: Kernel, len: nat)
    requires Inv(k) && k.cur != TID_NULL && !Current(k).rt && k.box[k.cur].active && k.box[k.cur].ring == []
    ensures var r := k.(tcb := k.tcb[k.cur := Current(k).(state := BLK_RECV, awaiting := Some(len))]);
      Shape(r) && Idle(r) && r.tcb[k.cur].state == BLK_RECV
  {
    var t := k.cur;
    var r := k.(tcb := k.tcb[t := Current(k).(state := BLK_RECV, awaiting := Some(len))]);
    assert TaskOk(k, t);
    Homeless(k, t);
    Change(k, r, t);
    SortedChange(k, r, t);
    OthersOk(k, r, t, NUM_BOXES);
  }

  /** The senders that a receive of the current task's lets in, once the first message is out. */
  function LetInBy(k: Kernel): seq<Tid>
    requires Shape(k) && k.box[k.cur].ring != []
  {
    var p := PopRing(k, k.cur);
    var w := k.q[WaitOf(k.cur)];
    w[..Admitted(p.box[k.cur].cap, Used(p.box[k.cur]), Held(p, w))]
  }

  /** After a receive the current task can go to the front of its ready queue: it has no stale link,
      or another task is ready there, or has been let in there. */
  predicate LeadsAfterReceive(k: Kernel)
    requires Shape(k) && k.box[k.cur].ring != []
  {
    var i := ReadyOf(Current(k).prio);
    Current(k).stale ==> i >= 0 && (k.q[i] != [] || Of(k, LetInBy(k), i) != [])
  }

  lemma LetInByReceive(k: Kernel)
    requires Inv(k) && k.box[k.cur].ring != [] && Unawaited(k, k.cur)
    ensures var p := PopRing(k, k.cur);
      var d := Drain(p, k.cur);
      && p.q == k.q && p.tcb == k.tcb && p.cur == k.cur
      && Inv(d) && d.cur == k.cur && d.tcb[k.cur] == k.tcb[k.cur]
      && LetIn(p, d, k.cur, |LetInBy(k)|) && LetInBy(k) == k.q[WaitOf(k.cur)][..|LetInBy(k)|]
  {
    PopRingKeeps(k, k.cur);
    DrainLetsIn(PopRing(k, k.cur), k.cur);
    DrainKeeps(PopRing(k, k.cur), k.cur);
    hide Drain, Inv, LetIn;
  }

  lemma ReceiveLeads(k: Kernel)
    requires Inv(k) && k.box[k.cur].ring != [] && Unawaited(k, k.cur)
    ensures MayLead(Drain(PopRing(k, k.cur), k.cur), k.cur) <==> LeadsAfterReceive(k)
  {
    LetInByReceive(k);
    var i := ReadyOf(Current(k).prio);
    if i >= 0 {
      OfSame(k, PopRing(k, k.cur), LetInBy(k), i);
    }
    hide Drain, Inv, LetInBy;
  }

  /** What the receive needs does not depend on whether it is the first half or the second. */
  lemma SameReceive(k: Kernel)
    requires Shape(k) && k.box[k.cur].ring != []
    ensures var back := k.(tcb := k.tcb[k.cur := Current(k).(awaiting := None)]);
      LeadsAfterReceive(back) <==> LeadsAfterReceive(k)
  {
    var back := k.(tcb := k.tcb[k.cur := Current(k).(awaiting := None)]);
    var p, b := PopRing(k, k.cur), PopRing(back, k.cur);
    HeldSame(p, b, k.q[WaitOf(k.cur)]);
    var i := ReadyOf(Current(k).prio);
    if i >= 0 {
      OfSame(k, back, LetInBy(k), i);
    }
  }

  /** Letting senders in and then letting the scheduler decide. */
  lemma FinishReceive(k: Kernel)
    requires Shape(k) && Mid(k, k.cur, k.cur) && Unawaited(k, k.cur) && k.cur != TID_NULL && !Current(k).rt
    ensures var d := Drain(k, k.cur);
      && Inv(d) && d.cur == k.cur && d.tcb[k.cur] == k.tcb[k.cur]
      && (MayLead(d, k.cur) ==> Inv(Preempt(d)) && PrioritySafe(Preempt(d)) && EdfSafe(Preempt(d)))
      && (!MayLead(d, k.cur) ==> Preempt(d).fault)
  {
    var d := Drain(k, k.cur);
    DrainKeeps(k, k.cur);
    if MayLead(d, k.cur) {
      PreemptKeeps(d);
    } else {
      PreemptFaults(d);
    }
  }

  /** The receive finds a message, and it fits the buffer. */
  predicate Receives(k: Kernel, len: nat)
    requires Shape(k)
  {
    k.box[k.cur].active && k.box[k.cur].ring != [] && |k.box[k.cur].ring[0]| <= len
  }

  /** The state after a receive that finds a message is sound exactly if the receiver can lead its
      queue then. */
  lemma TakenKeeps(k: Kernel)
    requires Inv(k) && k.cur != TID_NULL && !Current(k).rt && Current(k).awaiting == None && k.box[k.cur].ring != []
    ensures var r := Preempt(Drain(PopRing(k, k.cur), k.cur));
      && (LeadsAfterReceive(k) ==> Inv(r) && PrioritySafe(r) && EdfSafe(r))
      && (!LeadsAfterReceive(k) ==> r.fault)
  {
    PopRingKeeps(k, k.cur);
    FinishReceive(PopRing(k, k.cur));
    ReceiveLeads(k);
    hide LeadsAfterReceive, PopRing, Drain, Preempt, Inv;
  }

  lemma RecvKeeps(k: Kernel, len: nat)
    requires Inv(k) && Enabled(k, OpRecv(len)) && !Current(k).rt && (Receives(k, len) ==> LeadsAfterReceive(k))
    ensures var r := Recv(k, len).0;
      Inv(r) && (PrioritySafe(k) ==> PrioritySafe(r)) && (EdfSafe(k) ==> EdfSafe(r))
  {
    if k.box[k.cur].active && k.box[k.cur].ring == [] {
      BlockReceiveKeeps(k, len);
    } else if Receives(k, len) {
      TakenKeeps(k);
    }
    hide PopRing, Drain, Preempt, RunNew, Inv;
  }

  /** As before a receive, but one that has waited; if its message does not fit, nobody is let in. */
  predicate LeadsAfterResume(k: Kernel)
    requires Shape(k) && Current(k).awaiting.Some?
  {
    if k.box[k.cur].ring != [] && |k.box[k.cur].ring[0]| <= Current(k).awaiting.value then LeadsAfterReceive(k)
    else MayLead(k, k.cur)
  }

  /** The second half keeps the invariant exactly if the receiver can lead its queue then. */
  lemma ResumeKeeps(k: Kernel)
    requires Inv(k) && Enabled(k, OpResume)
    ensures var r := Resume(k).0;
      && (LeadsAfterResume(k) ==> Inv(r) && PrioritySafe(r) && EdfSafe(r))
      && (!LeadsAfterResume(k) ==> r.fault)
  {
    var back := k.(tcb := k.tcb[k.cur := Current(k).(awaiting := None)]);
    assert k.cur != TID_NULL;
    assert TaskOk(k, k.cur);
    LeaveReceive(k);
    if k.box[k.cur].ring != [] && |k.box[k.cur].ring[0]| <= Current(k).awaiting.value {
      TakenKeeps(back);
      SameReceive(k);
    } else {
      StillClosed(back, k.cur);
      FinishReceive(back);
      NobodyFits(back);
    }
    hide PopRing, Drain, Preempt, Inv, LeadsAfterReceive;
  }

  /** While the ring is as it was, nobody is let in. */
  lemma NobodyFits(k: Kernel)
    requires Inv(k)
    ensures Drain(k, k.cur) == k
  {
    assert BoxOk(k, k.cur);
  }

  lemma StillClosed(k: Kernel, b: nat)
    requires Inv(k)
    ensures Mid(k, k.cur, b)
  {
    forall j | 0 <= j < NUM_BOXES
      ensures BoxOpen(k, j) && (j != b ==> BoxOk(k, j))
    {
      assert BoxOpen(k, j) && BoxOk(k, j);
    }
  }

  lemma RecvNbKeeps(k: Kernel, len: nat)
    requires Inv(k) && Enabled(k, OpRecvNb(len)) && !Current(k).rt && (Receives(k, len) ==> LeadsAfterReceive(k))
    ensures var r := RecvNb(k, len, false).0;
      Inv(r) && (PrioritySafe(k) ==> PrioritySafe(r)) && (EdfSafe(k) ==> EdfSafe(r))
  {
    if Receives(k, len) {
      TakenKeeps(k);
    }
    hide PopRing, Drain, Preempt, Inv;
  }

  /** Otherwise a stale link gets into the receiver's queue. */
  lemma ReceiveFaults(k: Kernel, len: nat)
    requires Inv(k) && Enabled(k, OpRecv(len)) && !Current(k).rt && Receives(k, len) && !LeadsAfterReceive(k)
    ensures Recv(k, len).0.fault && RecvNb(k, len, false).0.fault
  {
    TakenKeeps(k);
    hide PopRing, Drain, Preempt, Inv, RunNew;
  }

  lemma UartRecvKeeps(k: Kernel, len: nat)
    requires Inv(k)
    ensures Inv(RecvNb(k, len, true).0)
    ensures EdfSafe(k) ==> EdfSafe(RecvNb(k, len, true).0)
  {
    var ring := k.box[UART_BOX].ring;
    if k.box[UART_BOX].active && ring != [] && len >= |ring[0]| {
      PopRingKeeps(k, UART_BOX);
      DrainKeeps(PopRing(k, UART_BOX), UART_BOX);
    }
  }
}
