// What the steps leave alone: the mail, the clocks of real-time tasks, and the links of tasks.
module KernelFrames {
  import opened Readings
  import opened Seqs
  import opened Deadlines
  import opened Messages
  import opened TaskStates
  import opened Kernel
  import opened Syscalls
  import opened KernelInv
  import opened KernelMessages
  import opened KernelRealTime

  /** No message has moved. */
  ghost predicate SameMail(k: Kernel, r: Kernel) {
    && Shape(k) && Shape(r) && r.box == k.box
    && (forall b :: 0 <= b < NUM_BOXES ==> r.q[WaitOf(b)] == k.q[WaitOf(b)])
    && (forall t: Tid :: r.tcb[t].msg == k.tcb[t].msg)
  }

  /** A task has kept its kind, its privilege, its period and its deadline. */
  predicate SameClock(a: Task, b: Task) {
    && b.rt == a.rt && b.priv == a.priv && b.period == a.period && b.deadline == a.deadline
    && (a.state != DORMANT ==> b.state != DORMANT)
  }

  ghost predicate SameClocks(k: Kernel, r: Kernel) {
    Shape(k) && Shape(r) && forall t: Tid :: SameClock(k.tcb[t], r.tcb[t])
  }

  /** No ordinary task has come to have a stale link. */
  ghost predicate NoNewStale(k: Kernel, r: Kernel) {
    Shape(k) && Shape(r) && forall t: Tid :: r.tcb[t].stale ==> k.tcb[t].stale || r.tcb[t].rt
  }

  ghost predicate Calm(k: Kernel, r: Kernel) {
    SameClocks(k, r) && NoNewStale(k, r)
  }

  /** Mail and clocks are the same; and, unless a task may be taken from a queue as written, so are the
      links. */
  ghost predicate Kept(how: Reading, k: Kernel, r: Kernel) {
    SameMail(k, r) && SameClocks(k, r) && (how == Repaired ==> NoNewStale(k, r))
  }

  predicate NoWaitingList(i: int) {
    i < NUM_READY || i == SUSP
  }

  // ---------------------------------------------------------------- the primitive moves

  /** A task of which a move has changed no more than its state, or cleared its link. */
  predicate SameTask(a: Task, b: Task) {
    b == a.(state := b.state, stale := b.stale) && (b.stale ==> a.stale) && (a.state != DORMANT ==> b.state != DORMANT)
  }

  /** A move on one queue. */
  ghost predicate Rearranged(k: Kernel, r: Kernel, i: int) {
    && Shape(k) && Shape(r) && r.box == k.box
    && (forall t: Tid :: SameTask(k.tcb[t], r.tcb[t]))
    && (forall j :: 0 <= j < NUM_QUEUES && j != i ==> r.q[j] == k.q[j])
  }

  lemma RearrangedKept(k: Kernel, r: Kernel, i: int)
    requires Rearranged(k, r, i)
    ensures Calm(k, r) && (NoWaitingList(i) ==> SameMail(k, r))
  {
  }

  /** One queue and one task are written. */
  lemma WriteKept(k: Kernel, i: int, s: seq<Tid>, t: Tid, task: Task)
    requires Shape(k) && i < NUM_QUEUES && SameTask(k.tcb[t], task)
    ensures Rearranged(k, k.(tcb := k.tcb[t := task]), i) && Rearranged(k, k.(fault := true), i)
    ensures i >= 0 ==> Rearranged(k, k.(q := k.q[i := s]), i)
  {
  }

  lemma RearrangedThen(k: Kernel, m: Kernel, r: Kernel, i: int)
    requires Rearranged(k, m, i) && Rearranged(m, r, i)
    ensures Rearranged(k, r, i)
  {
  }

  lemma PushHeadKept(k: Kernel, t: Tid, i: int)
    requires Shape(k) && i < NUM_QUEUES
    ensures Calm(k, PushHead(k, t, i)) && (NoWaitingList(i) ==> SameMail(k, PushHead(k, t, i)))
  {
    hide Calm, SameMail, Rearranged, Flatten;
    var c := k.tcb[t];
    var linked := Relinked(k, t);
    WriteKept(k, i, [], t, c.(stale := false));
    WriteKept(k, i, [], t, c);
    if i >= 0 {
      var s := [t] + k.q[i];
      WriteKept(linked, i, s, t, linked.tcb[t]);
      var queued := linked.(q := k.q[i := s]);
      WriteKept(queued, i, s, t, queued.tcb[t].(state := READY));
      RearrangedThen(k, linked, queued, i);
      RearrangedThen(k, queued, SetState(queued, t, READY), i);
    }
    RearrangedKept(k, PushHead(k, t, i), i);
  }

  lemma PushTailKept(k: Kernel, t: Tid, i: int)
    requires Shape(k) && i < NUM_QUEUES
    ensures Calm(k, PushTail(k, t, i)) && (NoWaitingList(i) ==> SameMail(k, PushTail(k, t, i)))
  {
    hide Calm, SameMail, Rearranged, Flatten, TailPlace;
    var c := k.tcb[t];
    var linked := Relinked(k, t);
    WriteKept(k, i, [], t, c.(stale := false));
    WriteKept(k, i, [], t, c);
    if i >= 0 {
      var s := InsertAt(k.q[i], TailPlace(k, t, i), t);
      var l := s[|s| - 1];
      WriteKept(linked, i, s, t, linked.tcb[t]);
      var queued := linked.(q := k.q[i := s]);
      WriteKept(queued, i, s, l, queued.tcb[l].(state := READY));
      RearrangedThen(k, linked, queued, i);
      RearrangedThen(k, queued, SetState(queued, l, READY), i);
    }
    RearrangedKept(k, PushTail(k, t, i), i);
  }

  lemma PopHeadKept(k: Kernel, i: nat)
    requires Shape(k) && i < NUM_QUEUES && k.q[i] != []
    ensures Calm(k, PopHead(k, i)) && (NoWaitingList(i) ==> SameMail(k, PopHead(k, i)))
  {
    hide Calm, SameMail, Rearranged, Flatten;
    var t, s := k.q[i][0], k.q[i][1..];
    var popped := k.(q := k.q[i := s]);
    WriteKept(k, i, s, t, k.tcb[t]);
    WriteKept(popped, i, s, t, k.tcb[t].(state := READY));
    WriteKept(popped, i, s, t, k.tcb[t].(state := RUNNING));
    RearrangedThen(k, popped, PopHead(k, i), i);
    RearrangedKept(k, PopHead(k, i), i);
  }

  /** As written the link of the task that is taken may become stale; that of a real-time task does
      not count. */
  lemma PopTaskKept(how: Reading, k: Kernel, t: Tid, i: int)
    requires Shape(k) && i < NUM_QUEUES && NoWaitingList(i)
    ensures Kept(if k.tcb[t].rt then Repaired else how, k, PopTask(how, k, t, i))
  {
    hide Rearranged, Flatten, InMiddle, Remove, IndexOf;
    WriteKept(k, i, [], t, k.tcb[t]);
    RearrangedKept(k, k.(fault := true), i);
    RearrangedKept(k, k.(tcb := k.tcb[t := k.tcb[t]]), i);
    assert k.tcb[t := k.tcb[t]] == k.tcb;
    if i >= 0 {
      var s := Remove(k.q[i], t);
      WriteKept(k, i, s, t, k.tcb[t]);
      var removed := k.(q := k.q[i := s]);
      WriteKept(removed, i, s, t, k.tcb[t].(state := READY));
      RearrangedThen(k, removed, SetState(removed, t, READY), i);
      RearrangedKept(k, removed, i);
      RearrangedKept(k, SetState(removed, t, READY), i);
      Marked(k, removed, t);
    }
    hide SameMail, SameClocks, NoNewStale;
  }

  lemma Marked(k: Kernel, r: Kernel, t: Tid)
    requires Kept(Repaired, k, r)
    ensures Kept(if k.tcb[t].rt then Repaired else AsWritten, k, r.(tcb := r.tcb[t := r.tcb[t].(stale := true)]))
  {
  }

  /** Such steps follow one another; a change to one task's other fields is one. */
  lemma Then(how: Reading, k: Kernel, m: Kernel, r: Kernel)
    requires Kept(how, k, m) && Kept(how, m, r)
    ensures Kept(how, k, r)
  {
  }

  lemma Edited(k: Kernel, t: Tid, c: Tid, task: Task)
    requires Shape(k) && task.msg == k.tcb[t].msg && task.stale == k.tcb[t].stale && SameClock(k.tcb[t], task)
    ensures Kept(Repaired, k, k.(cur := c, tcb := k.tcb[t := task]))
    ensures Kept(Repaired, k, k.(tcb := k.tcb[t := task]))
    ensures Kept(Repaired, k, k.(cur := c)) && Kept(Repaired, k, k.(fault := true)) && Kept(Repaired, k, k)
  {
  }

  lemma DispatchKept(k: Kernel)
    requires Shape(k)
    ensures Kept(Repaired, k, Scheduler(k).0) && Kept(Repaired, k, Dispatch(k)) && Kept(Repaired, k, RunNew(k))
  {
    hide PopHead, SameMail, SameClocks, NoNewStale, Flatten, FirstReady;
    var f := FirstReady(k);
    Edited(k, k.cur, k.cur, Current(k));
    if f < NUM_READY {
      PopHeadKept(k, f);
    }
    var (s, t) := Scheduler(k);
    Edited(s, t, t, s.tcb[t].(state := RUNNING));
    Then(Repaired, k, s, s.(cur := t));
    var r := SetState(s.(cur := t), t, RUNNING);
    Then(Repaired, k, s, r);
    Edited(r, k.cur, r.cur, r.tcb[k.cur].(state := READY));
    Then(Repaired, k, r, SetState(r, k.cur, READY));
  }

  lemma PreemptKept(k: Kernel)
    requires Shape(k)
    ensures Kept(Repaired, k, Preempt(k))
  {
    hide PushHead, RunNew, SameMail, SameClocks, NoNewStale;
    var i := ReadyOf(Current(k).prio);
    PushHeadKept(k, k.cur, i);
    var p := PushHead(k, k.cur, i);
    DispatchKept(p);
    Then(Repaired, k, p, RunNew(p));
  }

  // ---------------------------------------------------------------- tasks

  lemma YieldKept(k: Kernel)
    requires Shape(k)
    ensures Kept(Repaired, k, Yield(k).0) && !Yield(k).1.Received?
  {
    hide PushTail, RunNew, SameMail, SameClocks, NoNewStale;
    Edited(k, k.cur, k.cur, Current(k));
    var i := ReadyOf(Current(k).prio);
    PushTailKept(k, k.cur, i);
    var queued := PushTail(k, k.cur, i);
    DispatchKept(k);
    DispatchKept(queued);
    Then(Repaired, k, queued, RunNew(queued));
  }

  /** The new task takes a slot that was free; the others are left alone. */
  lemma CreateFrame(k: Kernel, prio: nat, memory: bool, t: Tid)
    requires Shape(k)
    ensures var r := Create(k, prio, memory).0;
      SameMail(k, r) && NoNewStale(k, r) && (k.tcb[t].state != DORMANT ==> SameClock(k.tcb[t], r.tcb[t]))
    ensures !Create(k, prio, memory).1.Received?
  {
    var s := FreeSlot(k);
    assert SameMail(k, k) && NoNewStale(k, k);
    hide SameMail, SameClocks, NoNewStale;
    if k.tcb[s].state == DORMANT {
      CreatedFrame(k, s, prio, t);
    }
    hide PushTail, PushHead, NewTask, ReadyOf, SetState;
  }

  lemma CreatedFrame(k: Kernel, s: Tid, prio: nat, t: Tid)
    requires Shape(k) && k.tcb[s].state == DORMANT
    ensures var made := k.(tcb := k.tcb[s := NewTask(k, s, prio, false)]);
      var running := SetState(made.(cur := s), s, RUNNING);
      forall r :: r in {PushTail(made, s, ReadyOf(prio)), PushHead(running, k.cur, ReadyOf(made.tcb[k.cur].prio))} ==>
        SameMail(k, r) && NoNewStale(k, r) && (k.tcb[t].state != DORMANT ==> SameClock(k.tcb[t], r.tcb[t]))
  {
    var made := k.(tcb := k.tcb[s := NewTask(k, s, prio, false)]);
    assert SameMail(k, made) && NoNewStale(k, made);
    assert k.tcb[t].state != DORMANT ==> made.tcb[t] == k.tcb[t];
    hide PushTail, PushHead, SameMail, SameClocks, NoNewStale, ReadyOf, NewTask;
    var a := PushTail(made, s, ReadyOf(prio));
    PushTailKept(made, s, ReadyOf(prio));
    MailThen(k, made, a, t);
    var running := SetState(made.(cur := s), s, RUNNING);
    Edited(made, s, s, made.tcb[s].(state := RUNNING));
    var i := ReadyOf(made.tcb[k.cur].prio);
    PushHeadKept(running, k.cur, i);
    var b := PushHead(running, k.cur, i);
    Then(Repaired, made, running, b);
    MailThen(k, made, b, t);
  }

  lemma MailThen(k: Kernel, m: Kernel, r: Kernel, t: Tid)
    requires SameMail(k, m) && NoNewStale(k, m) && Kept(Repaired, m, r)
    ensures SameMail(k, r) && NoNewStale(k, r)
    ensures Shape(k) && Shape(m) && Shape(r)
    ensures m.tcb[t] == k.tcb[t] ==> SameClock(k.tcb[t], r.tcb[t])
  {
  }

  lemma ChangePrioKept(how: Reading, k: Kernel, t: Tid, prio: nat)
    requires Shape(k)
    ensures Kept(how, k, ChangePrio(how, k, t, prio))
  {
    var task := k.tcb[t].(prio := prio);
    var changed := k.(tcb := k.tcb[t := task]);
    hide PushHead, PushTail, PopHead, PopTask, SameMail, SameClocks, NoNewStale, ReadyOf;
    Edited(k, t, k.cur, task);
    Edited(k, t, t, task);
    var was := ReadyOf(k.tcb[t].prio);
    if Current(k).prio > prio && k.cur != t {
      var over := changed.(cur := t);
      var popped := PopTask(how, over, t, was);
      var i := ReadyOf(popped.tcb[k.cur].prio);
      MovesKept(how, k, over, t, was, k.cur, i);
      var r := PushHead(popped, k.cur, i);
      Edited(r, t, r.cur, r.tcb[t].(state := RUNNING));
      Then(how, k, r, SetState(r, t, RUNNING));
    } else if k.cur != t {
      MovesKept(how, k, changed, t, was, t, ReadyOf(prio));
    } else if k.tcb[t].prio < prio {
      LowerKept(how, k, prio);
    } else {
      Edited(k, t, t, k.tcb[t]);
    }
  }

  /** A task taken from one ready queue, and another put on one. */
  lemma MovesKept(how: Reading, k: Kernel, r: Kernel, t: Tid, i: int, u: Tid, j: int)
    requires Shape(k) && Shape(r) && Kept(how, k, r) && i < NUM_READY && j < NUM_READY
    ensures var p := PopTask(how, r, t, i);
      Kept(how, k, PushHead(p, u, j)) && Kept(how, k, PushTail(p, u, j))
  {
    hide PopTask, PushHead, PushTail, SameMail, SameClocks, NoNewStale;
    PopTaskKept(how, r, t, i);
    var p := PopTask(how, r, t, i);
    PushHeadKept(p, u, j);
    PushTailKept(p, u, j);
    Then(how, k, r, p);
    Then(how, k, p, PushHead(p, u, j));
    Then(how, k, p, PushTail(p, u, j));
  }

  lemma LowerKept(how: Reading, k: Kernel, prio: nat)
    requires Shape(k) && Current(k).prio < prio
    ensures Kept(how, k, ChangePrio(how, k, k.cur, prio))
  {
    hide PushTail, PopHead, ReadyOf, SameMail, SameClocks, NoNewStale;
    var t := k.cur;
    var task := k.tcb[t].(prio := prio);
    var changed := k.(tcb := k.tcb[t := task]);
    Edited(k, t, t, task);
    Edited(changed, t, t, task);
    var f := FirstReady(k);
    var h := if f < NUM_READY then k.q[f][0] else TID_NULL;
    var hq := ReadyOf(changed.tcb[h].prio);
    var popped := if hq < 0 then changed.(fault := true)
                  else if changed.q[hq] == [] then changed else PopHead(changed, hq);
    if hq >= 0 && changed.q[hq] != [] {
      PopHeadKept(changed, hq);
    }
    Then(how, k, changed, popped);
    HandOverKept(how, popped, h, t, ReadyOf(prio));
    Then(how, k, popped, SetState(PushTail(popped.(cur := h), t, ReadyOf(prio)), h, RUNNING));
  }

  lemma HandOverKept(how: Reading, k: Kernel, h: Tid, t: Tid, i: int)
    requires Shape(k) && i < NUM_READY
    ensures Kept(how, k, SetState(PushTail(k.(cur := h), t, i), h, RUNNING))
  {
    hide PushTail, SameMail, SameClocks, NoNewStale;
    var over := k.(cur := h);
    Edited(k, h, h, k.tcb[h]);
    PushTailKept(over, t, i);
    var r := PushTail(over, t, i);
    Then(how, k, over, r);
    Edited(r, h, r.cur, r.tcb[h].(state := RUNNING));
    Then(how, k, r, SetState(r, h, RUNNING));
  }

  lemma SetPrioKept(how: Reading, k: Kernel, tid: nat, prio: nat)
    requires Shape(k)
    ensures Kept(how, k, SetPrio(how, k, tid, prio).0) && !SetPrio(how, k, tid, prio).1.Received?
  {
    hide ChangePrio, SameMail, SameClocks, NoNewStale;
    Edited(k, k.cur, k.cur, Current(k));
    if tid < MAX_TASKS {
      var t: Tid := tid;
      var set0 := k.(tcb := k.tcb[t := k.tcb[t].(prio := prio)]);
      Edited(k, t, k.cur, k.tcb[t].(prio := prio));
      ChangePrioKept(how, set0, t, prio);
      Then(how, k, set0, ChangePrio(how, set0, t, prio));
      ChangePrioKept(how, k, t, prio);
    }
  }

  // ---------------------------------------------------------------- real-time tasks

  lemma QueuedAndLeft(k: Kernel, i: nat)
    requires Shape(k) && i < NUM_QUEUES && NoWaitingList(i)
    ensures Kept(Repaired, k, Dispatch(PushTail(k, k.cur, i)))
  {
    hide PushTail, Dispatch, SameMail, SameClocks, NoNewStale;
    PushTailKept(k, k.cur, i);
    var e := PushTail(k, k.cur, i);
    DispatchKept(e);
    Then(Repaired, k, e, Dispatch(e));
  }

  /** A task that becomes real-time gets its period, and its first deadline one period after the next
      tick; nobody else's clock changes. */
  lemma RtSetFrame(k: Kernel, usec: nat)
    requires Shape(k)
    ensures !RtSet(k, usec).1.Received?
    ensures var r := RtSet(k, usec).0;
      && SameMail(k, r) && NoNewStale(k, r) && (forall t: Tid :: t != k.cur || Current(k).rt ==> SameClock(k.tcb[t], r.tcb[t]))
      && (!Current(k).rt ==>
            r.tcb[k.cur].rt && r.tcb[k.cur].period == usec / 500 && r.tcb[k.cur].deadline == k.now + 1 + usec / 500)
  {
    if Current(k).rt {
      Edited(k, k.cur, k.cur, Current(k));
    } else {
      RtSetForm(k, usec);
      PromotedFrame(k, usec);
      hide RtSet, PushTail, Dispatch, SameMail, NoNewStale;
    }
  }

  lemma PromotedFrame(k: Kernel, usec: nat)
    requires Shape(k)
    ensures var r := Dispatch(PushTail(Promoted(k, usec), k.cur, 0));
      && SameMail(k, r) && NoNewStale(k, r) && (forall t: Tid :: t != k.cur ==> SameClock(k.tcb[t], r.tcb[t]))
      && r.tcb[k.cur].rt && r.tcb[k.cur].period == usec / 500 && r.tcb[k.cur].deadline == k.now + 1 + usec / 500
  {
    var p := Promoted(k, usec);
    QueuedAndLeft(p, 0);
    hide PushTail, Dispatch, Flatten;
  }

  /** A task that suspends itself gets its next deadline; nobody else's clock changes. */
  lemma RtSuspFrame(k: Kernel)
    requires Shape(k)
    ensures !RtSusp(k).1.Received?
    ensures var r := RtSusp(k).0;
      && SameMail(k, r) && NoNewStale(k, r)
      && (forall t: Tid :: t != k.cur || !Current(k).rt ==> SameClock(k.tcb[t], r.tcb[t]))
      && (Current(k).rt && Current(k).period > 0 ==>
            && r.tcb[k.cur].rt && r.tcb[k.cur].period == Current(k).period && r.tcb[k.cur].state != DORMANT
            && r.tcb[k.cur].deadline == NextDeadline(Current(k).deadline, Current(k).period, k.now))
  {
    hide PushTail, Dispatch, NextDeadline;
    var c := Current(k);
    if c.rt && !(c.deadline < k.now && c.period == 0) {
      QueuedAndLeft(
        k.(tcb := k.tcb[k.cur := c.(state := SUSPENDED, deadline := NextDeadline(c.deadline, c.period, k.now))]), SUSP);
    }
  }

  // ---------------------------------------------------------------- the timer interrupt

  lemma ReleaseTaskKept(k: Kernel, t: Tid)
    requires Shape(k) && k.tcb[t].rt
    ensures Kept(Repaired, k, ReleaseTask(k, t))
  {
    hide PopTask, PushTail, SameMail, SameClocks, ReadyOf;
    Edited(k, t, k.cur, k.tcb[t]);
    PopTaskKept(AsWritten, k, t, SUSP);
    var p := PopTask(AsWritten, k, t, SUSP);
    var out := SetState(p, t, READY);
    Edited(p, t, p.cur, p.tcb[t].(state := READY));
    Then(Repaired, k, p, out);
    var i := ReadyOf(k.tcb[t].prio);
    PushTailKept(out, t, i);
    Then(Repaired, k, out, PushTail(out, t, i));
  }

  /** The tasks of the suspended list are real-time. */
  lemma {:induction false} ReleaseKept(k: Kernel, ts: seq<Tid>)
    requires Shape(k) && forall t: Tid :: t in ts ==> k.tcb[t].rt
    ensures Kept(Repaired, k, ReleaseAll(k, ts))
    decreases |ts|
  {
    if ts == [] {
      Edited(k, k.cur, k.cur, Current(k));
    } else {
      hide SameMail, SameClocks, ReleaseTask;
      var n := ReleaseTask(k, ts[0]);
      ReleaseTaskKept(k, ts[0]);
      ReleaseKept(n, ts[1..]);
      Then(Repaired, k, n, ReleaseAll(n, ts[1..]));
    }
  }

  lemma DecideKept(how: Reading, k: Kernel)
    requires Shape(k)
    ensures Kept(Repaired, k, Decide(how, k))
  {
    hide PushTail, PushHead, Scheduler, SameMail, SameClocks, NoNewStale, ReadyOf;
    var (s, h) := Scheduler(k);
    DispatchKept(k);
    Edited(k, k.cur, k.cur, Current(k));
    var running := SetState(s.(cur := h), h, RUNNING);
    Edited(s, h, h, s.tcb[h].(state := RUNNING));
    Then(Repaired, k, s, running);
    Stopped(k, s, h);
    var i := ReadyOf(s.tcb[h].prio);
    PushHeadKept(s, h, i);
    Then(Repaired, k, s, PushHead(s, h, i));
  }

  /** The task that ran is put on its queue, at either end, and another runs. */
  lemma Stopped(k: Kernel, s: Kernel, h: Tid)
    requires Shape(k) && Shape(s) && Kept(Repaired, k, s)
    ensures var i := ReadyOf(s.tcb[k.cur].prio);
      var tail, head := SetState(PushTail(s, k.cur, i), k.cur, READY), PushHead(SetState(s, k.cur, READY), k.cur, i);
      && Kept(Repaired, k, SetState(tail.(cur := h), h, RUNNING))
      && Kept(Repaired, k, SetState(head.(cur := h), h, RUNNING))
  {
    hide PushTail, PushHead, SameMail, SameClocks, NoNewStale, ReadyOf;
    var t, i := k.cur, ReadyOf(s.tcb[k.cur].prio);
    var p := PushTail(s, t, i);
    PushTailKept(s, t, i);
    Then(Repaired, k, s, p);
    var tail := SetState(p, t, READY);
    Edited(p, t, p.cur, p.tcb[t].(state := READY));
    Then(Repaired, k, p, tail);
    Edited(tail, h, h, tail.tcb[h].(state := RUNNING));
    Then(Repaired, k, tail, SetState(tail.(cur := h), h, RUNNING));
    var ready := SetState(s, t, READY);
    Edited(s, t, s.cur, s.tcb[t].(state := READY));
    Then(Repaired, k, s, ready);
    var head := PushHead(ready, t, i);
    PushHeadKept(ready, t, i);
    Then(Repaired, k, ready, head);
    Edited(head, h, h, head.tcb[h].(state := RUNNING));
    Then(Repaired, k, head, SetState(head.(cur := h), h, RUNNING));
  }

  lemma TickKept(how: Reading, k: Kernel, now: nat)
    requires Inv(k)
    ensures Kept(Repaired, k, Tick(how, k, now))
  {
    var timed := k.(now := now);
    var marked := MarkFirst(timed);
    assert Kept(Repaired, k, timed) && Kept(Repaired, k, timed.(fault := true));
    forall t: Tid | t in k.q[SUSP]
      ensures marked.tcb[t].rt
    {
      SuspendedMember(k, t);
    }
    hide ReleaseAll, Decide, SameMail, SameClocks, NoNewStale, Inv, Flatten;
    if k.q[SUSP] != [] {
      Edited(timed, k.q[SUSP][0], k.cur, timed.tcb[k.q[SUSP][0]].(state := SUSPENDED));
    } else {
      Edited(timed, k.cur, k.cur, Current(k));
    }
    var r := ReleaseAll(marked, k.q[SUSP]);
    ReleaseKept(marked, k.q[SUSP]);
    DecideKept(how, r);
    Then(Repaired, k, timed, marked);
    Then(Repaired, k, marked, r);
    Then(Repaired, k, r, Decide(how, r));
  }

  // ---------------------------------------------------------------- messages

  /** Putting a message into a ring touches no task. */
  lemma RingTouchesNoTask(k: Kernel, b: nat, m: Message)
    requires Shape(k) && b < NUM_BOXES
    ensures PushRing(k, b, m).tcb == k.tcb && PushRing(k, b, m).cur == k.cur
  {
  }

  lemma CalmThen(k: Kernel, m: Kernel, r: Kernel)
    requires Calm(k, m) && Calm(m, r)
    ensures Calm(k, r)
  {
  }

  lemma RingCalm(k: Kernel, b: nat, m: Message)
    requires Shape(k) && b < NUM_BOXES
    ensures Calm(k, PushRing(k, b, m))
  {
    RingTouchesNoTask(k, b, m);
    hide PushRing;
  }

  lemma ReadyCalm(k: Kernel, t: Tid)
    requires Shape(k)
    ensures Calm(k, SetState(k, t, READY))
  {
  }

  lemma PreemptCalm(k: Kernel)
    requires Shape(k)
    ensures Calm(k, Preempt(k))
  {
    PreemptKept(k);
    hide Preempt, SameMail, SameClocks, NoNewStale;
  }

  lemma DeliverCalm(k: Kernel, b: nat, m: Message)
    requires Shape(k) && b < NUM_BOXES
    ensures Calm(k, Deliver(k, b, m)) && Calm(k, Preempt(Deliver(k, b, m)))
  {
    hide PushTail, PushRing, Preempt, Calm, Flatten;
    var pushed := PushRing(k, b, m);
    RingCalm(k, b, m);
    if b < MAX_TASKS {
      var i := ReadyOf(pushed.tcb[b].prio);
      PushTailKept(pushed, b, i);
      var queued := PushTail(pushed, b, i);
      ReadyCalm(queued, b);
      CalmThen(pushed, queued, SetState(queued, b, READY));
      CalmThen(k, pushed, SetState(queued, b, READY));
    }
    var d := Deliver(k, b, m);
    PreemptCalm(d);
    CalmThen(k, d, Preempt(d));
  }

  lemma BlockCalm(k: Kernel, b: nat, m: Message)
    requires Shape(k) && b < NUM_BOXES
    ensures Calm(k, BlockSend(k, b, m))
  {
    hide PushTail, RunNew;
    var blocked := k.(tcb := k.tcb[k.cur := Current(k).(state := BLK_SEND, msg := m, dest := b)]);
    PushTailKept(blocked, k.cur, WaitOf(b));
    DispatchKept(PushTail(blocked, k.cur, WaitOf(b)));
  }

  lemma SendCalm(k: Kernel, dst: nat, buf: seq<Byte>)
    requires Shape(k) && Readable(buf)
    ensures Calm(k, Send(k, dst, buf).0) && Calm(k, SendNb(k, dst, buf).0)
  {
    assert Calm(k, k) && Calm(k, k.(fault := true));
    hide Deliver, Preempt, BlockSend, Calm;
    if BoxOf(dst).Some? && SendError(k, dst, buf) == None {
      DeliverCalm(k, BoxOf(dst).value, MessageOf(buf));
      BlockCalm(k, BoxOf(dst).value, MessageOf(buf));
    }
  }

  lemma DrainStepCalm(k: Kernel, b: nat)
    requires Shape(k) && b < NUM_BOXES && k.q[WaitOf(b)] != []
    ensures Calm(k, DrainStep(k, b))
  {
    var t := k.q[WaitOf(b)][0];
    var popped := PopHead(k, WaitOf(b));
    PopHeadKept(k, WaitOf(b));
    RingTouchesNoTask(popped, b, k.tcb[t].msg);
    hide PopHead, PushRing, PushTail;
    var pushed := PushRing(popped, b, k.tcb[t].msg);
    PushTailKept(pushed, t, ReadyOf(pushed.tcb[t].prio));
  }

  lemma {:induction false} DrainCalm(k: Kernel, b: nat)
    requires Shape(k) && b < NUM_BOXES
    ensures Calm(k, Drain(k, b)) && Calm(k, Preempt(Drain(k, b)))
    decreases |k.q[WaitOf(b)]|
  {
    assert Calm(k, k);
    hide Calm, Preempt;
    var w := k.q[WaitOf(b)];
    if w == [] || !Fitting(k.box[b], |k.tcb[w[0]].msg|) {
    } else {
      DrainStepCalm(k, b);
      Shorter(k, b);
      DrainCalm(DrainStep(k, b), b);
      CalmThen(k, DrainStep(k, b), Drain(k, b));
    }
    PreemptKept(Drain(k, b));
    CalmThen(k, Drain(k, b), Preempt(Drain(k, b)));
  }

  lemma ReceiveCalm(k: Kernel, b: nat)
    requires Shape(k) && b < NUM_BOXES && k.box[b].ring != []
    ensures Calm(k, Drain(PopRing(k, b), b)) && Calm(k, Preempt(Drain(PopRing(k, b), b)))
  {
    var p := PopRing(k, b);
    assert Calm(k, p);
    DrainCalm(p, b);
    hide Preempt, PopRing;
  }

  lemma RecvCalm(k: Kernel, len: nat)
    requires Shape(k)
    ensures Calm(k, Recv(k, len).0)
  {
    assert Calm(k, k);
    if k.box[k.cur].ring == [] {
      BlockReceiveCalm(k, len);
    } else {
      ReceiveCalm(k, k.cur);
    }
    hide Calm, Preempt, RunNew, PopRing;
  }

  lemma BlockReceiveCalm(k: Kernel, len: nat)
    requires Shape(k)
    ensures Calm(k, RunNew(k.(tcb := k.tcb[k.cur := Current(k).(state := BLK_RECV, awaiting := Some(len))])))
  {
    var blocked := k.(tcb := k.tcb[k.cur := Current(k).(state := BLK_RECV, awaiting := Some(len))]);
    assert Calm(k, blocked);
    DispatchKept(blocked);
    CalmThen(k, blocked, RunNew(blocked));
    hide RunNew;
  }

  lemma RecvNbCalm(k: Kernel, len: nat, uart: bool)
    requires Shape(k)
    ensures Calm(k, RecvNb(k, len, uart).0)
  {
    assert Calm(k, k);
    var b := if uart then UART_BOX else k.cur;
    if k.box[b].ring != [] {
      ReceiveCalm(k, b);
    }
    hide Preempt, PopRing, Calm;
  }

  lemma ResumeCalm(k: Kernel)
    requires Shape(k) && Current(k).awaiting.Some?
    ensures Calm(k, Resume(k).0)
  {
    var back := k.(tcb := k.tcb[k.cur := Current(k).(awaiting := None)]);
    assert Calm(k, back);
    hide Calm, Preempt, PopRing, Drain;
    if k.box[k.cur].ring == [] || Current(k).awaiting.value < |k.box[k.cur].ring[0]| {
      DrainCalm(back, k.cur);
      CalmThen(k, back, Preempt(Drain(back, k.cur)));
    } else {
      ReceiveCalm(back, k.cur);
      CalmThen(k, back, Preempt(Drain(PopRing(back, k.cur), k.cur)));
    }
  }
}
