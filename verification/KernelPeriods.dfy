// The deadlines of a periodic task stay on one grid, however often it misses one.
module KernelPeriods {
  import opened Powers
  import opened Readings
  import opened Deadlines
  import opened Messages
  import opened TaskStates
  import opened Kernel
  import opened Syscalls
  import opened KernelFrames
  import opened KernelInv
  import opened KernelRealTime
  import opened KernelTheorems

  // ---------------------------------------------------------------- the arithmetic

  /** How many periods a suspension moves the deadline on. */
  function Jump(deadline: nat, period: nat, now: nat): (n: nat)
    requires period > 0
  {
    if deadline < now then (now - deadline) / period + 1 else 1
  }

  /** The new deadline is a later point of the same grid.  After a miss it is the first point strictly
      after now; otherwise it is the very next one. */
  lemma NextOnGrid(deadline: nat, period: nat, now: nat)
    requires period > 0
    ensures var n := Jump(deadline, period, now);
      var d := NextDeadline(deadline, period, now);
      && n >= 1 && d == deadline + n * period
      && (deadline >= now ==> d == deadline + period)
      && (deadline < now ==> d - period <= now < d)
  {
    if deadline < now {
      var m := (now - deadline) / period;
      assert (now - deadline) == m * period + (now - deadline) % period;
      assert (m + 1) * period == m * period + period;
    }
  }

  /** The deadline after suspensions at these times. */
  function Onward(deadline: nat, period: nat, nows: seq<nat>): nat
    requires period > 0
    decreases |nows|
  {
    if nows == [] then deadline else Onward(NextDeadline(deadline, period, nows[0]), period, nows[1..])
  }

  function Jumps(deadline: nat, period: nat, nows: seq<nat>): nat
    requires period > 0
    decreases |nows|
  {
    if nows == [] then 0
    else Jump(deadline, period, nows[0]) + Jumps(NextDeadline(deadline, period, nows[0]), period, nows[1..])
  }

  /** After any suspensions the deadline is a point of the grid of the first one, at least one period
      further for each. */
  lemma {:induction false} OnwardOnGrid(deadline: nat, period: nat, nows: seq<nat>)
    requires period > 0
    ensures Onward(deadline, period, nows) == deadline + Jumps(deadline, period, nows) * period
    ensures Jumps(deadline, period, nows) >= |nows|
    decreases |nows|
  {
    if nows == [] {
      assert 0 * period == 0;
    } else {
      var next := NextDeadline(deadline, period, nows[0]);
      NextOnGrid(deadline, period, nows[0]);
      OnwardOnGrid(next, period, nows[1..]);
      MulDistributes(Jump(deadline, period, nows[0]), Jumps(next, period, nows[1..]), period);
    }
  }

  /** Two lists of suspensions of which one goes on from the other: the deadlines keep growing. */
  lemma {:induction false} OnwardGrows(deadline: nat, period: nat, nows: seq<nat>, more: seq<nat>)
    requires period > 0 && more != []
    ensures Onward(deadline, period, nows + more) >= Onward(deadline, period, nows) + period
    decreases |nows|
  {
    if nows == [] {
      assert nows + more == more;
      OnwardOnGrid(deadline, period, more);
      MulMonotone(1, Jumps(deadline, period, more), period);
    } else {
      assert (nows + more)[0] == nows[0] && (nows + more)[1..] == nows[1..] + more;
      OnwardGrows(NextDeadline(deadline, period, nows[0]), period, nows[1..], more);
    }
  }

  // ---------------------------------------------------------------- one step

  /** The step is task `t` suspending itself. */
  predicate Suspends(k: Kernel, op: Op, t: Tid) {
    op.OpRtSusp? && k.cur == t
  }

  /** A real-time task stays one, with the same period, and its deadline moves only when it suspends
      itself. */
  lemma StepTimes(how: Reading, k: Kernel, op: Op, t: Tid)
    requires Inv(k) && Enabled(k, op) && k.tcb[t].rt && k.tcb[t].state != DORMANT
    ensures var r := Do(how, k, op).0;
      && r.tcb[t].rt && r.tcb[t].state != DORMANT && r.tcb[t].period == k.tcb[t].period > 0
      && r.tcb[t].deadline ==
           if Suspends(k, op, t) then NextDeadline(k.tcb[t].deadline, k.tcb[t].period, k.now) else k.tcb[t].deadline
  {
    DoIs(how, k, op);
    assert t != TID_NULL && TaskOk(k, t);
    assert k.cur != TID_NULL ==> TaskOk(k, k.cur);
    hide Inv, Do;
    match op
    case OpYield => YieldKept(k); hide Yield;
    case OpCreate(prio, memory) => CreateFrame(k, prio, memory, t); hide Create;
    case OpSetPrio(tid, prio) => SetPrioKept(how, k, tid, prio); hide SetPrio;
    case OpMbxCreate(size, memory) =>
    case OpSend(dst, buf) => SendCalm(k, dst, buf); hide Send;
    case OpSendNb(dst, buf) => SendCalm(k, dst, buf); hide SendNb;
    case OpRecv(len) => RecvCalm(k, len); hide Recv;
    case OpResume => ResumeCalm(k); hide Resume;
    case OpRecvNb(len) => RecvNbCalm(k, len, false); hide RecvNb;
    case OpRtSet(usec) => RtSetFrame(k, usec); hide RtSet;
    case OpRtSusp => RtSuspFrame(k); hide RtSusp, NextDeadline;
    case OpTick(now) => TickKept(how, k, now); hide Tick;
    case OpUartSend(buf) => SendCalm(k, TID_KCD, buf); hide SendNb;
    case OpUartRecv(len) => RecvNbCalm(k, len, true); hide RecvNb;
  }

  // ---------------------------------------------------------------- whole runs

  /** The clock at each of task `t`'s suspensions. */
  function SuspendedAt(how: Reading, k: Kernel, run: seq<Op>, t: Tid): seq<nat>
    requires Shape(k) && HarmlessRun(how, k, run)
    decreases |run|
  {
    if run == [] then []
    else (if Suspends(k, run[0], t) then [k.now] else []) + SuspendedAt(how, Do(how, k, run[0]).0, run[1..], t)
  }

  /** Over any run of harmless steps the deadline of a real-time task is the one its suspensions give:
      it is still on the grid, at least one period further for each suspension, and nothing else
      moves it. */
  lemma {:induction false} RunStaysOnGrid(how: Reading, k: Kernel, run: seq<Op>, t: Tid)
    requires Inv(k) && HarmlessRun(how, k, run) && k.tcb[t].rt && k.tcb[t].state != DORMANT
    ensures k.tcb[t].period > 0
    ensures var c, r := k.tcb[t], After(how, k, run).tcb[t];
      var nows := SuspendedAt(how, k, run, t);
      && r.rt && r.period == c.period
      && r.deadline == Onward(c.deadline, c.period, nows)
      && r.deadline == c.deadline + Jumps(c.deadline, c.period, nows) * c.period
      && Jumps(c.deadline, c.period, nows) >= |nows|
    decreases |run|
  {
    var c := k.tcb[t];
    assert t != TID_NULL && TaskOk(k, t);
    if run == [] {
    } else {
      var n := Do(how, k, run[0]).0;
      HarmlessKeeps(how, k, run[0]);
      StepTimes(how, k, run[0], t);
      RunStaysOnGrid(how, n, run[1..], t);
      var rest := SuspendedAt(how, n, run[1..], t);
      assert Suspends(k, run[0], t) ==> ([k.now] + rest)[0] == k.now && ([k.now] + rest)[1..] == rest;
      assert [] + rest == rest;
    }
    OnwardOnGrid(c.deadline, c.period, SuspendedAt(how, k, run, t));
  }
}
