// Stale links: how one comes about, that a run from boot gets to one, and that the repaired `pop_task`
// leaves none.
module KernelLinks {
  import opened Readings
  import opened Seqs
  import opened Messages
  import opened TaskStates
  import opened Kernel
  import opened Syscalls
  import opened KernelInv
  import opened KernelSteps
  import opened KernelMessages
  import opened KernelReceives
  import opened KernelRealTime
  import opened KernelTheorems
  import opened KernelFrames
  import opened KernelOrder

  // ---------------------------------------------------------------- the repaired kernel has none

  /** No task has a stale link. */
  ghost predicate Fresh(k: Kernel) {
    Shape(k) && forall t: Tid :: !k.tcb[t].stale
  }

  /** Then the links allow every step. */
  lemma FreshAllows(k: Kernel, op: Op)
    requires Fresh(k) && Enabled(k, op)
    ensures LinksAllow(k, op)
  {
    assert !Current(k).stale;
    hide ReadyOf, Receives, LetInBy, Raises, JobReady;
  }

  /** With `pop_task` repaired, links that were not stale do not become so. */
  lemma StaysFresh(k: Kernel, op: Op)
    requires Inv(k) && Fresh(k) && Enabled(k, op) && Handled(k, op)
    ensures Fresh(Do(Repaired, k, op).0)
  {
    FreshAllows(k, op);
    HarmlessKeeps(Repaired, k, op);
    StepNoNewStale(k, op);
    OnlyOrdinary(Do(Repaired, k, op).0);
    hide Inv, Do, Handled, LinksAllow;
  }

  lemma OnlyOrdinary(k: Kernel)
    requires Inv(k)
    ensures forall t: Tid :: k.tcb[t].stale ==> !k.tcb[t].rt
  {
    forall t: Tid | k.tcb[t].stale
      ensures !k.tcb[t].rt
    {
      assert t != TID_NULL && TaskOk(k, t);
    }
  }

  lemma StepNoNewStale(k: Kernel, op: Op)
    requires Inv(k) && Enabled(k, op)
    ensures NoNewStale(k, Do(Repaired, k, op).0)
  {
    DoIs(Repaired, k, op);
    hide Do, Yield, Create, SetPrio, Send, SendNb, Recv, RecvNb, Resume, RtSet, RtSusp, Tick, SameMail, SameClocks;
    match op
    case OpYield => YieldKept(k);
    case OpCreate(prio, memory) => CreateFrame(k, prio, memory, k.cur);
    case OpSetPrio(tid, prio) => SetPrioKept(Repaired, k, tid, prio);
    case OpMbxCreate(size, memory) =>
    case OpSend(dst, buf) => SendCalm(k, dst, buf);
    case OpSendNb(dst, buf) => SendCalm(k, dst, buf);
    case OpRecv(len) => RecvCalm(k, len);
    case OpResume => ResumeCalm(k);
    case OpRecvNb(len) => RecvNbCalm(k, len, false);
    case OpRtSet(usec) => RtSetFrame(k, usec);
    case OpRtSusp => RtSuspFrame(k);
    case OpTick(now) => TickKept(Repaired, k, now);
    case OpUartSend(buf) => SendCalm(k, TID_KCD, buf);
    case OpUartRecv(len) => RecvNbCalm(k, len, true);
  }

  /** The task `t` and all others after it was made at boot. */
  lemma AddTaskForm(k: Kernel, t: Tid, prio: nat, priv: bool)
    requires Shape(k) && Ordinary(prio)
    ensures var i := Order(prio);
      && 0 < i < NUM_READY
      && AddTask(k, t, prio, priv)
           == k.(q := k.q[i := k.q[i] + [t]], tcb := k.tcb[t := Queued(NewTask(k, t, prio, priv))])
  {
    TailOrdinary(k.(tcb := k.tcb[t := NewTask(k, t, prio, priv)]), t, Order(prio));
    hide PushTail;
  }

  lemma {:induction false} AddTasksFresh(k: Kernel, inits: seq<TaskInit>, i: nat)
    requires Fresh(k) && i + |inits| <= TID_WCLCK && forall j :: 0 <= j < |inits| ==> Ordinary(inits[j].prio)
    ensures Fresh(AddTasks(k, inits, i))
    decreases |inits|
  {
    if inits == [] {
    } else {
      AddTaskForm(k, i, inits[0].prio, inits[0].priv);
      AddTasksFresh(AddTask(k, i, inits[0].prio, inits[0].priv), inits[1..], i + 1);
    }
  }

  lemma BootFresh(inits: seq<TaskInit>)
    requires |inits| < TID_WCLCK && forall i :: 0 <= i < |inits| ==> Ordinary(inits[i].prio)
    ensures Fresh(Boot(inits))
  {
    var con := AddTask(Blank(), 14, HIGH, true);
    AddTaskForm(Blank(), 14, HIGH, true);
    var kcd := AddTask(con, TID_KCD, HIGH, false);
    AddTaskForm(con, TID_KCD, HIGH, false);
    var clock := AddTask(kcd, TID_WCLCK, HIGH, false);
    AddTaskForm(kcd, TID_WCLCK, HIGH, false);
    hide AddTask, AddTasks, Dispatch;
    AddTasksFresh(clock, inits, 1);
    var all := AddTasks(clock, inits, 1);
    BootKeeps(inits);
    DispatchKept(all);
    OnlyOrdinary(Boot(inits));
  }

  ghost predicate HandledRun(k: Kernel, run: seq<Op>)
    requires Shape(k)
    decreases |run|
  {
    run == [] || (Enabled(k, run[0]) && Handled(k, run[0]) && HandledRun(Do(Repaired, k, run[0]).0, run[1..]))
  }

  lemma {:induction false} HandledIsHarmless(k: Kernel, run: seq<Op>)
    requires Inv(k) && Fresh(k)
    ensures HandledRun(k, run) <==> HarmlessRun(Repaired, k, run)
    decreases |run|
  {
    if run == [] {
    } else if Enabled(k, run[0]) && Handled(k, run[0]) {
      FreshAllows(k, run[0]);
      HarmlessKeeps(Repaired, k, run[0]);
      StaysFresh(k, run[0]);
      HandledIsHarmless(Do(Repaired, k, run[0]).0, run[1..]);
    }
    hide Inv, Do, Handled, LinksAllow, PrioritySafe, EdfSafe, Fresh;
  }

  /** With the repairs, what was said of links falls away: from boot on, steps that are handled keep the
      invariant and the deadline order, whatever they do to priorities. */
  lemma RepairedFromBoot(inits: seq<TaskInit>, run: seq<Op>)
    requires |inits| < TID_WCLCK && forall i :: 0 <= i < |inits| ==> Ordinary(inits[i].prio)
    requires HandledRun(Boot(inits), run)
    ensures HarmlessRun(Repaired, Boot(inits), run)
    ensures var r := After(Repaired, Boot(inits), run);
      Inv(r) && EdfSafe(r) && ((forall i :: 0 <= i < |run| ==> FromTask(run[i])) ==> PrioritySafe(r))
  {
    BootKeeps(inits);
    BootFresh(inits);
    HandledIsHarmless(Boot(inits), run);
    FromBoot(Repaired, inits, run);
    hide Inv, Boot;
  }

  // ---------------------------------------------------------------- as written one comes about

  /** Soon after boot: `c` runs, and of the queues only those of HIGH and LOW hold tasks. */
  ghost predicate Stage(k: Kernel, c: Tid, high: seq<Tid>, low: seq<Tid>)
    requires Shape(k)
  {
    && Inv(k) && k.cur == c != TID_NULL
    && (forall i :: 0 <= i < NUM_QUEUES ==> k.q[i] == if i == 1 then high else if i == 3 then low else [])
    && (forall b :: 0 <= b < NUM_BOXES && b != UART_BOX ==> !k.box[b].active)
    && (forall t: Tid :: !k.tcb[t].rt && (t != 14 ==> !k.tcb[t].priv))
  }

  /** The running task and the tasks on the two queues are all there are. */
  lemma StageTask(k: Kernel, c: Tid, high: seq<Tid>, low: seq<Tid>, t: Tid)
    requires Shape(k) && Stage(k, c, high, low) && t != TID_NULL
    ensures k.tcb[t].awaiting == None
    ensures t in high ==> k.tcb[t].prio == HIGH && k.tcb[t].state == READY
    ensures t in low ==> k.tcb[t].prio == LOW && k.tcb[t].state == READY
    ensures t != c && t !in high && t !in low ==> k.tcb[t].state == DORMANT
  {
    assert TaskOk(k, t);
    OnePlace(k, t);
    if t in high {
      ReadyMember(k, 1, t);
    }
    if t in low {
      ReadyMember(k, 3, t);
    }
    hide Inv;
  }

  /** The running task lowers itself to LOW. */
  lemma StageLowers(k: Kernel, c: Tid, high: seq<Tid>, low: seq<Tid>)
    requires Shape(k) && Stage(k, c, high, low) && k.tcb[c].prio == HIGH && low != []
    ensures var op := OpSetPrio(c, LOW);
      && Enabled(k, op) && Harmless(AsWritten, k, op)
      && var r := Do(AsWritten, k, op).0;
         if high == [] then Stage(r, low[0], [], low[1..] + [c]) && r.tcb[low[0]].prio == LOW
         else Stage(r, high[0], high[1..], low + [c]) && r.tcb[high[0]].prio == HIGH
  {
    hide Inv, SetPrio, NoNewStale;
    StageTask(k, c, high, low, c);
    HarmlessKeeps(AsWritten, k, OpSetPrio(c, LOW));
    SetPrioKept(AsWritten, k, c, LOW);
    StageNext(k, c, high, low);
  }

  lemma StageNext(k: Kernel, c: Tid, high: seq<Tid>, low: seq<Tid>)
    requires Shape(k) && Stage(k, c, high, low) && k.tcb[c].prio == HIGH && low != []
    ensures var r := SetPrio(AsWritten, k, c, LOW).0;
      && r.cur == (if high == [] then low[0] else high[0]) != c && r.cur != TID_NULL
      && r.q == k.q[1 := if high == [] then [] else high[1..]][3 := (if high == [] then low[1..] else low) + [c]]
      && r.tcb[r.cur].prio == (if high == [] then LOW else HIGH)
  {
    assert Placed(k);
    hide Inv, SetPrio;
    var f := if high == [] then 3 else 1;
    assert k.q[f][0] in k.q[f];
    ReadyMember(k, f, k.q[f][0]);
    FirstReadyIs(k, f);
    StageTask(k, c, high, low, k.q[f][0]);
    StageTask(k, c, high, low, c);
    assert k.tcb[c].state == RUNNING by {
      OnePlace(k, c);
    }
    LowerOutcome(AsWritten, k, LOW);
  }

  /** Boot with one task at LOW. */
  function BootOne(): (k: Kernel)
    ensures Shape(k)
  {
    Boot([TaskInit(LOW, false)])
  }

  /** Tasks have been made at HIGH and LOW, and none has been chosen. */
  ghost predicate Made(k: Kernel, high: seq<Tid>, low: seq<Tid>) {
    && Shape(k) && k.box == Blank().box && k.q == Blank().q[1 := high][3 := low]
    && (forall t: Tid :: !k.tcb[t].rt && (t != 14 ==> !k.tcb[t].priv))
  }

  lemma MakesTask(k: Kernel, t: Tid, prio: nat, priv: bool, high: seq<Tid>, low: seq<Tid>)
    requires Made(k, high, low) && prio in {HIGH, LOW} && (t != 14 ==> !priv)
    ensures var r := AddTask(k, t, prio, priv);
      && Made(r, if prio == HIGH then high + [t] else high, if prio == HIGH then low else low + [t])
      && r.tcb == k.tcb[t := Queued(NewTask(k, t, prio, priv))]
  {
    AddTaskForm(k, t, prio, priv);
    hide AddTask;
  }

  lemma BlankMade()
    ensures Made(Blank(), [], [])
  {
    hide Flatten;
  }

  lemma BootTasks() returns (all: Kernel)
    ensures Made(all, [14, TID_KCD, TID_WCLCK], [1]) && BootOne() == Dispatch(all)
    ensures all.tcb[14].prio == HIGH && all.tcb[14].state == READY
  {
    hide AddTask, Dispatch, Made, Blank;
    var k := Blank();
    BlankMade();
    var con := AddTask(k, 14, HIGH, true);
    MakesTask(k, 14, HIGH, true, [], []);
    var kcd := AddTask(con, TID_KCD, HIGH, false);
    MakesTask(con, TID_KCD, HIGH, false, [] + [14], []);
    var clock := AddTask(kcd, TID_WCLCK, HIGH, false);
    MakesTask(kcd, TID_WCLCK, HIGH, false, [] + [14] + [TID_KCD], []);
    all := AddTask(clock, 1, LOW, false);
    MakesTask(clock, 1, LOW, false, [] + [14] + [TID_KCD] + [TID_WCLCK], []);
    assert [] + [14] + [TID_KCD] + [TID_WCLCK] == [14, TID_KCD, TID_WCLCK] && [] + [1] == [1];
    OneInit(clock, TaskInit(LOW, false));
  }

  lemma OneInit(k: Kernel, init: TaskInit)
    requires Shape(k)
    ensures AddTasks(k, [init], 1) == AddTask(k, 1, init.prio, init.priv)
  {
    hide AddTask;
    assert [init][1..] == [];
  }

  lemma BootStage()
    ensures Stage(BootOne(), 14, [TID_KCD, TID_WCLCK], [1]) && BootOne().tcb[14].prio == HIGH
  {
    hide Dispatch, Inv, Made, Boot, Stage;
    BootKeeps([TaskInit(LOW, false)]);
    var all := BootTasks();
    FirstRuns(all);
  }

  lemma FirstRuns(all: Kernel)
    requires Made(all, [14, TID_KCD, TID_WCLCK], [1]) && all.tcb[14].state == READY
    ensures var r := Dispatch(all);
      Inv(r) ==> Stage(r, 14, [TID_KCD, TID_WCLCK], [1]) && r.tcb[14].prio == all.tcb[14].prio
  {
    hide Dispatch, Inv;
    FirstReadyIs(all, 1);
    DispatchForm(all, 1, 14);
  }

  /** Four tasks at LOW, the last but one of the three that wait raised by the one that runs. */
  function ToStale(): seq<Op> {
    [OpSetPrio(14, LOW), OpSetPrio(TID_KCD, LOW), OpSetPrio(TID_WCLCK, LOW), OpSetPrio(TID_KCD, MEDIUM)]
  }

  /** The running task raises one that waits in the middle of its queue. */
  lemma RaiseStage(k: Kernel)
    requires Shape(k) && Stage(k, 1, [], [14, TID_KCD, TID_WCLCK]) && k.tcb[1].prio == LOW
    ensures var op := OpSetPrio(TID_KCD, MEDIUM);
      && Enabled(k, op) && Harmless(AsWritten, k, op)
      && var r := Do(AsWritten, k, op).0;
         Stage(r, TID_KCD, [], [1, 14, TID_WCLCK]) && r.tcb[TID_KCD].prio == MEDIUM && !MayLead(r, TID_KCD)
  {
    hide Inv, SetPrio, NoNewStale;
    var w: seq<Tid> := [14, TID_KCD, TID_WCLCK];
    assert w[1] == TID_KCD;
    StageTask(k, 1, [], w, TID_KCD);
    StageTask(k, 1, [], w, 1);
    assert Remove(w, TID_KCD) == [14, TID_WCLCK] by {
      assert IndexOf(w[1..], TID_KCD) == 0;
    }
    RaiseOutcome(AsWritten, k, TID_KCD, MEDIUM);
    HarmlessKeeps(AsWritten, k, OpSetPrio(TID_KCD, MEDIUM));
    SetPrioKept(AsWritten, k, TID_KCD, MEDIUM);
  }

  /** A run of harmless steps from boot ends in a state in which a step that any caller may take, here
      creating a task of a higher priority, puts a stale link into a ready queue. */
  lemma StaleLinkIsReached()
    ensures HarmlessRun(AsWritten, BootOne(), ToStale())
    ensures var k := After(AsWritten, BootOne(), ToStale());
      var op := OpCreate(HIGH, true);
      && Inv(k) && Enabled(k, op) && Handled(k, op) && !LinksAllow(k, op) && Do(AsWritten, k, op).0.fault
  {
    hide Do, Inv, Enabled, Harmless, Stage, BootOne;
    var k0 := BootOne();
    BootStage();
    var run := ToStale();
    var high: seq<Tid> := [TID_KCD, TID_WCLCK];
    assert high[1..] == [TID_WCLCK] && high[1..][1..] == [];
    StageLowers(k0, 14, high, [1]);
    var k1 := Do(AsWritten, k0, run[0]).0;
    StageLowers(k1, TID_KCD, high[1..], [1] + [14]);
    var k2 := Do(AsWritten, k1, run[1]).0;
    StageLowers(k2, TID_WCLCK, high[1..][1..], [1] + [14] + [TID_KCD]);
    var k3 := Do(AsWritten, k2, run[2]).0;
    assert ([1] + [14] + [TID_KCD])[1..] + [TID_WCLCK] == [14, TID_KCD, TID_WCLCK];
    RaiseStage(k3);
    var k4 := Do(AsWritten, k3, run[3]).0;
    CreationFaults(k4);
    RunOfFour(AsWritten, k0, run);
  }

  lemma RunOfFour(how: Reading, k: Kernel, run: seq<Op>)
    requires Shape(k) && |run| == 4
    requires Enabled(k, run[0]) && Harmless(how, k, run[0])
    requires var a := Do(how, k, run[0]).0;
      && Enabled(a, run[1]) && Harmless(how, a, run[1])
      && var b := Do(how, a, run[1]).0;
         && Enabled(b, run[2]) && Harmless(how, b, run[2])
         && var c := Do(how, b, run[2]).0; Enabled(c, run[3]) && Harmless(how, c, run[3])
    ensures HarmlessRun(how, k, run)
    ensures After(how, k, run) == Do(how, Do(how, Do(how, Do(how, k, run[0]).0, run[1]).0, run[2]).0, run[3]).0
  {
    hide Do, Enabled, Harmless;
    var a := Do(how, k, run[0]).0;
    var b := Do(how, a, run[1]).0;
    var c := Do(how, b, run[2]).0;
    var one := run[1..][1..][1..];
    assert one == [run[3]] && one[1..] == [];
    assert HarmlessRun(how, c, one) && After(how, c, one) == Do(how, c, run[3]).0;
    assert HarmlessRun(how, b, run[1..][1..]) && After(how, b, run[1..][1..]) == After(how, c, one);
    assert HarmlessRun(how, a, run[1..]) && After(how, a, run[1..]) == After(how, b, run[1..][1..]);
  }

  lemma CreationFaults(k: Kernel)
    requires Shape(k) && Stage(k, TID_KCD, [], [1, 14, TID_WCLCK])
    requires k.tcb[TID_KCD].prio == MEDIUM && !MayLead(k, TID_KCD)
    ensures var op := OpCreate(HIGH, true);
      && Inv(k) && Enabled(k, op) && Handled(k, op) && !LinksAllow(k, op) && Do(AsWritten, k, op).0.fault
  {
    hide Inv, MayLead, Create;
    var w: seq<Tid> := [1, 14, TID_WCLCK];
    assert w[0] == 1;
    StageTask(k, TID_KCD, [], w, 1);
    StageTask(k, TID_KCD, [], w, 2);
    StageTask(k, TID_KCD, [], w, TID_KCD);
    assert FreeSlot(k, 2) == 2;
    CreateFaults(k, HIGH);
  }

  /** A task taken from the middle of its queue to run at once carries a stale link, and cannot lead
      its new queue, which is empty: from here, every step that puts it there faults. */
  lemma RaisedIsStale(k: Kernel, t: Tid, prio: nat)
    requires Inv(k) && PrioritySafe(k) && Enabled(k, OpSetPrio(t, prio)) && Raises(k, t, prio) && LeadsWithout(k, t)
    ensures var r := SetPrio(AsWritten, k, t, prio).0;
      && Inv(r) && r.cur == t
      && (!MayLead(r, t) <==> InMiddle(k.q[ReadyOf(k.tcb[t].prio)], t))
      && MayLead(SetPrio(Repaired, k, t, prio).0, t)
  {
    RaisedLeads(AsWritten, k, t, prio);
    RaisedLeads(Repaired, k, t, prio);
    hide SetPrio, Inv, MayLead, LeadsWithout;
  }

  lemma RaisedLeads(how: Reading, k: Kernel, t: Tid, prio: nat)
    requires Inv(k) && PrioritySafe(k) && Enabled(k, OpSetPrio(t, prio)) && Raises(k, t, prio) && LeadsWithout(k, t)
    ensures var r := SetPrio(how, k, t, prio).0;
      Inv(r) && r.cur == t && (!MayLead(r, t) <==> Keeps(how, k, t))
  {
    hide Inv, ChangePrio, SetPrio, Raised, PushHead, Mid;
    TaskIsOk(k, t);
    TaskIsOk(k, k.cur);
    SetPrioIs(how, k, t, prio);
    SetPrioKeeps(how, k, t, prio);
    RaisedThenPushed(how, k, t, prio);
    RaisedKeeps(how, k, t, prio);
    LeadsAfterRaise(how, k, t, prio);
    PushedBack(k, Raised(how, k, t, prio), t, prio);
    OrderMonotone(prio, Current(k).prio);
  }
}
