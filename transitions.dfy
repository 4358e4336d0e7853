/**
 * The scheduler control block and the VCPU directory as one value, and the
 * effect of each scheduler entry point on it as a pure function.  The class
 * in module VmmScheduler is proved to change its fields exactly as these
 * functions say; the lemmas here state what the entry points promise.
 *
 * The calls the scheduler makes into code outside it are recorded in logs:
 * register switches, tick callbacks, IRQ deliveries into the guest, and starts
 * and restarts of the scheduler's timer event.
 */
module Transitions {
  import opened Vcpus
  import opened Selection

  /** One call of the register switch: the outgoing VCPU (none when its context is not saved) and the incoming one. */
  datatype Switch = Switch(outgoing: Option<nat>, incoming: nat, regs: Regs)

  /** One call of a VCPU's tick callback with the ticks left in its slice. */
  datatype TickCall = TickCall(regs: Regs, ticksLeft: u32)

  /** The result of initialisation. */
  datatype Status = VmmOk | VmmEFail

  datatype Sched = Sched(
    vcpus: seq<Vcpu>,        // the VCPU directory
    current: int,            // vcpu_current; -1 is "none"
    timerCreated: bool,      // the timer event handle is set
    switches: seq<Switch>,
    tickCalls: seq<TickCall>,
    irqDeliveries: seq<Regs>,
    timerStarts: nat,
    timerRestarts: nat)

  /** At most one VCPU is RUNNING, and only the current one. */
  predicate RunningOnlyCurrent(vs: seq<Vcpu>, cur: int) {
    forall i :: 0 <= i < |vs| && vs[i].state == STATE_RUNNING ==> i == cur
  }

  /** No VCPU has more ticks pending than its slice holds. */
  predicate WithinBudget(vs: seq<Vcpu>) {
    forall i :: 0 <= i < |vs| ==> vs[i].tickPending <= vs[i].tickCount
  }

  // ---------------------------------------------------------------- accessors

  /** vmm_scheduler_current_vcpu. */
  function CurrentVcpuOf(s: Sched): (r: Option<Vcpu>)
    ensures r.Some? <==> s.current != -1 && 0 <= s.current < |s.vcpus|
    ensures r.Some? ==> r.value == s.vcpus[s.current]
  {
    if s.current != -1 then Lookup(s.vcpus, s.current) else None
  }

  /** vmm_scheduler_current_guest. */
  function CurrentGuestOf(s: Sched): (r: Option<GuestRef>)
    ensures r.Some? <==> CurrentVcpuOf(s).Some?
    ensures r.Some? ==> r.value == s.vcpus[s.current].guest
  {
    match CurrentVcpuOf(s)
    case Some(v) => Some(v.guest)
    case None => None
  }

  /** The sentinel test before the lookup changes nothing: looking up -1 finds no VCPU anyway. */
  lemma CurrentVcpuIsLookup(s: Sched)
    ensures CurrentVcpuOf(s) == Lookup(s.vcpus, s.current)
  {
  }

  /** While vcpu_current is the sentinel or names a VCPU, there is no current VCPU exactly when it is -1. */
  lemma CurrentVcpuSentinel(s: Sched)
    requires WellNumbered(s.vcpus) && -1 <= s.current < |s.vcpus|
    ensures CurrentVcpuOf(s).None? <==> s.current == -1
    ensures CurrentVcpuOf(s).Some? ==> CurrentVcpuOf(s).value.num == s.current
    ensures CurrentGuestOf(s).Some? <==> s.current != -1
  {
  }

  // ---------------------------------------------------------------- selection

  /** What vmm_scheduler_next needs to terminate. */
  predicate NextEnabled(s: Sched) {
    WellNumbered(s.vcpus) && CanSelect(StatesOf(s.vcpus), s.current)
  }

  /** The VCPU that vmm_scheduler_next selects. */
  function Selected(s: Sched): nat
    requires NextEnabled(s)
  {
    Select(StatesOf(s.vcpus), s.current)
  }

  /** vmm_scheduler_next: scan, conditional register switch, then the selected VCPU runs with a fresh slice. */
  function NextState(s: Sched, regs: Regs): (r: Sched)
    requires NextEnabled(s)
    ensures |r.vcpus| == |s.vcpus| && WellNumbered(r.vcpus)
    ensures r.current == Selected(s)
    ensures r.vcpus[r.current].state == STATE_RUNNING && r.vcpus[r.current].tickPending == r.vcpus[r.current].tickCount
    ensures s.switches <= r.switches && |r.switches| <= |s.switches| + 1
    ensures r.tickCalls == s.tickCalls && r.irqDeliveries == s.irqDeliveries
    ensures r.timerCreated == s.timerCreated && r.timerStarts == s.timerStarts && r.timerRestarts == s.timerRestarts
  {
    var sel := Selected(s);
    var cur := Lookup(s.vcpus, s.current);
    var switching := cur.None? || cur.value.num != s.vcpus[sel].num;
    var saveOut := switching && cur.Some? && Saveable(cur.value.state);
    var vs := if saveOut && cur.value.state == STATE_RUNNING
              then s.vcpus[cur.value.num := cur.value.(state := STATE_READY)]
              else s.vcpus;
    var log := if !switching then []
               else if saveOut then [Switch(Some(cur.value.num), sel, regs)]
               else [Switch(None, sel, regs)];
    var nxt := vs[sel];
    s.(vcpus := vs[sel := nxt.(tickPending := nxt.tickCount, state := STATE_RUNNING)],
       current := nxt.num,
       switches := s.switches + log)
  }

  /** After selection the selected VCPU is current and RUNNING with its whole slice pending; only the switch log grows. */
  lemma NextRunsSelected(s: Sched, regs: Regs)
    requires NextEnabled(s)
    ensures var r := NextState(s, regs);
      var sel := Selected(s);
      |r.vcpus| == |s.vcpus| && WellNumbered(r.vcpus) &&
      r.current == sel &&
      r.vcpus[sel] == s.vcpus[sel].(state := STATE_RUNNING, tickPending := s.vcpus[sel].tickCount) &&
      r.timerCreated == s.timerCreated && r.tickCalls == s.tickCalls &&
      r.irqDeliveries == s.irqDeliveries &&
      r.timerStarts == s.timerStarts && r.timerRestarts == s.timerRestarts
  {
  }

  /** Selection changes no VCPU other than the current and the selected one. */
  lemma NextTouchesOnlyTwo(s: Sched, regs: Regs)
    requires NextEnabled(s)
    ensures forall i :: 0 <= i < |s.vcpus| && i != Selected(s) && i != s.current ==>
      NextState(s, regs).vcpus[i] == s.vcpus[i]
  {
  }

  /**
   * The outgoing VCPU: a saveable one that was RUNNING becomes READY, any
   * other keeps its state; nothing else about it changes.
   */
  lemma NextOutgoing(s: Sched, regs: Regs)
    requires NextEnabled(s) && 0 <= s.current < |s.vcpus| && Selected(s) != s.current
    ensures var v := s.vcpus[s.current];
      NextState(s, regs).vcpus[s.current] ==
        if Saveable(v.state) && v.state == STATE_RUNNING then v.(state := STATE_READY) else v
  {
  }

  /**
   * The register switch: none when the selected VCPU is the current one;
   * otherwise exactly one, whose outgoing party is the current VCPU if it is
   * saveable and none if not.
   */
  lemma NextSwitchRule(s: Sched, regs: Regs)
    requires NextEnabled(s)
    ensures var r := NextState(s, regs);
      var sel := Selected(s);
      var resumes := 0 <= s.current < |s.vcpus| && sel == s.current;
      (resumes ==> r.switches == s.switches) &&
      (!resumes ==> r.switches == s.switches + [Switch(
          if 0 <= s.current < |s.vcpus| && Saveable(s.vcpus[s.current].state)
          then Some(s.current) else None,
          sel, regs)])
  {
  }

  /** A current VCPU that is not READY is still re-run when no other VCPU is READY. */
  lemma NextRerunsCurrent(s: Sched, regs: Regs)
    requires WellNumbered(s.vcpus) && 0 <= s.current < |s.vcpus|
    requires forall i :: 0 <= i < |s.vcpus| && i != s.current ==> s.vcpus[i].state != STATE_READY
    ensures NextEnabled(s)
    ensures var r := NextState(s, regs);
      r.current == s.current && r.vcpus[s.current].state == STATE_RUNNING &&
      r.switches == s.switches
  {
    SelectOnlyCurrent(StatesOf(s.vcpus), s.current);
  }

  /** After selection the selected VCPU is the only RUNNING one, provided only the current one was RUNNING before. */
  lemma {:induction false} NextSingleRunning(s: Sched, regs: Regs)
    requires NextEnabled(s) && RunningOnlyCurrent(s.vcpus, s.current)
    ensures var r := NextState(s, regs);
      forall i :: 0 <= i < |r.vcpus| ==> (r.vcpus[i].state == STATE_RUNNING <==> i == r.current)
  {
    StateFacts();
    var r := NextState(s, regs);
    forall i | 0 <= i < |r.vcpus|
      ensures r.vcpus[i].state == STATE_RUNNING <==> i == r.current
    {
      NextRunsSelected(s, regs);
      NextTouchesOnlyTwo(s, regs);
      if i != Selected(s) && i == s.current {
        NextOutgoing(s, regs);
      }
    }
  }

  lemma NextWithinBudget(s: Sched, regs: Regs)
    requires NextEnabled(s) && WithinBudget(s.vcpus)
    ensures WithinBudget(NextState(s, regs).vcpus)
  {
  }

  // ---------------------------------------------------------------- timer event

  /** What vmm_scheduler_timer_event needs: a selection that terminates whenever it reselects without a current VCPU. */
  predicate TimerEnabled(s: Sched) {
    WellNumbered(s.vcpus) &&
    (Lookup(s.vcpus, s.current).None? ==> CanSelect(StatesOf(s.vcpus), s.current))
  }

  /** vmm_scheduler_timer_event: tick accounting gated by preempt_count, then the timer is restarted. */
  function TimerState(s: Sched, regs: Regs): (r: Sched)
    requires TimerEnabled(s)
    ensures |r.vcpus| == |s.vcpus| && WellNumbered(r.vcpus)
    ensures r.timerRestarts == s.timerRestarts + 1 && r.timerStarts == s.timerStarts
    ensures r.timerCreated == s.timerCreated && r.irqDeliveries == s.irqDeliveries
    ensures s.tickCalls <= r.tickCalls && s.switches <= r.switches
  {
    var r := match Lookup(s.vcpus, s.current)
      case None => NextState(s, regs)
      case Some(v) =>
        if v.preemptCount != 0 then s
        else if v.tickPending == 0 then NextState(s, regs)
        else
          var v' := v.(tickPending := v.tickPending - 1);
          var s' := s.(vcpus := s.vcpus[v.num := v']);
          if v'.hasTickFunc && v'.preemptCount == 0
          then s'.(tickCalls := s'.tickCalls + [TickCall(regs, v'.tickPending)])
          else s';
    r.(timerRestarts := r.timerRestarts + 1)
  }

  /** On every path the timer event is restarted exactly once, and never started or re-created. */
  lemma TimerRestartsOnce(s: Sched, regs: Regs)
    requires TimerEnabled(s)
    ensures var r := TimerState(s, regs);
      r.timerRestarts == s.timerRestarts + 1 &&
      r.timerStarts == s.timerStarts && r.timerCreated == s.timerCreated
  {
  }

  /** With preemption disabled on the current VCPU a tick only restarts the timer. */
  lemma TimerSuppressed(s: Sched, regs: Regs)
    requires TimerEnabled(s) && 0 <= s.current < |s.vcpus|
    requires s.vcpus[s.current].preemptCount != 0
    ensures TimerState(s, regs) == s.(timerRestarts := s.timerRestarts + 1)
  {
  }

  /** With no current VCPU, or with an exhausted slice and preemption enabled, a tick reselects. */
  lemma TimerReselects(s: Sched, regs: Regs)
    requires TimerEnabled(s)
    requires !(0 <= s.current < |s.vcpus|) ||
             (s.vcpus[s.current].preemptCount == 0 && s.vcpus[s.current].tickPending == 0)
    ensures NextEnabled(s)
    ensures TimerState(s, regs) == NextState(s, regs).(timerRestarts := s.timerRestarts + 1)
  {
  }

  /**
   * With preemption enabled and k > 0 ticks pending a tick leaves k - 1
   * pending, reselects nothing, and calls the tick callback with k - 1 when
   * one is installed.
   */
  lemma TimerCountsDown(s: Sched, regs: Regs)
    requires TimerEnabled(s) && 0 <= s.current < |s.vcpus|
    requires s.vcpus[s.current].preemptCount == 0 && s.vcpus[s.current].tickPending > 0
    ensures var r := TimerState(s, regs);
      var v := s.vcpus[s.current];
      r.current == s.current &&
      r.vcpus == s.vcpus[s.current := v.(tickPending := v.tickPending - 1)] &&
      r.switches == s.switches && r.irqDeliveries == s.irqDeliveries &&
      r.tickCalls == s.tickCalls + (if v.hasTickFunc then [TickCall(regs, v.tickPending - 1)] else [])
  {
  }

  /** The tick that uses up the last pending tick does not reselect; the one after it does. */
  lemma {:induction false} TimerSliceEnds(s: Sched, regs1: Regs, regs2: Regs)
    requires TimerEnabled(s) && 0 <= s.current < |s.vcpus|
    requires s.vcpus[s.current].preemptCount == 0 && s.vcpus[s.current].tickPending == 1
    ensures var s1 := TimerState(s, regs1);
      s1.current == s.current && s1.switches == s.switches &&
      TimerEnabled(s1) && NextEnabled(s1) &&
      TimerState(s1, regs2) == NextState(s1, regs2).(timerRestarts := s1.timerRestarts + 1)
  {
    TimerCountsDown(s, regs1);
    var s1 := TimerState(s, regs1);
    assert s1.vcpus[s.current].tickPending == 0;
    TimerReselects(s1, regs2);
  }

  lemma TimerSingleRunning(s: Sched, regs: Regs)
    requires TimerEnabled(s) && RunningOnlyCurrent(s.vcpus, s.current)
    ensures RunningOnlyCurrent(TimerState(s, regs).vcpus, TimerState(s, regs).current)
  {
    if NextEnabled(s) {
      NextSingleRunning(s, regs);
    }
  }

  lemma TimerWithinBudget(s: Sched, regs: Regs)
    requires TimerEnabled(s) && WithinBudget(s.vcpus)
    ensures WithinBudget(TimerState(s, regs).vcpus)
  {
    if NextEnabled(s) {
      NextWithinBudget(s, regs);
    }
  }

  // ---------------------------------------------------------------- IRQ path

  /** vmm_scheduler_irq_process: deliver into a RUNNING current VCPU, otherwise redirect to reselection. */
  function IrqState(s: Sched, regs: Regs): (r: Sched)
    requires WellNumbered(s.vcpus)
    ensures |r.vcpus| == |s.vcpus| && WellNumbered(r.vcpus)
    ensures r.irqDeliveries == s.irqDeliveries || r.irqDeliveries == s.irqDeliveries + [regs]
    ensures r.irqDeliveries != s.irqDeliveries ==>
      0 <= s.current < |s.vcpus| && s.vcpus[s.current].state == STATE_RUNNING && r == s.(irqDeliveries := r.irqDeliveries)
    ensures r.tickCalls == s.tickCalls && r.timerRestarts == s.timerRestarts
  {
    match Lookup(s.vcpus, s.current)
    case None => s
    case Some(v) =>
      if v.state != STATE_RUNNING then NextState(s, regs)
      else s.(irqDeliveries := s.irqDeliveries + [regs])
  }

  /** With no current VCPU an interrupt changes nothing and is not delivered. */
  lemma IrqNoCurrent(s: Sched, regs: Regs)
    requires WellNumbered(s.vcpus) && !(0 <= s.current < |s.vcpus|)
    ensures IrqState(s, regs) == s
  {
  }

  /** A current VCPU that is not RUNNING gets no IRQ delivered; the scheduler reselects instead. */
  lemma IrqRedirects(s: Sched, regs: Regs)
    requires WellNumbered(s.vcpus) && 0 <= s.current < |s.vcpus|
    requires s.vcpus[s.current].state != STATE_RUNNING
    ensures NextEnabled(s)
    ensures IrqState(s, regs) == NextState(s, regs)
    ensures IrqState(s, regs).irqDeliveries == s.irqDeliveries
  {
  }

  /** A RUNNING current VCPU gets the IRQ delivered and the scheduler state is left as it was. */
  lemma IrqDelivers(s: Sched, regs: Regs)
    requires WellNumbered(s.vcpus) && 0 <= s.current < |s.vcpus|
    requires s.vcpus[s.current].state == STATE_RUNNING
    ensures IrqState(s, regs) == s.(irqDeliveries := s.irqDeliveries + [regs])
  {
  }

  lemma IrqSingleRunning(s: Sched, regs: Regs)
    requires WellNumbered(s.vcpus) && RunningOnlyCurrent(s.vcpus, s.current)
    ensures RunningOnlyCurrent(IrqState(s, regs).vcpus, IrqState(s, regs).current)
  {
    if 0 <= s.current < |s.vcpus| && s.vcpus[s.current].state != STATE_RUNNING {
      NextSingleRunning(s, regs);
    }
  }

  lemma IrqWithinBudget(s: Sched, regs: Regs)
    requires WellNumbered(s.vcpus) && WithinBudget(s.vcpus)
    ensures WithinBudget(IrqState(s, regs).vcpus)
  {
    if 0 <= s.current < |s.vcpus| && s.vcpus[s.current].state != STATE_RUNNING {
      NextWithinBudget(s, regs);
    }
  }

  // ---------------------------------------------------------------- preemption counter

  /** vmm_scheduler_preempt_disable. */
  function PreemptDisableState(s: Sched): (r: Sched)
    requires WellNumbered(s.vcpus)
    ensures |r.vcpus| == |s.vcpus| && r == s.(vcpus := r.vcpus)
    ensures forall i :: 0 <= i < |s.vcpus| ==>
      r.vcpus[i] == s.vcpus[i].(preemptCount := r.vcpus[i].preemptCount) &&
      (i != s.current ==> r.vcpus[i] == s.vcpus[i])
  {
    match CurrentVcpuOf(s)
    case None => s
    case Some(v) => s.(vcpus := s.vcpus[v.num := v.(preemptCount := Inc32(v.preemptCount))])
  }

  /** vmm_scheduler_preempt_enable. */
  function PreemptEnableState(s: Sched): (r: Sched)
    requires WellNumbered(s.vcpus)
    ensures |r.vcpus| == |s.vcpus| && r == s.(vcpus := r.vcpus)
    ensures forall i :: 0 <= i < |s.vcpus| ==>
      r.vcpus[i] == s.vcpus[i].(preemptCount := r.vcpus[i].preemptCount) &&
      r.vcpus[i].preemptCount <= s.vcpus[i].preemptCount &&
      (i != s.current ==> r.vcpus[i] == s.vcpus[i])
  {
    match CurrentVcpuOf(s)
    case None => s
    case Some(v) =>
      if v.preemptCount != 0
      then s.(vcpus := s.vcpus[v.num := v.(preemptCount := v.preemptCount - 1)])
      else s
  }

  /** Disabling preemption adds one (modulo 2^32) to the current VCPU's count and changes nothing else. */
  lemma PreemptDisableIncrements(s: Sched)
    requires WellNumbered(s.vcpus) && 0 <= s.current < |s.vcpus|
    ensures var v := s.vcpus[s.current];
      PreemptDisableState(s) == s.(vcpus := s.vcpus[s.current := v.(preemptCount := Inc32(v.preemptCount))])
    ensures s.vcpus[s.current].preemptCount < U32_MAX ==>
      PreemptDisableState(s).vcpus[s.current].preemptCount as int == s.vcpus[s.current].preemptCount as int + 1
  {
  }

  /** Enabling preemption takes one off a nonzero count and leaves a zero count alone. */
  lemma PreemptEnableNeverUnderflows(s: Sched)
    requires WellNumbered(s.vcpus) && 0 <= s.current < |s.vcpus|
    ensures var v := s.vcpus[s.current];
      PreemptEnableState(s) ==
        if v.preemptCount == 0 then s
        else s.(vcpus := s.vcpus[s.current := v.(preemptCount := v.preemptCount - 1)])
  {
  }

  /** Without a current VCPU both counter operations change nothing. */
  lemma PreemptNoCurrent(s: Sched)
    requires WellNumbered(s.vcpus) && CurrentVcpuOf(s).None?
    ensures PreemptDisableState(s) == s && PreemptEnableState(s) == s
  {
  }

  /** A disable followed by an enable restores the scheduler state, as long as the count is below its 32-bit maximum. */
  lemma {:induction false} PreemptEnableUndoesDisable(s: Sched)
    requires WellNumbered(s.vcpus)
    requires 0 <= s.current < |s.vcpus| ==> s.vcpus[s.current].preemptCount < U32_MAX
    ensures WellNumbered(PreemptDisableState(s).vcpus)
    ensures PreemptEnableState(PreemptDisableState(s)) == s
  {
    if 0 <= s.current < |s.vcpus| {
      var v := s.vcpus[s.current];
      var d := PreemptDisableState(s);
      assert d.vcpus[s.current] == v.(preemptCount := Inc32(v.preemptCount));
      assert PreemptEnableState(d).vcpus == s.vcpus[s.current := v];
      assert s.vcpus[s.current := v] == s.vcpus;
    }
  }

  /** At the 32-bit maximum the increment wraps to zero, and the following enable does not restore the count. */
  lemma PreemptDisableWraps(s: Sched)
    requires WellNumbered(s.vcpus) && 0 <= s.current < |s.vcpus|
    requires s.vcpus[s.current].preemptCount == U32_MAX
    ensures PreemptDisableState(s).vcpus[s.current].preemptCount == 0
    ensures PreemptEnableState(PreemptDisableState(s)) != s
  {
    assert PreemptEnableState(PreemptDisableState(s)).vcpus[s.current].preemptCount == 0;
  }

  lemma PreemptKeepsInvariants(s: Sched)
    requires WellNumbered(s.vcpus)
    ensures var d := PreemptDisableState(s);
      var e := PreemptEnableState(s);
      WellNumbered(d.vcpus) && WellNumbered(e.vcpus) &&
      d.current == s.current && e.current == s.current &&
      StatesOf(d.vcpus) == StatesOf(s.vcpus) && StatesOf(e.vcpus) == StatesOf(s.vcpus) &&
      (WithinBudget(s.vcpus) ==> WithinBudget(d.vcpus) && WithinBudget(e.vcpus))
  {
  }

  // ---------------------------------------------------------------- initialisation

  /** vmm_scheduler_init with `created` saying whether the timer event could be created. */
  function InitState(s: Sched, created: bool): (r: (Sched, Status))
    ensures r.0.current == -1 && r.0.timerCreated == created
    ensures r.1 == VmmOk <==> created
    ensures r.0.vcpus == s.vcpus
  {
    // stands for the vmm_memset of the control block (vmm_scheduler.c line 160)
    var cleared := s.(current := 0, timerCreated := false);
    var s' := cleared.(current := -1, timerCreated := created);
    if !created then (s', VmmEFail)
    else (s'.(timerStarts := s'.timerStarts + 1), VmmOk)
  }

  /** Initialisation leaves no current VCPU, fails exactly when the timer event cannot be created, and starts the timer otherwise. */
  lemma InitResets(s: Sched, created: bool)
    ensures var (r, status) := InitState(s, created);
      r.current == -1 && CurrentVcpuOf(r).None? &&
      (status == VmmEFail <==> !created) &&
      r.timerCreated == created &&
      r.timerStarts == s.timerStarts + (if created then 1 else 0) &&
      r.vcpus == s.vcpus && r.switches == s.switches && r.tickCalls == s.tickCalls &&
      r.irqDeliveries == s.irqDeliveries && r.timerRestarts == s.timerRestarts
  {
  }
}
