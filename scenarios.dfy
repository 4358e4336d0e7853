/**
 * Concrete runs of the scheduler, stated on the pure model and, for the first
 * one, on the class as a client sees it.
 */
module Scenarios {
  import opened Vcpus
  import opened Selection
  import opened Transitions
  import opened VmmScheduler

  function MakeVcpu(num: nat, state: bv32, pending: u32): Vcpu {
    Vcpu(num, state, 0, pending, 5, true, 7)
  }

  /** Three VCPUs, all READY, none current: VCPU 0 is selected, with a full slice and no outgoing context. */
  lemma ThreeReadyFromNone(regs: Regs)
    ensures var s := Sched([MakeVcpu(0, STATE_READY, 0), MakeVcpu(1, STATE_READY, 0), MakeVcpu(2, STATE_READY, 0)],
                           -1, true, [], [], [], 1, 0);
      NextEnabled(s) &&
      var r := NextState(s, regs);
      r.current == 0 && r.vcpus[0].state == STATE_RUNNING && r.vcpus[0].tickPending == 5 &&
      r.switches == [Switch(None, 0, regs)]
  {
    var s := Sched([MakeVcpu(0, STATE_READY, 0), MakeVcpu(1, STATE_READY, 0), MakeVcpu(2, STATE_READY, 0)],
                   -1, true, [], [], [], 1, 0);
    assert StatesOf(s.vcpus)[0] == STATE_READY;
    SelectWithoutCurrent(StatesOf(s.vcpus), -1);
  }

  /**
   * VCPU 1 RUNNING with one tick left, the others HALTED: the first tick leaves
   * no ticks and calls the tick callback; the second reselects VCPU 1, which
   * runs again with a full slice and without a register switch.
   */
  lemma {:induction false} LastTickThenRerun(regs1: Regs, regs2: Regs)
    ensures var s := Sched([MakeVcpu(0, STATE_HALTED, 0), MakeVcpu(1, STATE_RUNNING, 1), MakeVcpu(2, STATE_HALTED, 0)],
                           1, true, [], [], [], 1, 0);
      TimerEnabled(s) &&
      var s1 := TimerState(s, regs1);
      s1.current == 1 && s1.vcpus[1].tickPending == 0 && s1.tickCalls == [TickCall(regs1, 0)] &&
      TimerEnabled(s1) &&
      var s2 := TimerState(s1, regs2);
      s2.current == 1 && s2.vcpus[1].state == STATE_RUNNING && s2.vcpus[1].tickPending == 5 &&
      s2.switches == [] && s2.timerRestarts == 2
  {
    StateFacts();
    var s := Sched([MakeVcpu(0, STATE_HALTED, 0), MakeVcpu(1, STATE_RUNNING, 1), MakeVcpu(2, STATE_HALTED, 0)],
                   1, true, [], [], [], 1, 0);
    TimerCountsDown(s, regs1);
    var s1 := TimerState(s, regs1);
    TimerSliceEnds(s, regs1, regs2);
    NextRerunsCurrent(s1, regs2);
  }

  /** An interrupt arriving while the current VCPU is already READY is not delivered: the scheduler reselects. */
  lemma IrqAfterDeschedule(regs: Regs)
    ensures var s := Sched([MakeVcpu(0, STATE_READY, 3), MakeVcpu(1, STATE_READY, 0)], 0, true, [], [], [], 1, 0);
      NextEnabled(s) &&
      var r := IrqState(s, regs);
      r.irqDeliveries == [] && r.current == 1 && r.switches == [Switch(None, 1, regs)]
  {
    StateFacts();
    var s := Sched([MakeVcpu(0, STATE_READY, 3), MakeVcpu(1, STATE_READY, 0)], 0, true, [], [], [], 1, 0);
    IrqRedirects(s, regs);
    SelectPrefersOtherReady(StatesOf(s.vcpus), 0, 1);
  }

  /** The same first scenario on the class: after init and one tick with no current VCPU, VCPU 0 runs. */
  method ClientRoundRobin(regs: Regs)
  {
    var directory := new Vcpu[3];
    directory[0], directory[1], directory[2] :=
      MakeVcpu(0, STATE_READY, 0), MakeVcpu(1, STATE_READY, 0), MakeVcpu(2, STATE_READY, 0);
    var sched := new Scheduler(directory);
    var status := sched.Init(true);
    assert status == VmmOk;
    assert sched.vcpus[0].state == STATE_READY;
    sched.TimerEvent(regs);
    assert sched.current == 0;
    var v := sched.CurrentVcpu();
    assert v.Some? && v.value.state == STATE_RUNNING && v.value.tickPending == 5;
    sched.PreemptDisable();
    sched.TimerEvent(regs);
    assert sched.current == 0 && sched.vcpus[0].tickPending == 5;
    sched.PreemptEnable();
    assert sched.vcpus[0].preemptCount == 0;
  }
}
