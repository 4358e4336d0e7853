/**
 * The per-CPU scheduler of the hypervisor (core/vmm_scheduler.c) as a class.
 *
 * `current` is the control block's `vcpu_current`; the VCPU directory is an
 * array whose records the scheduler updates in place.  Every entry point runs
 * as one sequential step: the spinlock and the interrupt masking of the source
 * only make that so.  The calls into code outside the scheduler (register
 * switch, tick callback, IRQ delivery, timer facility) are recorded in ghost
 * logs.  Each method is proved to change the state exactly as the matching
 * function of module Transitions says.
 */
module VmmScheduler {
  import opened Vcpus
  import opened Selection
  import opened Transitions

  class Scheduler {
    /** The VCPU directory: fixed in size, its records updated in place. */
    const vcpus: array<Vcpu>
    /** vcpu_current: the number of the VCPU on this CPU, -1 for none. */
    var current: int
    /** The scheduler's timer event has been created. */
    var timerCreated: bool

    ghost var switches: seq<Switch>
    ghost var tickCalls: seq<TickCall>
    ghost var irqDeliveries: seq<Regs>
    ghost var timerStarts: nat
    ghost var timerRestarts: nat

    ghost predicate Valid()
      reads this, vcpus
    {
      WellNumbered(vcpus[..]) && -1 <= current < vcpus.Length
    }

    ghost function Abstract(): Sched
      reads this, vcpus
    {
      Sched(vcpus[..], current, timerCreated, switches, tickCalls, irqDeliveries,
            timerStarts, timerRestarts)
    }

    /** The control block of one CPU over a directory, before initialisation: no current VCPU, no timer event. */
    constructor (directory: array<Vcpu>)
      requires WellNumbered(directory[..])
      ensures Valid() && vcpus == directory
      ensures Abstract() == Sched(directory[..], -1, false, [], [], [], 0, 0)
    {
      vcpus := directory;
      current := -1;
      timerCreated := false;
      switches, tickCalls, irqDeliveries := [], [], [];
      timerStarts, timerRestarts := 0, 0;
    }

    /** vmm_scheduler_init; `created` says whether the timer facility could create the event. */
    method Init(created: bool) returns (status: Status)
      requires Valid()
      modifies this
      ensures Valid()
      ensures (Abstract(), status) == InitState(old(Abstract()), created)
      ensures current == -1 && (status == VmmOk <==> created)
    {
      // stands for the vmm_memset of the control block (vmm_scheduler.c line 160)
      current, timerCreated := 0, false;
      current := -1;
      timerCreated := created;
      if !timerCreated {
        return VmmEFail;
      }
      timerStarts := timerStarts + 1;
      return VmmOk;
    }

    /**
     * The scan of vmm_scheduler_next: from the VCPU after the current one (or
     * from VCPU 0 when there is none), step circularly until a READY VCPU or
     * the current VCPU is reached.  Changes nothing.
     */
    method Scan() returns (next: int)
      requires Valid() && NextEnabled(Abstract())
      ensures next == Select(StatesOf(vcpus[..]), current)
      ensures 0 <= next < vcpus.Length
      ensures vcpus[next].state == STATE_READY || next == current
    {
      ghost var states := StatesOf(vcpus[..]);
      var n := vcpus.Length;
      var cur := Lookup(vcpus[..], current);
      next := if cur.Some? then cur.value.num else -1;
      next := (next + 1) % n;
      var nxt := Lookup(vcpus[..], next);
      ghost var k: nat := 0;
      while nxt.value.state != STATE_READY && next != current
        invariant 0 <= k < n && next == Candidate(n, current, k)
        invariant nxt == Lookup(vcpus[..], next)
        invariant NoStopBefore(states, current, k)
        decreases n - k
      {
        assert states[next] == nxt.value.state;
        StopWithinRound(states, current, k + 1);
        ModSmall(next + 1, n);
        ModSmall(Origin(n, current) + 1 + k, n);
        ModSmall(Origin(n, current) + 1 + k + 1, n);
        next := (next + 1) % n;
        nxt := Lookup(vcpus[..], next);
        k := k + 1;
      }
      SelectIsFirstStop(states, current, k);
    }

    /** vmm_scheduler_next: round-robin scan for the next VCPU, conditional switch, and the selected VCPU runs. */
    method Next(regs: Regs)
      requires Valid() && NextEnabled(Abstract())
      modifies this, vcpus
      ensures Valid()
      ensures Abstract() == NextState(old(Abstract()), regs)
      ensures current == Selected(old(Abstract()))
      ensures vcpus[current].state == STATE_RUNNING && vcpus[current].tickPending == vcpus[current].tickCount
    {
      var cur := Lookup(vcpus[..], current);
      var next := Scan();
      var nxt := Lookup(vcpus[..], next);

      if cur.None? || cur.value.num != nxt.value.num {
        if cur.Some? && Saveable(cur.value.state) {
          if cur.value.state == STATE_RUNNING {
            vcpus[cur.value.num] := cur.value.(state := STATE_READY);
          }
          switches := switches + [Switch(Some(cur.value.num), nxt.value.num, regs)];
        } else {
          switches := switches + [Switch(None, nxt.value.num, regs)];
        }
      }

      // the scan always ends inside the directory, so this test always passes
      if nxt.Some? {
        vcpus[next] := vcpus[next].(tickPending := vcpus[next].tickCount, state := STATE_RUNNING);
        current := vcpus[next].num;
      }
    }

    /** vmm_scheduler_timer_event: one tick of time-slice accounting, then the timer event is restarted. */
    method TimerEvent(regs: Regs)
      requires Valid() && TimerEnabled(Abstract())
      modifies this, vcpus
      ensures Valid()
      ensures Abstract() == TimerState(old(Abstract()), regs)
    {
      var vcpu := Lookup(vcpus[..], current);
      if vcpu.Some? {
        if vcpu.value.preemptCount == 0 {
          if vcpu.value.tickPending == 0 {
            Next(regs);
          } else {
            var c := vcpu.value.num;
            vcpus[c] := vcpus[c].(tickPending := vcpus[c].tickPending - 1);
            if vcpus[c].hasTickFunc && vcpus[c].preemptCount == 0 {
              tickCalls := tickCalls + [TickCall(regs, vcpus[c].tickPending)];
            }
          }
        }
      } else {
        Next(regs);
      }
      timerRestarts := timerRestarts + 1;
    }

    /** vmm_scheduler_irq_process: deliver the interrupt to a RUNNING current VCPU, or reselect. */
    method IrqProcess(regs: Regs)
      requires Valid()
      modifies this, vcpus
      ensures Valid()
      ensures Abstract() == IrqState(old(Abstract()), regs)
    {
      var vcpu := Lookup(vcpus[..], current);
      if vcpu.None? {
        return;
      }
      if vcpu.value.state != STATE_RUNNING {
        Next(regs);
        return;
      }
      irqDeliveries := irqDeliveries + [regs];
    }

    /** vmm_scheduler_current_vcpu: reads the state and changes nothing. */
    method CurrentVcpu() returns (vcpu: Option<Vcpu>)
      requires Valid()
      ensures vcpu == CurrentVcpuOf(Abstract())
      ensures vcpu.None? <==> current == -1
      ensures vcpu.Some? ==> vcpu.value == vcpus[current] && vcpu.value.num == current
    {
      vcpu := None;
      if current != -1 {
        vcpu := Lookup(vcpus[..], current);
      }
    }

    /** vmm_scheduler_current_guest: the guest of the current VCPU; changes nothing. */
    method CurrentGuest() returns (guest: Option<GuestRef>)
      requires Valid()
      ensures guest == CurrentGuestOf(Abstract())
      ensures guest.Some? <==> current != -1
      ensures guest.Some? ==> guest.value == vcpus[current].guest
    {
      var vcpu := CurrentVcpu();
      if vcpu.Some? {
        return Some(vcpu.value.guest);
      }
      return None;
    }

    /** vmm_scheduler_preempt_disable. */
    method PreemptDisable()
      requires Valid()
      modifies vcpus
      ensures Valid()
      ensures Abstract() == PreemptDisableState(old(Abstract()))
    {
      var vcpu := CurrentVcpu();
      if vcpu.Some? {
        var c := vcpu.value.num;
        vcpus[c] := vcpus[c].(preemptCount := Inc32(vcpus[c].preemptCount));
      }
    }

    /** vmm_scheduler_preempt_enable. */
    method PreemptEnable()
      requires Valid()
      modifies vcpus
      ensures Valid()
      ensures Abstract() == PreemptEnableState(old(Abstract()))
    {
      var vcpu := CurrentVcpu();
      if vcpu.Some? && vcpu.value.preemptCount != 0 {
        var c := vcpu.value.num;
        vcpus[c] := vcpus[c].(preemptCount := vcpus[c].preemptCount - 1);
      }
    }
  }
}
