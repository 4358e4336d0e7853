# Per-CPU VCPU scheduler of the xvisor hypervisor, in Dafny

This project models `core/vmm_scheduler.c`, the scheduler that decides which
virtual CPU (VCPU) runs on a physical CPU. It models:

- the round-robin scan that picks the next VCPU;
- the conditional register switch and the state changes around it;
- the time-slice accounting driven by the scheduler's periodic timer event;
- the interrupt entry path that either delivers the interrupt into a RUNNING
  VCPU or reselects;
- the nesting counter that disables preemption;
- the accessors for the current VCPU and guest;
- initialisation.

Layout:

- `vcpu.dfy` (module `Vcpus`) — the part of a VCPU record the scheduler
  touches. It holds the state bits, `Saveable`, 32-bit counters and the
  directory lookup `Lookup`. `Lookup` finds no VCPU for any number outside
  the directory, `-1` included. This is assumed of `vmm_manager_vcpu`, like
  the code's use of `vmm_manager_vcpu(-1)` at lines 43, 74 and 98.
- `selection.dfy` (module `Selection`) — the scan rule as a pure function
  `Select` over a snapshot of the VCPU states, with lemmas about it.
- `transitions.dfy` (module `Transitions`) — the control block and directory
  as one value `Sched`, with one pure function per entry point: `NextState`,
  `TimerState`, `IrqState`, `PreemptDisableState`, `PreemptEnableState`,
  `InitState`, `CurrentVcpuOf`, `CurrentGuestOf`. The lemmas here state what
  each entry point promises.
- `scheduler.dfy` (module `VmmScheduler`) — class `Scheduler`. It has the
  directory as an `array<Vcpu>` updated in place, `current` for
  `sched.vcpu_current`, and ghost logs of external calls. Each method is
  proved to change the fields exactly as the matching function of
  `Transitions` says. `Scan` is the `while` loop of lines 43–50, proved to
  compute `Select`.
- `scenarios.dfy` (module `Scenarios`) — concrete runs: three READY VCPUs with
  none current; the last tick of a slice followed by reselection; an
  interrupt arriving for a descheduled VCPU; and a client of the class.

Preconditions the source demands of its callers. The source does not check
them; if they fail, it divides by zero or loops forever.

- `vmm_scheduler_next` needs at least one VCPU, because line 44 takes the
  index modulo the count.
- `vmm_scheduler_next` also needs a current VCPU or some READY VCPU.
  Otherwise the loop of lines 46–50 never reaches its exit test
  `next != vcpu_current`. This is `Selection.CanSelect`.
- `vmm_scheduler_timer_event` needs the same whenever there is no current
  VCPU (`Transitions.TimerEnabled`).
- `vmm_scheduler_irq_process` needs nothing: it calls `vmm_scheduler_next`
  only when there is a current VCPU.

One quirk is kept as written. The scan stops at the current index even when
that VCPU is not READY (line 47), and lines 65–66 then mark it RUNNING. A
HALTED current VCPU with no READY VCPU beside it is therefore run again
(`Transitions.NextRerunsCurrent`).

A nonzero `preempt_count` skips all tick accounting (line 75), so
`tick_pending` stays unchanged while preemption is disabled
(`Transitions.TimerSuppressed`).

The header declaring the VCPU record and its state values (`vmm_manager.h`)
is not part of this model. Two things are assumed from xvisor's declarations:

- the state bits: READY `0x04`, RUNNING `0x08`, PAUSED `0x10`, HALTED `0x20`,
  and SAVEABLE = RUNNING | PAUSED | HALTED;
- a 32-bit unsigned width for `preempt_count`, `tick_pending` and
  `tick_count`.

The proofs use only that READY and RUNNING differ, RUNNING is saveable and
READY is not (`Vcpus.StateFacts`). `vmm_error.h` is not part of this model
either: `VMM_OK` and `VMM_EFAIL` are the two values of `Transitions.Status`.

## Model

| member | source | states |
|---|---|---|
| `Vcpus.StateFacts` | core/vmm_scheduler.c:54-56 | READY and RUNNING are different states; RUNNING is saveable and READY is not |
| `Vcpus.Saveable` | core/vmm_scheduler.c:54 | RUNNING, PAUSED and HALTED VCPUs have their context saved at a switch; UNKNOWN, RESET and READY ones do not |
| `Vcpus.Lookup` | core/vmm_scheduler.c:40 | the lookup finds a VCPU exactly for a number inside the directory, finds the one stored there, and in a well-numbered directory that VCPU carries the number asked for |
| `Transitions.CurrentVcpuOf` | core/vmm_scheduler.c:114-124 | there is a current VCPU exactly when `vcpu_current` is not -1 and names a directory entry, and it is that entry |
| `Transitions.CurrentGuestOf` | core/vmm_scheduler.c:126-133 | there is a current guest exactly when there is a current VCPU, and it is that VCPU's guest |
| `Transitions.NextState` | core/vmm_scheduler.c:34-69 | the directory keeps its size and numbering; the selected VCPU becomes current, RUNNING, with its whole slice pending; at most one register switch is logged; the other logs and the timer are untouched |
| `Transitions.TimerState` | core/vmm_scheduler.c:71-90 | the directory keeps its size and numbering; the timer is restarted exactly once and not started or re-created; no IRQ is delivered; the switch and tick-callback logs only grow |
| `Transitions.IrqState` | core/vmm_scheduler.c:92-112 | the directory keeps its size and numbering; at most this one interrupt is delivered, and only into a RUNNING current VCPU with nothing else changed; no tick callback and no timer restart |
| `Transitions.PreemptDisableState` | core/vmm_scheduler.c:135-144 | only the current VCPU's preemption count may change; every other field of every VCPU and of the control block is kept |
| `Transitions.PreemptEnableState` | core/vmm_scheduler.c:146-155 | only the current VCPU's preemption count may change, and no count grows; everything else is kept |
| `Transitions.InitState` | core/vmm_scheduler.c:157-175 | after initialisation there is no current VCPU, the timer handle is set exactly when it could be created, the result is `VMM_OK` exactly then, and the directory is untouched |
| `Vcpus.Inc32` | core/vmm_scheduler.c:141 | the increment adds one below the 32-bit maximum and wraps to 0 at it |
| `Selection.Candidate` | core/vmm_scheduler.c:43-49 | after k steps the scan is at (c+1+k) mod n, always inside the directory |
| `Selection.BackAtCurrent` | core/vmm_scheduler.c:47 | within one round, the scan is back at the current index exactly at step n-1 |
| `Selection.StopWithinRound` | core/vmm_scheduler.c:46-50 | when the scan can end, it stops within n steps |
| `Selection.ScanSteps` | core/vmm_scheduler.c:46-50 | the step count at which the scan ends is the least one at which it reaches a READY VCPU or the current index |
| `Selection.Select` | core/vmm_scheduler.c:43-50 | the selected index is in the directory and is READY or the current index |
| `Selection.SelectIsFirstStop` | core/vmm_scheduler.c:43-50 | selection is the first stop of the scan in the order (c+1) mod n, (c+2) mod n, ... |
| `Selection.SelectPrefersOtherReady` | core/vmm_scheduler.c:46-47 | if a VCPU other than the current one is READY, the selected VCPU is READY and is not the current one |
| `Selection.SelectOnlyCurrent` | core/vmm_scheduler.c:46-47 | if no other VCPU is READY, the current VCPU is selected again |
| `Selection.SelectWithoutCurrent` | core/vmm_scheduler.c:43-50 | with no current VCPU the scan starts at 0 and selects the lowest-numbered READY VCPU |
| `Transitions.CurrentVcpuIsLookup` | core/vmm_scheduler.c:119-120 | the -1 test before the lookup gives the same result as the lookup alone |
| `Transitions.CurrentVcpuSentinel` | core/vmm_scheduler.c:114-133 | while vcpu_current is -1 or a VCPU number, the current VCPU and the current guest are none exactly when it is -1 |
| `Transitions.NextRunsSelected` | core/vmm_scheduler.c:64-68 | after selection, vcpu_current is the selected VCPU, which is RUNNING with tick_pending == tick_count and is otherwise unchanged; no log but the switch log changes |
| `Transitions.NextTouchesOnlyTwo` | core/vmm_scheduler.c:53-68 | no VCPU other than the old current one and the selected one changes |
| `Transitions.NextOutgoing` | core/vmm_scheduler.c:54-57 | when switching away, a saveable RUNNING current VCPU becomes READY and any other keeps its state |
| `Transitions.NextSwitchRule` | core/vmm_scheduler.c:53-62 | no register switch when the current VCPU is selected again; otherwise exactly one switch, outgoing = the current VCPU if it is saveable, else none |
| `Transitions.NextRerunsCurrent` | core/vmm_scheduler.c:46-66 | with no other VCPU READY, the current VCPU runs again, whatever its state, without a switch |
| `Transitions.NextSingleRunning` | core/vmm_scheduler.c:53-68 | if only the current VCPU was RUNNING before, exactly the new current VCPU is RUNNING after |
| `Transitions.NextWithinBudget` | core/vmm_scheduler.c:65 | selection keeps tick_pending <= tick_count for every VCPU |
| `Transitions.TimerRestartsOnce` | core/vmm_scheduler.c:71-90 | every timer event restarts the timer exactly once and never re-creates or starts it |
| `Transitions.TimerSuppressed` | core/vmm_scheduler.c:73-75 | with preempt_count != 0 a tick changes nothing but the restart count |
| `Transitions.TimerReselects` | core/vmm_scheduler.c:73-88 | with no current VCPU, or with preempt_count == 0 and tick_pending == 0, a tick is a reselection plus one restart |
| `Transitions.TimerCountsDown` | core/vmm_scheduler.c:78-83 | with preempt_count == 0 and tick_pending == k > 0 a tick sets tick_pending to k-1, does not reselect, and calls the tick callback with k-1 exactly when one is installed |
| `Transitions.TimerSliceEnds` | core/vmm_scheduler.c:76-83 | the tick that takes tick_pending from 1 to 0 does not reselect, and the next tick does |
| `Transitions.TimerSingleRunning` | core/vmm_scheduler.c:71-90 | a timer event keeps "only the current VCPU is RUNNING" |
| `Transitions.TimerWithinBudget` | core/vmm_scheduler.c:71-90 | a timer event keeps tick_pending <= tick_count |
| `Transitions.IrqNoCurrent` | core/vmm_scheduler.c:97-100 | with no current VCPU the interrupt path changes nothing and delivers nothing |
| `Transitions.IrqRedirects` | core/vmm_scheduler.c:104-107 | when the current VCPU is not RUNNING the interrupt path reselects and delivers nothing |
| `Transitions.IrqDelivers` | core/vmm_scheduler.c:104-110 | when the current VCPU is RUNNING the interrupt is delivered and nothing else changes |
| `Transitions.IrqSingleRunning` | core/vmm_scheduler.c:92-112 | the interrupt path keeps "only the current VCPU is RUNNING" |
| `Transitions.IrqWithinBudget` | core/vmm_scheduler.c:92-112 | the interrupt path keeps tick_pending <= tick_count |
| `Transitions.PreemptDisableIncrements` | core/vmm_scheduler.c:135-144 | disable adds exactly one (modulo 2^32) to the current VCPU's preempt_count and changes nothing else |
| `Transitions.PreemptEnableNeverUnderflows` | core/vmm_scheduler.c:146-155 | enable takes one off a nonzero count, leaves a zero count and everything else alone |
| `Transitions.PreemptNoCurrent` | core/vmm_scheduler.c:138-150 | with no current VCPU, disable and enable change nothing |
| `Transitions.PreemptEnableUndoesDisable` | core/vmm_scheduler.c:135-155 | disable then enable restores the whole state while the count is below its 32-bit maximum |
| `Transitions.PreemptDisableWraps` | core/vmm_scheduler.c:141 | at the 32-bit maximum the count wraps to 0 and the following enable does not restore it |
| `Transitions.PreemptKeepsInvariants` | core/vmm_scheduler.c:135-155 | disable and enable change neither vcpu_current nor any state, and keep tick_pending <= tick_count |
| `Transitions.InitResets` | core/vmm_scheduler.c:157-175 | init sets vcpu_current to -1, fails exactly when the timer event cannot be created, and starts the timer once otherwise |
| `VmmScheduler.Scheduler.constructor` | core/vmm_scheduler.c:32 | the control block over a numbered directory, with no current VCPU, no timer event and empty logs |
| `VmmScheduler.Scheduler.Init` | core/vmm_scheduler.c:157-175 | the new state and status are those of `InitState`; vcpu_current is -1; the status is OK exactly when creation succeeded |
| `VmmScheduler.Scheduler.Scan` | core/vmm_scheduler.c:43-50 | the loop returns `Select` of the current states, an index that is READY or current, and changes nothing |
| `VmmScheduler.Scheduler.Next` | core/vmm_scheduler.c:34-69 | the new state is `NextState` of the old state; the new current VCPU is the selected one, RUNNING with a full slice |
| `VmmScheduler.Scheduler.TimerEvent` | core/vmm_scheduler.c:71-90 | the new state is `TimerState` of the old state |
| `VmmScheduler.Scheduler.IrqProcess` | core/vmm_scheduler.c:92-112 | the new state is `IrqState` of the old state |
| `VmmScheduler.Scheduler.CurrentVcpu` | core/vmm_scheduler.c:114-124 | returns none exactly when vcpu_current is -1, else the record numbered vcpu_current; changes nothing, so repeated calls agree |
| `VmmScheduler.Scheduler.CurrentGuest` | core/vmm_scheduler.c:126-133 | returns the current VCPU's guest, none exactly when vcpu_current is -1; changes nothing |
| `VmmScheduler.Scheduler.PreemptDisable` | core/vmm_scheduler.c:135-144 | the new state is `PreemptDisableState` of the old state |
| `VmmScheduler.Scheduler.PreemptEnable` | core/vmm_scheduler.c:146-155 | the new state is `PreemptEnableState` of the old state |
| `Scenarios.ThreeReadyFromNone` | core/vmm_scheduler.c:43-68 | three READY VCPUs and none current: VCPU 0 runs with a full slice after a switch with no outgoing VCPU |
| `Scenarios.LastTickThenRerun` | core/vmm_scheduler.c:71-90 | VCPU 1 alone not HALTED with one tick left: one tick empties the slice and calls the callback, the next re-runs VCPU 1 with a full slice and no switch |
| `Scenarios.IrqAfterDeschedule` | core/vmm_scheduler.c:92-107 | an interrupt for a current VCPU that is already READY reselects instead of being delivered |

## Left out

- Locking and interrupt masking (`vmm_spin_lock_irqsave`, `vmm_spin_unlock_irqrestore`, `vmm_cpu_irq_save`, `vmm_cpu_irq_restore`). They exist for concurrency, so each entry point is modelled as one atomic, sequential step. Races between the timer path and the interrupt path are not modelled.
- `vmm_vcpu_regs_switch` is architecture-specific save and restore. Only its arguments are recorded, in the switch log.
- `vmm_vcpu_irq_process` delivers the interrupt into the guest; the model only records that it was called.
- The timer facility. Whether `vmm_timer_event_create` succeeds is an input of `Init`. `vmm_timer_event_start` and `vmm_timer_event_restart` are counters. The period from `vmm_timer_tick_nsecs` is not recorded.
- The tick callback body. Only the call and the ticks-left value are recorded. A callback that calls back into the scheduler is not modelled.
- Register frames are opaque tokens.
- The internals of `vmm_manager_vcpu`, `vmm_manager_vcpu_count` and `vmm_memset`. The directory is a fixed array whose element `i` is VCPU number `i`. VCPU pointers are represented by their numbers. The lock that `vmm_memset` also clears is not modelled.
- VmmScheduler.Scheduler.constructor: starts `vcpu_current` at -1, not at the 0 of zero-filled static storage. No entry point runs before `vmm_scheduler_init`, and init sets -1 anyway.
- VmmScheduler.Scheduler.Next: is proved for the class invariant `-1 <= vcpu_current < count`, which every entry point keeps. The pure scan `Selection.Select` also covers any other value of `vcpu_current`.
- The widths of the VCPU counters are assumed, not read from a header (see above). Only `preempt_count++` can leave the 32-bit range, and its wrap-around is modelled.
