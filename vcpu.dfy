/**
 * The part of a VCPU record that the hypervisor scheduler reads and writes,
 * and the VCPU directory it looks VCPUs up in.
 *
 * The VCPU record and its state values are declared in the manager's header
 * (vmm_manager.h), which is not part of this model.  The state bit values and
 * the 32-bit counter width below follow xvisor's declarations of that era; the
 * proofs rely only on READY and RUNNING being distinct, RUNNING being saveable
 * and READY not being saveable (lemma StateFacts).
 */
module Vcpus {

  datatype Option<+T> = None | Some(value: T)

  /** Unsigned 32-bit integers, the width of the VCPU counters. */
  newtype u32 = x: int | 0 <= x < 0x1_0000_0000
  const U32_MAX: u32 := 0xFFFF_FFFF

  /** VCPU state bits. */
  const STATE_UNKNOWN: bv32 := 0x01
  const STATE_RESET: bv32 := 0x02
  const STATE_READY: bv32 := 0x04
  const STATE_RUNNING: bv32 := 0x08
  const STATE_PAUSED: bv32 := 0x10
  const STATE_HALTED: bv32 := 0x20
  /** The states whose register context may be saved at a switch. */
  const STATE_SAVEABLE: bv32 := STATE_RUNNING | STATE_PAUSED | STATE_HALTED

  /** Whether a VCPU in `state` has its register context saved when it is switched out. */
  predicate Saveable(state: bv32)
    ensures state == STATE_RUNNING || state == STATE_PAUSED || state == STATE_HALTED ==> Saveable(state)
    ensures state == STATE_UNKNOWN || state == STATE_RESET || state == STATE_READY ==> !Saveable(state)
  {
    (state & STATE_SAVEABLE) != 0
  }

  lemma StateFacts()
    ensures STATE_READY != STATE_RUNNING
    ensures Saveable(STATE_RUNNING) && !Saveable(STATE_READY)
  {
  }

  /** A trapped register frame; its contents are opaque to the scheduler. */
  type Regs = nat
  /** The guest a VCPU belongs to, as an opaque reference. */
  type GuestRef = nat

  /**
   * One VCPU as the scheduler sees it.  `hasTickFunc` says whether the
   * optional per-tick callback is installed.
   */
  datatype Vcpu = Vcpu(
    num: nat,
    state: bv32,
    preemptCount: u32,
    tickPending: u32,
    tickCount: u32,
    hasTickFunc: bool,
    guest: GuestRef)

  /** The directory stores VCPU number i at position i. */
  predicate WellNumbered(vs: seq<Vcpu>) {
    forall i :: 0 <= i < |vs| ==> vs[i].num == i
  }

  /** Lookup by number: none for any number outside the directory, -1 included. */
  function Lookup(vs: seq<Vcpu>, i: int): (r: Option<Vcpu>)
    ensures r.Some? <==> 0 <= i < |vs|
    ensures r.Some? ==> r.value == vs[i]
    ensures WellNumbered(vs) && r.Some? ==> r.value.num == i
  {
    if 0 <= i < |vs| then Some(vs[i]) else None
  }

  /** The state of every VCPU, in directory order. */
  function StatesOf(vs: seq<Vcpu>): (r: seq<bv32>)
    ensures |r| == |vs|
    ensures forall i :: 0 <= i < |vs| ==> r[i] == vs[i].state
  {
    seq(|vs|, i requires 0 <= i < |vs| => vs[i].state)
  }

  /** `preempt_count++` on a 32-bit counter. */
  function Inc32(x: u32): (r: u32)
    ensures x < U32_MAX ==> r as int == x as int + 1
    ensures x == U32_MAX ==> r == 0
  {
    ((x as int + 1) % 0x1_0000_0000) as u32
  }
}
