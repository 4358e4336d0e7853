/**
 * The round-robin selection rule of the scheduler, as a pure function over a
 * snapshot of the VCPU states.
 *
 * With `n` VCPUs and current index `c` (or -1 when there is no current VCPU),
 * the scan visits `(c+1) mod n, (c+2) mod n, ...` and stops at the first VCPU
 * that is READY, or at `c` itself when it comes back to it first.  `cur` below
 * is the raw `vcpu_current` value: the start of the scan uses the current
 * VCPU's number only when `cur` names a VCPU of the directory, while the stop
 * test compares with `cur` as it is.
 */
module Selection {
  import opened Vcpus

  /** Where the scan counts from: the current VCPU's number, or -1 when there is none. */
  function Origin(n: nat, cur: int): int {
    if 0 <= cur < n then cur else -1
  }

  /** The index the scan looks at after `k` steps. */
  function Candidate(n: nat, cur: int, k: nat): (r: nat)
    requires n > 0
    ensures r < n
  {
    (Origin(n, cur) + 1 + k) % n
  }

  /** The scan stops at index `i`. */
  predicate Stops(states: seq<bv32>, cur: int, i: nat)
    requires i < |states|
  {
    states[i] == STATE_READY || i == cur
  }

  /**
   * What the scan needs in order to end: at least one VCPU (the index is
   * taken modulo the count), and either a current VCPU to come back to or
   * some READY VCPU.
   */
  predicate CanSelect(states: seq<bv32>, cur: int) {
    |states| > 0 &&
    (0 <= cur < |states| || exists i :: 0 <= i < |states| && states[i] == STATE_READY)
  }

  /** None of the first `k` indices visited stops the scan. */
  predicate NoStopBefore(states: seq<bv32>, cur: int, k: nat)
    requires |states| > 0
  {
    forall j :: 0 <= j < k ==> !Stops(states, cur, Candidate(|states|, cur, j))
  }

  lemma ModSmall(x: int, n: int)
    requires 0 < n && 0 <= x < 2 * n
    ensures x % n == if x < n then x else x - n
  {
    if x >= n {
      assert x == n + (x - n);
    }
  }

  /** After `k` steps (fewer than a round) the scan is back at `c` exactly when `k == n - 1`. */
  lemma BackAtCurrent(n: nat, cur: int, k: nat)
    requires 0 <= cur < n && k < n
    ensures Candidate(n, cur, k) == cur <==> k == n - 1
  {
    ModSmall(cur + 1 + k, n);
  }

  /** The number of steps after which the scan reaches index `i`. */
  function Distance(n: nat, cur: int, i: nat): (d: nat)
    requires i < n
    ensures d < n
    ensures Candidate(n, cur, d) == i
  {
    var m := i - Origin(n, cur) - 1;
    var d := if m >= 0 then m else m + n;
    ModSmall(Origin(n, cur) + 1 + d, n);
    d
  }

  /** A scan that can end stops within one round. */
  lemma StopWithinRound(states: seq<bv32>, cur: int, k: nat)
    requires CanSelect(states, cur) && NoStopBefore(states, cur, k)
    ensures k < |states|
  {
    var n := |states|;
    if 0 <= cur < n {
      BackAtCurrent(n, cur, n - 1);
      assert Stops(states, cur, Candidate(n, cur, n - 1));
    } else {
      var i :| 0 <= i < n && states[i] == STATE_READY;
      ModSmall(i, n);
      assert Stops(states, cur, Candidate(n, cur, i));
    }
  }

  /**
   * The number of steps the scan takes when it has already passed `k`
   * indices without stopping: the least step count at which it stops.
   */
  function ScanSteps(states: seq<bv32>, cur: int, k: nat): (r: nat)
    requires CanSelect(states, cur) && NoStopBefore(states, cur, k)
    ensures k <= r < |states|
    ensures Stops(states, cur, Candidate(|states|, cur, r))
    ensures NoStopBefore(states, cur, r)
    decreases |states| - k
  {
    StopWithinRound(states, cur, k);
    if Stops(states, cur, Candidate(|states|, cur, k)) then k
    else ScanSteps(states, cur, k + 1)
  }

  /** The index the scheduler selects. */
  function Select(states: seq<bv32>, cur: int): (r: nat)
    requires CanSelect(states, cur)
    ensures r < |states|
    ensures states[r] == STATE_READY || r == cur
  {
    Candidate(|states|, cur, ScanSteps(states, cur, 0))
  }

  /** Selection is the first stop of the scan: any step count at which the scan first stops gives it. */
  lemma {:induction false} SelectIsFirstStop(states: seq<bv32>, cur: int, k: nat)
    requires CanSelect(states, cur)
    requires k < |states| && Stops(states, cur, Candidate(|states|, cur, k))
    requires NoStopBefore(states, cur, k)
    ensures Select(states, cur) == Candidate(|states|, cur, k)
  {
    var r := ScanSteps(states, cur, 0);
    assert r == k;
  }

  /**
   * A READY VCPU other than the current one is never passed over for the current
   * one: the selected VCPU is then READY and is not the current VCPU.
   */
  lemma {:induction false} SelectPrefersOtherReady(states: seq<bv32>, cur: int, i: nat)
    requires CanSelect(states, cur)
    requires i < |states| && i != cur && states[i] == STATE_READY
    ensures states[Select(states, cur)] == STATE_READY
    ensures Select(states, cur) != cur
  {
    var n := |states|;
    var r := ScanSteps(states, cur, 0);
    var d := Distance(n, cur, i);
    assert Stops(states, cur, Candidate(n, cur, d));
    assert r <= d;
    if 0 <= cur < n {
      BackAtCurrent(n, cur, d);
      BackAtCurrent(n, cur, r);
    }
  }

  /** When no VCPU other than the current one is READY, the current one is selected again. */
  lemma {:induction false} SelectOnlyCurrent(states: seq<bv32>, cur: int)
    requires 0 <= cur < |states|
    requires forall i :: 0 <= i < |states| && i != cur ==> states[i] != STATE_READY
    ensures Select(states, cur) == cur
  {
    var n := |states|;
    forall j | 0 <= j < n - 1
      ensures !Stops(states, cur, Candidate(n, cur, j))
    {
      BackAtCurrent(n, cur, j);
    }
    BackAtCurrent(n, cur, n - 1);
    SelectIsFirstStop(states, cur, n - 1);
  }

  /** With no current VCPU the scan starts at index 0 and selects the lowest-numbered READY VCPU. */
  lemma {:induction false} SelectWithoutCurrent(states: seq<bv32>, cur: int)
    requires CanSelect(states, cur) && !(0 <= cur < |states|)
    ensures states[Select(states, cur)] == STATE_READY
    ensures forall i :: 0 <= i < Select(states, cur) ==> states[i] != STATE_READY
  {
    var n := |states|;
    var r := ScanSteps(states, cur, 0);
    ModSmall(r, n);
    forall i | 0 <= i < r
      ensures states[i] != STATE_READY
    {
      ModSmall(i, n);
      assert !Stops(states, cur, Candidate(n, cur, i));
    }
  }
}
