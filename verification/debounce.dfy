/**
 * The trailing-edge debounce the profile form uses: every call clears the
 * pending timer and arms a new one `wait` ms later, so a call's payload is
 * delivered only if no further call arrives before its timer expires.
 *
 * The timer is simulated event by event (`Simulate`) and compared with a
 * closed-form rule (`Quiet`): call `i` fires exactly when it is the last call
 * or the next call comes at least `wait` ms later.
 */
module Debounce {
  import opened Wrappers

  /** One call of the debounced function: when it happened and what it was given. */
  datatype Call<A> = Call(time: int, args: A)

  /** One delivery to the wrapped function: which call, when, and its arguments. */
  datatype Fire<A> = Fire(index: nat, time: int, args: A)

  /** The delay the profile form uses, in milliseconds. */
  const ProfileWait: nat := 300

  /** Calls arrive in time order. */
  predicate Chronological<A>(calls: seq<Call<A>>) {
    forall i :: 0 < i < |calls| ==> calls[i - 1].time <= calls[i].time
  }

  function FireOf<A>(calls: seq<Call<A>>, wait: nat, i: nat): (r: Fire<A>)
    requires i < |calls|
  {
    Fire(i, calls[i].time + wait, calls[i].args)
  }

  /**
   * The event-by-event timer: `pending` is the call whose timer is armed. Before
   * call `k` is handled, the armed timer fires if its deadline is not after call
   * `k`'s time; call `k` then clears whatever is armed and arms its own timer.
   * When no calls remain, the armed timer fires.
   */
  function Simulate<A>(calls: seq<Call<A>>, wait: nat, k: nat, pending: Option<nat>): (r: seq<Fire<A>>)
    requires k <= |calls|
    requires pending.Some? ==> pending.value < k
    decreases |calls| - k
  {
    if k == |calls| then
      (if pending.Some? then [FireOf(calls, wait, pending.value)] else [])
    else
      var fired :=
        if pending.Some? && calls[pending.value].time + wait <= calls[k].time
        then [FireOf(calls, wait, pending.value)] else [];
      fired + Simulate(calls, wait, k + 1, Some(k))
  }

  /** Call `i` is followed by a quiet gap of at least `wait`, or is the last call. */
  predicate Fires<A>(calls: seq<Call<A>>, wait: nat, i: nat)
    requires i < |calls|
  {
    i == |calls| - 1 || calls[i + 1].time - calls[i].time >= wait
  }

  /** The closed-form rule, over the calls from index `k` on. */
  function Quiet<A>(calls: seq<Call<A>>, wait: nat, k: nat): (r: seq<Fire<A>>)
    requires k <= |calls|
    ensures forall j :: 0 <= j < |r| ==> k <= r[j].index < |calls| && Fires(calls, wait, r[j].index) && r[j] == FireOf(calls, wait, r[j].index)
    ensures forall i, j :: 0 <= i < j < |r| ==> r[i].index < r[j].index
    decreases |calls| - k
  {
    if k == |calls| then []
    else
      var rest := Quiet(calls, wait, k + 1);
      if Fires(calls, wait, k) then [FireOf(calls, wait, k)] + rest else rest
  }

  /** Every call the rule picks from index `k` on is delivered. */
  lemma {:induction false} QuietComplete<A>(calls: seq<Call<A>>, wait: nat, k: nat, i: nat)
    requires k <= i < |calls| && Fires(calls, wait, i)
    ensures exists j :: 0 <= j < |Quiet(calls, wait, k)| && Quiet(calls, wait, k)[j].index == i
    decreases |calls| - k
  {
    var r := Quiet(calls, wait, k);
    if i == k {
      assert r[0].index == i;
    } else {
      QuietComplete(calls, wait, k + 1, i);
      var rest := Quiet(calls, wait, k + 1);
      var j :| 0 <= j < |rest| && rest[j].index == i;
      if Fires(calls, wait, k) {
        assert r[j + 1] == rest[j];
      } else {
        assert r[j] == rest[j];
      }
    }
  }

  /** The timer simulation delivers exactly the calls the closed-form rule picks, in order. */
  lemma {:induction false} SimulateIsQuiet<A>(calls: seq<Call<A>>, wait: nat, k: nat)
    requires 0 < k <= |calls|
    ensures Simulate(calls, wait, k, Some(k - 1)) == Quiet(calls, wait, k - 1)
    decreases |calls| - k
  {
    if k < |calls| {
      SimulateIsQuiet(calls, wait, k + 1);
    }
  }

  /** Starting with no timer armed, the simulation equals the closed-form rule. */
  lemma DebounceIsQuiet<A>(calls: seq<Call<A>>, wait: nat)
    ensures Simulate(calls, wait, 0, None) == Quiet(calls, wait, 0)
  {
    if |calls| > 0 {
      SimulateIsQuiet(calls, wait, 1);
    }
  }

  /** A burst (every gap shorter than `wait`) delivers only its last call. */
  lemma {:induction false} BurstFiresLastOnly<A>(calls: seq<Call<A>>, wait: nat, k: nat)
    requires k < |calls|
    requires forall i :: k <= i < |calls| - 1 ==> calls[i + 1].time - calls[i].time < wait
    ensures Quiet(calls, wait, k) == [FireOf(calls, wait, |calls| - 1)]
    decreases |calls| - k
  {
    if k < |calls| - 1 {
      BurstFiresLastOnly(calls, wait, k + 1);
    }
  }

  /** The last call is always delivered, and it is the last delivery. */
  lemma {:induction false} LastCallDelivered<A>(calls: seq<Call<A>>, wait: nat, k: nat)
    requires k < |calls|
    ensures var r := Quiet(calls, wait, k);
      |r| >= 1 && r[|r| - 1] == FireOf(calls, wait, |calls| - 1)
    decreases |calls| - k
  {
    if k < |calls| - 1 {
      LastCallDelivered(calls, wait, k + 1);
    }
  }

  /** In time order, deliveries come out in time order too. */
  lemma DeliveriesChronological<A>(calls: seq<Call<A>>, wait: nat)
    requires Chronological(calls)
    ensures var r := Quiet(calls, wait, 0);
      forall i, j :: 0 <= i < j < |r| ==> r[i].time <= r[j].time
  {
    var r := Quiet(calls, wait, 0);
    forall i, j | 0 <= i < j < |r| ensures r[i].time <= r[j].time {
      ChronologicalMonotone(calls, r[i].index, r[j].index);
    }
  }

  lemma {:induction false} ChronologicalMonotone<A>(calls: seq<Call<A>>, a: nat, b: nat)
    requires Chronological(calls)
    requires a <= b < |calls|
    ensures calls[a].time <= calls[b].time
    decreases b - a
  {
    if a < b {
      ChronologicalMonotone(calls, a, b - 1);
    }
  }
}
