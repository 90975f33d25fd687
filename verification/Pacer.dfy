/**
  The tick pacer (crates/synctick/src/pacer.rs:17-50) over whole runs, for a monotone clock and
  sleeps that may last arbitrarily longer than asked.
*/
module Pacer {

  /** One call: the clock when it was made, and how much later than its due moment it returned. */
  datatype Call = Call(now: nat, late: nat)

  function NextDeadline(deadline: nat, d: nat, now: nat): nat {
    if deadline <= now && now - deadline > 10 * d then now + d else deadline + d
  }

  function ReturnTime(deadline: nat, call: Call): nat {
    (if deadline > call.now then deadline else call.now) + call.late
  }

  /** The deadline that call `k` of a run works towards. */
  function Deadline(start: nat, d: nat, calls: seq<Call>, k: nat): nat
    requires k <= |calls|
  {
    if k == 0 then start + d else NextDeadline(Deadline(start, d, calls, k - 1), d, calls[k - 1].now)
  }

  function Returned(start: nat, d: nat, calls: seq<Call>, k: nat): nat
    requires k < |calls|
  {
    ReturnTime(Deadline(start, d, calls, k), calls[k])
  }

  /** Calls are made one after another, none before the pacer was started. */
  ghost predicate Monotone(start: nat, d: nat, calls: seq<Call>) {
    forall k :: 0 <= k < |calls| ==> calls[k].now >= if k == 0 then start else Returned(start, d, calls, k - 1)
  }

  /** The duration of `n` ticks. */
  function Ticks(n: nat, d: nat): nat { n * d }

  lemma TicksAdd(m: nat, n: nat, d: nat)
    ensures Ticks(m + n, d) == Ticks(m, d) + Ticks(n, d)
    ensures Ticks(0, d) == 0 && Ticks(1, d) == d && Ticks(10, d) == 10 * d
  {
  }

  lemma FewerTicks(m: nat, n: nat, d: nat)
    requires d > 0 && m < n
    ensures Ticks(m, d) < Ticks(n, d)
  {
    hide Ticks;
    TicksAdd(m, n - m, d);
    TicksAdd(n - m - 1, 1, d);
  }

  /** Deadlines advance by at least one tick per call. */
  lemma {:induction false} DeadlinesAdvance(start: nat, d: nat, calls: seq<Call>, i: nat, j: nat)
    requires i <= j <= |calls|
    ensures Deadline(start, d, calls, j) >= Deadline(start, d, calls, i) + Ticks(j - i, d)
    decreases j - i
  {
    hide Ticks;
    TicksAdd(0, 0, d);
    if i < j {
      DeadlinesAdvance(start, d, calls, i, j - 1);
      TicksAdd(j - 1 - i, 1, d);
    }
  }

  /** Never early: the k-th return (counting from one) is at least k ticks after the start. */
  lemma NeverEarly(start: nat, d: nat, calls: seq<Call>, k: nat)
    requires 0 < k <= |calls|
    ensures Returned(start, d, calls, k - 1) >= start + k * d
  {
    DeadlinesAdvance(start, d, calls, 0, k - 1);
    TicksAdd(k - 1, 1, d);
  }

  /**
    On the beat: while no call comes more than ten ticks after its deadline, the deadlines are exactly
    one tick apart, so late calls are made up for; and a call made in time, with a sleep of exactly the
    time asked, returns on its beat.
  */
  lemma {:induction false} StaysOnTheBeat(start: nat, d: nat, calls: seq<Call>, k: nat)
    requires k <= |calls|
    requires forall i :: 0 <= i < k ==> calls[i].now <= start + (i + 1) * d + 10 * d
    ensures Deadline(start, d, calls, k) == start + (k + 1) * d
    ensures k < |calls| && calls[k].now <= start + (k + 1) * d && calls[k].late == 0 ==>
      Returned(start, d, calls, k) == start + (k + 1) * d
  {
    if k > 0 {
      StaysOnTheBeat(start, d, calls, k - 1);
      assert (k + 1) * d == k * d + d;
    }
  }

  /** Further behind than that, the beat starts anew one tick after the call. */
  lemma StartsAnew(start: nat, d: nat, calls: seq<Call>, k: nat)
    requires k < |calls| && calls[k].now > Deadline(start, d, calls, k) + 10 * d
    ensures Deadline(start, d, calls, k + 1) == calls[k].now + d
  {
  }

  /** After any call, either the next deadline is at most ten ticks behind its return, or the next call resets. */
  lemma CatchesUp(start: nat, d: nat, calls: seq<Call>, i: nat)
    requires Monotone(start, d, calls) && i + 1 < |calls|
    ensures var r := Returned(start, d, calls, i);
      || Deadline(start, d, calls, i + 1) + 10 * d >= r
      || Deadline(start, d, calls, i + 2) >= r + d
    ensures Returned(start, d, calls, i + 1) >= Returned(start, d, calls, i)
  {
    hide Deadline;
    assert Deadline(start, d, calls, i + 2) == NextDeadline(Deadline(start, d, calls, i + 1), d, calls[i + 1].now) by {
      DeadlineStep(start, d, calls, i + 1);
    }
    assert calls[i + 1].now >= Returned(start, d, calls, i);
  }

  lemma DeadlineStep(start: nat, d: nat, calls: seq<Call>, k: nat)
    requires k < |calls|
    ensures Deadline(start, d, calls, k + 1) == NextDeadline(Deadline(start, d, calls, k), d, calls[k].now)
    ensures Returned(start, d, calls, k) >= Deadline(start, d, calls, k)
  {
  }

  /** Returns `i` and `j` are at least `j - i - 11` ticks apart, resets included. */
  lemma ReturnsSpread(start: nat, d: nat, calls: seq<Call>, i: nat, j: nat)
    requires Monotone(start, d, calls) && i < j < |calls|
    ensures Returned(start, d, calls, j) + Ticks(11, d) >= Returned(start, d, calls, i) + Ticks(j - i, d)
  {
    hide Ticks, Deadline, Returned, Monotone;
    CatchesUp(start, d, calls, i);
    DeadlineStep(start, d, calls, j);
    TicksAdd(j - i - 1, 1, d);
    TicksAdd(10, 1, d);
    DeadlinesAdvance(start, d, calls, i + 1, j);
    if j > i + 1 {
      DeadlinesAdvance(start, d, calls, i + 2, j);
      TicksAdd(j - i - 2, 1, d);
    }
  }

  lemma WindowInTicks(window: nat, d: nat)
    requires d > 0
    ensures window < Ticks(window / d + 1, d)
  {
    assert window == window / d * d + window % d;
  }

  /** Bounded rate: any window of length `window` holds at most `window / d + 12` returns. */
  lemma BoundedRate(start: nat, d: nat, calls: seq<Call>, i: nat, j: nat, window: nat)
    requires d > 0 && Monotone(start, d, calls) && i <= j < |calls|
    requires Returned(start, d, calls, j) <= Returned(start, d, calls, i) + window
    ensures j - i + 1 <= window / d + 12
  {
    hide Ticks, Returned;
    if i < j {
      ReturnsSpread(start, d, calls, i, j);
      WindowInTicks(window, d);
      var most := window / d + 1 + 11;
      TicksAdd(window / d + 1, 11, d);
      if j - i >= most {
        if j - i > most {
          FewerTicks(most, j - i, d);
        }
        assert false;
      }
    }
  }

  lemma DeadlineOfPrefix(start: nat, d: nat, calls: seq<Call>, call: Call, k: nat)
    requires k <= |calls|
    ensures Deadline(start, d, calls + [call], k) == Deadline(start, d, calls, k)
  {
    if k > 0 {
      DeadlineOfPrefix(start, d, calls, call, k - 1);
    }
  }

  /** The pacer; `calls` is the history of its run. */
  class TickPacer {
    var nextDeadline: nat
    const tickDuration: nat
    ghost const start: nat
    ghost var calls: seq<Call>

    ghost predicate Valid()
      reads this
    {
      nextDeadline == Deadline(start, tickDuration, calls, |calls|)
    }

    constructor (now: nat, tickDuration: nat)
      ensures Valid() && start == now && calls == [] && this.tickDuration == tickDuration
    {
      nextDeadline := now + tickDuration;
      this.tickDuration := tickDuration;
      start, calls := now, [];
    }

    /** `late` is how much longer than asked the sleep and the call itself take. */
    method SleepUntilNext(now: nat, late: nat) returns (returned: nat)
      requires Valid()
      modifies this
      ensures Valid() && calls == old(calls) + [Call(now, late)]
      ensures returned == Returned(start, tickDuration, calls, |calls| - 1)
    {
      DeadlineOfPrefix(start, tickDuration, calls, Call(now, late), |calls|);
      calls := calls + [Call(now, late)];
      if nextDeadline > now {
        returned := nextDeadline + late;
        nextDeadline := nextDeadline + tickDuration;
      } else {
        var lag: nat := now - nextDeadline;
        if lag > 10 * tickDuration {
          nextDeadline := now + tickDuration;
        } else {
          nextDeadline := nextDeadline + tickDuration;
        }
        returned := now + late;
      }
    }
  }
}
