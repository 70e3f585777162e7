/** How long `try_reconnect` keeps trying: its recursion through `sleep_for`, the window and the delay. */
module ReconnectWindow {

  /** `utility::datetime` counts in tenths of microseconds. */
  const TICKS: int := 10_000

  /** What one call of `try_reconnect` meets: the token at 662, the outcome of `connect`, the token at 690, the clock at
      698, the token at 710 and the weak pointer at 718. */
  datatype Round = Round(canceledFirst: bool, connected: bool, canceledThen: bool, now: int, canceledLast: bool, alive: bool)

  type Rounds = nat -> Round

  /** The clock does not go backwards, and a sleep of `delay` milliseconds lasts at least that long. */
  ghost predicate Clock(rounds: Rounds, start: int, delay: int) {
    && start <= rounds(0).now
    && forall i: nat, j: nat | j == i + 1 ::
         rounds(i).now <= rounds(j).now && rounds(i).now + delay * TICKS <= rounds(j).now
  }

  /** The call of round `i` attempts to connect, fails, and calls itself again. */
  predicate Repeats(r: Round, start: int, window: int, delay: int) {
    && !r.canceledFirst && !r.connected && !r.canceledThen
    && !(r.now + delay * TICKS > start + window * TICKS)
    && !r.canceledLast && r.alive
  }

  function TimeLeft(r: Round, start: int, window: int): nat {
    if r.now <= start + window * TICKS then start + window * TICKS - r.now else 0
  }

  /** The result of `try_reconnect` from round `i` on and the number of calls of `connect` it makes. */
  function TryReconnect(rounds: Rounds, i: nat, start: int, window: int, delay: int): (bool, nat)
    requires Clock(rounds, start, delay) && 0 < delay
    decreases TimeLeft(rounds(i), start, window)
  {
    var r := rounds(i);
    if r.canceledFirst then (false, 0)
    else if r.connected then (true, 1)
    else if r.canceledThen then (false, 1)
    else if r.now + delay * TICKS > start + window * TICKS then (false, 1)
    else if r.canceledLast then (false, 1)
    else if !r.alive then (false, 1)
    else
      assert rounds(i).now + delay * TICKS <= rounds(i + 1).now;
      var (result, attempts) := TryReconnect(rounds, i + 1, start, window, delay);
      (result, attempts + 1)
  }

  /** Every repetition costs a delay out of the time that was left. */
  lemma {:induction false} RepetitionsFit(rounds: Rounds, i: nat, start: int, window: int, delay: int)
    requires Clock(rounds, start, delay) && 0 < delay
    ensures var n := TryReconnect(rounds, i, start, window, delay).1;
            n <= 1 || (n - 1) * (delay * TICKS) <= TimeLeft(rounds(i), start, window)
    decreases TimeLeft(rounds(i), start, window)
  {
    if Repeats(rounds(i), start, window, delay) {
      assert rounds(i).now + delay * TICKS <= rounds(i + 1).now;
      RepetitionsFit(rounds, i + 1, start, window, delay);
      var n := TryReconnect(rounds, i, start, window, delay).1;
      assert (n - 1) * (delay * TICKS) == (n - 2) * (delay * TICKS) + delay * TICKS;
    }
  }

  lemma ClockFromStart(rounds: Rounds, start: int, window: int, delay: int)
    requires Clock(rounds, start, delay) && 0 <= window
    ensures TimeLeft(rounds(0), start, window) <= window * TICKS
  {
  }

  lemma NotPositive(x: int, d: int)
    requires 0 < d && x * d < d
    ensures x <= 0
  {
  }

  lemma Quotient(n: nat, window: nat, delay: int)
    requires 0 < delay && n * (delay * TICKS) <= window * TICKS
    ensures n <= window / delay
  {
    var q := window / delay;
    assert n * (delay * TICKS) == (n * delay) * TICKS;
    assert window == q * delay + window % delay;
    assert (n - q) * delay == n * delay - q * delay;
    NotPositive(n - q, delay);
  }

  /** At most 1 + window / delay attempts are made. */
  lemma AttemptsBounded(rounds: Rounds, start: int, window: int, delay: int)
    requires Clock(rounds, start, delay) && 0 < delay && 0 <= window
    ensures TryReconnect(rounds, 0, start, window, delay).1 <= 1 + window / delay
  {
    RepetitionsFit(rounds, 0, start, window, delay);
    ClockFromStart(rounds, start, window, delay);
    var n := TryReconnect(rounds, 0, start, window, delay).1;
    if 1 < n {
      Quotient(n - 1, window, delay);
    } else {
      assert 0 <= window / delay;
    }
  }

  /** The rounds of a server that is down while dialling takes no time. */
  function Down(start: int, delay: int): Rounds {
    (i: nat) => Round(false, false, false, start + i * (delay * TICKS), false, true)
  }

  lemma DownClock(start: int, delay: int)
    requires 0 <= delay
    ensures Clock(Down(start, delay), start, delay)
  {
    forall i: nat, j: nat | j == i + 1
      ensures Down(start, delay)(i).now <= Down(start, delay)(j).now
      ensures Down(start, delay)(i).now + delay * TICKS <= Down(start, delay)(j).now
    {
      NextMultiple(i, delay * TICKS);
    }
  }

  lemma NextMultiple(i: nat, step: int)
    ensures (i + 1) * step == i * step + step
  {
  }

  lemma Monotone(a: int, b: int, d: nat)
    requires a <= b
    ensures a * d <= b * d
  {
    assert (b - a) * d >= 0;
  }

  lemma Divides(k: nat, window: nat, delay: nat)
    requires 0 < delay
    ensures k <= window / delay <==> k * delay <= window
  {
    var q := window / delay;
    assert window == q * delay + window % delay;
    NextMultiple(q, delay);
    if k <= q { Monotone(k, q, delay); } else { Monotone(q + 1, k, delay); }
  }

  lemma Scaled(k: nat, delay: int)
    ensures k * (delay * TICKS) == (k * delay) * TICKS
  {
  }

  /** In round `i` of a server that is down another delay fits into the window exactly if `i` is below the bound. */
  lemma DownRepeats(i: nat, start: int, window: nat, delay: int)
    requires 0 < delay
    ensures Repeats(Down(start, delay)(i), start, window, delay) <==> i < window / delay
  {
    Divides(i + 1, window, delay);
    Scaled(i + 1, delay);
    NextMultiple(i, delay * TICKS);
  }

  lemma {:induction false} DownAttempts(i: nat, start: int, window: nat, delay: int)
    requires 0 < delay && i <= window / delay
    ensures Clock(Down(start, delay), start, delay)
    ensures TryReconnect(Down(start, delay), i, start, window, delay) == (false, 1 + window / delay - i)
    decreases window / delay - i
  {
    DownClock(start, delay);
    DownRepeats(i, start, window, delay);
    if i < window / delay { DownAttempts(i + 1, start, window, delay); }
    hide Clock;
  }

  /** The bound is exact: a server that stays down is dialled 1 + window / delay times. */
  lemma BoundIsReached(start: int, window: nat, delay: int)
    requires 0 < delay
    ensures Clock(Down(start, delay), start, delay)
    ensures TryReconnect(Down(start, delay), 0, start, window, delay) == (false, 1 + window / delay)
  {
    assert 0 <= window / delay;
    DownAttempts(0, start, window, delay);
  }

  /** The result is true exactly if the last attempt connected, and all attempts before it led to a repetition. */
  lemma {:induction false} ResultIsLastAttempt(rounds: Rounds, i: nat, start: int, window: int, delay: int)
    requires Clock(rounds, start, delay) && 0 < delay
    ensures var (result, n) := TryReconnect(rounds, i, start, window, delay);
            && (forall j: nat | i <= j < i + n - 1 :: Repeats(rounds(j), start, window, delay))
            && (result ==> 0 < n)
            && (0 < n && !rounds(i + n - 1).canceledFirst ==> result == rounds(i + n - 1).connected)
    decreases TimeLeft(rounds(i), start, window)
  {
    if Repeats(rounds(i), start, window, delay) {
      assert rounds(i).now + delay * TICKS <= rounds(i + 1).now;
      ResultIsLastAttempt(rounds, i + 1, start, window, delay);
      var n := TryReconnect(rounds, i, start, window, delay).1;
      forall j: nat | i <= j < i + n - 1
        ensures Repeats(rounds(j), start, window, delay)
      {
        if j != i { assert i + 1 <= j < (i + 1) + (n - 1) - 1; }
      }
    }
  }

  // ---- A delay of zero ----

  /** Some number bounds the repetitions of every run. */
  ghost predicate Bounded(window: int, delay: int) {
    exists bound: nat :: Bounds(bound, window, delay)
  }

  ghost predicate Bounds(bound: nat, window: int, delay: int) {
    forall rounds: Rounds, start: int, n: nat | Clock(rounds, start, delay) && RepeatsFor(rounds, n, start, window, delay) ::
      n <= bound
  }

  ghost predicate RepeatsFor(rounds: Rounds, n: nat, start: int, window: int, delay: int) {
    forall i: nat | i < n :: Repeats(rounds(i), start, window, delay)
  }

  lemma {:induction false} RepetitionsCost(rounds: Rounds, n: nat, start: int, window: int, delay: int)
    requires Clock(rounds, start, delay) && 0 < delay && RepeatsFor(rounds, n, start, window, delay)
    ensures start + n * (delay * TICKS) <= rounds(n).now
  {
    if n > 0 {
      RepetitionsCost(rounds, n - 1, start, window, delay);
      assert rounds(n - 1).now + delay * TICKS <= rounds(n).now;
      assert n * (delay * TICKS) == (n - 1) * (delay * TICKS) + delay * TICKS;
    }
  }

  lemma PositiveDelayBounds(window: nat, delay: int)
    requires 0 < delay
    ensures Bounds(window * TICKS, window, delay)
  {
    forall rounds: Rounds, start: int, n: nat | Clock(rounds, start, delay) && RepeatsFor(rounds, n, start, window, delay)
      ensures n <= window * TICKS
    {
      if n > 0 {
        RepetitionsCost(rounds, n - 1, start, window, delay);
        assert Repeats(rounds(n - 1), start, window, delay);
        assert n * (delay * TICKS) == (n - 1) * (delay * TICKS) + delay * TICKS;
        assert n <= n * (delay * TICKS) by { assert n * (delay * TICKS - 1) >= 0; }
      }
    }
  }

  /** The recursion is bounded exactly if the delay is not zero: with a delay of zero, which `set_reconnect_delay`
      accepts, a server that stays down may be dialled without end while the clock stands still. */
  lemma BoundedIff(window: nat, delay: nat)
    ensures Bounded(window, delay) <==> 0 < delay
  {
    if 0 < delay {
      PositiveDelayBounds(window, delay);
    } else if bound: nat :| Bounds(bound, window, delay) {
      var rounds: Rounds := Down(0, 0);
      DownClock(0, 0);
      assert Clock(rounds, 0, delay);
      assert RepeatsFor(rounds, bound + 1, 0, window, delay);
      assert false;
    }
  }
}
