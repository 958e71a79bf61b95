/**
 * Timeout tracking for a long-running operation: whether it is active,
 * how long it has run, how long it may still run and how far it has
 * progressed, all from the millisecond clock passed in as `now`.
 */
module AsyncOps {
  import opened Word32

  /**
   * Percentage progress as written: `elapsed * 100` is an `unsigned long`
   * product and wraps once `elapsed` reaches 42,949,673 ms.
   */
  function ProgressAsWritten(elapsed: ULong, timeout: ULong): (p: int)
    ensures 0 <= p <= 100
    ensures elapsed >= timeout ==> p == 100
  {
    if elapsed >= timeout then 100
    else
      var x := Mul(elapsed, 100);
      WrappedPercentBelowHundred(elapsed, timeout);
      x / timeout
  }

  /** Percentage progress without wrap-around: whole percent of the timeout elapsed, capped at 100. */
  function Progress(elapsed: ULong, timeout: ULong): (p: int)
    ensures 0 <= p <= 100
    ensures elapsed >= timeout ==> p == 100
    ensures elapsed < timeout ==> p * timeout <= elapsed * 100 < (p + 1) * timeout
  {
    if elapsed >= timeout then 100
    else
      var p := elapsed * 100 / timeout;
      assert p * timeout <= elapsed * 100;
      p
  }

  /** The wrapped percentage stays below 100 while the timeout has not been reached. */
  lemma WrappedPercentBelowHundred(elapsed: ULong, timeout: ULong)
    requires elapsed < timeout
    ensures 0 <= Mul(elapsed, 100) / timeout < 100
  {
    WrappedProductBelow(elapsed, timeout);
    DivBelow(Mul(elapsed, 100), timeout, 100);
  }

  /**
   * The wrapped product `elapsed * 100` stays below `timeout * 100`: either
   * it does not wrap, or wrapping needed `elapsed >= MODULUS / 100`, and
   * then `timeout * 100` exceeds the modulus.
   */
  lemma WrappedProductBelow(elapsed: ULong, timeout: ULong)
    requires elapsed < timeout
    ensures Mul(elapsed, 100) < timeout * 100
  {
    if elapsed * 100 < MODULUS {
      assert Mul(elapsed, 100) == elapsed * 100;
    } else {
      assert Mul(elapsed, 100) < MODULUS <= elapsed * 100;
    }
  }

  /** `x < t * k` gives `0 <= x / t < k`. */
  lemma DivBelow(x: nat, t: nat, k: nat)
    requires t > 0 && x < t * k
    ensures 0 <= x / t < k
  {
    var q := x / t;
    assert (k - q) * t == k * t - q * t > 0;
  }

  /** Floor division by a positive number is monotone. */
  lemma DivMonotone(a: nat, b: nat, t: nat)
    requires t > 0 && a <= b
    ensures a / t <= b / t
  {
    var qa, qb := a / t, b / t;
    assert (qb + 1 - qa) * t == (qb + 1) * t - qa * t > 0;
  }

  /** Below the wrap point the two formulas agree. */
  lemma ProgressAgreesBeforeWrap(elapsed: ULong, timeout: ULong)
    requires elapsed * 100 < MODULUS
    ensures ProgressAsWritten(elapsed, timeout) == Progress(elapsed, timeout)
  {
  }

  /**
   * With a 100,000,000 ms timeout the written formula falls from 42% to 0%
   * between 42,949,672 ms and 42,949,673 ms of elapsed time, and reports
   * 7% at the half-way point.
   */
  lemma ProgressWraps()
    ensures ProgressAsWritten(42_949_672, 100_000_000) == 42
    ensures ProgressAsWritten(42_949_673, 100_000_000) == 0
    ensures ProgressAsWritten(50_000_000, 100_000_000) == 7
    ensures Progress(42_949_673, 100_000_000) == 42
    ensures Progress(50_000_000, 100_000_000) == 50
  {
    assert Mul(42_949_672, 100) == 4_294_967_200;
    assert Mul(42_949_673, 100) == 4;
    assert Mul(50_000_000, 100) == 705_032_704;
  }

  /** The corrected progress never decreases as time passes. */
  lemma ProgressMonotone(e1: ULong, e2: ULong, timeout: ULong)
    requires e1 <= e2
    ensures Progress(e1, timeout) <= Progress(e2, timeout)
  {
    if e2 < timeout {
      DivMonotone(e1 * 100, e2 * 100, timeout);
    }
  }

  class AsyncOp {
    var active: bool
    var startTime: ULong
    var timeout: ULong

    /** An inactive operation with no timeout. */
    constructor ()
      ensures !active && startTime == 0 && timeout == 0
      ensures forall now: ULong ::
        !TimedOut(now) && RemainingTime(now) == 0 && ElapsedTime(now) == 0 && GetProgress(now) == 0
    {
      active := false;
      startTime := 0;
      timeout := 0;
    }

    /** Starts the operation at `now` with the given timeout. */
    method Start(timeoutMs: ULong, now: ULong)
      modifies this
      ensures active && startTime == now && timeout == timeoutMs
      ensures ElapsedTime(now) == 0 && !TimedOut(now)
    {
      active := true;
      startTime := now;
      timeout := timeoutMs;
    }

    /** Marks the operation finished; the start time and timeout are kept. */
    method Finish()
      modifies this
      ensures !active && startTime == old(startTime) && timeout == old(timeout)
    {
      active := false;
    }

    /**
     * Time since the start (wrapping `now - startTime`), or 0 when
     * inactive.
     */
    function ElapsedTime(now: ULong): (e: ULong)
      reads this
      ensures active ==> Add(startTime, e) == now
      ensures !active ==> e == 0
    {
      if !active then 0 else Sub(now, startTime)
    }

    /** True when active and strictly more than the timeout has elapsed. */
    function TimedOut(now: ULong): (r: bool)
      reads this
      ensures r <==> active && ElapsedTime(now) > timeout
      ensures r ==> active && RemainingTime(now) == 0 && GetProgress(now) == 100
      ensures active && !r ==> ElapsedTime(now) <= timeout
    {
      active && Sub(now, startTime) > timeout
    }

    /** Whether the operation is active. */
    function IsActive(): (b: bool)
      reads this
      ensures b == active
    {
      active
    }

    /**
     * Time left before the timeout: 0 when inactive or once the timeout
     * has been reached, otherwise the part of the timeout not yet used.
     */
    function RemainingTime(now: ULong): (r: ULong)
      reads this
      ensures r <= timeout
      ensures r > 0 <==> active && ElapsedTime(now) < timeout
      ensures r > 0 ==> r + ElapsedTime(now) == timeout
    {
      if !active then 0
      else
        var elapsed := Sub(now, startTime);
        if elapsed >= timeout then 0 else timeout - elapsed
    }

    /** The timeout of the last start (0 before any start). */
    function GetTimeout(): (t: ULong)
      reads this
      ensures t == timeout
    {
      timeout
    }

    /**
     * Whole percent of the timeout elapsed: 0 when inactive, 100 once the
     * timeout is reached (so a zero timeout never divides), computed
     * without wrap-around.
     */
    function GetProgress(now: ULong): (p: int)
      reads this
      ensures 0 <= p <= 100
      ensures !active ==> p == 0
      ensures active && ElapsedTime(now) >= timeout ==> p == 100
      ensures active ==> p == Progress(ElapsedTime(now), timeout)
    {
      if !active then 0 else Progress(Sub(now, startTime), timeout)
    }
  }

  /**
   * At exactly `timeout` after the start the remaining time is 0 and the
   * progress 100, yet the operation has not timed out; one millisecond
   * later it has.
   */
  lemma TimeoutBoundary(op: AsyncOp)
    requires op.active
    ensures var now := Add(op.startTime, op.timeout);
      op.RemainingTime(now) == 0 && op.GetProgress(now) == 100 && !op.TimedOut(now)
    ensures op.timeout < MODULUS - 1 ==> op.TimedOut(Add(op.startTime, op.timeout + 1))
  {
    SubAfterAdd(op.startTime, op.timeout);
    if op.timeout < MODULUS - 1 {
      SubAfterAdd(op.startTime, op.timeout + 1);
    }
  }
}
