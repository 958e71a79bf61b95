/**
 * A non-blocking interval timer driven by the millisecond clock. The clock
 * reading is passed in as `now`; all time arithmetic is `unsigned long`
 * arithmetic, so the elapsed time survives the counter wrapping at 2^32.
 */
module Timers {
  import opened Word32

  class Timer {
    var interval: ULong
    var lastTrigger: ULong
    var running: bool

    /** A stopped timer with the given interval. */
    constructor (intervalMs: ULong)
      ensures interval == intervalMs && lastTrigger == 0 && !running
      ensures forall now: ULong :: !Expired(now) && RemainingTime(now) == 0
    {
      interval := intervalMs;
      lastTrigger := 0;
      running := false;
    }

    /** Time since the last (re)start, as the wrapping difference `now - lastTrigger`. */
    function Elapsed(now: ULong): (e: ULong)
      reads this
      ensures Add(lastTrigger, e) == now
    {
      Sub(now, lastTrigger)
    }

    /**
     * True when the timer runs and a full interval has elapsed since the
     * last (re)start; a stopped timer never expires.
     */
    function Expired(now: ULong): (r: bool)
      reads this
      ensures r ==> running
      ensures r <==> running && RemainingTime(now) == 0
    {
      running && Elapsed(now) >= interval
    }

    /**
     * The time left until expiry: 0 when stopped or expired, otherwise
     * the part of the interval not yet elapsed.
     */
    function RemainingTime(now: ULong): (r: ULong)
      reads this
      ensures r <= interval
      ensures r > 0 <==> running && Elapsed(now) < interval
      ensures r > 0 ==> r + Elapsed(now) == interval
    {
      if !running then 0
      else
        var elapsed := Elapsed(now);
        if elapsed >= interval then 0 else interval - elapsed
    }

    /** Starts (or restarts) the timer at `now`; the interval is kept. */
    method Start(now: ULong)
      modifies this
      ensures lastTrigger == now && running && interval == old(interval)
      ensures Expired(now) <==> interval == 0
    {
      lastTrigger := now;
      running := true;
    }

    /** Stops the timer; the interval and the last start time are kept. */
    method Stop()
      modifies this
      ensures !running && interval == old(interval) && lastTrigger == old(lastTrigger)
      ensures forall now: ULong :: !Expired(now) && RemainingTime(now) == 0
    {
      running := false;
    }

    /** The same as `Start`. */
    method Restart(now: ULong)
      modifies this
      ensures lastTrigger == now && running && interval == old(interval)
    {
      Start(now);
    }

    /** Replaces the interval and restarts the timer at `now`. */
    method SetInterval(newIntervalMs: ULong, now: ULong)
      modifies this
      ensures interval == newIntervalMs && lastTrigger == now && running
      ensures GetInterval() == newIntervalMs
    {
      interval := newIntervalMs;
      Start(now);
    }

    /** The current interval. */
    function GetInterval(): (v: ULong)
      reads this
      ensures v == interval
    {
      interval
    }

    /** Whether the timer is running. */
    function IsRunning(): (b: bool)
      reads this
      ensures b == running
    {
      running
    }
  }

  /**
   * A running timer expires exactly when at least one interval has passed
   * since its last start, also when the clock wrapped in between.
   */
  lemma ExpiresAfterInterval(t: Timer, d: ULong)
    requires t.running
    ensures t.Expired(Add(t.lastTrigger, d)) <==> d >= t.interval
    ensures !t.Expired(Add(t.lastTrigger, d)) ==> t.RemainingTime(Add(t.lastTrigger, d)) == t.interval - d
  {
    SubAfterAdd(t.lastTrigger, d);
  }
}
