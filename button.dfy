/**
 * A debounced push button on an input pin with a pull-up: the pin reads
 * HIGH when released and LOW when pressed. A new reading is accepted only
 * once it has been stable for longer than the debounce delay. The pin
 * reading and the millisecond clock are passed in.
 */
module Buttons {
  import opened Word32

  /** Pin levels. */
  const HIGH: bool := true
  const LOW: bool := false

  /** The debounce delay used when none is given, in milliseconds. */
  const DEFAULT_DEBOUNCE_DELAY: ULong := 50

  class Button {
    const pin: int
    /** The raw reading seen by the previous update. */
    var lastState: bool
    /** The debounced level. */
    var currentState: bool
    /** When the raw reading last differed from the one before it. */
    var lastChangeTime: ULong
    var debounceDelay: ULong

    /** A released button on `pinNumber`. */
    constructor (pinNumber: int, debounceMs: ULong := DEFAULT_DEBOUNCE_DELAY)
      ensures pin == pinNumber && debounceDelay == debounceMs
      ensures lastState == HIGH && currentState == HIGH && lastChangeTime == 0
      ensures !IsPressed()
    {
      pin := pinNumber;
      lastState := HIGH;
      currentState := HIGH;
      lastChangeTime := 0;
      debounceDelay := debounceMs;
    }

    /** Whether the debounced level is LOW (pressed). */
    function IsPressed(): (b: bool)
      reads this
      ensures b <==> currentState == LOW
    {
      currentState == LOW
    }

    /**
     * Feeds one raw `reading`. A reading that differs from the previous one
     * restarts the debounce timer at `changeTime`. The reading becomes the
     * debounced level when more than the delay has passed since the last
     * change by `checkTime` and it differs from the current level; the
     * result reports whether the level changed.
     */
    method Update(reading: bool, changeTime: ULong, checkTime: ULong) returns (changed: bool)
      modifies this
      ensures lastState == reading
      ensures lastChangeTime == if reading != old(lastState) then changeTime else old(lastChangeTime)
      ensures changed <==> Sub(checkTime, lastChangeTime) > debounceDelay && reading != old(currentState)
      ensures currentState == if changed then reading else old(currentState)
      ensures changed <==> currentState != old(currentState)
      ensures reading == old(currentState) ==> !changed
      ensures changeTime == checkTime && reading != old(lastState) ==> !changed
      ensures debounceDelay == old(debounceDelay)
    {
      if reading != lastState {
        lastChangeTime := changeTime;
      }
      if Sub(checkTime, lastChangeTime) > debounceDelay {
        if reading != currentState {
          currentState := reading;
          lastState := reading;
          return true;
        }
      }
      lastState := reading;
      return false;
    }

    /**
     * Updates with `reading` and reports a press: true exactly on a
     * debounced edge from HIGH (released) to LOW (pressed).
     */
    method WasPressed(reading: bool, changeTime: ULong, checkTime: ULong) returns (pressed: bool)
      modifies this
      ensures pressed <==> old(currentState) == HIGH && currentState == LOW
      ensures lastState == reading && debounceDelay == old(debounceDelay)
      ensures lastChangeTime == if reading != old(lastState) then changeTime else old(lastChangeTime)
      ensures currentState == if Sub(checkTime, lastChangeTime) > debounceDelay then reading else old(currentState)
    {
      var changed := Update(reading, changeTime, checkTime);
      pressed := changed && IsPressed();
    }

    /** Replaces the debounce delay. */
    method SetDebounceDelay(ms: ULong)
      modifies this
      ensures debounceDelay == ms && GetDebounceDelay() == ms
      ensures lastState == old(lastState) && currentState == old(currentState)
      ensures lastChangeTime == old(lastChangeTime)
    {
      debounceDelay := ms;
    }

    /** The debounce delay. */
    function GetDebounceDelay(): (ms: ULong)
      reads this
      ensures ms == debounceDelay
    {
      debounceDelay
    }

    /** The pin given at construction. */
    function GetPin(): (p: int)
      ensures p == pin
    {
      pin
    }
  }
}
