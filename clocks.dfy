/** The wall clock as an oracle: the k-th call of `datetime.now()` yields `reading(k)`. */
module Clocks {
  import T = Timestamps

  /** Every reading of the clock is a valid date-time. */
  ghost predicate ValidReadings(reading: nat -> T.DateTime)
  {
    forall k :: T.Valid(reading(k))
  }

  class Clock {
    const reading: nat -> T.DateTime
    var ticks: nat

    constructor (reading: nat -> T.DateTime)
      ensures this.reading == reading && ticks == 0
    {
      this.reading := reading;
      ticks := 0;
    }

    /** Every reading is a valid date-time. */
    ghost predicate Valid()
    {
      ValidReadings(reading)
    }

    /** `datetime.now()`. */
    method Now() returns (dt: T.DateTime)
      modifies this`ticks
      ensures dt == reading(old(ticks)) && ticks == old(ticks) + 1
    {
      dt := reading(ticks);
      ticks := ticks + 1;
    }
  }
}
