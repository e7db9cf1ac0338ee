/**
 * Options of the animal race command. The only option is the number of
 * seconds to wait before the race starts; normalisation puts it back to its
 * default of 20 whenever it lies outside 10..120.
 */
module AnimalRacing {

  const DefaultStartTime: int := 20
  const MinStartTime: int := 10
  const MaxStartTime: int := 120

  /** The start time that `NormalizeOptions` leaves behind. */
  function NormalizedStartTime(t: int): (r: int)
    ensures MinStartTime <= r <= MaxStartTime
    ensures MinStartTime <= t <= MaxStartTime ==> r == t
  {
    if t < MinStartTime || t > MaxStartTime then DefaultStartTime else t
  }

  /** Out-of-range values are reset to the default, not clamped to the nearer bound. */
  lemma OutOfRangeResetsToDefault(t: int)
    requires t < MinStartTime || t > MaxStartTime
    ensures NormalizedStartTime(t) == DefaultStartTime
    ensures t > MaxStartTime ==> NormalizedStartTime(t) != MaxStartTime
    ensures t < MinStartTime ==> NormalizedStartTime(t) != MinStartTime
  {
  }

  /** Normalising twice is the same as normalising once. */
  lemma NormalizeIdempotent(t: int)
    ensures NormalizedStartTime(NormalizedStartTime(t)) == NormalizedStartTime(t)
  {
  }

  /** The default itself survives normalisation. */
  lemma DefaultIsNormal()
    ensures NormalizedStartTime(DefaultStartTime) == DefaultStartTime
  {
  }

  class RaceOptions {
    var startTime: int

    /** A fresh option set starts at the default of 20 seconds. */
    constructor ()
      ensures startTime == DefaultStartTime
      ensures MinStartTime <= startTime <= MaxStartTime
    {
      startTime := DefaultStartTime;
    }

    /** Overwrites an out-of-range start time with the default; an in-range one stays. */
    method NormalizeOptions()
      modifies this
      ensures startTime == NormalizedStartTime(old(startTime))
      ensures MinStartTime <= startTime <= MaxStartTime
      ensures MinStartTime <= old(startTime) <= MaxStartTime ==> startTime == old(startTime)
      ensures !(MinStartTime <= old(startTime) <= MaxStartTime) ==> startTime == DefaultStartTime
    {
      if startTime < MinStartTime || startTime > MaxStartTime {
        startTime := DefaultStartTime;
      }
    }
  }
}
