/**
 * The vetoable `animationDuration` property of the slider.
 *
 * A write goes through a veto: it is let through only when it changes the
 * value and the new value lies in [min, max]. The bounds are the host's
 * constants, whose values are not part of this model; all that is assumed of
 * them is min <= default <= max.
 */
module Durations {

  /** The host's minimum, maximum and default animation durations (milliseconds). */
  datatype DurationLimits = DurationLimits(min: int, max: int, default: int)

  predicate WellFormed(limits: DurationLimits)
  {
    limits.min <= limits.default <= limits.max
  }

  predicate InRange(limits: DurationLimits, value: int)
  {
    limits.min <= value <= limits.max
  }

  /**
   * The veto of the property: a write is let through only when it is in
   * range and a real change; an in-range write it refuses is one that would
   * store the value already there.
   */
  function Accepts(limits: DurationLimits, oldValue: int, newValue: int): (ok: bool)
    ensures ok ==> InRange(limits, newValue) && newValue != oldValue
    ensures InRange(limits, newValue) && !ok ==> newValue == oldValue
  {
    newValue != oldValue && InRange(limits, newValue)
  }

  /**
   * The stored value after writing `newValue` over `oldValue`: the write
   * takes effect exactly when `newValue` is in range, and an in-range value
   * is never replaced by an out-of-range one.
   */
  function Assigned(limits: DurationLimits, oldValue: int, newValue: int): (r: int)
    ensures r == (if InRange(limits, newValue) then newValue else oldValue)
    ensures InRange(limits, oldValue) ==> InRange(limits, r)
  {
    if Accepts(limits, oldValue, newValue) then newValue else oldValue
  }

  /**
   * The stored value after a history of writes (assignments by callers and
   * by state restoration alike), starting from `start`. Starting in range,
   * the value stays in range, and it is always the start or one of the writes.
   */
  function AfterWrites(limits: DurationLimits, start: int, writes: seq<int>): (r: int)
    ensures InRange(limits, start) ==> InRange(limits, r)
    ensures r == start || r in writes
    decreases |writes|
  {
    if writes == [] then start
    else AfterWrites(limits, Assigned(limits, start, writes[0]), writes[1..])
  }

  /** Reference definition: the last in-range write, or `start` when there is none. */
  function LastInRange(limits: DurationLimits, start: int, writes: seq<int>): int
    decreases |writes|
  {
    if writes == [] then start
    else if InRange(limits, writes[|writes| - 1]) then writes[|writes| - 1]
    else LastInRange(limits, start, writes[..|writes| - 1])
  }

  /** Peeling the first write off a history is the same as starting from its effect. */
  lemma {:induction false} LastInRangeOfFirst(limits: DurationLimits, start: int, first: int, rest: seq<int>)
    ensures LastInRange(limits, start, [first] + rest)
         == LastInRange(limits, Assigned(limits, start, first), rest)
    decreases |rest|
  {
    var all := [first] + rest;
    if rest == [] {
      assert all[..|all| - 1] == [];
    } else {
      assert all[|all| - 1] == rest[|rest| - 1];
      assert all[..|all| - 1] == [first] + rest[..|rest| - 1];
      LastInRangeOfFirst(limits, start, first, rest[..|rest| - 1]);
    }
  }

  /** Whatever the history of writes, the stored value is the last in-range write, or the start. */
  lemma {:induction false} AfterWritesIsLastInRange(limits: DurationLimits, start: int, writes: seq<int>)
    ensures AfterWrites(limits, start, writes) == LastInRange(limits, start, writes)
    decreases |writes|
  {
    if writes != [] {
      AfterWritesIsLastInRange(limits, Assigned(limits, start, writes[0]), writes[1..]);
      assert writes == [writes[0]] + writes[1..];
      LastInRangeOfFirst(limits, start, writes[0], writes[1..]);
    }
  }
}
