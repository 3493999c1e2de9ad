/** The overflow-checked subtraction of a TimeSpan from a DateTime
    (DateTimeExtensions.TrySubtract). Instants and intervals are counted in
    ticks; a DateTime holds a tick count in [MinTicks, MaxTicks]. */
module DateTimeExtensions {

  /** DateTime.MinValue.Ticks and DateTime.MaxValue.Ticks. */
  const MinTicks: int := 0
  const MaxTicks: int := 3155378975999999999

  type DateTime = t: int | MinTicks <= t <= MaxTicks

  /** The bool result and the out parameter of TrySubtract. */
  datatype Subtraction = Subtraction(ok: bool, result: DateTime)

  /** CanSubtractTimeSpan: `dt - MaxValue <= ts <= dt - MinValue`. */
  predicate CanSubtractTimeSpan(dt: DateTime, ts: int)
  {
    dt - MaxTicks <= ts <= dt - MinTicks
  }

  /** TrySubtract: on success the result is `dt - ts`, otherwise `false`
      with default(DateTime). */
  function TrySubtract(dt: DateTime, ts: int): (r: Subtraction)
    ensures r.ok <==> dt - MaxTicks <= ts <= dt - MinTicks
    ensures r.ok ==> r.result == dt - ts
    ensures !r.ok ==> r.result == MinTicks
  {
    if CanSubtractTimeSpan(dt, ts) then Subtraction(true, dt - ts)
    else Subtraction(false, MinTicks)
  }

  /** Whenever the subtraction succeeds its result is a representable
      instant, a negative interval (which moves forward in time) included. */
  lemma TrySubtractInRange(dt: DateTime, ts: int)
    requires TrySubtract(dt, ts).ok
    ensures MinTicks <= dt - ts <= MaxTicks
    ensures ts < 0 ==> TrySubtract(dt, ts).result > dt
  {
  }

  /** A non-negative interval no longer than the time elapsed since
      DateTime.MinValue can always be subtracted. */
  lemma TrySubtractNonNegative(dt: DateTime, ts: nat)
    ensures TrySubtract(dt, ts).ok <==> ts <= dt
  {
  }
}
