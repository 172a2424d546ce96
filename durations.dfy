/** Appointment durations: hours as exact rationals, and the rounding up to
    whole five-minute steps that both the calendar code and the validators
    apply to a duration derived from a price. */
module Durations {
  import opened Wrappers

  /** math.ceil. */
  function Ceil(x: real): (r: int)
    ensures x <= r as real < x + 1.0
  {
    -((-x).Floor)
  }

  /** The minutes round_duration_to_5_minutes rounds a duration to: a
      multiple of 5, at least the duration, and less than 5 minutes more. */
  function RoundedMinutes(hours: real): (r: int)
    ensures r % 5 == 0
    ensures hours * 60.0 <= r as real < hours * 60.0 + 5.0
  {
    Ceil(hours * 60.0 / 5.0) * 5
  }

  /** round_duration_to_5_minutes (calendar_functions.py), in hours. */
  function RoundDuration(hours: real): (r: real)
    ensures r * 60.0 == RoundedMinutes(hours) as real
  {
    RoundedMinutes(hours) as real / 60.0
  }

  /** The rounding picks the least multiple of 5 minutes not below the
      duration. */
  lemma RoundDurationLeast(hours: real, m: int)
    requires m % 5 == 0 && hours * 60.0 <= m as real
    ensures RoundedMinutes(hours) <= m
  {
  }

  /** A duration already on the five-minute grid is left as it is. */
  lemma RoundDurationFixed(m: int)
    requires m % 5 == 0
    ensures RoundDuration(m as real / 60.0) == m as real / 60.0
  {
    var hours := m as real / 60.0;
    RoundDurationLeast(hours, m);
    var r := RoundedMinutes(hours);
    assert r == m;
  }

  /** Rounding twice is rounding once. */
  lemma RoundDurationIdempotent(hours: real)
    ensures RoundDuration(RoundDuration(hours)) == RoundDuration(hours)
  {
    RoundDurationFixed(RoundedMinutes(hours));
  }

  /** The duration check_availability and create_booking use: the given one,
      else 1 hour without a price, else price / 100 hours rounded up to
      five minutes. */
  function BookingDuration(duration: Option<real>, price: Option<real>): (r: real)
    ensures duration.Some? ==> r == duration.value
    ensures duration.None? && price.None? ==> r == 1.0
    ensures duration.None? && price.Some? ==>
      (r * 60.0).Floor as real == r * 60.0 && (r * 60.0).Floor % 5 == 0
      && price.value / 100.0 <= r < price.value / 100.0 + 5.0 / 60.0
  {
    if duration.Some? then duration.value
    else if price.None? then 1.0
    else RoundDuration(price.value / 100.0)
  }
}
