/**
 * The hand angles onDraw computes, in degrees clockwise from twelve o'clock.
 * The hour comes straight from the clock's 0..23 field, with no reduction
 * modulo 12, so afternoon hour angles lie between 360 and 720 degrees.
 */
module ClockHands {

  /** One full turn of the canvas. */
  const FullTurn: real := 360.0

  /** Rotation of the minute hand: six degrees per minute. */
  function MinuteAngle(minute: int): (deg: real)
    ensures 0 <= minute < 60 ==> 0.0 <= deg <= 354.0
  {
    (minute * 6) as real
  }

  /**
   * Rotation of the hour hand: thirty degrees per hour plus the fraction of
   * the hour the minutes make, so the hand creeps through its hour's sector
   * instead of jumping at the full hour.
   */
  function HourAngle(hour: int, minute: int): (deg: real)
    ensures 0 <= minute < 60 ==> 30.0 * hour as real <= deg < 30.0 * hour as real + 30.0
  {
    (hour as real + minute as real / 60.0) * 30.0
  }

  /**
   * The canvas is already turned by the minute angle when the hour hand is
   * drawn; this second rotation first undoes it (a full turn less the minute
   * angle) and then adds the hour angle.
   */
  function HourHandRotation(minuteDeg: real, hourDeg: real): (deg: real)
    ensures minuteDeg + deg == hourDeg + FullTurn
    ensures 0.0 <= minuteDeg < FullTurn && 0.0 <= hourDeg ==> deg > 0.0
  {
    FullTurn - minuteDeg + hourDeg
  }

  /** Valid clock readings, as the platform's Time object delivers them. */
  predicate ValidTime(hour: int, minute: int)
  {
    0 <= hour < 24 && 0 <= minute < 60
  }

  /**
   * The two rotations together turn the hour hand by the hour angle plus one
   * full turn, which points it exactly where the hour angle alone would.
   */
  lemma CumulativeHourRotation(hour: int, minute: int)
    ensures MinuteAngle(minute) + HourHandRotation(MinuteAngle(minute), HourAngle(hour, minute))
            == HourAngle(hour, minute) + FullTurn
  {
  }

  /** Within a fixed hour the hour angle never decreases as the minutes advance. */
  lemma HourAngleMonotoneInMinute(hour: int, minute: int, minute': int)
    requires minute <= minute'
    ensures HourAngle(hour, minute) <= HourAngle(hour, minute')
  {
  }

  /**
   * Across the whole day the hour angle strictly increases with the time:
   * a later reading always gives a larger angle.
   */
  lemma HourAngleIncreasesThroughDay(hour: int, minute: int, hour': int, minute': int)
    requires ValidTime(hour, minute) && ValidTime(hour', minute')
    requires hour < hour' || (hour == hour' && minute < minute')
    ensures HourAngle(hour, minute) < HourAngle(hour', minute')
  {
  }

  /**
   * The 24-hour field gives the angle of the 12-hour reading plus one full
   * turn in the afternoon: the hand points the same way either way, but the
   * angle itself reaches up to (not including) 720 degrees.
   */
  lemma HourAngleHalfDays(hour: int, minute: int)
    requires ValidTime(hour, minute)
    ensures HourAngle(hour, minute) == HourAngle(hour % 12, minute) + FullTurn * (hour / 12) as real
    ensures 0.0 <= HourAngle(hour, minute) < 2.0 * FullTurn
    ensures HourAngle(hour, minute) < FullTurn <==> hour < 12
  {
  }

  /**
   * At 3:00 the minute hand is turned by 0 degrees and the hour hand ends at
   * 90 degrees; at 15:00 the hour angle is 450, one full turn further.
   */
  lemma ThreeOClock()
    ensures MinuteAngle(0) == 0.0
    ensures HourAngle(3, 0) == 90.0
    ensures MinuteAngle(0) + HourHandRotation(MinuteAngle(0), HourAngle(3, 0)) == 450.0
    ensures HourAngle(15, 0) == 450.0
  {
  }
}
