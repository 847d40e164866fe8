/**
 The scorer of the race page: a boat's rank value is a linear weighted sum of
 its motor rates, its exhibition-time advantage over the race average, its
 start-timing bonus and its starting-course bonus. The last three terms are
 clamped at zero, so a weak boat is never pushed below its motor-rate baseline.
 All quantities are exact reals; the floating-point rounding of the page is
 not modelled.
 */
module Scoring {

  /** One row of the race card as the page holds it: the lane (1..6), the
      motor's 2-place and 3-place rates in percent, the exhibition time, the
      start timing and the starting course chosen by the user. */
  datatype Boat = Boat(lane: int, motor2: real, motor3: real, time: real, st: real, course: int)

  /** `max(0, x)`. */
  function Max0(x: real): (r: real)
    ensures r >= 0.0 && r >= x
    ensures r == 0.0 || r == x
  {
    if x > 0.0 then x else 0.0
  }

  /** The part of the score that is never clamped: 0.4 per unit of the motor's
      2-place rate and 0.2 per unit of its 3-place rate, rates taken as fractions. */
  function MotorBaseline(b: Boat): real
  {
    b.motor2 * 0.004 + b.motor3 * 0.002
  }

  /** `score(b, avg)`: the weighted sum, with `avg` the race's average
      exhibition time. The score is the motor baseline plus three clamped
      bonuses; it equals the baseline exactly when none of the bonuses
      applies (no faster exhibition than average, start timing of at least
      0.2, starting course 7 or later). */
  function Score(b: Boat, avg: real): (r: real)
    ensures r >= MotorBaseline(b)
    ensures r == MotorBaseline(b) <==> b.time >= avg && b.st >= 0.2 && b.course >= 7
  {
    b.motor2 / 100.0 * 0.4
    + b.motor3 / 100.0 * 0.2
    + Max0(avg - b.time) * 0.25
    + Max0(0.2 - b.st) * 1.5
    + Max0((7 - b.course) as real) * 0.05
  }

  /** The score rewards better motors and penalises a slower exhibition, a later
      start and a later course: with the race average held fixed it is
      non-decreasing in both motor rates and non-increasing in the exhibition
      time, the start timing and the course. */
  lemma ScoreMonotone(b: Boat, c: Boat, avg: real)
    requires c.motor2 >= b.motor2 && c.motor3 >= b.motor3
    requires c.time <= b.time && c.st <= b.st && c.course <= b.course
    ensures Score(c, avg) >= Score(b, avg)
  {
  }
}
