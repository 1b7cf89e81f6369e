/**
 * The game clock as the report page reads it from the serialized event
 * list, and the period label it shows for each reading.
 */
module Clock {

  /**
   * A gameclock field: a number of elapsed seconds, the special numbers NaN
   * and the two infinities (whose `typeof` is still "number"), or a value
   * that is not a number at all.
   */
  datatype ClockValue = Seconds(t: int) | NaN | PlusInfinity | MinusInfinity | NotNumber

  datatype Period = Q1 | Q2 | Q3 | Q4 | OT | End | Unknown

  /** Length of a regulation quarter, in seconds. */
  const QuarterSeconds := 720

  /**
   * periodFromClock: the period label for a clock reading. "?" is given
   * exactly to non-numbers; End exactly to negative readings; OT to
   * readings past the fourth quarter and to NaN and +Infinity, which fail
   * every comparison below it.
   */
  function PeriodFromClock(clock: ClockValue): (p: Period)
    ensures p == Unknown <==> clock.NotNumber?
    ensures p == End <==> clock.MinusInfinity? || (clock.Seconds? && clock.t < 0)
    ensures p == OT <==> clock.NaN? || clock.PlusInfinity? || (clock.Seconds? && clock.t >= 4 * QuarterSeconds)
  {
    match clock
    case NotNumber => Unknown
    case NaN => OT
    case PlusInfinity => OT
    case MinusInfinity => End
    case Seconds(t) =>
      if t < 0 then End
      else if t < 720 then Q1
      else if t < 1440 then Q2
      else if t < 2160 then Q3
      else if t < 2880 then Q4
      else OT
  }

  /** The regulation quarter with number q (1..4). */
  function Quarter(q: int): Period
    requires 1 <= q <= 4
  {
    [Q1, Q2, Q3, Q4][q - 1]
  }

  /**
   * periodFromClock agrees with the quarter arithmetic: a reading t in the
   * first four 720-second windows lies in quarter t / 720 + 1, a reading of
   * 2880 or more is overtime and a negative one is the end marker.
   */
  lemma PeriodMatchesQuarterWindows(t: int)
    ensures 0 <= t < 4 * QuarterSeconds ==> PeriodFromClock(Seconds(t)) == Quarter(t / QuarterSeconds + 1)
    ensures t >= 4 * QuarterSeconds ==> PeriodFromClock(Seconds(t)) == OT
    ensures t < 0 ==> PeriodFromClock(Seconds(t)) == End
  {
  }

  /** Position of a period in game order; the two markers sit before Q1. */
  function PeriodOrdinal(p: Period): nat {
    match p
    case Q1 => 1
    case Q2 => 2
    case Q3 => 3
    case Q4 => 4
    case OT => 5
    case End => 0
    case Unknown => 0
  }

  /** The period never moves backwards as the clock advances. */
  lemma PeriodMonotone(t1: int, t2: int)
    requires 0 <= t1 <= t2
    ensures PeriodOrdinal(PeriodFromClock(Seconds(t1))) <= PeriodOrdinal(PeriodFromClock(Seconds(t2)))
  {
  }
}
