/**
 The simulation clock: the running tick and the tick within the year
 (1..24, two ticks per month), and the read-only view handed to controllers.
 */
module Session {

  const TICKS_PER_YEAR: int := 24

  datatype TickInfo = TickInfo(currentTick: int, yearTick: int)

  /** A read-only wrapper around a clock. */
  datatype TickInfoData = TickInfoData(tickInfo: TickInfo)

  /**
   Kotlin's `a % 24`: the remainder of truncating division, which takes the
   sign of the dividend and differs from `a` by a multiple of 24.
   */
  function TruncatedRem(a: int): (r: int)
    ensures a >= 0 ==> 0 <= r < TICKS_PER_YEAR
    ensures a < 0 ==> -TICKS_PER_YEAR < r <= 0
    ensures (a - r) % TICKS_PER_YEAR == 0
    ensures -TICKS_PER_YEAR < a < TICKS_PER_YEAR ==> r == a
  {
    if a >= 0 then a % TICKS_PER_YEAR else -((-a) % TICKS_PER_YEAR)
  }

  /** Advances the clock by one tick; the year tick wraps from 24 back to 1. */
  function Increment(t: TickInfo): (r: TickInfo)
    ensures r.currentTick == t.currentTick + 1
    ensures t.yearTick >= 0 ==> 1 <= r.yearTick <= TICKS_PER_YEAR
    ensures t.yearTick == TICKS_PER_YEAR ==> r.yearTick == 1
    ensures 1 <= t.yearTick < TICKS_PER_YEAR ==> r.yearTick == t.yearTick + 1
  {
    TickInfo(t.currentTick + 1, TruncatedRem(t.yearTick) + 1)
  }

  /** `getCurrentTick`: the clock's running tick. */
  function GetCurrentTick(t: TickInfo): (r: int)
    ensures r == t.currentTick
  {
    t.currentTick
  }

  /** `getYearTick`: the clock's tick within the year. */
  function GetYearTick(t: TickInfo): (r: int)
    ensures r == t.yearTick
  {
    t.yearTick
  }

  /**
   What the getters see across one increment: the running tick one higher,
   and the year tick one higher or wrapped from 24 to 1.
   */
  lemma GettersAcrossIncrement(t: TickInfo)
    requires 1 <= GetYearTick(t) <= TICKS_PER_YEAR
    ensures GetCurrentTick(Increment(t)) == GetCurrentTick(t) + 1
    ensures GetYearTick(Increment(t)) == if GetYearTick(t) == TICKS_PER_YEAR then 1 else GetYearTick(t) + 1
  {
  }

  /** The wrapper reports exactly the wrapped clock's running tick. */
  function DataCurrentTick(d: TickInfoData): (r: int)
    ensures r == d.tickInfo.currentTick
  {
    GetCurrentTick(d.tickInfo)
  }

  /** The wrapper reports exactly the wrapped clock's year tick. */
  function DataYearTick(d: TickInfoData): (r: int)
    ensures r == d.tickInfo.yearTick
  {
    GetYearTick(d.tickInfo)
  }

  /** The clock after `k` increments. */
  function IncrementTimes(t: TickInfo, k: nat): TickInfo
  {
    if k == 0 then t else Increment(IncrementTimes(t, k - 1))
  }

  /** From a valid year tick, `k` increments advance both ticks by `k`, the year tick modulo 24. */
  lemma {:induction false} IncrementTimesAdvances(t: TickInfo, k: nat)
    requires 1 <= t.yearTick <= TICKS_PER_YEAR
    ensures IncrementTimes(t, k).currentTick == t.currentTick + k
    ensures IncrementTimes(t, k).yearTick == (t.yearTick - 1 + k) % TICKS_PER_YEAR + 1
  {
    if k > 0 {
      var before := IncrementTimes(t, k - 1);
      IncrementTimesAdvances(t, k - 1);
      var n := t.yearTick - 1 + (k - 1);
      assert before.yearTick == n % TICKS_PER_YEAR + 1;
      assert IncrementTimes(t, k) == Increment(before);
      assert Increment(before).yearTick == before.yearTick % TICKS_PER_YEAR + 1;
      RemSucc(n);
    }
  }

  /** Taking the remainder before or after a step of one agrees. */
  lemma RemSucc(n: int)
    ensures (n % TICKS_PER_YEAR + 1) % TICKS_PER_YEAR == (n + 1) % TICKS_PER_YEAR
  {
  }

  /** Twenty-four increments bring a valid year tick back to where it started. */
  lemma YearTickHasPeriod24(t: TickInfo)
    requires 1 <= t.yearTick <= TICKS_PER_YEAR
    ensures IncrementTimes(t, TICKS_PER_YEAR).yearTick == t.yearTick
  {
    IncrementTimesAdvances(t, TICKS_PER_YEAR);
  }

  /** A negative year tick is the one start from which the wrap can miss 1..24. */
  lemma NegativeYearTickEscapesRange()
    ensures Increment(TickInfo(0, -1)).yearTick == 0
  {
  }
}
