/**
 * Calendar dates as day numbers, and the weekly date ranges pandas builds
 * with `freq='W'`, whose weeks end on Sunday.
 */
module Weeks {

  /** Day 0 is 1970-01-01, a Thursday, so day `d` is a Sunday exactly when `d % 7 == 3`. */
  predicate IsSunday(d: int) { d % 7 == 3 }

  /** 2024-01-01, a Monday: the start the synthetic series are generated from. */
  const Jan1st2024: int := 19723

  /** The first Sunday on or after day `d`: where a `freq='W'` range starting at `d` begins. */
  function RollToSunday(d: int): (r: int)
    ensures IsSunday(r) && d <= r < d + 7
  {
    d + (3 - d) % 7
  }

  /** `pd.date_range(start=start, periods=periods, freq='W')` */
  function WeeklyRange(start: int, periods: nat): seq<int> {
    seq(periods, i => RollToSunday(start) + 7 * i)
  }

  /** A Sunday is its own week end. */
  lemma RollSundayIsIdentity(d: int)
    requires IsSunday(d)
    ensures RollToSunday(d) == d
  {
    var q := d / 7;
    assert d == 7 * q + 3;
    assert 3 - d == 7 * (-q);
  }

  /**
   * A weekly range holds `periods` Sundays, seven days apart, the first of
   * them within a week of `start`, and `start` itself when it is a Sunday.
   */
  lemma WeeklyRangeShape(start: int, periods: nat)
    ensures |WeeklyRange(start, periods)| == periods
    ensures forall i :: 0 <= i < periods ==> IsSunday(WeeklyRange(start, periods)[i])
    ensures forall i :: 0 < i < periods ==> WeeklyRange(start, periods)[i] == WeeklyRange(start, periods)[i - 1] + 7
    ensures periods > 0 ==> start <= WeeklyRange(start, periods)[0] < start + 7
    ensures periods > 0 && IsSunday(start) ==> WeeklyRange(start, periods)[0] == start
  {
    var r := WeeklyRange(start, periods);
    forall i | 0 <= i < periods ensures IsSunday(r[i]) {
      var a := RollToSunday(start);
      assert r[i] == a + 7 * i;
      assert (a + 7 * i) % 7 == a % 7;
    }
    if IsSunday(start) { RollSundayIsIdentity(start); }
  }
}
