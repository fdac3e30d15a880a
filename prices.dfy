/**
 * The price store: one weekly series per commodity column, all on the same
 * date axis, built once when the program starts.
 */
module Prices {
  import opened Text
  import opened Weeks

  /** One row of a series: the week-ending date (a day number) and the price. */
  datatype Point = Point(day: int, value: real)

  type Series = seq<Point>

  /** A commodity is named by its column in the merged frame. */
  type Commodity = string

  type Store = map<Commodity, Series>

  /** Number of weeks each synthetic series covers. */
  const SyntheticWeeks: nat := 52

  /** Number of points a history reply shows. */
  const HistoryLength: nat := 10

  function Min(a: nat, b: nat): nat { if a <= b then a else b }

  /** Every date is a Sunday and each follows the previous one by a week. */
  predicate IsWeekly(s: Series) {
    (forall i :: 0 <= i < |s| ==> IsSunday(s[i].day)) &&
    (forall i :: 0 < i < |s| ==> s[i].day == s[i - 1].day + 7)
  }

  function Days(s: Series): seq<int> {
    seq(|s|, i requires 0 <= i < |s| => s[i].day)
  }

  /**
   * What the merged frame guarantees: every column is a non-empty weekly
   * series, all columns share one date axis, and every column name is in
   * capitalized form.
   */
  predicate ValidStore(store: Store) {
    (forall c :: c in store ==> |store[c]| > 0 && IsWeekly(store[c]) && Capitalize(c) == c) &&
    (forall c, d :: c in store && d in store ==> Days(store[c]) == Days(store[d]))
  }

  /** `series.iloc[-1]`: the current price. */
  function Latest(s: Series): real
    requires |s| > 0
  {
    s[|s| - 1].value
  }

  /** On a weekly series, the point `j - i` places after point `i` is dated `j - i` weeks later. */
  lemma {:induction false} WeeklyDaysAdvance(s: Series, i: nat, j: nat)
    requires IsWeekly(s) && i <= j < |s|
    ensures s[j].day == s[i].day + 7 * (j - i)
    decreases j - i
  {
    if i < j {
      WeeklyDaysAdvance(s, i, j - 1);
    }
  }

  /** On a weekly series the last point is the one with the latest date, later than every other. */
  lemma LastPointIsLatestDated(s: Series)
    requires |s| > 0 && IsWeekly(s)
    ensures forall i :: 0 <= i < |s| - 1 ==> s[i].day < s[|s| - 1].day
  {
    forall i | 0 <= i < |s| - 1 ensures s[i].day < s[|s| - 1].day {
      WeeklyDaysAdvance(s, i, |s| - 1);
    }
  }

  /** `series.tail(n)` */
  function Tail(s: Series, n: nat): Series {
    s[|s| - Min(n, |s|)..]
  }

  /**
   * The tail holds the last `min(n, |s|)` points in their original order:
   * the series is some prefix followed by the tail, the tail of a weekly
   * series is weekly, and a non-empty tail ends at the current price.
   */
  lemma TailIsLastPoints(s: Series, n: nat)
    ensures |Tail(s, n)| == Min(n, |s|)
    ensures s == s[..|s| - |Tail(s, n)|] + Tail(s, n)
    ensures forall i :: 0 <= i < |Tail(s, n)| ==> Tail(s, n)[i] == s[|s| - |Tail(s, n)| + i]
    ensures n > 0 && |s| > 0 ==> Tail(s, n)[|Tail(s, n)| - 1].value == Latest(s)
  {
  }

  lemma {:induction false} TailOfWeeklyIsWeekly(s: Series, n: nat)
    requires IsWeekly(s)
    ensures IsWeekly(Tail(s, n))
  {
    var k := |s| - Min(n, |s|);
    var t := Tail(s, n);
    forall i | 0 <= i < |t| ensures IsSunday(t[i].day) {
      assert t[i] == s[k + i];
    }
    forall i | 0 < i < |t| ensures t[i].day == t[i - 1].day + 7 {
      assert t[i] == s[k + i] && t[i - 1] == s[k + i - 1];
    }
  }

  /** One generated column: the prices on `pd.date_range(start='2024-01-01', freq='W')`. */
  function SyntheticSeries(prices: seq<real>): Series {
    var weeks := WeeklyRange(Jan1st2024, |prices|);
    seq(|prices|, i requires 0 <= i < |prices| => Point(weeks[i], prices[i]))
  }

  /** The merged frame of the three generated columns Diesel, Petroleum and Lng. */
  function SyntheticStore(diesel: seq<real>, petroleum: seq<real>, lng: seq<real>): Store
    requires |diesel| == |petroleum| == |lng| == SyntheticWeeks
  {
    map["Diesel" := SyntheticSeries(diesel), "Petroleum" := SyntheticSeries(petroleum), "Lng" := SyntheticSeries(lng)]
  }

  lemma SyntheticSeriesShape(prices: seq<real>)
    ensures |SyntheticSeries(prices)| == |prices|
    ensures IsWeekly(SyntheticSeries(prices))
    ensures Days(SyntheticSeries(prices)) == WeeklyRange(Jan1st2024, |prices|)
    ensures forall i :: 0 <= i < |prices| ==> SyntheticSeries(prices)[i].value == prices[i]
  {
    WeeklyRangeShape(Jan1st2024, |prices|);
  }

  /**
   * The generated frame satisfies the store invariant: its three columns
   * share the axis of 52 Sundays from 2024-01-07 on, and their names are
   * capitalized.
   */
  lemma {:induction false} SyntheticStoreIsValid(diesel: seq<real>, petroleum: seq<real>, lng: seq<real>)
    requires |diesel| == |petroleum| == |lng| == SyntheticWeeks
    ensures ValidStore(SyntheticStore(diesel, petroleum, lng))
    ensures SyntheticStore(diesel, petroleum, lng).Keys == {"Diesel", "Petroleum", "Lng"}
    ensures forall c :: c in SyntheticStore(diesel, petroleum, lng) ==> Days(SyntheticStore(diesel, petroleum, lng)[c])[0] == Jan1st2024 + 6
  {
    var store := SyntheticStore(diesel, petroleum, lng);
    var axis := WeeklyRange(Jan1st2024, SyntheticWeeks);
    SyntheticSeriesShape(diesel);
    SyntheticSeriesShape(petroleum);
    SyntheticSeriesShape(lng);
    ColumnNamesCapitalized();
    assert store.Keys == {"Diesel", "Petroleum", "Lng"};
    assert forall c :: c in store ==> Days(store[c]) == axis && IsWeekly(store[c]) && |store[c]| == SyntheticWeeks;
    assert axis[0] == Jan1st2024 + 6;
  }

  lemma ColumnNamesCapitalized()
    ensures Capitalize("Diesel") == "Diesel" && Capitalize("Petroleum") == "Petroleum" && Capitalize("Lng") == "Lng"
  {
  }
}
