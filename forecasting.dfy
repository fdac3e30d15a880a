/**
 * The date axis of a forecast, its assembly into an ordered dictionary of
 * (date, price) pairs, and the hedge-or-speculate advice drawn from it.
 * The ARIMA fit that produces the predicted prices is not modelled: the
 * prices arrive as an input sequence.
 */
module Forecasting {
  import opened Weeks
  import opened Prices

  /** The number of weeks forecast for every prediction or advice request. */
  const ForecastSteps: nat := 10

  /** `pd.date_range(start=last, periods=steps + 1, freq='W')[1:]` */
  function ForecastDates(last: int, steps: nat): seq<int> {
    WeeklyRange(last, steps + 1)[1..]
  }

  /**
   * There are exactly `steps` forecast dates, one week apart, the first a
   * week after the Sunday on or after `last`; when `last` is itself a Sunday
   * they are `last + 7, last + 14, ..., last + 7 * steps`.
   */
  lemma ForecastDatesShape(last: int, steps: nat)
    ensures |ForecastDates(last, steps)| == steps
    ensures forall i :: 0 <= i < steps ==> ForecastDates(last, steps)[i] == RollToSunday(last) + 7 * (i + 1)
    ensures IsSunday(last) ==> forall i :: 0 <= i < steps ==> ForecastDates(last, steps)[i] == last + 7 * (i + 1)
  {
    if IsSunday(last) { RollSundayIsIdentity(last); }
  }

  /** Python's `zip`: pairs up the two sequences, stopping at the shorter one. */
  function Zip(days: seq<int>, values: seq<real>): seq<Point> {
    seq(Min(|days|, |values|), i requires 0 <= i < Min(|days|, |values|) => Point(days[i], values[i]))
  }

  predicate DistinctDays(ps: seq<Point>) {
    forall i, j :: 0 <= i < j < |ps| ==> ps[i].day != ps[j].day
  }

  /**
   * `d[p.day] = p.value` on an insertion-ordered dictionary held as a
   * sequence of pairs: an existing key keeps its place and takes the new
   * value, a new key goes at the end.
   */
  function Put(d: seq<Point>, p: Point): seq<Point> {
    if d == [] then [p]
    else if d[0].day == p.day then [p] + d[1..]
    else [d[0]] + Put(d[1..], p)
  }

  /** `dict(pairs)`: the pairs inserted one after the other. */
  function DictOf(ps: seq<Point>): seq<Point> {
    if ps == [] then [] else Put(DictOf(ps[..|ps| - 1]), ps[|ps| - 1])
  }

  /** Putting a key that is not yet present appends it. */
  lemma {:induction false} PutNewKey(d: seq<Point>, p: Point)
    requires forall i :: 0 <= i < |d| ==> d[i].day != p.day
    ensures Put(d, p) == d + [p]
  {
    if d != [] {
      PutNewKey(d[1..], p);
      assert d == [d[0]] + d[1..];
    }
  }

  /** Putting a key that is present overwrites that entry in place. */
  lemma {:induction false} PutExistingKey(d: seq<Point>, p: Point, k: nat)
    requires k < |d| && d[k].day == p.day
    requires forall i :: 0 <= i < k ==> d[i].day != p.day
    ensures Put(d, p) == d[k := p]
  {
    if k > 0 {
      PutExistingKey(d[1..], p, k - 1);
      assert d[k := p] == [d[0]] + d[1..][k - 1 := p];
    }
  }

  /** With distinct keys, building the dictionary loses and reorders nothing. */
  lemma {:induction false} DictOfDistinct(ps: seq<Point>)
    requires DistinctDays(ps)
    ensures DictOf(ps) == ps
  {
    if ps != [] {
      var init := ps[..|ps| - 1];
      assert DistinctDays(init);
      DictOfDistinct(init);
      PutNewKey(init, ps[|ps| - 1]);
      assert init + [ps[|ps| - 1]] == ps;
    }
  }

  /**
   * `predict_prices`: the forecast dictionary for a non-empty series, given
   * the prices the fitted model predicts. It holds one entry per predicted
   * price (as many as `steps` allows), in order, dated week by week after
   * the series' last date.
   */
  function PredictPrices(series: Series, steps: nat, predicted: seq<real>): (r: seq<Point>)
    requires |series| > 0
    ensures |r| == Min(steps, |predicted|)
    ensures forall i :: 0 <= i < |r| ==> r[i] == Point(RollToSunday(series[|series| - 1].day) + 7 * (i + 1), predicted[i])
    ensures DistinctDays(r)
  {
    var last := series[|series| - 1].day;
    ForecastDatesShape(last, steps);
    var pairs := Zip(ForecastDates(last, steps), predicted);
    DictOfDistinct(pairs);
    DictOf(pairs)
  }

  /**
   * When the series is weekly, its last date is a Sunday and the forecast
   * continues the axis: the first date is a week after the last one, and
   * each further date a week after the one before.
   */
  lemma ForecastContinuesAxis(series: Series, steps: nat, predicted: seq<real>)
    requires |series| > 0 && IsWeekly(series)
    ensures var r := PredictPrices(series, steps, predicted);
      (|r| > 0 ==> r[0].day == series[|series| - 1].day + 7) &&
      (forall i :: 0 < i < |r| ==> r[i].day == r[i - 1].day + 7) &&
      (forall i :: 0 <= i < |r| ==> r[i].day == series[|series| - 1].day + 7 * (i + 1))
  {
    RollSundayIsIdentity(series[|series| - 1].day);
  }

  datatype Advice = Speculate | Hedge

  /** `hedge_or_speculate`: speculate on a rising forecast, hedge otherwise. */
  function HedgeOrSpeculate(forecast: seq<Point>): Advice
    requires |forecast| > 0
  {
    if forecast[|forecast| - 1].value > forecast[0].value then Speculate else Hedge
  }

  /**
   * The advice on a forecast follows the predicted prices themselves:
   * speculate exactly when the last price the model predicts is above the
   * first one.
   */
  lemma AdviceFollowsPrediction(series: Series, steps: nat, predicted: seq<real>)
    requires |series| > 0 && steps > 0 && |predicted| == steps
    ensures var r := PredictPrices(series, steps, predicted);
      |r| > 0 &&
      (HedgeOrSpeculate(r) == Speculate <==> predicted[steps - 1] > predicted[0])
  {
  }

  /** Equal endpoints, and in particular a one-point forecast, give hedge. */
  lemma FlatForecastHedges(forecast: seq<Point>)
    requires |forecast| > 0 && forecast[|forecast| - 1].value == forecast[0].value
    ensures HedgeOrSpeculate(forecast) == Hedge
  {
  }
}
