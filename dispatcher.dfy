/**
 * `handle_message`: interprets one utterance and answers it from the price
 * store, the forecast or the fixed texts. Replies are modelled as response
 * variants rather than formatted strings, and the calls the handler makes
 * into the store, the model fit and the plotter are recorded.
 */
module Dispatcher {
  import opened Wrappers
  import opened Text
  import opened Prices
  import opened Forecasting
  import opened Interpreter

  /**
   * What the handler works with besides the utterance: the NLTK tokenizer,
   * the English stop words, the merged price frame, and the fitted ARIMA
   * model's forecast of `n` prices for a series.
   */
  datatype Env = Env(
    tokenize: string -> seq<string>,
    stopWords: set<string>,
    store: Store,
    arima: (Series, nat) -> seq<real>)

  /** The frame is well formed, and a forecast of `n` steps yields `n` prices. */
  ghost predicate ValidEnv(env: Env) {
    ValidStore(env.store) && forall s: Series, n: nat :: |env.arima(s, n)| == n
  }

  datatype Response =
    | Greet                                                                 // "Hello! How can I assist you ..."
    | CurrentPriceOf(commodity: Commodity, price: real)                     // "The current price of C is $P."
    | Predictions(commodity: Commodity, forecast: seq<Point>, advice: Advice) // dated predictions, then the advice
    | Advise(advice: Advice)                                                // the advice sentence alone
    | HistoryOf(commodity: Commodity, points: Series)                       // dated historical prices
    | NoData                                                                // "Sorry, I don't have data for that commodity."
    | HelpTable                                                             // the table of example queries
    | Fallback                                                              // "I can provide energy price predictions! ..."

  /** The handler's calls into the price frame, the model fit and the plotter. */
  datatype Call = ReadSeries(commodity: Commodity) | FitForecast(commodity: Commodity, steps: nat) | PlotForecast(commodity: Commodity)

  /** The intents that answer from a commodity's data. */
  predicate NeedsCommodity(intent: Intent) {
    intent == CurrentPrice || intent == Predict || intent == HedgeOrSpeculate || intent == History
  }

  /** `predict_prices(commodities_data, commodity, steps=10)` */
  function ForecastOf(env: Env, c: Commodity): (r: seq<Point>)
    requires ValidEnv(env) && c in env.store
    ensures |r| == ForecastSteps
  {
    var s := env.store[c];
    PredictPrices(s, ForecastSteps, env.arima(s, ForecastSteps))
  }

  /** The reply to an interpreted utterance. */
  function Dispatch(intent: Intent, entity: Option<Commodity>, env: Env): Response
    requires ValidEnv(env)
    requires entity.Some? ==> entity.value in env.store
  {
    match intent
    case Greeting => Greet
    case CurrentPrice =>
      if entity.Some? then CurrentPriceOf(entity.value, Latest(env.store[entity.value])) else NoData
    case Predict =>
      if entity.Some? then
        var f := ForecastOf(env, entity.value);
        Predictions(entity.value, f, Forecasting.HedgeOrSpeculate(f))
      else NoData
    case HedgeOrSpeculate =>
      if entity.Some? then Advise(Forecasting.HedgeOrSpeculate(ForecastOf(env, entity.value))) else NoData
    case History =>
      if entity.Some? then HistoryOf(entity.value, Tail(env.store[entity.value], HistoryLength)) else NoData
    case Help => HelpTable
    case Unknown => Fallback
  }

  /** The calls made while answering an interpreted utterance. */
  function CallsOf(intent: Intent, entity: Option<Commodity>): seq<Call> {
    if entity.None? then []
    else match intent
      case CurrentPrice => [ReadSeries(entity.value)]
      case Predict => [FitForecast(entity.value, ForecastSteps), PlotForecast(entity.value)]
      case HedgeOrSpeculate => [FitForecast(entity.value, ForecastSteps)]
      case History => [ReadSeries(entity.value)]
      case _ => []
  }

  /** The filtered words of an utterance: it is lower-cased before it is tokenized. */
  function WordsOf(message: string, env: Env): seq<string> {
    FilterTokens(env.tokenize(Lower(message)), env.stopWords)
  }

  function Understand(message: string, env: Env): (Intent, Option<Commodity>) {
    Interpret(env.tokenize(Lower(message)), env.stopWords, env.store.Keys)
  }

  /** The entity of a valid frame is always one of its columns. */
  lemma UnderstoodEntityIsColumn(message: string, env: Env)
    requires ValidEnv(env)
    ensures Understand(message, env).1.Some? ==> Understand(message, env).1.value in env.store
  {
    EntityIsColumn(WordsOf(message, env), env.store.Keys);
  }

  /**
   * The entity is never the empty string, so the `if commodity:` tests of
   * `handle_message`, which treat `""` like `None`, agree with `Some?`.
   */
  lemma {:induction false} UnderstoodEntityIsNonEmpty(message: string, env: Env)
    ensures Understand(message, env).1.Some? ==> Understand(message, env).1.value != ""
  {
    var tokens := env.tokenize(Lower(message));
    var words := WordsOf(message, env);
    FirstCommodityIsFirstMatch(words, env.store.Keys);
    FilteredTokensShape(tokens, env.stopWords);
    if FirstCommodity(words, env.store.Keys).Some? {
      var i :| 0 <= i < |words| && NamesColumn(words[i], env.store.Keys) &&
               FirstCommodity(words, env.store.Keys).value == Capitalize(words[i]);
      assert IsAlnum(words[i]);
    }
  }

  /** The reply to a raw utterance. */
  function Answer(message: string, env: Env): Response
    requires ValidEnv(env)
  {
    UnderstoodEntityIsColumn(message, env);
    Dispatch(Understand(message, env).0, Understand(message, env).1, env)
  }

  /**
   * `handle_message`, branch for branch: filter the tokens, pick the
   * commodity, then run the `if/elif` chain.
   */
  method HandleMessage(message: string, env: Env) returns (response: Response, calls: seq<Call>)
    requires ValidEnv(env)
    ensures response == Answer(message, env)
    ensures calls == CallsOf(Understand(message, env).0, Understand(message, env).1)
  {
    var text := Lower(message);
    var tokens := env.tokenize(text);
    tokens := Filter(IsAlnum, tokens);
    var filtered := Filter(NotStopWord(env.stopWords), tokens);

    var commodity := FirstCommodity(filtered, env.store.Keys);
    EntityIsColumn(filtered, env.store.Keys);
    assert filtered == WordsOf(message, env);
    assert Understand(message, env).0 == Classify(filtered);
    assert Understand(message, env).1 == commodity;
    response, calls := Respond(filtered, commodity, env);
  }

  /** The `if/elif` chain of `handle_message`, from the filtered words and the commodity. */
  method Respond(filtered: seq<string>, commodity: Option<Commodity>, env: Env) returns (response: Response, calls: seq<Call>)
    requires ValidEnv(env)
    requires commodity.Some? ==> commodity.value in env.store
    ensures response == Dispatch(Classify(filtered), commodity, env)
    ensures calls == CallsOf(Classify(filtered), commodity)
  {
    ghost var intent := Classify(filtered);
    calls := [];
    if "hello" in filtered || "hi" in filtered || "hey" in filtered {
      assert intent == Greeting;
      response := Greet;
    } else if "price" in filtered || "prices" in filtered {
      assert intent == CurrentPrice;
      // `if commodity:` in first.py; the entity is never "" (UnderstoodEntityIsNonEmpty).
      if commodity.Some? {
        var series := env.store[commodity.value];
        calls := calls + [ReadSeries(commodity.value)];
        response := CurrentPriceOf(commodity.value, series[|series| - 1].value);
      } else {
        response := NoData;
      }
    } else if "predict" in filtered || "predictions" in filtered {
      assert intent == Predict;
      if commodity.Some? {
        var series := env.store[commodity.value];
        var forecast := PredictPrices(series, ForecastSteps, env.arima(series, ForecastSteps));
        calls := calls + [FitForecast(commodity.value, ForecastSteps)];
        calls := calls + [PlotForecast(commodity.value)];
        var advice := Forecasting.HedgeOrSpeculate(forecast);
        response := Predictions(commodity.value, forecast, advice);
      } else {
        response := NoData;
      }
    } else if "hedge" in filtered || "speculate" in filtered {
      assert intent == HedgeOrSpeculate;
      if commodity.Some? {
        var series := env.store[commodity.value];
        var forecast := PredictPrices(series, ForecastSteps, env.arima(series, ForecastSteps));
        calls := calls + [FitForecast(commodity.value, ForecastSteps)];
        response := Advise(Forecasting.HedgeOrSpeculate(forecast));
      } else {
        response := NoData;
      }
    } else if "history" in filtered || "historical" in filtered {
      assert intent == History;
      if commodity.Some? {
        var series := env.store[commodity.value];
        calls := calls + [ReadSeries(commodity.value)];
        response := HistoryOf(commodity.value, Tail(series, HistoryLength));
      } else {
        response := NoData;
      }
    } else if "help" in filtered {
      assert intent == Help;
      response := HelpTable;
    } else {
      assert intent == Unknown;
      response := Fallback;
    }
  }

  /**
   * The "no data" reply comes exactly from a data intent without a
   * commodity, and then nothing is read, fitted or plotted.
   */
  lemma NoDataIffNoCommodity(intent: Intent, entity: Option<Commodity>, env: Env)
    requires ValidEnv(env)
    requires entity.Some? ==> entity.value in env.store
    ensures Dispatch(intent, entity, env) == NoData <==> NeedsCommodity(intent) && entity.None?
    ensures entity.None? ==> CallsOf(intent, entity) == []
  {
  }

  /** The fallback reply comes exactly when the filtered words mention no keyword. */
  lemma {:induction false} FallbackIffNoKeyword(message: string, env: Env)
    requires ValidEnv(env)
    ensures Answer(message, env) == Fallback <==> forall intent :: !Mentions(WordsOf(message, env), intent)
  {
    UnknownIffNoKeyword(WordsOf(message, env));
  }

  /**
   * The current price is the price of the most recent week: the reply
   * names the commodity and carries the value of the point whose date is
   * later than that of every other point of its series.
   */
  lemma CurrentPriceIsLastPoint(env: Env, c: Commodity)
    requires ValidEnv(env) && c in env.store
    ensures var s := env.store[c];
      var r := Dispatch(CurrentPrice, Some(c), env);
      r.CurrentPriceOf? && r.commodity == c &&
      exists k :: 0 <= k < |s| && r.price == s[k].value &&
        forall i :: 0 <= i < |s| && i != k ==> s[i].day < s[k].day
  {
    var s := env.store[c];
    LastPointIsLatestDated(s);
    assert Dispatch(CurrentPrice, Some(c), env).price == s[|s| - 1].value;
  }

  /**
   * The history reply holds the last `min(10, n)` points of the series in
   * their original order, week after week, ending at the current price.
   */
  lemma {:induction false} HistoryIsLastTenPoints(env: Env, c: Commodity)
    requires ValidEnv(env) && c in env.store
    ensures var s := env.store[c];
      var r := Dispatch(History, Some(c), env);
      r.HistoryOf? && r.commodity == c &&
      |r.points| == Min(HistoryLength, |s|) &&
      (forall i :: 0 <= i < |r.points| ==> r.points[i] == s[|s| - |r.points| + i]) &&
      IsWeekly(r.points) &&
      r.points[|r.points| - 1].value == Dispatch(CurrentPrice, Some(c), env).price
  {
    var s := env.store[c];
    TailIsLastPoints(s, HistoryLength);
    TailOfWeeklyIsWeekly(s, HistoryLength);
  }

  /**
   * A prediction reply holds ten forecast points dated one to ten weeks
   * after the series' last date, carrying the model's prices in order, and
   * advises speculating exactly when the tenth price is above the first.
   */
  lemma {:induction false} PredictionCoversTenWeeks(env: Env, c: Commodity)
    requires ValidEnv(env) && c in env.store
    ensures var s := env.store[c];
      var predicted := env.arima(s, ForecastSteps);
      var r := Dispatch(Predict, Some(c), env);
      r.Predictions? && r.commodity == c && |r.forecast| == ForecastSteps &&
      (forall i :: 0 <= i < ForecastSteps ==> r.forecast[i] == Point(s[|s| - 1].day + 7 * (i + 1), predicted[i])) &&
      (r.advice == Speculate <==> predicted[ForecastSteps - 1] > predicted[0])
  {
    var s := env.store[c];
    ForecastContinuesAxis(s, ForecastSteps, env.arima(s, ForecastSteps));
    AdviceFollowsPrediction(s, ForecastSteps, env.arima(s, ForecastSteps));
  }

  /** The advice reply is the advice that ends the prediction reply. */
  lemma AdviceMatchesPrediction(env: Env, c: Commodity)
    requires ValidEnv(env) && c in env.store
    ensures Dispatch(HedgeOrSpeculate, Some(c), env) == Advise(Dispatch(Predict, Some(c), env).advice)
  {
  }
}
