# Energy chatbot: a Dafny model of its decision logic

The chatbot answers questions about three synthetic weekly commodity price
series: Diesel, Petroleum and Lng. It gives the current price, a ten-week
forecast with hedge-or-speculate advice, the advice alone, the last ten
historical prices, and a help table. The questions arrive in a console loop
that ends on `exit` or `quit`.

This project models the decision logic of `first.py`:

- **`Text`**: the `lower`, `upper`, `capitalize` and `isalnum` string methods, over ASCII.
- **`Weeks`**: dates as day numbers. `pd.date_range(..., freq='W')` becomes a range of Sundays: it begins at the first Sunday on or after its start and steps a week at a time.
- **`Prices`**: the merged frame as a map from column name to a series of (day, price) points, plus its invariant `ValidStore`. The invariant says every column is a non-empty weekly series, all columns share one date axis, and every column name is in capitalized form. The generated frame satisfies it (`SyntheticStoreIsValid`). Also here: the current price (`iloc[-1]`) and `tail(n)`.
- **`Forecasting`**: the forecast date axis (`date_range(...)[1:]`), `dict(zip(dates, forecast))` modelled as an insertion-ordered dictionary, `predict_prices` with the predicted prices as an input, and `hedge_or_speculate`.
- **`Interpreter`**: the two token filters, the entity pick `next(...)`, and the `if/elif` intent chain. The chain is shown equal to a priority table read first-match-wins.
- **`Dispatcher`**: `handle_message` as two methods. `HandleMessage` filters the tokens and picks the commodity. `Respond` runs the `if/elif` chain. Both are proved against the functions `Answer` / `Dispatch`, which return a response variant rather than formatted text, and `CallsOf`, which lists the calls made into the frame, the model fit and the plotter. `FitForecast` stands for all of `predict_prices`, including its `data[commodity]` read, so the predict and hedge branches record no separate `ReadSeries`.
- **`Session`**: the `while True` loop of `main`, as a method over the lines typed. It has a Running/Terminated state and is proved against the function `Transcript`.

The external pieces are inputs, bundled in `Dispatcher.Env`:

- the NLTK tokenizer, as a function applied to the lower-cased line;
- the English stop words, as a set;
- the merged price frame;
- the ARIMA forecast, as a function from a series and a step count to that many predicted prices.

`ValidEnv` states the one property relied on from the forecast: a forecast of `n` steps yields `n` prices.

Three points where the model follows the shape of `first.py` closely:

- `first.py` has no error handling around the frame lookups or the ARIMA fit, so the model has no error replies. Two of the lookups are shown safe; the fit is assumed to succeed:
  - `EntityIsColumn` proves that the entity is always a column of the frame, even when it matched through `word.upper()`, so `commodities_data[commodity]` (first.py:104, 110, 120, 127) never misses.
  - `ValidStore` requires every column to be non-empty, so `iloc[-1]` (first.py:104) and `series.index[-1]` (first.py:49) have a last element. This is an assumption about the frame; `SyntheticStoreIsValid` proves it for the generated frame (first.py:17-34).
  - A failing ARIMA fit is not modelled: `ValidEnv` requires the `arima` input to return exactly the requested number of prices (see "## Left out").
- The exit test runs in `main` before `handle_message` (first.py:153), so it lives in `Session.IsExit`, and `Interpreter.Intent` has no exit intent.
- The column for LNG is named `Lng` (first.py:27), so the entity the user gets back is `Lng`.

## Model

| member | source | states |
|---|---|---|
| `Text.Lower` | first.py:88 | `str.lower` over ASCII; no contract of its own, see `Session.ExitExamples` |
| `Text.Upper` | first.py:96 | `str.upper` over ASCII; no contract of its own, see `Text.CapitalizeMatchesUpper` |
| `Text.Capitalize` | first.py:96 | `str.capitalize` over ASCII; no contract of its own, see `Text.CapitalizeMatchesUpper` and `Interpreter.EntityIsColumn` |
| `Text.IsAlnum` | first.py:90 | `str.isalnum` over ASCII, false on the empty string; no contract of its own, see `Interpreter.FilteredTokensShape` |
| `Text.CapitalizeMatchesUpper` | first.py:96 | a word whose upper-cased form is in capitalized form capitalizes to that same string, so a match through `word.upper()` yields `word.capitalize()` equal to the matched column |
| `Weeks.RollToSunday` | first.py:49 | a weekly (`'W'`) range starting at day `d` begins at the unique Sunday in `[d, d + 7)` |
| `Weeks.RollSundayIsIdentity` | first.py:49 | a Sunday start date is itself the first date of its weekly range |
| `Weeks.WeeklyRange` | first.py:20 | `pd.date_range(start, periods, freq='W')` as day numbers, also used at first.py:49; no contract of its own, see `Weeks.WeeklyRangeShape` |
| `Weeks.WeeklyRangeShape` | first.py:20 | `date_range(start, periods, freq='W')` holds `periods` Sundays, each a week after the previous, the first within a week of the start (the start itself when it is a Sunday) |
| `Prices.SyntheticSeries` | first.py:17-22 | `generate_synthetic_data` with the prices as an input; no contract of its own, see `Prices.SyntheticSeriesShape` |
| `Prices.SyntheticStore` | first.py:25-34 | the three generated columns merged on their week; requires 52 prices per column, no other contract, see `Prices.SyntheticStoreIsValid` |
| `Prices.SyntheticSeriesShape` | first.py:17-22 | a generated column has one point per price, on the weekly axis from 2024-01-01, carrying the prices in order |
| `Prices.SyntheticStoreIsValid` | first.py:25-34 | the merged frame of the three generated columns has exactly the columns Diesel, Petroleum, Lng, all on one axis of Sundays starting 2024-01-07, and satisfies the store invariant |
| `Prices.Latest` | first.py:104 | `iloc[-1]`: requires a non-empty series; no other contract, see `Dispatcher.CurrentPriceIsLastPoint` |
| `Prices.Tail` | first.py:127 | `tail(n)`; no contract of its own, see `Prices.TailIsLastPoints` |
| `Prices.WeeklyDaysAdvance` | first.py:20 | on the weekly axis, the point `j - i` places after point `i` is dated `7 * (j - i)` days later |
| `Prices.LastPointIsLatestDated` | first.py:104 | on the weekly axis, `iloc[-1]` is the point dated later than every other point |
| `Prices.TailIsLastPoints` | first.py:127 | `tail(n)` has `min(n, len)` points, equal to the last points of the series in their original order; the series is a prefix followed by the tail; a non-empty tail ends at the current price |
| `Prices.TailOfWeeklyIsWeekly` | first.py:127 | the tail of a weekly series is weekly |
| `Forecasting.ForecastDates` | first.py:49 | `date_range(start=last, periods=steps+1, freq='W')[1:]`; no contract of its own, see `Forecasting.ForecastDatesShape` |
| `Forecasting.ForecastDatesShape` | first.py:49 | `date_range(start=last, periods=steps+1, freq='W')[1:]` has exactly `steps` dates, one week apart, the first a week after the Sunday on or after `last`; that is `last+7, ..., last+7*steps` when `last` is a Sunday |
| `Forecasting.Zip` | first.py:50 | `zip(dates, forecast)`, stopping at the shorter list; no contract of its own, see `Forecasting.PredictPrices` |
| `Forecasting.Put` | first.py:50 | one insertion into a Python dict; no contract of its own, see `Forecasting.PutNewKey` and `Forecasting.PutExistingKey` |
| `Forecasting.DictOf` | first.py:50 | `dict(pairs)`; no contract of its own, see `Forecasting.DictOfDistinct` |
| `Forecasting.PutNewKey` | first.py:50 | inserting a key not yet in the dictionary appends it at the end |
| `Forecasting.PutExistingKey` | first.py:50 | inserting a key already present overwrites that entry in place |
| `Forecasting.DictOfDistinct` | first.py:50 | `dict(pairs)` with distinct keys keeps every pair, in order |
| `Forecasting.PredictPrices` | first.py:40-50 | the forecast dictionary has one entry per predicted price (at most `steps`), in order, dated week by week after the series' last date, with distinct dates |
| `Forecasting.ForecastContinuesAxis` | first.py:49-50 | for a weekly series the forecast continues its axis: the first date is a week after the last date, and each later date a week after the one before |
| `Forecasting.HedgeOrSpeculate` | first.py:66-71 | requires a non-empty forecast; no other contract, see `Forecasting.AdviceFollowsPrediction` and `Forecasting.FlatForecastHedges` |
| `Forecasting.AdviceFollowsPrediction` | first.py:66-71 | on a forecast of the model's prices, the advice is speculate exactly when the last predicted price is above the first |
| `Forecasting.FlatForecastHedges` | first.py:66-71 | equal first and last values, including a one-point forecast, give hedge |
| `Interpreter.FilterShape` | first.py:90-91 | a list-comprehension filter yields a subsequence of its input that keeps an element exactly when it passes the test |
| `Interpreter.FilterCounts` | first.py:90-91 | a list-comprehension filter keeps every copy of an element that passes and no copy of one that does not |
| `Interpreter.FilterTokens` | first.py:90-91 | the two list-comprehension filters; no contract of its own, see `Interpreter.FilteredTokensShape` |
| `Interpreter.FilteredTokensShape` | first.py:88-91 | the filtered tokens are an order-preserving subsequence of the tokens; a token is among them exactly when it is alphanumeric and not a stop word |
| `Interpreter.FirstCommodity` | first.py:96 | the `next(...)` entity pick; no contract of its own, see `Interpreter.FirstCommodityIsFirstMatch` |
| `Interpreter.FirstCommodityIsFirstMatch` | first.py:96 | the entity is none exactly when no word matches a column (capitalized or upper-cased); otherwise it is the capitalized form of a matching word with no matching word before it |
| `Interpreter.LaterWordsIgnored` | first.py:96 | once a word has matched, appending further words does not change the entity |
| `Interpreter.EntityIsColumn` | first.py:96 | when all column names are in capitalized form, the entity is always a column, even when it matched only through `word.upper()` |
| `Interpreter.Classify` | first.py:100-135 | the `if/elif` tests on the filtered tokens; no contract of its own, see `Interpreter.ClassifyFollowsPriority` |
| `Interpreter.MentionsByKeyword` | first.py:100-132 | each intent's entry in the keyword table matches the membership tests of its `if/elif` branch |
| `Interpreter.ClassifyFollowsPriority` | first.py:100-135 | the chain gives the intent at priority position `k` exactly when the words mention one of its keywords and none of an earlier intent's |
| `Interpreter.UnknownIffNoKeyword` | first.py:100-135 | the fallback intent comes out exactly when no keyword of any intent is among the words |
| `Interpreter.FilteredTokenCounts` | first.py:90-91 | a token that is alphanumeric and not a stop word is kept as many times as it occurs, any other token not at all |
| `Interpreter.Interpret` | first.py:90-100 | the filtered words' intent and entity; no contract of its own, see `Interpreter.ClassifyFollowsPriority` and `Interpreter.FirstCommodityIsFirstMatch` |
| `Interpreter.GreetingOutranksPrice` | first.py:100-102 | tokens containing both `hello` and `price` give the greeting |
| `Interpreter.PriceOutranksPredict` | first.py:100-108 | tokens containing `price` and `predict`, and no greeting, give the current-price intent |
| `Interpreter.ExampleCurrentPrice` | first.py:88-104 | the tokens of "What is the current price of Diesel?" give (current price, Diesel) |
| `Interpreter.ExampleHedge` | first.py:88-119 | the tokens of "hedge or speculate on LNG" give (hedge-or-speculate, Lng) |
| `Interpreter.ExampleUnknown` | first.py:88-135 | the tokens of "banana please" give (fallback, no entity) |
| `Dispatcher.ForecastOf` | first.py:110 | `predict_prices(..., steps=10)` on a column of a valid frame yields exactly ten entries |
| `Dispatcher.WordsOf` | first.py:88-91 | the filtered words of a line; no contract of its own, see `Interpreter.FilteredTokensShape` |
| `Dispatcher.Understand` | first.py:88-96 | the intent and entity of a line; no contract of its own, see `Dispatcher.UnderstoodEntityIsColumn` |
| `Dispatcher.CallsOf` | first.py:104-127 | the frame reads (first.py:104, 127), the fit (first.py:110, 120) and the plot (first.py:113) of each branch; no contract of its own, see `Dispatcher.NoDataIffNoCommodity` and `Dispatcher.Respond` |
| `Dispatcher.UnderstoodEntityIsNonEmpty` | first.py:96-126 | the entity is never the empty string, so the `if commodity:` tests (first.py:103, 109, 119, 126) take their branch exactly when an entity was found |
| `Dispatcher.UnderstoodEntityIsColumn` | first.py:88-96 | the entity picked from any utterance is a column of a valid frame, so the later `commodities_data[commodity]` lookups succeed |
| `Dispatcher.Dispatch` | first.py:100-135 | the reply of each `if/elif` branch for an intent and entity; requires a valid environment and an entity that is a column; no other contract, see `Dispatcher.Respond` and the reply lemmas below |
| `Dispatcher.Answer` | first.py:87-137 | the reply to a line; no contract of its own, see `Dispatcher.HandleMessage` |
| `Dispatcher.HandleMessage` | first.py:87-137 | lower-cases, tokenizes and filters the line, picks the commodity, and returns the reply and the calls that the interpretation of the line determines |
| `Dispatcher.Respond` | first.py:93-135 | the `if/elif` chain replies and makes the calls that `Dispatch` and `CallsOf` assign to the classified intent and the entity |
| `Dispatcher.NoDataIffNoCommodity` | first.py:103-131 | the "no data" reply comes exactly from a price, predict, hedge or history intent without a commodity, and then nothing is read, fitted or plotted |
| `Dispatcher.FallbackIffNoKeyword` | first.py:100-135 | an utterance gets the fallback reply exactly when its filtered words mention no keyword |
| `Dispatcher.CurrentPriceIsLastPoint` | first.py:102-105 | the current-price reply names the commodity and carries the price of its most recent week: the value of the point dated later than every other point of the series |
| `Dispatcher.HistoryIsLastTenPoints` | first.py:125-129 | the history reply holds the last `min(10, n)` points of the series in order, week after week, ending at the current price |
| `Dispatcher.PredictionCoversTenWeeks` | first.py:108-115 | the prediction reply holds ten points dated 1 to 10 weeks after the last date, carrying the model's prices in order, and advises speculating exactly when the tenth price is above the first |
| `Dispatcher.AdviceMatchesPrediction` | first.py:118-122 | the hedge-or-speculate reply is the same advice the prediction reply ends with |
| `Session.IsExit` | first.py:153 | `user_message.lower() in ["exit", "quit"]`; no contract of its own, see `Session.ExitExamples` |
| `Session.Transcript` | first.py:151-157 | the outputs of the loop over the lines typed; no contract of its own, see `Session.TranscriptStopsAtExit` and `Session.RunSession` |
| `Session.ExitExamples` | first.py:153 | `Quit`, `EXIT` and `exit` are exit lines; `exit now` and `quit!` are not |
| `Session.TranscriptStopsAtExit` | first.py:151-157 | with the first exit line at position `k`, the session prints `k` replies to the earlier lines, then the farewell, and nothing more |
| `Session.TranscriptWithoutExit` | first.py:151-157 | without an exit line, every line gets exactly one reply, in order |
| `Session.LinesAfterExitIgnored` | first.py:153-155 | lines typed after an exit line do not change the session's output |
| `Session.RunSession` | first.py:150-157 | the loop's output is the transcript; it terminates exactly when some line is an exit line; it stops reading at the first one; it calls the handler once for each earlier line and for no exit line |

## Left out

- ARIMA fitting and the forecast values (first.py:44-48) are floating-point library code, and the model order `(5, 1, 0)` is not modelled. The predicted prices are the `arima` input of `Env`, a total function that `ValidEnv` trusts to return `steps` values. In `first.py` an exception from `model.fit()` or `forecast` is not caught: `handle_message` has no `try`, and `main` catches only `KeyboardInterrupt` (first.py:150, 158), so such an exception ends the program. The model does not capture this: `Transcript` and `RunSession` answer every line up to the exit line.
- Random price generation (first.py:18) is not modelled. The generated prices are inputs to `Prices.SyntheticStore`, and the date axis is modelled.
- The pandas merge and indexing (first.py:30-34) are not modelled. `Prices.ValidStore` states the aligned axis they produce.
- The NLTK downloads, `word_tokenize` and the stop-word corpus (first.py:12-14, 89, 91) are not modelled. The tokenizer and the stop words are inputs. Only a few stop words appear in the examples.
- Plotting (first.py:53-63) is recorded only as a `PlotForecast` call.
- The help table rendering (first.py:74-84) is the constant reply `HelpTable`.
- Reply text and number formatting are not modelled: the `:.2f` prices, `date.date()`, and the greeting, fallback and advice sentences (first.py:101-135). Replies are response variants that carry the values the text would show.
- The debug and banner prints (first.py:37, 98, 147-149) are not modelled.
- The date prompt (first.py:141-146) is not modelled: its result is never used.
- `KeyboardInterrupt` handling (first.py:158-159) is not modelled, and neither is the error the end of input would raise. `RunSession` simply stops, still Running, when the lines run out.
- Case mapping and `isalnum` cover ASCII only: Python's Unicode rules for other characters are not modelled.
- Prices are Dafny reals: floating-point rounding and NaN are not modelled.
- client.py is not part of this model. It is a console loop that posts to an HTTP server, and its only logic is the exit test modelled by `Session.IsExit`.
