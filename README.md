# Weather route bot and forecast API: a Dafny model

This project models three small pieces of a Python project that offers a
Telegram bot and a Flask web API for multi-day weather forecasts along a
travel route:

- **Forecast reduction** (`WeatherService`, src/app/services/weather.py).
  It checks the day count, is meant to group the upstream 3-hourly samples
  into days (as written it never does), reduces each day to a summary (rounded means, maximum precipitation
  probability, date, verdict) and returns a prefix of the daily list. The
  HTTP fetch and the geocoder become an input, `Option<seq<Sample>>`.
- **Request validation** (`get_weather`, src/app/routes/api_routes.py). It
  decides between 400, 404, 500 and 200 with the forecast from the `days`
  query argument and the service's result.
- **The bot's conversation state machine** (src/bot/handlers/*.py,
  src/bot/states/states.py). A class `Conversation` holds the user's stage,
  which is `default_state` or one of the five `FSMWeatherForm` states. It has
  one method per kind of incoming message: a command, a text, or a message
  without text.

The code is modelled as written, including its defects:

- **Grouping never groups.** `_extract_daily_3hourly_forecast` tests an
  accumulator that it never fills, so it returns `[]`. It raises `IndexError`
  instead when some `dt_txt` has no whitespace-separated token, because
  `split()[-1]` is evaluated before the accumulator is tested. So the service
  returns `None` or `[]`, and the API never answers 200
  (`ApiRoutes.NeverServesForecast`).
- **The precipitation threshold is `70`.** Upstream probabilities are
  fractions in [0, 1], so this bound never decides the verdict
  (`WeatherService.PopThresholdNeverBinds`).
- **An absent `days` is an error, not a default.** The default is the int
  `5`, which has no `isdigit`, so the view raises (a 500).
- **A very long `days` is an error too.** Since Python 3.10.7, `int` refuses
  a string of more than 4300 digits, leading zeros included, by default. The
  code needs Python 3.10 or later (weather.py:13 evaluates `list | None`), so
  the model applies this limit: such a digit string passes `isdigit` and then
  `int` raises, a 500 (`ApiRoutes.TooManyDigitsIsServerError`).
- **The form does not check its input.** Any non-empty text that is not
  one of the four commands moves the form on in its four handled stages; idle
  and in `fill_additional_city` it gets `wrong_input`. No handler stores what the user typed. No handler ever enters
  `fill_additional_city`.

No handler stores a route, rejects a duplicate city or fetches a forecast
for a stop.

**Assumption about dispatch order.** src/bot/bot.py creates a `Dispatcher`
but includes no router, so the code does not fix the order in which the
routers are tried. The model assumes this order: commands, then the form
router, then the fallback. The order matters: `/cancel` is also a non-empty
text that the form router would accept (`Dispatcher.CancelIsAlsoText`).

Files: `wrappers.dfy` (Option, Result), `py_strings.dfy` (Python's
`str.split()`, `isdigit`, `int`), `weather_service.dfy`, `api_routes.dfy`,
`states.dfy`, `bot_events.dfy` (messages, reply tags, keyboard buttons),
`commands.dfy`, `weather_handlers.dfy`, `other.dfy`, and `dispatcher.dfy`
(routing order, `Conversation`, properties of whole runs).

## Model

| member | source | states |
|---|---|---|
| PyStrings.Split | src/app/services/weather.py:56 | `str.split()` yields only non-empty, whitespace-free tokens |
| PyStrings.SplitEmptyIff | src/app/services/weather.py:56 | `split()` has no token (so `[-1]` raises) exactly when `dt_txt` is empty or all whitespace |
| PyStrings.SplitKeepsNonSpace | src/app/services/weather.py:56 | `str.split()` drops only whitespace: its tokens, joined, are the string's non-whitespace characters in order |
| PyStrings.DateTimeSplit | src/app/services/weather.py:75 | a `dt_txt` of the form "date time" splits into exactly `[date, time]` |
| PyStrings.SmallValueIff | src/app/routes/api_routes.py:13 | a digit string has `int` value in 1..5 iff it is zeros followed by one digit '1'..'5' |
| WeatherService.ExtractFrom | src/app/services/weather.py:54-57 | the extraction loop from a position on: fails only with `IndexError` (missing time token); every group it could emit is non-empty with tokens |
| WeatherService.ExtractedGroups | src/app/services/weather.py:51-59 | the extraction of a whole sample list: every group it returns is non-empty with tokens, and it fails only with `IndexError` (missing time token) |
| WeatherService.ExtractDaily | src/app/services/weather.py:51-59 | the imperative loop computes exactly the as-written extraction |
| WeatherService.ExtractFromNeverAppends | src/app/services/weather.py:54-57 | with the accumulator left empty, the loop appends nothing: result is the accumulator so far, or `IndexError` if a later `dt_txt` has no token |
| WeatherService.ExtractedGroupsIsEmpty | src/app/services/weather.py:51-59 | as written the extraction returns `[]` for every input whose `dt_txt` values all have a token, and raises otherwise |
| WeatherService.Max | src/app/services/weather.py:69-71 | `max` of the probabilities is one of them and at least every one of them |
| WeatherService.MeanWithinRange | src/app/services/weather.py:63-74 | the unrounded mean lies between the minimum and the maximum of its inputs |
| WeatherService.RoundHalfEven | src/app/services/weather.py:72-74 | `round(x)` is within 1/2 of `x`, strictly unless `x` is a tie, and a tie goes to the even integer |
| WeatherService.Round1 | src/app/services/weather.py:63-68 | `round(x, 1)` is within 0.05 of `x` |
| WeatherService.WeatherVerdict | src/app/services/weather.py:79-91 | the verdict is the "good" one iff 0 ≤ temperature ≤ 35, wind ≤ 50 and probability ≤ 70, all inclusive |
| WeatherService.PopThresholdNeverBinds | src/app/services/weather.py:85-91 | for probabilities in [0, 1], the verdict depends on temperature and wind only |
| WeatherService.MakeDay | src/app/services/weather.py:61-77 | temperature and wind within 0.05 of their means, humidity within 1/2 of its mean, probability the maximum (attained by a sample), date the first token of the first `dt_txt`, verdict from the three rounded values |
| WeatherService.MakeDayWithinSampleRange | src/app/services/weather.py:63-74 | each rounded value lies within its rounding margin of the range of the samples |
| WeatherService.MakeDayDate | src/app/services/weather.py:75 | for `dt_txt` = "date time", the day's date is `date` |
| WeatherService.SummarizeGroups | src/app/services/weather.py:25-28 | one summary per group, in the same order, each the reduction of its group |
| WeatherService.DailyForecast | src/app/services/weather.py:21-29 | `None` exactly when the sample list is missing or empty; the only exception is the missing time token |
| WeatherService.GetDailyForecast | src/app/services/weather.py:21-29 | the imperative `_get_daily_5days_forecast` computes `DailyForecast` |
| WeatherService.ForecastFor | src/app/services/weather.py:13-19 | `ValueError` exactly when `days` is outside 1..5, whatever the samples; `None` exactly when the daily list is `None`; otherwise a prefix of the daily list of length min(days, its length) |
| WeatherService.ForecastForAsWritten | src/app/services/weather.py:13-29 | for a valid day count and a non-empty sample list, the result is `[]` (never `None`), or `IndexError` when some `dt_txt` has no token |
| ApiRoutes.GetWeather | src/app/routes/api_routes.py:11-20 | 400 iff `days` is given but empty, non-digit, or a convertible digit string outside 1..5; an absent `days` (the int default) or a digit string of more than 4300 digits is a 500; a valid `days` gets the answer for the service's result at `int(days)` |
| ApiRoutes.Respond | src/app/routes/api_routes.py:18-20 | 404 iff the forecast is `None` or `[]`; 500 iff the service raised; otherwise 200 with the non-empty forecast unchanged; never 400 |
| ApiRoutes.BadRequestIff | src/app/routes/api_routes.py:12-14 | 400 exactly for an empty or non-digit `days`, or a digit string of at most 4300 digits whose value is outside 1..5; accepted strings are at most 4300 characters of zeros followed by one digit '1'..'5' |
| ApiRoutes.TooManyDigitsIsServerError | src/app/routes/api_routes.py:13 | `n` zeros followed by one digit: below 4300 zeros the digit alone decides (400, or the service's answer for 1..5); from 4300 zeros on `int` raises and the answer is 500 whatever the digit |
| ApiRoutes.ValidationBeforeLookup | src/app/routes/api_routes.py:12-17 | a rejected or absent `days` gives the same answer (400 or 500) whatever the service would return |
| ApiRoutes.AcceptedDaysInRange | src/app/routes/api_routes.py:13-17 | an accepted `days` reaches the service in 1..5, so the service's `ValueError` never fires from the route |
| ApiRoutes.LeadingZerosAccepted | src/app/routes/api_routes.py:13 | "05" and "0001" pass (as 5 and 1); "", "0", "6", "10" fail |
| ApiRoutes.ResponseAfterValidation | src/app/routes/api_routes.py:16-20 | after validation: 404 iff the forecast is `None` or `[]`, 500 iff the service raised, and otherwise the forecast unchanged |
| ApiRoutes.NeverServesForecast | src/app/routes/api_routes.py:16-20 | connected to the service as written, the route never answers 200, whatever the samples |
| States.WeatherFormShape | src/bot/states/states.py:4-9 | five pairwise distinct states; `default_state` is the only stage outside the group |
| Commands.WeatherKeyboardButtons | src/bot/handlers/commands.py:30-32 | exactly five buttons "1".."5", each with its label as callback data, each a day count the web API accepts |
| BotEvents.CommandOf | src/bot/handlers/commands.py:15-40 | a message is one of the four commands only if it has text whose first whitespace-separated word is "/" followed by the command's name |
| BotEvents.CommandNameRecognised | src/bot/handlers/commands.py:15-40 | the text "/start", "/help", "/weather" or "/cancel" is recognised as that command |
| Commands.CommandsRouter | src/bot/handlers/commands.py:15-40 | the command router fires iff the message is one of the four commands, sends one reply, and moves only to `fill_forecast_range` or `default_state` |
| Dispatcher.CommandsInEveryStage | src/bot/handlers/commands.py:15-40 | in every stage, `/start` and `/help` reply and keep the stage, `/weather` sets `fill_forecast_range` with the keyboard, `/cancel` sets `default_state` |
| WeatherHandlers.WeatherRouter | src/bot/handlers/weather.py:11-37 | the form router fires iff the message has non-empty text and the stage is one of the four handled states (never when idle, in `fill_additional_city`, or on non-text); when it fires it moves to another stage, never to `fill_additional_city` |
| Dispatcher.NonCommandMessage | src/bot/handlers/weather.py:15-37 | a text in each handled stage gives that handler's reply and next stage; anything else gets the fallback and keeps the stage |
| Dispatcher.TextContentIgnored | src/bot/handlers/weather.py:15-18 | the day count is not validated, and any two non-empty texts that are not commands have the same effect: nothing of the text is stored |
| Dispatcher.ReplyCount | src/bot/handlers/weather.py:33-37 | the confirm handler sends two replies; every other turn sends one |
| Dispatcher.CancelIsAlsoText | src/bot/handlers/weather.py:21-24 | `/cancel` would also match the form router's `F.text` handler; only the assumed order makes the command win |
| Other.ProcessWrongInput | src/bot/handlers/other.py:9-11 | the fallback sends exactly one reply, `wrong_input`, and leaves the stage unchanged |
| Dispatcher.FallbackOutsideHandledStates | src/bot/handlers/other.py:9-11 | idle, in `fill_additional_city`, or without text, every non-command message gets `wrong_input` and keeps the stage |
| Dispatcher.Dispatch | src/bot/bot.py:16-18 | under the assumed order, a command message is answered by its command handler; no single message moves the conversation into `fill_additional_city`; every turn sends one or two replies |
| Dispatcher.AdditionalCityUnreachable | src/bot/states/states.py:8 | no sequence of messages starting outside `fill_additional_city` ever reaches it |
| Dispatcher.CompleteForm | src/bot/handlers/commands.py:27-34 | from any stage, `/weather` and four non-empty texts that are not commands end in `default_state` with the six replies in order |
| Dispatcher.FormFromRange | src/bot/handlers/weather.py:15-37 | from `fill_forecast_range`, four non-empty texts that are not commands end in `default_state` with the five replies in order |
| Dispatcher.FormFromDeparture | src/bot/handlers/weather.py:21-37 | from `fill_departure_city`, three non-empty texts that are not commands end in `default_state` with the four replies in order |
| Dispatcher.FormFromDestination | src/bot/handlers/weather.py:27-37 | from `fill_destination_city`, two non-empty texts that are not commands end in `default_state` with the three replies in order |
| Dispatcher.FormTexts | src/bot/handlers/weather.py:15-37 | a non-empty text that is not a command moves each of the four handled stages on to the next, with that handler's replies |
| Dispatcher.Conversation.constructor | src/bot/bot.py:13-16 | a new conversation starts in `default_state`, outside the group |
| Dispatcher.Conversation.ReceiveCommand | src/bot/handlers/commands.py:15-40 | a command message is the text "/name": its stage update and replies match the routed specification, so an unknown command is handled as a text |
| Dispatcher.Conversation.ReceiveText | src/bot/handlers/weather.py:15-37 | the stage update and replies of a text message match the routed specification |
| Dispatcher.Conversation.ReceiveNonText | src/bot/handlers/other.py:9-11 | a message without text gets `wrong_input` and changes nothing |

## Left out

- HTTP and network I/O are left out: `_get_3hourly_5days_forecast`, the geocoder, and the bot's aiohttp client (src/bot/external_services/weather_api.py). What they return is an input. A failed `raise_for_status` is not in `ForecastFor`. The route's `lookup` parameter covers it, because any exception from the service becomes a 500.
- WeatherService.MakeDay: states the rounded temperature, wind and humidity as bounds around the exact means (0.05 and 1/2). It does not state the exact rounded value. Reals are exact, so the float conversion of `mean` and of `round` is not modelled. The rounding itself is modelled as round-half-even on the exact value, which is what CPython's `round` does on a float.
- WeatherService.ExtractFrom: line 57 would append the epoch dict itself, not a list of samples. The model appends a one-sample group so that the types line up. The branch is never taken as written, so nothing observable depends on this choice.
- WeatherService.MakeDay: requires a non-empty group whose `dt_txt` values all have a token. The extraction loop guarantees this for every group it passes on. The `StatisticsError` that `mean` raises on an empty list is not modelled.
- JSON structure errors are not modelled. A missing key (`KeyError`) or a non-numeric field cannot occur, because `Sample` always has every field.
- ApiRoutes.GetWeather and ApiRoutes.BadRequestIff: `str.isdigit` is modelled for ASCII digits only. Python also accepts other Unicode digits. `int` parses some of these (for example Arabic-Indic digits) and raises on others (for example superscripts). The digit limit is CPython's default of 4300; changing it through `PYTHONINTMAXSTRDIGITS` or `sys.set_int_max_str_digits`, and interpreters older than 3.10.7, are not modelled.
- The evidently intended day grouping is not modelled. The code gives no definition of it to compare against.
- Per-user storage is not modelled: the aiogram `MemoryStorage` keyed by chat and user, and concurrent users. One `Conversation` object stands for one user's FSM context.
- Command recognition is modelled on the message text only: a text is a command when its first whitespace-separated word is "/start", "/help", "/weather" or "/cancel", so arguments after the name are allowed. A mention of the bot ("/help@botname"), other prefixes and case-insensitive matching are not modelled: such a text is handled as plain text.
- Captions are not modelled. aiogram's command filter also reads a photo's caption, so a photo captioned "/cancel" is a command; the model treats every message without text as `NonText`, which only the fallback answers.
- Callback queries (button presses) are not modelled. No handler processes them, so pressing a keyboard button changes nothing.
- Reply texts are not modelled: the Russian lexicon, keyboard rendering and the bot menu (src/bot/lexicons/ru.py, src/bot/keyboards/). Replies are tags.
- The Flask/Dash dashboard (src/app/app.py), the connectivity check (src/app/utils.py), configuration loading and process startup are not part of this model.
