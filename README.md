# Weather route decision logic

A small web front-end takes the coordinates of a start point and an end
point, asks a weather service for a location key for each point and then
for a one-day forecast for each key, and answers with a plain-language
verdict for each point: unfavourable temperature, strong wind, rain
expected, or good weather. This project models the two pieces of that
front-end that decide anything:

- `conditions.dfy`, module `Conditions`: the condition evaluator, a
  first-match-wins classifier over four numbers (minimum and maximum
  temperature, wind speed, chance of precipitation), together with an
  independent reference definition of it as an ordered rule table, and
  the text shown for each verdict.
- `route.dfy`, module `Route`: the forecast submission handler, with the
  weather service replaced by the answers it gives (`Answers`, one optional
  answer per request). The handler returns its response together with the
  list of requests it makes, in order, so that what it does NOT ask for can
  be stated.
- `wrappers.dfy`, module `Wrappers`: the `Option` type for a request that
  can fail.

Python truthiness is kept where the handler relies on it: an empty form
field counts as missing, and a lookup that returns the empty string as a
key counts as not found.

## Model

| member | source | states |
|---|---|---|
| Conditions.Evaluate | app.py:10-17 | Each verdict's region on its own: unfavourable temperature iff min < 0 or max > 35, whatever the wind and rain; strong wind iff temperature in range and wind > 50; rain iff temperature in range, wind <= 50 and rain chance > 70; good iff all four are within their limits, so 0, 35, 50 and 70 all count as within. |
| Conditions.Message | app.py:12-17 | The four verdict texts are distinct: each reads back to its own verdict. |
| Conditions.FirstMatch | app.py:10-17 | Ordered first-match-wins semantics: the verdict of the first rule that fires, or the default when none fires. |
| Conditions.EvaluateIsFirstMatch | app.py:10-17 | The evaluator equals the rule table temperature, then wind, then rain, with good weather as the default. |
| Conditions.HarsherNeverImproves | app.py:10-17 | Colder minimum, hotter maximum, more wind or more rain never moves the verdict later in the priority order. |
| Conditions.BoundariesAreGood | app.py:11-17 | The threshold values themselves give good weather; just past each threshold gives that threshold's verdict. |
| Conditions.Scenarios | app.py:10-17 | One typical reading for each of the four verdicts. |
| Route.GetWeatherForecast | app.py:47-98 | Requests are always a prefix of: locate start, locate end, forecast start, forecast end. The response is a report iff every field is filled, both keys are found and both forecasts arrive; the report holds the evaluator's verdict on the start reading first and on the end reading second. |
| Route.ErrorText | app.py:54-71 | The four error texts are distinct, and none of them is a verdict text. |
| Route.EmptyFieldMakesNoCalls | app.py:53-55 | An empty field gives the missing-coordinates error with no request made; that error, and an empty request list, occur only for an empty field. |
| Route.StartNotFoundSkipsEndLookup | app.py:57-60 | A missing start key gives the start-point error after the single start lookup; the end point is never looked up. |
| Route.EndNotFoundSkipsForecasts | app.py:62-64 | A missing end key gives the end-point error after both lookups; no forecast is requested. |
| Route.BothForecastsFetchedBeforeCheck | app.py:66-89 | With both keys found, both forecasts are requested, start then end, each with its own key, before either is checked; a missing forecast gives the weather-data error with no verdict, otherwise each side's verdict is the evaluator's on its reading. |
| Route.OnlyAnswersToMadeCallsMatter | app.py:57-71 | The outcome depends only on the answers to the requests actually made: answers to requests the handler never reached change nothing. |

## Left out

- HTTP: building the request URLs, the API key, sending the requests, status-code handling and JSON parsing (app.py:20-38) are I/O against an external service; each request's result is an input instead.
- When either client function catches an exception (app.py:26-27, 37-38), the source returns a rendered HTML page, which the handler then takes for a found key or for forecast data. The model answers `None` for such a failure instead, so the handler reports the lookup error; this deviates from the code on purpose.
- Web framework glue: routing, reading `request.form`, the index page, templates and starting the server (app.py:1-5, 41-43, 48-51, 101-102). A field absent from the form, as opposed to empty, makes the framework fail before the handler's checks and is not modelled.
- Extracting the four numbers from the forecast JSON (app.py:74-85): a forecast answer is a `Reading` directly, so a forecast body that is empty, lacks a field or holds a non-number (a failure in the source) is not modelled.
- The HTML page of a successful response (app.py:92-98): the model returns the two verdicts; only each verdict's text is modelled (`Conditions.Message`). The HTTP status is the helper `Route.Status`: 400 for every error, 200 for a report.
- Floating-point numbers are modelled as exact reals; NaN and infinities are not modelled. Only strict comparisons against the integer constants 0, 35, 50 and 70 occur, so no rounding is involved.
