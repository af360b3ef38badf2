/**
  The forecast submission handler: it checks the four coordinate fields,
  resolves the start point and then the end point to location keys,
  fetches one daily forecast for each key, and answers with a verdict for
  each point or with a 400 error.

  The weather service is not called here. Instead `Answers` holds what the
  service answers to each request the handler may make, `None` standing for
  a failed request, and the handler returns, beside its response, the list
  of requests it makes, in order. Nothing obliges the service to answer the
  same way twice, so each request has an answer of its own.
 */
module Route {

  import opened Wrappers
  import opened Conditions

  /** The submitted form fields: latitude and longitude of both points, as entered. */
  datatype Form = Form(startLat: string, startLon: string, endLat: string, endLon: string)

  /** A request to the weather service. */
  datatype Call =
    | LocateCall(latitude: string, longitude: string)  // coordinates to location key
    | ForecastCall(locationKey: string)                // location key to daily forecast

  /** The service's answers to the start lookup, the end lookup and the two forecast requests. */
  datatype Answers = Answers(
    startKey: Option<string>,
    endKey: Option<string>,
    startData: Option<Reading>,
    endData: Option<Reading>)

  datatype Failure = MissingCoordinates | StartNotFound | EndNotFound | NoWeatherData

  datatype Response = Error(failure: Failure) | Report(start: Verdict, end: Verdict)

  /** The handler's response and the requests it made, first request first. */
  datatype Outcome = Outcome(response: Response, calls: seq<Call>)

  /** The HTTP status of a response: every error is a 400, a report the default 200. */
  function Status(response: Response): nat {
    if response.Error? then 400 else 200
  }

  /** The plain-text body of an error response. */
  function ErrorText(f: Failure): (text: string)
    ensures FailureOf(text) == Some(f)
    ensures VerdictOf(text) == None
  {
    match f
    case MissingCoordinates => "Ошибка: Укажите все координаты!"
    case StartNotFound => "Ошибка: Не удалось найти начальную точку!"
    case EndNotFound => "Ошибка: Не удалось найти конечную точку!"
    case NoWeatherData => "Ошибка: Не удалось получить данные о погоде!"
  }

  /** Reads the failure back from an error text. */
  function FailureOf(text: string): Option<Failure> {
    if text == "Ошибка: Укажите все координаты!" then Some(MissingCoordinates)
    else if text == "Ошибка: Не удалось найти начальную точку!" then Some(StartNotFound)
    else if text == "Ошибка: Не удалось найти конечную точку!" then Some(EndNotFound)
    else if text == "Ошибка: Не удалось получить данные о погоде!" then Some(NoWeatherData)
    else None
  }

  /** All four fields are non-empty, that is, all four are truthy strings. */
  predicate Filled(form: Form) {
    form.startLat != "" && form.startLon != "" && form.endLat != "" && form.endLon != ""
  }

  /** A lookup gave a truthy key: one was returned and it is not the empty string. */
  predicate Found(key: Option<string>) {
    key.Some? && key.value != ""
  }

  /**
    The requests of a submission in which every lookup succeeds: both
    location lookups, start first, then both forecasts, start first.
    Where a key is missing its forecast request is never reached, and
    the empty key stands in for it.
   */
  function Schedule(form: Form, answers: Answers): seq<Call> {
    [ LocateCall(form.startLat, form.startLon),
      LocateCall(form.endLat, form.endLon),
      ForecastCall(if answers.startKey.Some? then answers.startKey.value else ""),
      ForecastCall(if answers.endKey.Some? then answers.endKey.value else "") ]
  }

  /**
    The handler. Every run makes its requests in the order of Schedule and
    stops at the first failed check; it reports exactly when every check
    passes, and then with the evaluator's verdict on each point's reading.
   */
  function GetWeatherForecast(form: Form, answers: Answers): (o: Outcome)
    ensures o.calls <= Schedule(form, answers)
    ensures o.response.Report? <==>
      Filled(form) && Found(answers.startKey) && Found(answers.endKey) &&
      answers.startData.Some? && answers.endData.Some?
    ensures o.response.Report? ==>
      o.response.start == Assess(answers.startData.value) &&
      o.response.end == Assess(answers.endData.value)
  {
    if !Filled(form) then
      Outcome(Error(MissingCoordinates), [])
    else
      var located := [LocateCall(form.startLat, form.startLon)];
      if !Found(answers.startKey) then
        Outcome(Error(StartNotFound), located)
      else
        var bothLocated := located + [LocateCall(form.endLat, form.endLon)];
        if !Found(answers.endKey) then
          Outcome(Error(EndNotFound), bothLocated)
        else
          var fetched := bothLocated + [ForecastCall(answers.startKey.value), ForecastCall(answers.endKey.value)];
          if answers.startData.None? || answers.endData.None? then
            Outcome(Error(NoWeatherData), fetched)
          else
            Outcome(Report(Assess(answers.startData.value), Assess(answers.endData.value)), fetched)
  }

  /** An empty field is rejected before any request, and only an empty field gives that error. */
  lemma EmptyFieldMakesNoCalls(form: Form, answers: Answers)
    ensures !Filled(form) ==> GetWeatherForecast(form, answers) == Outcome(Error(MissingCoordinates), [])
    ensures GetWeatherForecast(form, answers).response == Error(MissingCoordinates) ==> !Filled(form)
    ensures GetWeatherForecast(form, answers).calls == [] <==> !Filled(form)
  {
  }

  /** A missing start key stops the handler before the end point is looked up. */
  lemma StartNotFoundSkipsEndLookup(form: Form, answers: Answers)
    requires Filled(form) && !Found(answers.startKey)
    ensures GetWeatherForecast(form, answers) ==
      Outcome(Error(StartNotFound), [LocateCall(form.startLat, form.startLon)])
  {
  }

  /** A missing end key stops the handler after both lookups and before any forecast. */
  lemma EndNotFoundSkipsForecasts(form: Form, answers: Answers)
    requires Filled(form) && Found(answers.startKey) && !Found(answers.endKey)
    ensures GetWeatherForecast(form, answers) ==
      Outcome(Error(EndNotFound), [LocateCall(form.startLat, form.startLon), LocateCall(form.endLat, form.endLon)])
  {
  }

  /**
    Once both keys are found, both forecasts are requested, start then end,
    each with its own point's key, before either answer is checked; a
    missing forecast on either side gives the weather-data error and no
    verdict, otherwise each side's verdict is the evaluator's on its reading.
   */
  lemma BothForecastsFetchedBeforeCheck(form: Form, answers: Answers)
    requires Filled(form) && Found(answers.startKey) && Found(answers.endKey)
    ensures GetWeatherForecast(form, answers).calls == [
      LocateCall(form.startLat, form.startLon), LocateCall(form.endLat, form.endLon),
      ForecastCall(answers.startKey.value), ForecastCall(answers.endKey.value)]
    ensures GetWeatherForecast(form, answers).response ==
      if answers.startData.None? || answers.endData.None? then Error(NoWeatherData)
      else Report(Assess(answers.startData.value), Assess(answers.endData.value))
  {
  }

  /** `a` and `b` give the same answer to each of the first `n` requests. */
  predicate AgreeOnFirst(a: Answers, b: Answers, n: nat) {
    (n >= 1 ==> a.startKey == b.startKey) &&
    (n >= 2 ==> a.endKey == b.endKey) &&
    (n >= 4 ==> a.startData == b.startData && a.endData == b.endData)
  }

  /**
    The outcome depends only on the answers to the requests the handler
    actually made: answers to requests it never reached change nothing.
   */
  lemma OnlyAnswersToMadeCallsMatter(form: Form, a: Answers, b: Answers)
    requires AgreeOnFirst(a, b, |GetWeatherForecast(form, a).calls|)
    ensures GetWeatherForecast(form, b) == GetWeatherForecast(form, a)
  {
  }
}
