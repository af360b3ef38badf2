/**
  The condition evaluator: four forecast numbers (minimum and maximum
  temperature in degrees Celsius, wind speed in km/h, chance of
  precipitation in percent) are classified into one of four verdicts.
  The checks are strict comparisons against fixed thresholds, tried in a
  fixed order; the first that fires decides the verdict.
 */
module Conditions {

  import opened Wrappers

  datatype Verdict = UnfavourableTemperature | StrongWind | RainExpected | GoodWeather

  /** The four numbers of the first daily forecast entry for one point. */
  datatype Reading = Reading(minTemp: real, maxTemp: real, windSpeed: real, precipitationChance: real)

  /** The text shown to the user for each verdict. */
  function Message(v: Verdict): (text: string)
    ensures VerdictOf(text) == Some(v)
  {
    match v
    case UnfavourableTemperature => "Температура неблагоприятная!"
    case StrongWind => "Сильный ветер!"
    case RainExpected => "Ожидается дождь!"
    case GoodWeather => "Погода хорошая."
  }

  /** Reads a verdict back from its text; any other text names no verdict. */
  function VerdictOf(text: string): Option<Verdict> {
    if text == "Температура неблагоприятная!" then Some(UnfavourableTemperature)
    else if text == "Сильный ветер!" then Some(StrongWind)
    else if text == "Ожидается дождь!" then Some(RainExpected)
    else if text == "Погода хорошая." then Some(GoodWeather)
    else None
  }

  /**
    The evaluator, with the source's order of checks. Its contract states
    each verdict's region on its own, without reference to the order:
    the threshold values 0, 35, 50 and 70 themselves are never exceeded.
   */
  function Evaluate(minTemp: real, maxTemp: real, windSpeed: real, precipitationChance: real): (v: Verdict)
    ensures v == UnfavourableTemperature <==> minTemp < 0.0 || maxTemp > 35.0
    ensures v == StrongWind <==> 0.0 <= minTemp && maxTemp <= 35.0 && windSpeed > 50.0
    ensures v == RainExpected <==>
      0.0 <= minTemp && maxTemp <= 35.0 && windSpeed <= 50.0 && precipitationChance > 70.0
    ensures v == GoodWeather <==>
      0.0 <= minTemp && maxTemp <= 35.0 && windSpeed <= 50.0 && precipitationChance <= 70.0
  {
    if minTemp < 0.0 || maxTemp > 35.0 then UnfavourableTemperature
    else if windSpeed > 50.0 then StrongWind
    else if precipitationChance > 70.0 then RainExpected
    else GoodWeather
  }

  /** The evaluator applied to a reading, arguments in the source's order. */
  function Assess(r: Reading): Verdict {
    Evaluate(r.minTemp, r.maxTemp, r.windSpeed, r.precipitationChance)
  }

  // ---------------------------------------------------------------------
  // An independent reference definition: an ordered table of rules,
  // evaluated first-match-wins, with a default for when no rule fires.
  // ---------------------------------------------------------------------

  /** What a rule looks at. */
  datatype Check = TemperatureOutOfRange | WindAboveLimit | PrecipitationAboveLimit

  datatype Rule = Rule(check: Check, verdict: Verdict)

  predicate Fires(rule: Rule, r: Reading) {
    match rule.check
    case TemperatureOutOfRange => !(0.0 <= r.minTemp && r.maxTemp <= 35.0)
    case WindAboveLimit => 50.0 < r.windSpeed
    case PrecipitationAboveLimit => 70.0 < r.precipitationChance
  }

  /** The rules of the evaluator, highest priority first. */
  const PriorityRules: seq<Rule> := [
    Rule(TemperatureOutOfRange, UnfavourableTemperature),
    Rule(WindAboveLimit, StrongWind),
    Rule(PrecipitationAboveLimit, RainExpected)
  ]

  /** The verdict if none of PriorityRules fires. */
  const Default: Verdict := GoodWeather

  /** No rule of `rules` fires on `r`. */
  predicate NoneFires(rules: seq<Rule>, r: Reading) {
    forall i | 0 <= i < |rules| :: !Fires(rules[i], r)
  }

  /** Rule `i` is the first rule of `rules` that fires on `r`. */
  predicate FirstFiring(rules: seq<Rule>, r: Reading, i: int) {
    0 <= i < |rules| && Fires(rules[i], r) && NoneFires(rules[..i], r)
  }

  /** The verdict of the first rule that fires, or `otherwise` if none does. */
  function FirstMatch(rules: seq<Rule>, r: Reading, otherwise: Verdict): (v: Verdict)
    ensures NoneFires(rules, r) ==> v == otherwise
    ensures forall i | FirstFiring(rules, r, i) :: v == rules[i].verdict
    decreases |rules|
  {
    if |rules| == 0 then otherwise
    else if Fires(rules[0], r) then
      rules[0].verdict
    else
      var tail := rules[1..];
      var rest := FirstMatch(tail, r, otherwise);
      assert NoneFires(rules, r) ==> NoneFires(tail, r) by {
        if NoneFires(rules, r) {
          forall j | 0 <= j < |tail| ensures !Fires(tail[j], r) {
            assert tail[j] == rules[j + 1];
          }
        }
      }
      assert forall i | FirstFiring(rules, r, i) :: FirstFiring(tail, r, i - 1) by {
        forall i | FirstFiring(rules, r, i) ensures FirstFiring(tail, r, i - 1) {
          assert i != 0;
          assert tail[..i - 1] == rules[..i][1..];
        }
      }
      rest
  }

  /** The if-chain of the source is exactly the ordered rule table. */
  lemma EvaluateIsFirstMatch(r: Reading)
    ensures Assess(r) == FirstMatch(PriorityRules, r, Default)
  {
  }

  // ---------------------------------------------------------------------
  // Severity: the position of a verdict in the priority order.
  // ---------------------------------------------------------------------

  /** 0 for the verdict checked first, 3 for the default. */
  function Rank(v: Verdict): nat {
    match v
    case UnfavourableTemperature => 0
    case StrongWind => 1
    case RainExpected => 2
    case GoodWeather => 3
  }

  /** `b` is at least as harsh as `a` in each of the four numbers. */
  predicate Harsher(b: Reading, a: Reading) {
    b.minTemp <= a.minTemp && b.maxTemp >= a.maxTemp &&
    b.windSpeed >= a.windSpeed && b.precipitationChance >= a.precipitationChance
  }

  /** Harsher weather never yields a verdict checked later in the order. */
  lemma HarsherNeverImproves(a: Reading, b: Reading)
    requires Harsher(b, a)
    ensures Rank(Assess(b)) <= Rank(Assess(a))
  {
  }

  /** The threshold values themselves all yield good weather. */
  lemma BoundariesAreGood()
    ensures Evaluate(0.0, 35.0, 50.0, 70.0) == GoodWeather
    ensures Evaluate(-0.5, 35.0, 50.0, 70.0) == UnfavourableTemperature
    ensures Evaluate(0.0, 35.5, 50.0, 70.0) == UnfavourableTemperature
    ensures Evaluate(0.0, 35.0, 50.5, 70.0) == StrongWind
    ensures Evaluate(0.0, 35.0, 50.0, 70.5) == RainExpected
  {
  }

  /** One typical reading per verdict. */
  lemma Scenarios()
    ensures Evaluate(-5.0, 20.0, 10.0, 10.0) == UnfavourableTemperature
    ensures Evaluate(10.0, 25.0, 60.0, 10.0) == StrongWind
    ensures Evaluate(10.0, 25.0, 10.0, 80.0) == RainExpected
    ensures Evaluate(10.0, 25.0, 10.0, 10.0) == GoodWeather
  {
  }
}
