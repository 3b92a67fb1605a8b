// ForecastDisplay: the observer that tracks the last two pressures it was
// sent and derives a forecast text, a pressure trend and a confidence level.

module ForecastDisplays {
  import opened Wrappers
  import opened Exceptions
  import opened Sequences
  import opened Events

  const StandardPressure: real := 1013.25
  const InitialForecast: string := "More of the same"

  /** The events the constructor puts in interestedEvents. */
  predicate IsInterestedIn(e: Event)
    ensures IsInterestedIn(e) <==>
      Name(e) in {"MEASUREMENTS_CHANGED", "PRESSURE_CHANGED", "EXTREME_WEATHER"}
  {
    e in {MeasurementsChanged, PressureChanged, ExtremeWeather}
  }

  /** The time frame generateForecast appends to every forecast. */
  const Horizon: string := " over the next 6-12 hours"

  /** The rules of generateForecast, in the order it tries them. */
  datatype ForecastRule =
    | ImprovingClear | ImprovingCloudy | DeterioratingStorms | DeterioratingRain
    | ClearAndDry | Unsettled | HotAndHumid | ColdAndDamp | MoreOfTheSame

  /**
   * The rule generateForecast picks: the pressure change decides first, then
   * the current pressure, temperature and humidity, first match winning. Each
   * rule holds exactly on its own region.
   */
  function RuleOf(current: real, last: real, w: WeatherData): (r: ForecastRule)
    ensures var change, t, h := current - last, w.temperature, w.humidity;
      && (r == ImprovingClear <==> change > 2.0 && current > 1020.0)
      && (r == ImprovingCloudy <==> change > 2.0 && current <= 1020.0)
      && (r == DeterioratingStorms <==> change < -2.0 && current < 1000.0)
      && (r == DeterioratingRain <==> change < -2.0 && current >= 1000.0)
      && (r == ClearAndDry <==> -2.0 <= change <= 2.0 && current > 1020.0 && h < 50.0)
      && (r == Unsettled <==> -2.0 <= change <= 2.0 && current < 1000.0 && h > 80.0)
      && (r == HotAndHumid <==>
            -2.0 <= change <= 2.0 && !(current > 1020.0 && h < 50.0) && !(current < 1000.0 && h > 80.0)
            && t > 30.0 && h > 70.0)
      && (r == ColdAndDamp <==>
            -2.0 <= change <= 2.0 && !(current > 1020.0 && h < 50.0) && !(current < 1000.0 && h > 80.0)
            && !(t > 30.0 && h > 70.0) && t < 5.0 && h > 80.0)
      && (r == MoreOfTheSame <==>
            -2.0 <= change <= 2.0 && !(current > 1020.0 && h < 50.0) && !(current < 1000.0 && h > 80.0)
            && !(t > 30.0 && h > 70.0) && !(t < 5.0 && h > 80.0))
  {
    var change := current - last;
    if change > 2.0 then
      if current > 1020.0 then ImprovingClear else ImprovingCloudy
    else if change < -2.0 then
      if current < 1000.0 then DeterioratingStorms else DeterioratingRain
    else if current > 1020.0 && w.humidity < 50.0 then ClearAndDry
    else if current < 1000.0 && w.humidity > 80.0 then Unsettled
    else if w.temperature > 30.0 && w.humidity > 70.0 then HotAndHumid
    else if w.temperature < 5.0 && w.humidity > 80.0 then ColdAndDamp
    else MoreOfTheSame
  }

  /** The text each rule appends. */
  function RuleText(rule: ForecastRule): string {
    match rule
    case ImprovingClear => "Improving weather ahead - " + "expect sunny and clear conditions"
    case ImprovingCloudy => "Improving weather ahead - " + "expect partly cloudy skies"
    case DeterioratingStorms => "Deteriorating weather - " + "storms likely"
    case DeterioratingRain => "Deteriorating weather - " + "expect clouds and possible rain"
    case ClearAndDry => "Continued clear and dry weather"
    case Unsettled => "Continued " + "unsettled weather with possible precipitation"
    case HotAndHumid => "Hot and humid - possible thunderstorms"
    case ColdAndDamp => "Cold and damp - possible frost or snow"
    case MoreOfTheSame => "More of the same weather conditions"
  }

  /** Each rule's text has its own length or its own first letter: 1000 * length + first letter. */
  function Signature(rule: ForecastRule): int {
    match rule
    case ImprovingClear => 59073
    case ImprovingCloudy => 52073
    case DeterioratingStorms => 37068
    case DeterioratingRain => 55068
    case ClearAndDry => 31067
    case Unsettled => 55067
    case HotAndHumid => 38072
    case ColdAndDamp => 38067
    case MoreOfTheSame => 35077
  }

  lemma RuleTextSignature(rule: ForecastRule)
    ensures |RuleText(rule)| > 0 && Signature(rule) == 1000 * |RuleText(rule)| + RuleText(rule)[0] as int
  {
    var text := RuleText(rule);
    match rule
    case ImprovingClear => assert |text| == 59 && text[0] == 'I';
    case ImprovingCloudy => assert |text| == 52 && text[0] == 'I';
    case DeterioratingStorms => assert |text| == 37 && text[0] == 'D';
    case DeterioratingRain => assert |text| == 55 && text[0] == 'D';
    case ClearAndDry => assert |text| == 31 && text[0] == 'C';
    case Unsettled => assert |text| == 55 && text[0] == 'C';
    case HotAndHumid => assert |text| == 38 && text[0] == 'H';
    case ColdAndDamp => assert |text| == 38 && text[0] == 'C';
    case MoreOfTheSame => assert |text| == 35 && text[0] == 'M';
  }

  /** No two rules write the same text, so the text tells which rule fired. */
  lemma RuleTextInjective(a: ForecastRule, b: ForecastRule)
    ensures RuleText(a) == RuleText(b) <==> a == b
  {
    RuleTextSignature(a);
    RuleTextSignature(b);
    assert Signature(a) == Signature(b) ==> a == b;
  }

  /** The body of a forecast: the text of the rule that fires. */
  function ForecastBody(current: real, last: real, w: WeatherData): string {
    RuleText(RuleOf(current, last, w))
  }

  /** A forecast text is produced exactly when the conditions of its rule hold. */
  lemma ForecastBodyRegions(current: real, last: real, w: WeatherData, rule: ForecastRule)
    ensures ForecastBody(current, last, w) == RuleText(rule) <==> RuleOf(current, last, w) == rule
  {
    RuleTextInjective(RuleOf(current, last, w), rule);
  }

  /** generateForecast: the body followed by the forecast's time frame. */
  function GenerateForecast(current: real, last: real, w: WeatherData): (r: string)
    ensures |Horizon| < |r| && r[|r| - |Horizon|..] == Horizon
    ensures r[..|r| - |Horizon|] == ForecastBody(current, last, w)
  {
    var body := ForecastBody(current, last, w);
    assert (body + Horizon)[..|body|] == body;
    body + Horizon
  }

  /** A rise of more than 2 hPa always forecasts improving weather, and a fall of more than 2 hPa deteriorating weather. */
  lemma ForecastFollowsPressure(current: real, last: real, w: WeatherData)
    ensures current - last > 2.0 ==>
      ForecastBody(current, last, w)[..26] == "Improving weather ahead - "
    ensures current - last < -2.0 ==>
      ForecastBody(current, last, w)[..24] == "Deteriorating weather - "
  {
    var body := ForecastBody(current, last, w);
    if current - last > 2.0 {
      var tail := if current > 1020.0 then "expect sunny and clear conditions" else "expect partly cloudy skies";
      assert body == "Improving weather ahead - " + tail;
      assert body[..26] == ("Improving weather ahead - " + tail)[..26];
    } else if current - last < -2.0 {
      var tail := if current < 1000.0 then "storms likely" else "expect clouds and possible rain";
      assert body == "Deteriorating weather - " + tail;
      assert body[..24] == ("Deteriorating weather - " + tail)[..24];
    }
  }

  /** getPressureTrend's five answers. */
  datatype PressureTrend = RisingRapidly | Rising | FallingRapidly | Falling | Steady

  /** getPressureTrend: the change falls in exactly one of five bands cut at ±2.0 and ±0.5. */
  function PressureTrendOf(change: real): (r: PressureTrend)
    ensures r == RisingRapidly <==> change > 2.0
    ensures r == Rising <==> 0.5 < change <= 2.0
    ensures r == FallingRapidly <==> change < -2.0
    ensures r == Falling <==> -2.0 <= change < -0.5
    ensures r == Steady <==> -0.5 <= change <= 0.5
  {
    if change > 2.0 then RisingRapidly
    else if change > 0.5 then Rising
    else if change < -2.0 then FallingRapidly
    else if change < -0.5 then Falling
    else Steady
  }

  /** getConfidenceLevel's four answers, lowest first. */
  datatype Confidence = Low | Medium | High | VeryHigh

  function Rank(c: Confidence): nat {
    match c
    case Low => 0
    case Medium => 1
    case High => 2
    case VeryHigh => 3
  }

  /** getConfidenceLevel: graded on the magnitude of the change alone. */
  function ConfidenceOf(change: real): (r: Confidence)
    ensures r == VeryHigh <==> Abs(change) > 5.0
    ensures r == High <==> 2.0 < Abs(change) <= 5.0
    ensures r == Medium <==> 0.5 < Abs(change) <= 2.0
    ensures r == Low <==> Abs(change) <= 0.5
  {
    var magnitude := Abs(change);
    if magnitude > 5.0 then VeryHigh
    else if magnitude > 2.0 then High
    else if magnitude > 0.5 then Medium
    else Low
  }

  /** A larger change never gives a lower confidence. */
  lemma ConfidenceMonotone(a: real, b: real)
    requires Abs(a) <= Abs(b)
    ensures Rank(ConfidenceOf(a)) <= Rank(ConfidenceOf(b))
  {
  }

  /** A rise and a fall of the same size are equally certain. */
  lemma ConfidenceSymmetric(change: real)
    ensures ConfidenceOf(-change) == ConfidenceOf(change)
  {
  }

  /** The display's state: the last two pressures and the current forecast. */
  datatype Forecast = Forecast(currentPressure: real, lastPressure: real, currentForecast: string)

  const Initial: Forecast := Forecast(StandardPressure, StandardPressure, InitialForecast)

  /** getPressureChange. */
  function PressureChange(s: Forecast): real {
    s.currentPressure - s.lastPressure
  }

  /** updateForecast: shift the pressures, then forecast from the snapshot. */
  function UpdateForecast(s: Forecast, w: WeatherData): (r: Forecast)
    ensures r.lastPressure == s.currentPressure && r.currentPressure == w.pressure
    ensures r.currentForecast == GenerateForecast(w.pressure, s.currentPressure, w)
  {
    Forecast(w.pressure, s.currentPressure, GenerateForecast(w.pressure, s.currentPressure, w))
  }

  /**
   * updatePressureForecast: shift the pressures; a change beyond ±2 sets an
   * improving or deteriorating forecast, one under 0.5 in size a stable one,
   * and anything in between keeps the previous forecast.
   */
  function UpdatePressureForecast(s: Forecast, p: real): (r: Forecast)
    ensures r.lastPressure == s.currentPressure && r.currentPressure == p
    ensures PressureChange(r) > 2.0 ==> r.currentForecast == "Weather improving - expect clearer skies"
    ensures PressureChange(r) < -2.0 ==> r.currentForecast == "Weather deteriorating - expect storms"
    ensures Abs(PressureChange(r)) < 0.5 ==> r.currentForecast == "Weather conditions stable"
    ensures 0.5 <= Abs(PressureChange(r)) <= 2.0 ==> r.currentForecast == s.currentForecast
  {
    var change := p - s.currentPressure;
    var forecast :=
      if change > 2.0 then "Weather improving - expect clearer skies"
      else if change < -2.0 then "Weather deteriorating - expect storms"
      else if Abs(change) < 0.5 then "Weather conditions stable"
      else s.currentForecast;
    Forecast(p, s.currentPressure, forecast)
  }

  /**
   * The exception update throws, if any. PRESSURE_CHANGED casts its payload
   * to Float: null fails to unbox and any other payload fails the cast.
   */
  function UpdateError(e: Event, d: Payload): (r: Option<Exception>)
    ensures r.Some? <==> e == PressureChanged && !d.Number?
    ensures r.Some? ==> r.value == (if d.Null? then NullPointer else ClassCast)
  {
    if e == PressureChanged && !d.Number? then Some(if d.Null? then NullPointer else ClassCast) else None
  }

  /**
   * What update does to the state: a failing cast changes nothing, and
   * EXTREME_WEATHER and the events the display is not interested in only print.
   */
  function Receive(s: Forecast, e: Event, d: Payload): (r: Result<Forecast, Exception>)
    ensures r.Failure? <==> UpdateError(e, d).Some?
    ensures r.Failure? ==> r.error == UpdateError(e, d).value
    ensures e == PressureChanged && d.Number? ==> r == Success(UpdatePressureForecast(s, d.value))
    ensures e == MeasurementsChanged && AsWeatherData(d).Some? ==>
      r == Success(UpdateForecast(s, AsWeatherData(d).value))
    ensures e != PressureChanged && !(e == MeasurementsChanged && AsWeatherData(d).Some?) ==>
      r == Success(s)
  {
    match e
    case MeasurementsChanged =>
      (match AsWeatherData(d)
       case Some(w) => Success(UpdateForecast(s, w))
       case None => Success(s))
    case PressureChanged =>
      (match d
       case Number(p) => Success(UpdatePressureForecast(s, p))
       case Null => Failure(NullPointer)
       case _ => Failure(ClassCast))
    case _ => Success(s)
  }

  /**
   * The station sends PRESSURE_CHANGED(p) and then MEASUREMENTS_CHANGED with
   * the same pressure, so the second shift leaves no pressure change.
   */
  lemma {:induction false} PressureEventThenMeasurements(s: Forecast, w: WeatherData)
    ensures Receive(s, PressureChanged, Number(w.pressure)).Success?
    ensures PressureChange(Receive(Receive(s, PressureChanged, Number(w.pressure)).value,
                                   MeasurementsChanged, Measurements(w)).value) == 0.0
  {
    var mid := UpdatePressureForecast(s, w.pressure);
    assert Receive(s, PressureChanged, Number(w.pressure)) == Success(mid);
    var last := UpdateForecast(mid, w);
    assert last.lastPressure == w.pressure == last.currentPressure;
  }

  class ForecastDisplay {
    const name: string
    var currentPressure: real
    var lastPressure: real
    var currentForecast: string

    function State(): Forecast
      reads this
    {
      Forecast(currentPressure, lastPressure, currentForecast)
    }

    /** A new display assumes standard pressure and "More of the same". */
    constructor(name: string)
      ensures this.name == name
      ensures State() == Initial
    {
      this.name := name;
      currentPressure := StandardPressure;
      lastPressure := StandardPressure;
      currentForecast := InitialForecast;
    }

    /** update: the state moves as Receive says, or the exception of a bad PRESSURE_CHANGED payload is thrown. */
    method Update(e: Event, d: Payload) returns (outcome: Outcome<Exception>)
      modifies this
      ensures Receive(old(State()), e, d).Success? ==>
        outcome == Pass && State() == Receive(old(State()), e, d).value
      ensures Receive(old(State()), e, d).Failure? ==>
        outcome == Fail(Receive(old(State()), e, d).error) && State() == old(State())
    {
      outcome := Pass;
      match e {
        case MeasurementsChanged =>
          match AsWeatherData(d) {
            case Some(w) =>
              lastPressure := currentPressure;
              currentPressure := w.pressure;
              currentForecast := GenerateForecast(currentPressure, lastPressure, w);
            case None =>
          }
        case PressureChanged =>
          match d {
            case Number(p) => UpdatePressureForecastInPlace(p);
            case Null => outcome := Fail(NullPointer);
            case _ => outcome := Fail(ClassCast);
          }
        case _ =>
      }
    }

    /** updatePressureForecast on the fields. */
    method UpdatePressureForecastInPlace(p: real)
      modifies this
      ensures State() == UpdatePressureForecast(old(State()), p)
    {
      lastPressure := currentPressure;
      currentPressure := p;
      var change := currentPressure - lastPressure;
      if change > 2.0 {
        currentForecast := "Weather improving - expect clearer skies";
      } else if change < -2.0 {
        currentForecast := "Weather deteriorating - expect storms";
      } else if Abs(change) < 0.5 {
        currentForecast := "Weather conditions stable";
      }
    }

    /** getCurrentForecast: the forecast text held now. */
    function GetCurrentForecast(): (r: string)
      reads this
      ensures r == State().currentForecast
    {
      currentForecast
    }

    /** getPressureChange: the difference of the last two pressures. */
    function GetPressureChange(): (r: real)
      reads this
      ensures r == PressureChange(State())
    {
      currentPressure - lastPressure
    }
  }
}
