// The notification vocabulary of the weather station (its EVENT_* constants)
// and the payloads it sends: WeatherData snapshots and ExtremeWeatherData
// alerts, the latter with the alert text built by generateAlertMessage.

module Events {
  import opened Wrappers
  import opened Sequences

  /** The strings the six EVENT_* constants hold (WeatherStation.EVENT_*). */
  const ConstantNames: set<string> := {
    "TEMPERATURE_CHANGED", "HUMIDITY_CHANGED", "PRESSURE_CHANGED",
    "WEATHER_CHANGED", "MEASUREMENTS_CHANGED", "EXTREME_WEATHER"}

  /** An event string that is none of the constants. */
  type OtherName = s: string | s !in ConstantNames witness ""

  /**
   * The six EVENT_* names; Other stands for any other (non-null) event string.
   * Java compares events with String.equals, so an Other never spells a
   * constant: one string, one event.
   */
  datatype Event =
    | TemperatureChanged
    | HumidityChanged
    | PressureChanged
    | WeatherChanged
    | MeasurementsChanged
    | ExtremeWeather
    | Other(name: OtherName)

  /** The string an event is. */
  function Name(e: Event): (r: string)
    ensures e == TemperatureChanged <==> r == "TEMPERATURE_CHANGED"
    ensures e == HumidityChanged <==> r == "HUMIDITY_CHANGED"
    ensures e == PressureChanged <==> r == "PRESSURE_CHANGED"
    ensures e == WeatherChanged <==> r == "WEATHER_CHANGED"
    ensures e == MeasurementsChanged <==> r == "MEASUREMENTS_CHANGED"
    ensures e == ExtremeWeather <==> r == "EXTREME_WEATHER"
    ensures e.Other? <==> r !in ConstantNames
    ensures e.Other? ==> r == e.name
  {
    match e
    case TemperatureChanged => "TEMPERATURE_CHANGED"
    case HumidityChanged => "HUMIDITY_CHANGED"
    case PressureChanged => "PRESSURE_CHANGED"
    case WeatherChanged => "WEATHER_CHANGED"
    case MeasurementsChanged => "MEASUREMENTS_CHANGED"
    case ExtremeWeather => "EXTREME_WEATHER"
    case Other(name) => name
  }

  /** The event a (non-null) event string denotes. */
  function EventOf(s: string): (e: Event)
    ensures Name(e) == s
  {
    if s == "TEMPERATURE_CHANGED" then TemperatureChanged
    else if s == "HUMIDITY_CHANGED" then HumidityChanged
    else if s == "PRESSURE_CHANGED" then PressureChanged
    else if s == "WEATHER_CHANGED" then WeatherChanged
    else if s == "MEASUREMENTS_CHANGED" then MeasurementsChanged
    else if s == "EXTREME_WEATHER" then ExtremeWeather
    else Other(s)
  }

  /** Reading back the string of an event gives the event. */
  lemma EventOfName(e: Event)
    ensures EventOf(Name(e)) == e
  {
  }

  /**
   * Two events are equal iff their strings are, so comparing events is
   * comparing strings with String.equals, as the observers do.
   */
  lemma NameInjective(a: Event, b: Event)
    ensures Name(a) == Name(b) <==> a == b
  {
    EventOfName(a);
    EventOfName(b);
  }

  /** Immutable snapshot of the station; the creation timestamp is not modelled. */
  datatype WeatherData = WeatherData(
    temperature: real,
    humidity: real,
    pressure: real,
    condition: string,
    location: string)

  /** A WeatherData (with empty location) that also carries the alert text. */
  datatype ExtremeWeatherData = ExtremeWeatherData(reading: WeatherData, alertMessage: string)

  /** The `Object data` argument of a notification. */
  datatype Payload =
    | Null
    | Number(value: real)
    | Text(text: string)
    | Measurements(data: WeatherData)
    | Extreme(alert: ExtremeWeatherData)

  /** `data instanceof WeatherData`: an ExtremeWeatherData is one too. */
  function AsWeatherData(p: Payload): (r: Option<WeatherData>)
    ensures r.Some? <==> p.Measurements? || p.Extreme?
    ensures p.Measurements? ==> r == Some(p.data)
    ensures p.Extreme? ==> r == Some(p.alert.reading)
  {
    match p
    case Measurements(w) => Some(w)
    case Extreme(x) => Some(x.reading)
    case _ => None
  }

  const AlertHeader: string := "EXTREME WEATHER ALERT: "

  predicate ExtremeHeat(t: real) { t > 40.0 }
  predicate ExtremeCold(t: real) { t < -20.0 }
  predicate ExtremeHumidity(h: real) { h > 95.0 }
  predicate VeryLowPressure(p: real) { p < 980.0 }
  predicate VeryHighPressure(p: real) { p > 1040.0 }

  /** The phrase a predicate contributes: itself when tripped, nothing otherwise. */
  function Phrase(tripped: bool, phrase: string): seq<string> {
    if tripped then [phrase] else []
  }

  /** The phrase of every tripped predicate, in declaration order. */
  function AlertPhrases(t: real, h: real, p: real): seq<string> {
    []
    + Phrase(ExtremeHeat(t), "Extreme Heat! ")
    + Phrase(ExtremeCold(t), "Extreme Cold! ")
    + Phrase(ExtremeHumidity(h), "Extreme Humidity! ")
    + Phrase(VeryLowPressure(p), "Very Low Pressure! ")
    + Phrase(VeryHighPressure(p), "Very High Pressure! ")
  }

  /** At most one phrase per predicate, none of them empty, and none at all exactly when no predicate trips. */
  lemma AlertPhrasesShape(t: real, h: real, p: real)
    ensures |AlertPhrases(t, h, p)| <= 5
    ensures forall i :: 0 <= i < |AlertPhrases(t, h, p)| ==> AlertPhrases(t, h, p)[i] != []
    ensures AlertPhrases(t, h, p) == [] <==>
      !(ExtremeHeat(t) || ExtremeCold(t) || ExtremeHumidity(h) || VeryLowPressure(p) || VeryHighPressure(p))
  {
  }

  /** The alert text: the fixed header followed by the tripped phrases. */
  function AlertMessage(t: real, h: real, p: real): string {
    AlertHeader + Concat(AlertPhrases(t, h, p))
  }

  /** Every alert starts with the header. */
  lemma AlertStartsWithHeader(t: real, h: real, p: real)
    ensures |AlertHeader| <= |AlertMessage(t, h, p)|
    ensures AlertMessage(t, h, p)[..|AlertHeader|] == AlertHeader
  {
  }

  /** generateAlertMessage: appends one phrase per tripped predicate to the header. */
  method GenerateAlertMessage(t: real, h: real, p: real) returns (alert: string)
    ensures alert == AlertMessage(t, h, p)
  {
    ghost var phrases: seq<string> := [];
    alert := AlertHeader;
    assert Concat(phrases) == [];
    alert, phrases := AppendIf(alert, phrases, ExtremeHeat(t), "Extreme Heat! ");
    alert, phrases := AppendIf(alert, phrases, ExtremeCold(t), "Extreme Cold! ");
    alert, phrases := AppendIf(alert, phrases, ExtremeHumidity(h), "Extreme Humidity! ");
    alert, phrases := AppendIf(alert, phrases, VeryLowPressure(p), "Very Low Pressure! ");
    alert, phrases := AppendIf(alert, phrases, VeryHighPressure(p), "Very High Pressure! ");
    assert alert == AlertHeader + Concat(phrases);
    assert phrases == AlertPhrases(t, h, p);
  }

  /** One `if (...) alert.append(phrase)` step of the builder. */
  method AppendIf(alert: string, ghost phrases: seq<string>, tripped: bool, phrase: string)
    returns (alert': string, ghost phrases': seq<string>)
    requires alert == AlertHeader + Concat(phrases)
    ensures alert' == (if tripped then alert + phrase else alert)
    ensures phrases' == phrases + Phrase(tripped, phrase)
    ensures alert' == AlertHeader + Concat(phrases')
  {
    phrases' := phrases + Phrase(tripped, phrase);
    ConcatAppend(phrases, Phrase(tripped, phrase));
    ConcatSnoc([], phrase);
    alert' := alert;
    if tripped {
      alert' := alert' + phrase;
    }
  }

  /** new ExtremeWeatherData(t, h, p, condition): location "" and the generated alert. */
  function NewExtremeWeatherData(t: real, h: real, p: real, condition: string): ExtremeWeatherData {
    ExtremeWeatherData(WeatherData(t, h, p, condition, ""), AlertMessage(t, h, p))
  }

  /**
   * A hot reading at low pressure and humidity at most 95 (such as 45/95/970)
   * raises exactly the heat and low-pressure phrases, in that order.
   */
  lemma {:induction false} AlertForHeatAndLowPressure(t: real, h: real, p: real)
    requires ExtremeHeat(t) && !ExtremeHumidity(h) && VeryLowPressure(p)
    ensures AlertMessage(t, h, p) == AlertHeader + "Extreme Heat! " + "Very Low Pressure! "
  {
    var heat, low := Phrase(true, "Extreme Heat! "), Phrase(true, "Very Low Pressure! ");
    var phrases := AlertPhrases(t, h, p);
    assert phrases == heat + low;
    ConcatAppend(heat, low);
    assert Concat(phrases) == "Extreme Heat! " + "Very Low Pressure! ";
  }
}
