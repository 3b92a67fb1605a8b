// WeatherDisplay: the observer that keeps the last measurement snapshot it
// was sent and grades it into a comfort level.

module WeatherDisplays {
  import opened Wrappers
  import opened Events

  /** getComfortLevel's six answers; the emoji decorations are not modelled. */
  datatype Comfort =
    | VeryComfortable
    | Comfortable
    | Acceptable
    | Uncomfortable
    | VeryUncomfortable
    | Unknown

  /**
   * The k-th inclusive temperature/humidity box of getComfortLevel:
   * 0 is 20..26 °C / 40..60 %, 1 is 18..28 / 30..70, 2 is 15..32 / 25..80,
   * 3 is 10..35 / 20..85.
   */
  predicate InBand(k: nat, t: real, h: real)
    requires k < 4
  {
    match k
    case 0 => 20.0 <= t <= 26.0 && 40.0 <= h <= 60.0
    case 1 => 18.0 <= t <= 28.0 && 30.0 <= h <= 70.0
    case 2 => 15.0 <= t <= 32.0 && 25.0 <= h <= 80.0
    case 3 => 10.0 <= t <= 35.0 && 20.0 <= h <= 85.0
  }

  /** Each box contains the one before it. */
  lemma BandsNest(k: nat, t: real, h: real)
    requires k < 3 && InBand(k, t, h)
    ensures InBand(k + 1, t, h)
  {
  }

  /** The comfort grade of a reading: the first band that contains it. */
  function ComfortOf(t: real, h: real): (r: Comfort)
    ensures r != Unknown
    ensures r == VeryComfortable <==> InBand(0, t, h)
    ensures r == Comfortable <==> InBand(1, t, h) && !InBand(0, t, h)
    ensures r == Acceptable <==> InBand(2, t, h) && !InBand(1, t, h)
    ensures r == Uncomfortable <==> InBand(3, t, h) && !InBand(2, t, h)
    ensures r == VeryUncomfortable <==> !InBand(3, t, h)
  {
    if InBand(0, t, h) then
      BandsNest(0, t, h);
      BandsNest(1, t, h);
      BandsNest(2, t, h);
      VeryComfortable
    else if InBand(1, t, h) then
      BandsNest(1, t, h);
      BandsNest(2, t, h);
      Comfortable
    else if InBand(2, t, h) then
      BandsNest(2, t, h);
      Acceptable
    else if InBand(3, t, h) then Uncomfortable
    else VeryUncomfortable
  }

  /** getComfortLevel over the stored snapshot: Unknown while there is none. */
  function ComfortLevel(current: Option<WeatherData>): (r: Comfort)
    ensures r == Unknown <==> current.None?
    ensures current.Some? ==> r == ComfortOf(current.value.temperature, current.value.humidity)
  {
    match current
    case None => Unknown
    case Some(w) => ComfortOf(w.temperature, w.humidity)
  }

  /**
   * What update does to the stored snapshot: only MEASUREMENTS_CHANGED with
   * a WeatherData payload replaces it; every other event only prints.
   */
  function Receive(current: Option<WeatherData>, e: Event, d: Payload): (r: Option<WeatherData>)
    ensures e != MeasurementsChanged ==> r == current
    ensures AsWeatherData(d).None? ==> r == current
    ensures e == MeasurementsChanged && AsWeatherData(d).Some? ==> r == AsWeatherData(d)
  {
    if e == MeasurementsChanged && AsWeatherData(d).Some? then AsWeatherData(d) else current
  }

  /** Once a snapshot is stored, no event clears it again. */
  lemma {:induction false} SnapshotIsNeverLost(current: Option<WeatherData>, events: seq<(Event, Payload)>)
    requires current.Some?
    ensures ReceiveAll(current, events).Some?
    decreases |events|
  {
    if events != [] {
      SnapshotIsNeverLost(current, events[..|events| - 1]);
    }
  }

  /** The snapshot after a sequence of notifications, in order. */
  function ReceiveAll(current: Option<WeatherData>, events: seq<(Event, Payload)>): Option<WeatherData> {
    if events == [] then current
    else
      var (e, d) := events[|events| - 1];
      Receive(ReceiveAll(current, events[..|events| - 1]), e, d)
  }

  class WeatherDisplay {
    const name: string
    var currentWeatherData: Option<WeatherData>

    /** A new display holds no snapshot. */
    constructor(name: string)
      ensures this.name == name
      ensures currentWeatherData.None?
    {
      this.name := name;
      currentWeatherData := None;
    }

    /** Observer.isInterestedIn is not overridden: every event is delivered. */
    predicate IsInterestedIn(e: Event)
      ensures IsInterestedIn(e)
    {
      true
    }

    /** update: stores the snapshot of a MEASUREMENTS_CHANGED notification; never throws. */
    method Update(e: Event, d: Payload)
      modifies this
      ensures currentWeatherData == Receive(old(currentWeatherData), e, d)
    {
      if e == MeasurementsChanged {
        match d {
          case Measurements(w) => currentWeatherData := Some(w);
          case Extreme(x) => currentWeatherData := Some(x.reading);
          case _ =>
        }
      }
    }

    /** getCurrentWeatherData: the last snapshot received, or null before any. */
    function GetCurrentWeatherData(): (r: Option<WeatherData>)
      reads this
      ensures r == currentWeatherData
    {
      currentWeatherData
    }

    function GetComfortLevel(): (r: Comfort)
      reads this
      ensures r == ComfortLevel(currentWeatherData)
    {
      match currentWeatherData
      case None => Unknown
      case Some(w) => ComfortOf(w.temperature, w.humidity)
    }
  }
}
