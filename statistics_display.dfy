// StatisticsDisplay: the observer that records every measurement snapshot,
// keeps running minima and maxima per quantity, and reports averages, a
// windowed trend and a summary.

module StatisticsDisplays {
  import opened Sequences
  import opened Events

  /** Float.MIN_VALUE, 2^-149: the smallest positive float, the initial maximum. */
  const FloatMinValue: real := 1.0 / 713623846352979940529142984724747568191373312.0

  /** Float.MAX_VALUE, (2 - 2^-23) * 2^127: the initial minimum. */
  const FloatMaxValue: real := 340282346638528859811704183484516925440.0

  /** One measured quantity: its history and its running maximum and minimum. */
  datatype Series = Series(history: seq<real>, max: real, min: real)

  const EmptySeries: Series := Series([], FloatMinValue, FloatMaxValue)

  /** The maximum of the seed and the values, taken left to right with `>`. */
  function MaxFrom(seed: real, xs: seq<real>): real {
    if xs == [] then seed
    else
      var m := MaxFrom(seed, xs[..|xs| - 1]);
      if xs[|xs| - 1] > m then xs[|xs| - 1] else m
  }

  /** The minimum of the seed and the values, taken left to right with `<`. */
  function MinFrom(seed: real, xs: seq<real>): real {
    if xs == [] then seed
    else
      var m := MinFrom(seed, xs[..|xs| - 1]);
      if xs[|xs| - 1] < m then xs[|xs| - 1] else m
  }

  /** The running maximum bounds the seed and every value and is one of them. */
  lemma {:induction false} MaxFromBounds(seed: real, xs: seq<real>)
    ensures seed <= MaxFrom(seed, xs)
    ensures forall i :: 0 <= i < |xs| ==> xs[i] <= MaxFrom(seed, xs)
    ensures MaxFrom(seed, xs) == seed || MaxFrom(seed, xs) in xs
  {
    if xs != [] {
      var init := xs[..|xs| - 1];
      MaxFromBounds(seed, init);
      assert forall i :: 0 <= i < |init| ==> xs[i] == init[i];
    }
  }

  /** The running minimum is below the seed and every value and is one of them. */
  lemma {:induction false} MinFromBounds(seed: real, xs: seq<real>)
    ensures MinFrom(seed, xs) <= seed
    ensures forall i :: 0 <= i < |xs| ==> MinFrom(seed, xs) <= xs[i]
    ensures MinFrom(seed, xs) == seed || MinFrom(seed, xs) in xs
  {
    if xs != [] {
      var init := xs[..|xs| - 1];
      MinFromBounds(seed, init);
      assert forall i :: 0 <= i < |init| ==> xs[i] == init[i];
    }
  }

  /**
   * Because the maximum starts at the positive Float.MIN_VALUE, a history of
   * readings that are all zero or below leaves the maximum at that sentinel:
   * it is then above every reading and equal to none of them.
   */
  lemma {:induction false} MaxStaysAtSentinel(xs: seq<real>)
    requires forall i :: 0 <= i < |xs| ==> xs[i] <= 0.0
    ensures MaxFrom(FloatMinValue, xs) == FloatMinValue
    ensures FloatMinValue !in xs
  {
    if xs != [] {
      MaxStaysAtSentinel(xs[..|xs| - 1]);
      assert xs[|xs| - 1] <= 0.0;
    }
  }

  /** The series' extremes are the running extremes of its history, from the sentinels. */
  predicate Tracks(s: Series) {
    s.max == MaxFrom(FloatMinValue, s.history) && s.min == MinFrom(FloatMaxValue, s.history)
  }

  /** Add one reading: append it and raise the maximum or lower the minimum past it. */
  function Record(s: Series, x: real): (r: Series)
    ensures r.history == s.history + [x]
    ensures Tracks(s) ==> Tracks(r)
  {
    var r := Series(s.history + [x], if x > s.max then x else s.max, if x < s.min then x else s.min);
    assert r.history[..|r.history| - 1] == s.history;
    r
  }

  /** A tracked series' range encloses every recorded reading. */
  lemma SeriesRangeEnclosesHistory(s: Series)
    requires Tracks(s)
    ensures forall i :: 0 <= i < |s.history| ==> s.min <= s.history[i] <= s.max
  {
    MaxFromBounds(FloatMinValue, s.history);
    MinFromBounds(FloatMaxValue, s.history);
  }

  /** The arithmetic mean, or 0 for no readings. */
  function Average(xs: seq<real>): (r: real)
    ensures xs == [] ==> r == 0.0
    ensures xs != [] ==> r * |xs| as real == Sum(xs)
  {
    if xs == [] then 0.0 else Sum(xs) / |xs| as real
  }

  /** The average lies within the series' range once there is a reading. */
  lemma AverageWithinRange(s: Series)
    requires Tracks(s) && s.history != []
    ensures s.min <= Average(s.history) <= s.max
  {
    SeriesRangeEnclosesHistory(s);
    SumBounds(s.history, s.min, s.max);
    var n := |s.history| as real;
    assert n * s.min <= Sum(s.history) <= n * s.max;
  }

  /** The display's state: one series per quantity and the reading count. */
  datatype Stats = Stats(temperature: Series, humidity: Series, pressure: Series, updateCount: int)

  const Initial: Stats := Stats(EmptySeries, EmptySeries, EmptySeries, 0)

  /** Every series is tracked and all three histories are as long as the count. */
  predicate Valid(st: Stats) {
    && Tracks(st.temperature) && Tracks(st.humidity) && Tracks(st.pressure)
    && st.updateCount == |st.temperature.history|
    && st.updateCount == |st.humidity.history|
    && st.updateCount == |st.pressure.history|
  }

  /** updateStatistics: count the reading and record each of its three values. */
  function UpdateStatistics(st: Stats, w: WeatherData): (r: Stats)
    ensures r.updateCount == st.updateCount + 1
    ensures r.temperature.history == st.temperature.history + [w.temperature]
    ensures r.humidity.history == st.humidity.history + [w.humidity]
    ensures r.pressure.history == st.pressure.history + [w.pressure]
    ensures Valid(st) ==> Valid(r)
  {
    Stats(Record(st.temperature, w.temperature), Record(st.humidity, w.humidity),
          Record(st.pressure, w.pressure), st.updateCount + 1)
  }

  /** Only MEASUREMENTS_CHANGED is of interest. */
  predicate IsInterestedIn(e: Event)
    ensures IsInterestedIn(e) <==> Name(e) == "MEASUREMENTS_CHANGED"
  {
    e == MeasurementsChanged
  }

  /** What update does: record a WeatherData sent with MEASUREMENTS_CHANGED, ignore everything else. */
  function Receive(st: Stats, e: Event, d: Payload): (r: Stats)
    ensures !IsInterestedIn(e) || AsWeatherData(d).None? ==> r == st
    ensures IsInterestedIn(e) && AsWeatherData(d).Some? ==> r == UpdateStatistics(st, AsWeatherData(d).value)
    ensures Valid(st) ==> Valid(r)
  {
    if IsInterestedIn(e) && AsWeatherData(d).Some? then UpdateStatistics(st, AsWeatherData(d).value) else st
  }

  /** getTrend's answers; the difference is recent average minus previous average. */
  datatype Trend = InsufficientData | Stable | Rising(difference: real) | Falling(difference: real)

  /** The size of the recent window: the last five points, or all of them. */
  function RecentCount(n: nat): nat {
    Min(5, n)
  }

  /** The size of the window before it: as many points as remain, at most the recent count. */
  function PreviousCount(n: nat): (r: nat)
    ensures r + RecentCount(n) <= n
  {
    Min(RecentCount(n), n - RecentCount(n))
  }

  /**
   * getTrend: the recent window's average against the previous window's, with
   * a dead band of 0.1. Both windows lie inside the data, and with at most
   * five points the previous window is empty, so the answer is Stable.
   */
  function TrendOf(data: seq<real>): (r: Trend)
    ensures r == InsufficientData <==> |data| < 2
    ensures 2 <= |data| <= 5 ==> r == Stable
    ensures r.Rising? ==> r.difference >= 0.1
    ensures r.Falling? ==> r.difference <= -0.1
  {
    var n := |data|;
    if n < 2 then InsufficientData
    else
      var recent, previous := RecentCount(n), PreviousCount(n);
      if previous == 0 then Stable
      else
        var difference := Average(data[n - recent..]) - Average(data[n - recent - previous..n - recent]);
        if Abs(difference) < 0.1 then Stable
        else if difference > 0.0 then Rising(difference)
        else Falling(difference)
  }

  /** A constant series never trends. */
  lemma TrendOfConstant(data: seq<real>, c: real)
    requires forall i :: 0 <= i < |data| ==> data[i] == c
    ensures TrendOf(data) == InsufficientData || TrendOf(data) == Stable
  {
    var n := |data|;
    if n >= 2 && PreviousCount(n) > 0 {
      var recent, previous := RecentCount(n), PreviousCount(n);
      var a, b := data[n - recent..], data[n - recent - previous..n - recent];
      AverageOfConstant(a, c);
      AverageOfConstant(b, c);
    }
  }

  lemma AverageOfConstant(xs: seq<real>, c: real)
    requires xs != [] && forall i :: 0 <= i < |xs| ==> xs[i] == c
    ensures Average(xs) == c
  {
    SumBounds(xs, c, c);
    assert Sum(xs) == |xs| as real * c;
  }

  /** getTrend, with its two accumulating loops over the windows. */
  method GetTrend(data: seq<real>) returns (r: Trend)
    ensures r == TrendOf(data)
  {
    var size := |data|;
    if size < 2 {
      return InsufficientData;
    }
    var recentCount := Min(5, size);
    var recentAvg := 0.0;
    var i := size - recentCount;
    while i < size
      invariant size - recentCount <= i <= size
      invariant recentAvg == Sum(data[size - recentCount..i])
    {
      SumExtend(data, size - recentCount, i);
      recentAvg := recentAvg + data[i];
      i := i + 1;
    }
    assert data[size - recentCount..size] == data[size - recentCount..];
    recentAvg := recentAvg / recentCount as real;
    var previousCount := Min(recentCount, size - recentCount);
    if previousCount > 0 {
      var previousAvg := 0.0;
      i := size - recentCount - previousCount;
      while i < size - recentCount
        invariant size - recentCount - previousCount <= i <= size - recentCount
        invariant previousAvg == Sum(data[size - recentCount - previousCount..i])
      {
        SumExtend(data, size - recentCount - previousCount, i);
        previousAvg := previousAvg + data[i];
        i := i + 1;
      }
      previousAvg := previousAvg / previousCount as real;
      var difference := recentAvg - previousAvg;
      if Abs(difference) < 0.1 {
        return Stable;
      } else if difference > 0.0 {
        return Rising(difference);
      } else {
        return Falling(difference);
      }
    }
    return Stable;
  }

  /** A range reported by the summary: minimum, then maximum. */
  datatype Range = Range(low: real, high: real)

  /** getStatisticsSummary; the %.1f rendering of the numbers is not modelled. */
  datatype Summary =
    | NoDataCollected
    | Summary(readings: int, temperature: Range, humidity: Range, pressure: Range)

  function SummaryOf(st: Stats): (r: Summary)
    ensures r == NoDataCollected <==> st.updateCount == 0
    ensures r.Summary? ==> r.readings == st.updateCount
    ensures r.Summary? ==> r.temperature == Range(st.temperature.min, st.temperature.max)
    ensures r.Summary? ==> r.humidity == Range(st.humidity.min, st.humidity.max)
    ensures r.Summary? ==> r.pressure == Range(st.pressure.min, st.pressure.max)
  {
    if st.updateCount == 0 then NoDataCollected
    else Summary(st.updateCount,
                 Range(st.temperature.min, st.temperature.max),
                 Range(st.humidity.min, st.humidity.max),
                 Range(st.pressure.min, st.pressure.max))
  }

  /** With readings recorded, each reported range encloses every reading of its quantity. */
  lemma SummaryEnclosesReadings(st: Stats)
    requires Valid(st) && st.updateCount > 0
    ensures SummaryOf(st).Summary?
    ensures forall i :: 0 <= i < |st.temperature.history| ==>
      SummaryOf(st).temperature.low <= st.temperature.history[i] <= SummaryOf(st).temperature.high
    ensures forall i :: 0 <= i < |st.humidity.history| ==>
      SummaryOf(st).humidity.low <= st.humidity.history[i] <= SummaryOf(st).humidity.high
    ensures forall i :: 0 <= i < |st.pressure.history| ==>
      SummaryOf(st).pressure.low <= st.pressure.history[i] <= SummaryOf(st).pressure.high
  {
    SeriesRangeEnclosesHistory(st.temperature);
    SeriesRangeEnclosesHistory(st.humidity);
    SeriesRangeEnclosesHistory(st.pressure);
  }

  class StatisticsDisplay {
    const name: string
    var temperatureHistory: seq<real>
    var humidityHistory: seq<real>
    var pressureHistory: seq<real>
    var maxTemperature: real
    var minTemperature: real
    var maxHumidity: real
    var minHumidity: real
    var maxPressure: real
    var minPressure: real
    var updateCount: int

    function State(): Stats
      reads this
    {
      Stats(Series(temperatureHistory, maxTemperature, minTemperature),
            Series(humidityHistory, maxHumidity, minHumidity),
            Series(pressureHistory, maxPressure, minPressure),
            updateCount)
    }

    /** A new display has empty histories, count 0 and the sentinel extremes. */
    constructor(name: string)
      ensures this.name == name
      ensures State() == Initial
    {
      this.name := name;
      temperatureHistory, humidityHistory, pressureHistory := [], [], [];
      maxTemperature, minTemperature := FloatMinValue, FloatMaxValue;
      maxHumidity, minHumidity := FloatMinValue, FloatMaxValue;
      maxPressure, minPressure := FloatMinValue, FloatMaxValue;
      updateCount := 0;
    }

    /** update: never throws; records the reading only when Receive says so. */
    method Update(e: Event, d: Payload)
      modifies this
      ensures State() == Receive(old(State()), e, d)
    {
      if e != MeasurementsChanged {
        return;
      }
      match AsWeatherData(d) {
        case Some(w) => UpdateStatisticsInPlace(w);
        case None =>
      }
    }

    /** updateStatistics on the fields, one quantity after the other. */
    method UpdateStatisticsInPlace(w: WeatherData)
      modifies this
      ensures State() == UpdateStatistics(old(State()), w)
    {
      updateCount := updateCount + 1;
      RecordTemperature(w.temperature);
      RecordHumidity(w.humidity);
      RecordPressure(w.pressure);
    }

    method RecordTemperature(x: real)
      modifies this
      ensures Series(temperatureHistory, maxTemperature, minTemperature)
        == Record(old(Series(temperatureHistory, maxTemperature, minTemperature)), x)
      ensures humidityHistory == old(humidityHistory) && pressureHistory == old(pressureHistory)
      ensures maxHumidity == old(maxHumidity) && minHumidity == old(minHumidity)
      ensures maxPressure == old(maxPressure) && minPressure == old(minPressure)
      ensures updateCount == old(updateCount)
    {
      temperatureHistory := temperatureHistory + [x];
      if x > maxTemperature { maxTemperature := x; }
      if x < minTemperature { minTemperature := x; }
    }

    method RecordHumidity(x: real)
      modifies this
      ensures Series(humidityHistory, maxHumidity, minHumidity)
        == Record(old(Series(humidityHistory, maxHumidity, minHumidity)), x)
      ensures temperatureHistory == old(temperatureHistory) && pressureHistory == old(pressureHistory)
      ensures maxTemperature == old(maxTemperature) && minTemperature == old(minTemperature)
      ensures maxPressure == old(maxPressure) && minPressure == old(minPressure)
      ensures updateCount == old(updateCount)
    {
      humidityHistory := humidityHistory + [x];
      if x > maxHumidity { maxHumidity := x; }
      if x < minHumidity { minHumidity := x; }
    }

    method RecordPressure(x: real)
      modifies this
      ensures Series(pressureHistory, maxPressure, minPressure)
        == Record(old(Series(pressureHistory, maxPressure, minPressure)), x)
      ensures temperatureHistory == old(temperatureHistory) && humidityHistory == old(humidityHistory)
      ensures maxTemperature == old(maxTemperature) && minTemperature == old(minTemperature)
      ensures maxHumidity == old(maxHumidity) && minHumidity == old(minHumidity)
      ensures updateCount == old(updateCount)
    {
      pressureHistory := pressureHistory + [x];
      if x > maxPressure { maxPressure := x; }
      if x < minPressure { minPressure := x; }
    }

    /** resetStatistics: back to the state of a new display. */
    method ResetStatistics()
      modifies this
      ensures State() == Initial
    {
      temperatureHistory, humidityHistory, pressureHistory := [], [], [];
      maxTemperature, minTemperature := FloatMinValue, FloatMaxValue;
      maxHumidity, minHumidity := FloatMinValue, FloatMaxValue;
      maxPressure, minPressure := FloatMinValue, FloatMaxValue;
      updateCount := 0;
    }

    /** getAverageTemperature: 0 before any reading, otherwise within the tracked range. */
    function GetAverageTemperature(): (r: real)
      reads this
      ensures temperatureHistory == [] ==> r == 0.0
      ensures Valid(State()) && temperatureHistory != [] ==> minTemperature <= r <= maxTemperature
    {
      if Valid(State()) && temperatureHistory != [] then
        AverageWithinRange(State().temperature);
        Average(temperatureHistory)
      else
        Average(temperatureHistory)
    }

    /** getAverageHumidity: 0 before any reading, otherwise within the tracked range. */
    function GetAverageHumidity(): (r: real)
      reads this
      ensures humidityHistory == [] ==> r == 0.0
      ensures Valid(State()) && humidityHistory != [] ==> minHumidity <= r <= maxHumidity
    {
      if Valid(State()) && humidityHistory != [] then
        AverageWithinRange(State().humidity);
        Average(humidityHistory)
      else
        Average(humidityHistory)
    }

    /** getAveragePressure: 0 before any reading, otherwise within the tracked range. */
    function GetAveragePressure(): (r: real)
      reads this
      ensures pressureHistory == [] ==> r == 0.0
      ensures Valid(State()) && pressureHistory != [] ==> minPressure <= r <= maxPressure
    {
      if Valid(State()) && pressureHistory != [] then
        AverageWithinRange(State().pressure);
        Average(pressureHistory)
      else
        Average(pressureHistory)
    }

    /** getStatisticsSummary: the summary of the statistics held now. */
    function GetStatisticsSummary(): (r: Summary)
      reads this
      ensures r == SummaryOf(State())
    {
      SummaryOf(State())
    }
  }
}
