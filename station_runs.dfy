// What each kind of observer is left with after one setMeasurements of the
// weather station, and the runs the observer tests walk through: a display
// registered late, a few measurements, and the state it ends in.

module StationRuns {
  import opened Wrappers
  import opened Exceptions
  import opened Sequences
  import opened Events
  import opened Observers
  import opened Stations
  import WeatherDisplays
  import StatisticsDisplays
  import ForecastDisplays

  /** Notifications an observer lets pass without a change of state are invisible in its replay. */
  lemma {:induction false} ReplayIgnored(o: Observer, s: ObserverState, es: seq<Emission>)
    requires forall i :: 0 <= i < |es| ==> Delivered(o, s, es[i].event, es[i].data) == s
    ensures Replay(o, s, es) == s
    decreases |es|
  {
    if es != [] {
      ReplayIgnored(o, s, es[..|es| - 1]);
    }
  }

  /** The emissions of one setMeasurements, as the changes, the snapshot and the alert. */
  lemma EmissionsSplit(r: Reading, t: real, h: real, p: real, location: string)
    ensures var condition := ConditionLabel(t, h, p);
      Emissions(r, t, h, p, location)
      == Changes(r, condition, t, h, p)
      + [Emission(MeasurementsChanged, Measurements(WeatherData(t, h, p, condition, location)))]
      + ExtremePart(t, h, p, condition)
  {
  }

  /**
   * A statistics display records exactly one reading per setMeasurements:
   * the new snapshot, whatever else was announced around it.
   */
  lemma StatisticsRecordsEachMeasurement(
    o: Observer, st: StatisticsDisplays.Stats, r: Reading, t: real, h: real, p: real, location: string)
    requires o.StatisticsObserver?
    ensures Replay(o, StatisticsState(st), Emissions(r, t, h, p, location))
      == StatisticsState(StatisticsDisplays.UpdateStatistics(st, WeatherData(t, h, p, ConditionLabel(t, h, p), location)))
  {
    var condition := ConditionLabel(t, h, p);
    var w := WeatherData(t, h, p, condition, location);
    var cs := Changes(r, condition, t, h, p);
    var mc := Emission(MeasurementsChanged, Measurements(w));
    var ew := ExtremePart(t, h, p, condition);
    var s0, s1 := StatisticsState(st), StatisticsState(StatisticsDisplays.UpdateStatistics(st, w));
    EmissionsSplit(r, t, h, p, location);
    ChangesShape(r, condition, t, h, p);
    ExtremePartShape(t, h, p, condition);
    ReplayIgnored(o, s0, cs);
    ReplaySnoc(o, s0, cs, mc);
    assert Delivered(o, s0, mc.event, mc.data) == s1;
    ReplayIgnored(o, s1, ew);
    ReplayAppend(o, s0, cs + [mc], ew);
  }

  /** A weather display holds the new snapshot after every setMeasurements, whatever it held before. */
  lemma WeatherDisplayShowsLatest(
    o: Observer, current: Option<WeatherData>, r: Reading, t: real, h: real, p: real, location: string)
    requires o.WeatherObserver?
    ensures Replay(o, WeatherState(current), Emissions(r, t, h, p, location))
      == WeatherState(Some(WeatherData(t, h, p, ConditionLabel(t, h, p), location)))
  {
    var condition := ConditionLabel(t, h, p);
    var w := WeatherData(t, h, p, condition, location);
    var cs := Changes(r, condition, t, h, p);
    var mc := Emission(MeasurementsChanged, Measurements(w));
    var ew := ExtremePart(t, h, p, condition);
    var s0, s1 := WeatherState(current), WeatherState(Some(w));
    EmissionsSplit(r, t, h, p, location);
    ChangesShape(r, condition, t, h, p);
    ExtremePartShape(t, h, p, condition);
    ReplayIgnored(o, s0, cs);
    ReplaySnoc(o, s0, cs, mc);
    ReplayIgnored(o, s1, ew);
    ReplayAppend(o, s0, cs + [mc], ew);
  }

  /**
   * A forecast display sees PRESSURE_CHANGED (when the pressure moved past
   * its threshold) and then MEASUREMENTS_CHANGED; the second shift stores the
   * new pressure as both the last and the current one whenever the first
   * happened, so the pressure change it reports is then 0.
   */
  lemma ForecastAfterMeasurements(
    o: Observer, f: ForecastDisplays.Forecast, r: Reading, t: real, h: real, p: real, location: string)
    requires o.ForecastObserver?
    ensures var w := WeatherData(t, h, p, ConditionLabel(t, h, p), location);
      var shifted := if Abs(r.pressure - p) > PressureThreshold then ForecastDisplays.UpdatePressureForecast(f, p) else f;
      Replay(o, ForecastState(f), Emissions(r, t, h, p, location)) == ForecastState(ForecastDisplays.UpdateForecast(shifted, w))
    ensures Abs(r.pressure - p) > PressureThreshold ==>
      ForecastDisplays.PressureChange(Replay(o, ForecastState(f), Emissions(r, t, h, p, location)).forecast) == 0.0
  {
    var condition := ConditionLabel(t, h, p);
    var w := WeatherData(t, h, p, condition, location);
    var shifted := if Abs(r.pressure - p) > PressureThreshold then ForecastDisplays.UpdatePressureForecast(f, p) else f;
    var cs := Changes(r, condition, t, h, p);
    var mc := Emission(MeasurementsChanged, Measurements(w));
    var ew := ExtremePart(t, h, p, condition);
    var s1, s2 := ForecastState(shifted), ForecastState(ForecastDisplays.UpdateForecast(shifted, w));
    EmissionsSplit(r, t, h, p, location);
    ForecastThroughChanges(o, f, r, condition, t, h, p);
    ExtremePartShape(t, h, p, condition);
    ReplaySnoc(o, ForecastState(f), cs, mc);
    assert Delivered(o, s1, mc.event, mc.data) == s2;
    ReplayIgnored(o, s2, ew);
    ReplayAppend(o, ForecastState(f), cs + [mc], ew);
  }

  /** Of the changes, a forecast display acts on PRESSURE_CHANGED alone. */
  lemma ForecastThroughChanges(o: Observer, f: ForecastDisplays.Forecast, r: Reading, condition: string, t: real, h: real, p: real)
    requires o.ForecastObserver?
    ensures Replay(o, ForecastState(f), Changes(r, condition, t, h, p))
      == ForecastState(if Abs(r.pressure - p) > PressureThreshold then ForecastDisplays.UpdatePressureForecast(f, p) else f)
  {
    var changed := Abs(r.pressure - p) > PressureThreshold;
    var s := ForecastState(f);
    var cp := ConditionPart(r.condition, condition);
    var tc := FieldPart(Abs(r.temperature - t) > TemperatureThreshold, TemperatureChanged, t);
    var hc := FieldPart(Abs(r.humidity - h) > HumidityThreshold, HumidityChanged, h);
    var front := cp + tc + hc;
    var pc := FieldPart(changed, PressureChanged, p);
    assert Changes(r, condition, t, h, p) == front + pc;
    ReplayIgnored(o, s, cp);
    ReplayIgnored(o, s, tc);
    ReplayIgnored(o, s, hc);
    ReplayAppend(o, s, cp, tc);
    ReplayAppend(o, s, cp + tc, hc);
    if changed {
      ReplaySnoc(o, s, front, Emission(PressureChanged, Number(p)));
    } else {
      assert front + pc == front;
    }
  }

  /** The events of the notifications that a recorder with this interest lets through, in order. */
  function Selected(interest: Interest, es: seq<Emission>): (r: seq<Event>)
    ensures |r| <= |es|
    ensures interest.AllEvents? ==> |r| == |es|
    ensures interest.Throws? ==> r == []
  {
    if es == [] then []
    else
      var e := es[|es| - 1].event;
      Selected(interest, es[..|es| - 1])
      + match interest
        case AllEvents => [e]
        case Only(events) => if e in events then [e] else []
        case Throws(_) => []
  }

  /** A selected event is one the interest admits, and comes from the notifications. */
  lemma {:induction false} SelectedAdmits(interest: Interest, es: seq<Emission>, e: Event)
    ensures e in Selected(interest, es) <==>
      (exists i :: 0 <= i < |es| && es[i].event == e) && (interest.AllEvents? || (interest.Only? && e in interest.events))
    decreases |es|
  {
    if es != [] {
      var init := es[..|es| - 1];
      SelectedAdmits(interest, init, e);
      if exists i :: 0 <= i < |init| && init[i].event == e {
        var i :| 0 <= i < |init| && init[i].event == e;
        assert es[i] == init[i];
      }
      if exists i :: 0 <= i < |es| && es[i].event == e {
        var i :| 0 <= i < |es| && es[i].event == e;
        if i < |init| {
          assert init[i] == es[i];
        }
      }
    }
  }

  /**
   * A recorder that does not throw from update appends the events it is
   * interested in, in order; one that throws keeps what it had.
   */
  lemma {:induction false} RecorderReplay(o: Observer, events: seq<Event>, es: seq<Emission>)
    requires o.RecordingObserver?
    ensures Replay(o, RecorderState(events), es)
      == RecorderState(events + if o.recorder.failure.None? then Selected(o.recorder.interest, es) else [])
    decreases |es|
  {
    if es == [] {
      assert events + [] == events;
    } else {
      var init, x := es[..|es| - 1], es[|es| - 1];
      RecorderReplay(o, events, init);
      var mid := events + if o.recorder.failure.None? then Selected(o.recorder.interest, init) else [];
      assert Replay(o, RecorderState(events), es) == Delivered(o, RecorderState(mid), x.event, x.data);
    }
  }

  /** The emissions of the first setMeasurements(30, 70, 1010) of a new station, in full. */
  lemma FirstWarmReading(location: string)
    ensures Emissions(InitialReading, 30.0, 70.0, 1010.0, location)
      == [Emission(WeatherChanged, Text("Mild")),
          Emission(TemperatureChanged, Number(30.0)),
          Emission(HumidityChanged, Number(70.0)),
          Emission(PressureChanged, Number(1010.0)),
          Emission(MeasurementsChanged, Measurements(WeatherData(30.0, 70.0, 1010.0, "Mild", location)))]
  {
    ConditionLabelRegions(30.0, 70.0, 1010.0);
    assert !IsExtreme(30.0, 70.0, 1010.0);
  }

  /**
   * A recorder interested only in TEMPERATURE_CHANGED, registered on a new
   * station and sent setMeasurements(30, 70, 1010), has been updated with the
   * registration snapshot and the temperature change, and never with a
   * humidity change.
   */
  lemma SelectiveObserverSeesOnlyItsEvent(o: Observer, location: string)
    requires o.RecordingObserver? && o.recorder.failure.None?
    requires o.recorder.interest == Only({TemperatureChanged})
    ensures var pushed := Pushed(o, RecorderState([]), WeatherData(0.0, 0.0, StandardPressure, "Unknown", location));
      Replay(o, pushed, Emissions(InitialReading, 30.0, 70.0, 1010.0, location))
      == RecorderState([MeasurementsChanged, TemperatureChanged])
  {
    var interest := o.recorder.interest;
    var es := Emissions(InitialReading, 30.0, 70.0, 1010.0, location);
    FirstWarmReading(location);
    var wc, tc := [es[0]], [es[1]];
    var rest := es[2..];
    assert es == wc + tc + rest;
    SelectedAppend(interest, wc + tc, rest);
    SelectedAppend(interest, wc, tc);
    SelectedNone(interest, wc, TemperatureChanged);
    SelectedNone(interest, rest, TemperatureChanged);
    assert tc[..0] == [];
    assert Selected(interest, tc) == [TemperatureChanged];
    assert Selected(interest, es) == [TemperatureChanged];
    assert Pushed(o, RecorderState([]), WeatherData(0.0, 0.0, StandardPressure, "Unknown", location))
      == RecorderState([MeasurementsChanged]);
    RecorderReplay(o, [MeasurementsChanged], es);
  }

  /** Selecting from two runs of notifications is selecting from each. */
  lemma {:induction false} SelectedAppend(interest: Interest, a: seq<Emission>, b: seq<Emission>)
    ensures Selected(interest, a + b) == Selected(interest, a) + Selected(interest, b)
    decreases |b|
  {
    if b == [] {
      assert a + b == a;
    } else {
      var init := b[..|b| - 1];
      assert (a + b)[..|a + b| - 1] == a + init;
      SelectedAppend(interest, a, init);
    }
  }

  /** A recorder interested in one event selects nothing from notifications without it. */
  lemma {:induction false} SelectedNone(interest: Interest, es: seq<Emission>, e: Event)
    requires interest == Only({e})
    requires forall i :: 0 <= i < |es| ==> es[i].event != e
    ensures Selected(interest, es) == []
    decreases |es|
  {
    if es != [] {
      SelectedNone(interest, es[..|es| - 1], e);
    }
  }

  /** A recorder interested in everything is sent EXTREME_WEATHER by setMeasurements(45, 95, 970). */
  lemma AlertObserverIsWarned(o: Observer, events: seq<Event>, r: Reading, location: string)
    requires o.RecordingObserver? && o.recorder.failure.None? && o.recorder.interest.AllEvents?
    ensures var s := Replay(o, RecorderState(events), Emissions(r, 45.0, 95.0, 970.0, location));
      s.RecorderState? && ExtremeWeather in s.events
  {
    var es := Emissions(r, 45.0, 95.0, 970.0, location);
    NotificationsMeasurements(r, ConditionLabel(45.0, 95.0, 970.0), 45.0, 95.0, 970.0, location);
    assert IsExtreme(45.0, 95.0, 970.0);
    RecorderReplay(o, events, es);
    SelectedAdmits(o.recorder.interest, es, ExtremeWeather);
  }

  /** The snapshot a new station pushes to an observer that registers. */
  function InitialData(location: string): WeatherData {
    WeatherData(0.0, 0.0, StandardPressure, "Unknown", location)
  }

  /** The reading a station stores after setMeasurements(t, h, p). */
  function Stored(t: real, h: real, p: real): Reading {
    Reading(t, h, p, ConditionLabel(t, h, p))
  }

  /**
   * A statistics display registered on a new station and then sent
   * setMeasurements 20/50/1010, 25/60/1015 and 30/70/1020 reports four
   * readings, the registration snapshot among them: temperatures 0 to 30,
   * humidities 0 to 70, pressures 1010 to 1020.
   */
  lemma StatisticsOverThreeMeasurements(o: Observer, location: string)
    requires o.StatisticsObserver?
    ensures var s0 := Pushed(o, StatisticsState(StatisticsDisplays.Initial), InitialData(location));
      var s1 := Replay(o, s0, Emissions(InitialReading, 20.0, 50.0, 1010.0, location));
      var s2 := Replay(o, s1, Emissions(Stored(20.0, 50.0, 1010.0), 25.0, 60.0, 1015.0, location));
      var s3 := Replay(o, s2, Emissions(Stored(25.0, 60.0, 1015.0), 30.0, 70.0, 1020.0, location));
      && s3.StatisticsState?
      && StatisticsDisplays.SummaryOf(s3.stats)
         == StatisticsDisplays.Summary(4, StatisticsDisplays.Range(0.0, 30.0),
                                       StatisticsDisplays.Range(0.0, 70.0), StatisticsDisplays.Range(1010.0, 1020.0))
  {
    var st0 := StatisticsDisplays.UpdateStatistics(StatisticsDisplays.Initial, InitialData(location));
    var st1 := StatisticsDisplays.UpdateStatistics(st0, WeatherData(20.0, 50.0, 1010.0, ConditionLabel(20.0, 50.0, 1010.0), location));
    var st2 := StatisticsDisplays.UpdateStatistics(st1, WeatherData(25.0, 60.0, 1015.0, ConditionLabel(25.0, 60.0, 1015.0), location));
    var st3 := StatisticsDisplays.UpdateStatistics(st2, WeatherData(30.0, 70.0, 1020.0, ConditionLabel(30.0, 70.0, 1020.0), location));
    assert Pushed(o, StatisticsState(StatisticsDisplays.Initial), InitialData(location)) == StatisticsState(st0);
    StatisticsRecordsEachMeasurement(o, st0, InitialReading, 20.0, 50.0, 1010.0, location);
    StatisticsRecordsEachMeasurement(o, st1, Stored(20.0, 50.0, 1010.0), 25.0, 60.0, 1015.0, location);
    StatisticsRecordsEachMeasurement(o, st2, Stored(25.0, 60.0, 1015.0), 30.0, 70.0, 1020.0, location);
    assert st3.updateCount == 4;
    assert st3.temperature.max == 30.0 && st3.temperature.min == 0.0;
    assert st3.humidity.max == 70.0 && st3.humidity.min == 0.0;
    assert st3.pressure.max == 1020.0 && st3.pressure.min == 1010.0;
  }

  /**
   * A forecast display registered on a new station and then sent
   * setMeasurements 25/60/1020 and 25/65/1015 ends with both pressures at
   * 1015, so it reports no pressure change rather than the 5 hPa fall, and
   * forecasts more of the same.
   */
  lemma ForecastOverTwoMeasurements(o: Observer, location: string)
    requires o.ForecastObserver?
    ensures var s0 := Pushed(o, ForecastState(ForecastDisplays.Initial), InitialData(location));
      var s1 := Replay(o, s0, Emissions(InitialReading, 25.0, 60.0, 1020.0, location));
      var s2 := Replay(o, s1, Emissions(Stored(25.0, 60.0, 1020.0), 25.0, 65.0, 1015.0, location));
      s2 == ForecastState(ForecastDisplays.Forecast(1015.0, 1015.0,
                            "More of the same weather conditions" + ForecastDisplays.Horizon))
  {
    var f0 := ForecastDisplays.UpdateForecast(ForecastDisplays.Initial, InitialData(location));
    assert Pushed(o, ForecastState(ForecastDisplays.Initial), InitialData(location)) == ForecastState(f0);
    ForecastAfterMeasurements(o, f0, InitialReading, 25.0, 60.0, 1020.0, location);
    var w1 := WeatherData(25.0, 60.0, 1020.0, ConditionLabel(25.0, 60.0, 1020.0), location);
    var f1 := ForecastDisplays.UpdateForecast(ForecastDisplays.UpdatePressureForecast(f0, 1020.0), w1);
    ForecastAfterMeasurements(o, f1, Stored(25.0, 60.0, 1020.0), 25.0, 65.0, 1015.0, location);
    var w2 := WeatherData(25.0, 65.0, 1015.0, ConditionLabel(25.0, 65.0, 1015.0), location);
    var f2 := ForecastDisplays.UpdateForecast(ForecastDisplays.UpdatePressureForecast(f1, 1015.0), w2);
    assert ForecastDisplays.ForecastBody(1015.0, 1015.0, w2) == "More of the same weather conditions";
  }

  /**
   * The statistics test as objects: a station and a statistics display are
   * created, the display registers, three measurements are set, and the
   * display's summary is read.
   */
  method StatisticsRun(location: string) returns (summary: StatisticsDisplays.Summary)
    ensures summary == StatisticsDisplays.Summary(4, StatisticsDisplays.Range(0.0, 30.0),
                                                  StatisticsDisplays.Range(0.0, 70.0), StatisticsDisplays.Range(1010.0, 1020.0))
  {
    var station := new WeatherStation(location);
    var display := new StatisticsDisplays.StatisticsDisplay("Test Statistics Display");
    var o := StatisticsObserver(display);
    var registered := station.RegisterObserver(Some(o));
    assert StateOf(o) == Pushed(o, StatisticsState(StatisticsDisplays.Initial), InitialData(location));
    var _ := station.SetMeasurements(20.0, 50.0, 1010.0);
    var _ := station.SetMeasurements(25.0, 60.0, 1015.0);
    var _ := station.SetMeasurements(30.0, 70.0, 1020.0);
    StatisticsOverThreeMeasurements(o, location);
    summary := display.GetStatisticsSummary();
  }

  /**
   * The exception-handling test as objects: a weather display and an
   * observer whose update always throws both register; after
   * setMeasurements(25, 60, 1013) the display holds the new snapshot and
   * the faulty observer's failure was handed to onObserverError.
   */
  method FaultyObserverRun(location: string) returns (data: Option<WeatherData>, notices: seq<Notice>, faulty: Recorder)
    ensures data == Some(WeatherData(25.0, 60.0, 1013.0, "Mild", location))
    ensures ErrorHook(RecordingObserver(faulty), Runtime("Test exception")) in notices
  {
    var station := new WeatherStation(location);
    var display := new WeatherDisplays.WeatherDisplay("Test Weather Display");
    faulty := new Recorder("Faulty Observer", AllEvents, Some(Runtime("Test exception")));
    var w, f := WeatherObserver(display), RecordingObserver(faulty);
    var _ := station.RegisterObserver(Some(w));
    var _ := station.RegisterObserver(Some(f));
    assert station.subject.observers == [w, f];
    ghost var before := StateOf(w);
    assert before.WeatherState?;
    notices := station.SetMeasurements(25.0, 60.0, 1013.0);
    FaultyRunOutcome(w, f, before.snapshot, location);
    data := display.GetCurrentWeatherData();
  }

  /** What the exception-handling test's one setMeasurements does to each of its two observers. */
  lemma FaultyRunOutcome(w: Observer, f: Observer, before: Option<WeatherData>, location: string)
    requires w.WeatherObserver? && f.RecordingObserver?
    requires f.recorder.interest.AllEvents? && f.recorder.failure == Some(Runtime("Test exception"))
    ensures Replay(w, WeatherState(before), Emissions(InitialReading, 25.0, 60.0, 1013.0, location))
      == WeatherState(Some(WeatherData(25.0, 60.0, 1013.0, "Mild", location)))
    ensures ErrorHook(f, Runtime("Test exception"))
      in BroadcastAll([w, f], Emissions(InitialReading, 25.0, 60.0, 1013.0, location))
  {
    WeatherDisplayShowsLatest(w, before, InitialReading, 25.0, 60.0, 1013.0, location);
    ConditionLabelRegions(25.0, 60.0, 1013.0);
    FailureIsReported([w, f], f, InitialReading, 25.0, 60.0, 1013.0, location);
  }

  /**
   * An observer that is sent everything and throws from every update shows up
   * as an onObserverError call among the notices of any setMeasurements,
   * at the latest for its MEASUREMENTS_CHANGED.
   */
  lemma FailureIsReported(observers: seq<Observer>, o: Observer, r: Reading, t: real, h: real, p: real, location: string)
    requires o in observers && o.RecordingObserver?
    requires o.recorder.interest.AllEvents? && o.recorder.failure.Some?
    ensures ErrorHook(o, o.recorder.failure.value) in BroadcastAll(observers, Emissions(r, t, h, p, location))
  {
    var condition := ConditionLabel(t, h, p);
    var mc := Emission(MeasurementsChanged, Measurements(WeatherData(t, h, p, condition, location)));
    var cs := Changes(r, condition, t, h, p);
    var ew := ExtremePart(t, h, p, condition);
    EmissionsSplit(r, t, h, p, location);
    BroadcastAllAppend(observers, cs + [mc], ew);
    BroadcastAllSnoc(observers, cs, mc);
    var k :| 0 <= k < |observers| && observers[k] == o;
    var pre, post := observers[..k], observers[k + 1..];
    SplitAt(observers, k);
    BroadcastAppend(pre + [o], post, mc.event, mc.data);
    BroadcastAppend(pre, [o], mc.event, mc.data);
    ThrowingRecorderDelivery(o, mc.event, mc.data);
    assert [o][..0] == [];
  }

  /** A recorder interested in everything whose update throws reports every notification to onObserverError. */
  lemma ThrowingRecorderDelivery(o: Observer, e: Event, d: Payload)
    requires o.RecordingObserver? && o.recorder.interest.AllEvents? && o.recorder.failure.Some?
    ensures Delivery(o, e, d) == [ErrorHook(o, o.recorder.failure.value)]
  {
  }
}
