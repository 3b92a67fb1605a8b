// WeatherStation: the concrete subject. It stores the latest measurements,
// labels them, and announces what changed to its observers, in a fixed order.

module Stations {
  import opened Wrappers
  import opened Exceptions
  import opened Sequences
  import opened Events
  import opened Observers

  /** A field event fires when the value moves by strictly more than its threshold. */
  const TemperatureThreshold: real := 0.1
  const HumidityThreshold: real := 1.0
  const PressureThreshold: real := 1.0

  /** updateWeatherCondition's label: the first rule that matches. */
  function ConditionLabel(t: real, h: real, p: real): string {
    if t > 35.0 then "Hot"
    else if t < 0.0 then "Freezing"
    else if h > 80.0 && t > 20.0 then "Humid"
    else if h < 30.0 then "Dry"
    else if p < 1000.0 then "Stormy"
    else if p > 1020.0 then "Clear"
    else "Mild"
  }

  /**
   * Each label holds on exactly its own region of readings: the seven
   * regions cover every reading and do not overlap.
   */
  lemma ConditionLabelRegions(t: real, h: real, p: real)
    ensures var r := ConditionLabel(t, h, p);
      && (r == "Hot" <==> t > 35.0)
      && (r == "Freezing" <==> t < 0.0)
      && (r == "Humid" <==> 20.0 < t <= 35.0 && h > 80.0)
      && (r == "Dry" <==> 0.0 <= t <= 35.0 && h < 30.0)
      && (r == "Stormy" <==> 0.0 <= t <= 35.0 && 30.0 <= h && !(h > 80.0 && t > 20.0) && p < 1000.0)
      && (r == "Clear" <==> 0.0 <= t <= 35.0 && 30.0 <= h && !(h > 80.0 && t > 20.0) && p > 1020.0)
      && (r == "Mild" <==> 0.0 <= t <= 35.0 && 30.0 <= h && !(h > 80.0 && t > 20.0) && 1000.0 <= p <= 1020.0)
  {
  }

  /** checkExtremeWeather's condition. */
  predicate IsExtreme(t: real, h: real, p: real) {
    ExtremeHeat(t) || ExtremeCold(t) || ExtremeHumidity(h) || VeryLowPressure(p) || VeryHighPressure(p)
  }

  /** The alert text carries a phrase exactly when the reading is extreme. */
  lemma ExtremeIffAlertHasPhrase(t: real, h: real, p: real)
    ensures IsExtreme(t, h, p) <==> |AlertMessage(t, h, p)| > |AlertHeader|
  {
    var phrases := AlertPhrases(t, h, p);
    AlertPhrasesShape(t, h, p);
    if phrases != [] {
      assert |Concat(phrases)| >= |phrases[|phrases| - 1]| > 0;
    }
  }

  /** The station's stored measurements and weather condition. */
  datatype Reading = Reading(temperature: real, humidity: real, pressure: real, condition: string)

  const InitialReading: Reading := Reading(0.0, 0.0, StandardPressure, "Unknown")

  const StandardPressure: real := 1013.25

  /** One notifyObservers call made by the station. */
  datatype Emission = Emission(event: Event, data: Payload)
  /** WEATHER_CHANGED with the new label, when it differs from the stored one. */
  function ConditionPart(previous: string, condition: string): (r: seq<Emission>)
    ensures previous != condition ==> r == [Emission(WeatherChanged, Text(condition))]
    ensures previous == condition ==> r == []
  {
    if previous != condition then [Emission(WeatherChanged, Text(condition))] else []
  }

  /** A field event with the new value, when the value moved past its threshold. */
  function FieldPart(changed: bool, e: Event, v: real): (r: seq<Emission>)
    ensures changed ==> r == [Emission(e, Number(v))]
    ensures !changed ==> r == []
  {
    if changed then [Emission(e, Number(v))] else []
  }

  /** EXTREME_WEATHER with the alert, when the reading is extreme. */
  function ExtremePart(t: real, h: real, p: real, condition: string): (r: seq<Emission>)
    ensures IsExtreme(t, h, p) ==> r == [Emission(ExtremeWeather, Extreme(NewExtremeWeatherData(t, h, p, condition)))]
    ensures !IsExtreme(t, h, p) ==> r == []
  {
    if IsExtreme(t, h, p) then [Emission(ExtremeWeather, Extreme(NewExtremeWeatherData(t, h, p, condition)))] else []
  }

  /** The notifications before MEASUREMENTS_CHANGED: the label change, then the field events. */
  function Changes(r: Reading, condition: string, t: real, h: real, p: real): seq<Emission> {
    ConditionPart(r.condition, condition)
    + FieldPart(Abs(r.temperature - t) > TemperatureThreshold, TemperatureChanged, t)
    + FieldPart(Abs(r.humidity - h) > HumidityThreshold, HumidityChanged, h)
    + FieldPart(Abs(r.pressure - p) > PressureThreshold, PressureChanged, p)
  }

  /** The notifications that follow a measurement labelled condition, in order. */
  function Notifications(r: Reading, condition: string, t: real, h: real, p: real, location: string): seq<Emission> {
    Changes(r, condition, t, h, p)
    + [Emission(MeasurementsChanged, Measurements(WeatherData(t, h, p, condition, location)))]
    + ExtremePart(t, h, p, condition)
  }

  /**
   * The notifications of setMeasurements(t, h, p) from reading r, in order:
   * WEATHER_CHANGED when the condition changes, the field events whose values
   * moved past their thresholds, MEASUREMENTS_CHANGED always, and
   * EXTREME_WEATHER when the new reading is extreme.
   */
  function Emissions(r: Reading, t: real, h: real, p: real, location: string): seq<Emission> {
    Notifications(r, ConditionLabel(t, h, p), t, h, p, location)
  }

  /** Emissions, grouped as setMeasurements sends them: the relabel, the field events, then the snapshot and the alert. */
  lemma EmissionsParts(r: Reading, t: real, h: real, p: real, location: string)
    ensures var condition := ConditionLabel(t, h, p);
      Emissions(r, t, h, p, location)
      == ConditionPart(r.condition, condition)
      + (FieldPart(Abs(r.temperature - t) > TemperatureThreshold, TemperatureChanged, t)
         + FieldPart(Abs(r.humidity - h) > HumidityThreshold, HumidityChanged, h)
         + FieldPart(Abs(r.pressure - p) > PressureThreshold, PressureChanged, p))
      + ([Emission(MeasurementsChanged, Measurements(WeatherData(t, h, p, condition, location)))]
         + ExtremePart(t, h, p, condition))
  {
    var condition := ConditionLabel(t, h, p);
    NotificationsParts(r, condition, t, h, p, location);
    Regroup(ConditionPart(r.condition, condition),
            FieldPart(Abs(r.temperature - t) > TemperatureThreshold, TemperatureChanged, t),
            FieldPart(Abs(r.humidity - h) > HumidityThreshold, HumidityChanged, h),
            FieldPart(Abs(r.pressure - p) > PressureThreshold, PressureChanged, p),
            [Emission(MeasurementsChanged, Measurements(WeatherData(t, h, p, condition, location)))]
            + ExtremePart(t, h, p, condition));
  }

  /** The three middle parts of a five-part concatenation, grouped together. */
  lemma Regroup<T>(a: seq<T>, b: seq<T>, c: seq<T>, d: seq<T>, x: seq<T>)
    ensures a + b + c + d + x == a + (b + c + d) + x
  {
    AppendAssoc(a, b, c);
    AppendAssoc(a, b + c, d);
  }

  /** The index of the first emission of an event, or |es| if there is none. */
  function IndexOf(es: seq<Emission>, e: Event): (k: nat)
    ensures k <= |es|
    ensures k < |es| ==> es[k].event == e
    ensures forall i :: 0 <= i < k ==> es[i].event != e
  {
    if es == [] then 0
    else if es[0].event == e then 0
    else 1 + IndexOf(es[1..], e)
  }

  predicate Emits(es: seq<Emission>, e: Event) {
    exists i :: 0 <= i < |es| && es[i].event == e
  }

  predicate NoEvent(es: seq<Emission>, e: Event) {
    forall i :: 0 <= i < |es| ==> es[i].event != e
  }

  /** The changes hold at most four notifications, none of them MEASUREMENTS_CHANGED or EXTREME_WEATHER. */
  lemma ChangesShape(r: Reading, condition: string, t: real, h: real, p: real)
    ensures var cs := Changes(r, condition, t, h, p);
      && |cs| <= 4
      && NoEvent(cs, MeasurementsChanged) && NoEvent(cs, ExtremeWeather)
  {
  }

  /**
   * Every setMeasurements sends exactly one MEASUREMENTS_CHANGED, carrying the
   * new snapshot, after all the changes; an EXTREME_WEATHER, if any, is the
   * last notification.
   */
  lemma NotificationsMeasurements(r: Reading, condition: string, t: real, h: real, p: real, location: string)
    ensures var es := Notifications(r, condition, t, h, p, location);
      var m := IndexOf(es, MeasurementsChanged);
      && m == |Changes(r, condition, t, h, p)| < |es|
      && es[m].data == Measurements(WeatherData(t, h, p, condition, location))
      && (forall i :: 0 <= i < |es| && i != m ==> es[i].event != MeasurementsChanged)
      && (Emits(es, ExtremeWeather) <==> IsExtreme(t, h, p))
      && (Emits(es, ExtremeWeather) ==>
            es[|es| - 1] == Emission(ExtremeWeather, Extreme(NewExtremeWeatherData(t, h, p, condition))))
  {
    var cs := Changes(r, condition, t, h, p);
    var mc := Emission(MeasurementsChanged, Measurements(WeatherData(t, h, p, condition, location)));
    var ew := ExtremePart(t, h, p, condition);
    ChangesShape(r, condition, t, h, p);
    ExtremePartShape(t, h, p, condition);
    MeasurementsBetween(cs, mc, ew, Notifications(r, condition, t, h, p, location));
  }

  /**
   * In changes + [snapshot] + alert, where only the snapshot is
   * MEASUREMENTS_CHANGED and only the alert EXTREME_WEATHER, the snapshot is
   * the one MEASUREMENTS_CHANGED and the alert, if any, comes last.
   */
  lemma MeasurementsBetween(cs: seq<Emission>, mc: Emission, ew: seq<Emission>, es: seq<Emission>)
    requires es == cs + [mc] + ew && mc.event == MeasurementsChanged
    requires NoEvent(cs, MeasurementsChanged) && NoEvent(cs, ExtremeWeather)
    requires NoEvent(ew, MeasurementsChanged)
    requires |ew| <= 1 && (ew != [] ==> ew[0].event == ExtremeWeather)
    ensures IndexOf(es, MeasurementsChanged) == |cs| < |es| && es[|cs|] == mc
    ensures forall i :: 0 <= i < |es| && i != |cs| ==> es[i].event != MeasurementsChanged
    ensures Emits(es, ExtremeWeather) <==> ew != []
    ensures ew != [] ==> es[|es| - 1] == ew[0]
  {
    assert es[|cs|] == mc;
    IndexOfFirst(es, MeasurementsChanged, |cs|);
    if Emits(es, ExtremeWeather) {
      var i :| 0 <= i < |es| && es[i].event == ExtremeWeather;
      assert i > |cs|;
    }
    if ew != [] {
      assert es[|es| - 1] == ew[0];
    }
  }

  lemma ExtremePartShape(t: real, h: real, p: real, condition: string)
    ensures var ew := ExtremePart(t, h, p, condition);
      && |ew| <= 1
      && NoEvent(ew, MeasurementsChanged)
      && (ew != [] <==> IsExtreme(t, h, p))
      && (ew != [] ==> ew[0] == Emission(ExtremeWeather, Extreme(NewExtremeWeatherData(t, h, p, condition))))
  {
  }

  /** WEATHER_CHANGED is sent exactly when the label changed, and then first. */
  lemma NotificationsCondition(r: Reading, condition: string, t: real, h: real, p: real, location: string)
    ensures var es := Notifications(r, condition, t, h, p, location);
      && (Emits(es, WeatherChanged) <==> condition != r.condition)
      && (Emits(es, WeatherChanged) ==> es[0] == Emission(WeatherChanged, Text(condition)))
  {
    var cond := ConditionPart(r.condition, condition);
    var tc := FieldPart(Abs(r.temperature - t) > TemperatureThreshold, TemperatureChanged, t);
    var hc := FieldPart(Abs(r.humidity - h) > HumidityThreshold, HumidityChanged, h);
    var pc := FieldPart(Abs(r.pressure - p) > PressureThreshold, PressureChanged, p);
    var mc := [Emission(MeasurementsChanged, Measurements(WeatherData(t, h, p, condition, location)))];
    var ew := ExtremePart(t, h, p, condition);
    OnlyFirstPart(cond, tc, hc, pc, mc, ew, WeatherChanged);
  }

  /** When no later part carries e, the whole carries e exactly when the first part does. */
  lemma OnlyFirstPart(a: seq<Emission>, b: seq<Emission>, c: seq<Emission>, d: seq<Emission>,
                      m: seq<Emission>, x: seq<Emission>, e: Event)
    requires NoEvent(b, e) && NoEvent(c, e) && NoEvent(d, e) && NoEvent(m, e) && NoEvent(x, e)
    ensures Emits(a + b + c + d + m + x, e) <==> Emits(a, e)
    ensures a != [] ==> (a + b + c + d + m + x)[0] == a[0]
  {
    EmitsOnlyFront(a, b, e);
    EmitsOnlyFront(a + b, c, e);
    EmitsOnlyFront(a + b + c, d, e);
    EmitsOnlyFront(a + b + c + d, m, e);
    EmitsOnlyFront(a + b + c + d + m, x, e);
  }

  /** When b never carries e, a + b carries it exactly when a does. */
  lemma EmitsOnlyFront(a: seq<Emission>, b: seq<Emission>, e: Event)
    requires NoEvent(b, e)
    ensures Emits(a + b, e) <==> Emits(a, e)
    ensures a != [] ==> (a + b)[0] == a[0]
  {
    if Emits(a + b, e) {
      var i :| 0 <= i < |a + b| && (a + b)[i].event == e;
      assert i < |a| && a[i] == (a + b)[i];
    }
    if Emits(a, e) {
      var i :| 0 <= i < |a| && a[i].event == e;
      assert (a + b)[i].event == e;
    }
  }

  lemma NoEventAppend(a: seq<Emission>, b: seq<Emission>, e: Event)
    requires NoEvent(a, e) && NoEvent(b, e)
    ensures NoEvent(a + b, e)
  {
  }

  /** The notifications after the changes are MEASUREMENTS_CHANGED and perhaps EXTREME_WEATHER. */
  lemma TailEvents(tail: seq<Emission>, w: WeatherData, t: real, h: real, p: real, condition: string, e: Event)
    requires tail == [Emission(MeasurementsChanged, Measurements(w))] + ExtremePart(t, h, p, condition)
    requires e != MeasurementsChanged && e != ExtremeWeather
    ensures NoEvent(tail, e)
  {
  }

  /** A part that alone holds event e, every time with payload d. */
  lemma PartEvents(pre: seq<Emission>, part: seq<Emission>, post: seq<Emission>, e: Event, d: Payload)
    requires NoEvent(pre, e) && NoEvent(post, e)
    requires forall i :: 0 <= i < |part| ==> part[i] == Emission(e, d)
    ensures Emits(pre + part + post, e) <==> part != []
    ensures forall i :: 0 <= i < |pre + part + post| && (pre + part + post)[i].event == e ==>
      (pre + part + post)[i].data == d && |pre| <= i < |pre| + |part|
  {
    if part != [] {
      assert (pre + part + post)[|pre|].event == e;
    }
  }

  /** The four parts of the notifications that follow the label change. */
  lemma NotificationsParts(r: Reading, condition: string, t: real, h: real, p: real, location: string)
    ensures Notifications(r, condition, t, h, p, location)
      == ConditionPart(r.condition, condition)
      + FieldPart(Abs(r.temperature - t) > TemperatureThreshold, TemperatureChanged, t)
      + FieldPart(Abs(r.humidity - h) > HumidityThreshold, HumidityChanged, h)
      + FieldPart(Abs(r.pressure - p) > PressureThreshold, PressureChanged, p)
      + ([Emission(MeasurementsChanged, Measurements(WeatherData(t, h, p, condition, location)))]
         + ExtremePart(t, h, p, condition))
  {
    var cond := ConditionPart(r.condition, condition);
    var tc := FieldPart(Abs(r.temperature - t) > TemperatureThreshold, TemperatureChanged, t);
    var hc := FieldPart(Abs(r.humidity - h) > HumidityThreshold, HumidityChanged, h);
    var pc := FieldPart(Abs(r.pressure - p) > PressureThreshold, PressureChanged, p);
    var mc := [Emission(MeasurementsChanged, Measurements(WeatherData(t, h, p, condition, location)))];
    var ew := ExtremePart(t, h, p, condition);
    assert Changes(r, condition, t, h, p) == cond + tc + hc + pc;
    assert Notifications(r, condition, t, h, p, location) == cond + tc + hc + pc + mc + ew;
    AppendAssoc(cond + tc + hc + pc, mc, ew);
  }

  /** TEMPERATURE_CHANGED is sent exactly when the temperature moved by more than 0.1, with the new value. */
  lemma TemperatureEvents(r: Reading, condition: string, t: real, h: real, p: real, location: string)
    ensures var es := Notifications(r, condition, t, h, p, location);
      && (Emits(es, TemperatureChanged) <==> Abs(r.temperature - t) > TemperatureThreshold)
      && (forall i :: 0 <= i < |es| && es[i].event == TemperatureChanged ==>
            es[i].data == Number(t) && i < |Changes(r, condition, t, h, p)|)
  {
    var cond := ConditionPart(r.condition, condition);
    var tc := FieldPart(Abs(r.temperature - t) > TemperatureThreshold, TemperatureChanged, t);
    var hc := FieldPart(Abs(r.humidity - h) > HumidityThreshold, HumidityChanged, h);
    var pc := FieldPart(Abs(r.pressure - p) > PressureThreshold, PressureChanged, p);
    var tail := [Emission(MeasurementsChanged, Measurements(WeatherData(t, h, p, condition, location)))]
      + ExtremePart(t, h, p, condition);
    NotificationsParts(r, condition, t, h, p, location);
    AppendAssoc(cond + tc + hc, pc, tail);
    AppendAssoc(cond + tc, hc, pc + tail);
    TailEvents(tail, WeatherData(t, h, p, condition, location), t, h, p, condition, TemperatureChanged);
    NoEventAppend(pc, tail, TemperatureChanged);
    NoEventAppend(hc, pc + tail, TemperatureChanged);
    PartEvents(cond, tc, hc + (pc + tail), TemperatureChanged, Number(t));
  }

  /** HUMIDITY_CHANGED is sent exactly when the humidity moved by more than 1.0, with the new value. */
  lemma HumidityEvents(r: Reading, condition: string, t: real, h: real, p: real, location: string)
    ensures var es := Notifications(r, condition, t, h, p, location);
      && (Emits(es, HumidityChanged) <==> Abs(r.humidity - h) > HumidityThreshold)
      && (forall i :: 0 <= i < |es| && es[i].event == HumidityChanged ==>
            es[i].data == Number(h) && i < |Changes(r, condition, t, h, p)|)
  {
    var cond := ConditionPart(r.condition, condition);
    var tc := FieldPart(Abs(r.temperature - t) > TemperatureThreshold, TemperatureChanged, t);
    var hc := FieldPart(Abs(r.humidity - h) > HumidityThreshold, HumidityChanged, h);
    var pc := FieldPart(Abs(r.pressure - p) > PressureThreshold, PressureChanged, p);
    var tail := [Emission(MeasurementsChanged, Measurements(WeatherData(t, h, p, condition, location)))]
      + ExtremePart(t, h, p, condition);
    NotificationsParts(r, condition, t, h, p, location);
    AppendAssoc(cond + tc + hc, pc, tail);
    TailEvents(tail, WeatherData(t, h, p, condition, location), t, h, p, condition, HumidityChanged);
    NoEventAppend(pc, tail, HumidityChanged);
    NoEventAppend(cond, tc, HumidityChanged);
    PartEvents(cond + tc, hc, pc + tail, HumidityChanged, Number(h));
  }

  /** PRESSURE_CHANGED is sent exactly when the pressure moved by more than 1.0, with the new value. */
  lemma PressureEvents(r: Reading, condition: string, t: real, h: real, p: real, location: string)
    ensures var es := Notifications(r, condition, t, h, p, location);
      && (Emits(es, PressureChanged) <==> Abs(r.pressure - p) > PressureThreshold)
      && (forall i :: 0 <= i < |es| && es[i].event == PressureChanged ==>
            es[i].data == Number(p) && i < |Changes(r, condition, t, h, p)|)
  {
    var cond := ConditionPart(r.condition, condition);
    var tc := FieldPart(Abs(r.temperature - t) > TemperatureThreshold, TemperatureChanged, t);
    var hc := FieldPart(Abs(r.humidity - h) > HumidityThreshold, HumidityChanged, h);
    var pc := FieldPart(Abs(r.pressure - p) > PressureThreshold, PressureChanged, p);
    var tail := [Emission(MeasurementsChanged, Measurements(WeatherData(t, h, p, condition, location)))]
      + ExtremePart(t, h, p, condition);
    NotificationsParts(r, condition, t, h, p, location);
    PartEvents(cond + tc + hc, pc, tail, PressureChanged, Number(p));
  }

  /** The first index holding e is the index of e. */
  lemma {:induction false} IndexOfFirst(es: seq<Emission>, e: Event, m: nat)
    requires m < |es| && es[m].event == e
    requires forall i :: 0 <= i < m ==> es[i].event != e
    ensures IndexOf(es, e) == m
  {
    if m > 0 {
      IndexOfFirst(es[1..], e, m - 1);
    }
  }

  /** An observer's state after the given notifications, in order. */
  function Replay(o: Observer, s: ObserverState, es: seq<Emission>): ObserverState {
    if es == [] then s
    else
      var last := es[|es| - 1];
      Delivered(o, Replay(o, s, es[..|es| - 1]), last.event, last.data)
  }

  lemma ReplaySnoc(o: Observer, s: ObserverState, es: seq<Emission>, x: Emission)
    ensures Replay(o, s, es + [x]) == Delivered(o, Replay(o, s, es), x.event, x.data)
  {
    assert (es + [x])[..|es|] == es;
  }

  /** Replaying two runs of notifications is replaying one after the other. */
  lemma {:induction false} ReplayAppend(o: Observer, s: ObserverState, a: seq<Emission>, b: seq<Emission>)
    ensures Replay(o, s, a + b) == Replay(o, Replay(o, s, a), b)
    decreases |b|
  {
    if b == [] {
      assert a + b == a;
    } else {
      var init := b[..|b| - 1];
      assert a + b == (a + init) + [b[|b| - 1]];
      ReplaySnoc(o, s, a + init, b[|b| - 1]);
      ReplayAppend(o, s, a, init);
    }
  }

  /** The notices of all the notifications, in order. */
  function BroadcastAll(observers: seq<Observer>, es: seq<Emission>): seq<Notice> {
    if es == [] then []
    else
      var last := es[|es| - 1];
      BroadcastAll(observers, es[..|es| - 1]) + Broadcast(observers, last.event, last.data)
  }

  lemma BroadcastAllSnoc(observers: seq<Observer>, es: seq<Emission>, x: Emission)
    ensures BroadcastAll(observers, es + [x]) == BroadcastAll(observers, es) + Broadcast(observers, x.event, x.data)
  {
    assert (es + [x])[..|es|] == es;
  }

  lemma {:induction false} BroadcastAllAppend(observers: seq<Observer>, a: seq<Emission>, b: seq<Emission>)
    ensures BroadcastAll(observers, a + b) == BroadcastAll(observers, a) + BroadcastAll(observers, b)
    decreases |b|
  {
    if b == [] {
      assert a + b == a;
    } else {
      var init, x := b[..|b| - 1], b[|b| - 1];
      var last := Broadcast(observers, x.event, x.data);
      assert a + b == (a + init) + [x];
      assert b == init + [x];
      calc {
        BroadcastAll(observers, a + b);
        { BroadcastAllSnoc(observers, a + init, x); }
        BroadcastAll(observers, a + init) + last;
        { BroadcastAllAppend(observers, a, init); }
        BroadcastAll(observers, a) + BroadcastAll(observers, init) + last;
        { AppendAssoc(BroadcastAll(observers, a), BroadcastAll(observers, init), last); }
        BroadcastAll(observers, a) + (BroadcastAll(observers, init) + last);
        { BroadcastAllSnoc(observers, init, x); }
        BroadcastAll(observers, a) + BroadcastAll(observers, b);
      }
    }
  }

  /** onObserverRegistered's push: update with the current snapshot, interested or not. */
  function Pushed(o: Observer, s: ObserverState, w: WeatherData): ObserverState {
    Updated(o, s, MeasurementsChanged, Measurements(w))
  }

  function TargetOf(observer: Option<Observer>): set<object> {
    if observer.Some? then {Target(observer.value)} else {}
  }

  class WeatherStation {
    const location: string
    const subject: AbstractSubject
    var temperature: real
    var humidity: real
    var pressure: real
    var weatherCondition: string

    function Current(): Reading
      reads this
    {
      Reading(temperature, humidity, pressure, weatherCondition)
    }

    predicate Valid()
      reads this, subject
    {
      subject.Valid()
    }

    /** A new station reads 0 °C, 0 % and standard pressure, labelled "Unknown", with no observers. */
    constructor(location: string)
      ensures this.location == location
      ensures Current() == InitialReading
      ensures subject.observers == []
      ensures Valid()
      ensures fresh(subject)
    {
      this.location := location;
      temperature := 0.0;
      humidity := 0.0;
      pressure := StandardPressure;
      weatherCondition := "Unknown";
      subject := new AbstractSubject();
    }

    /** createWeatherData / getCurrentWeatherData: exactly the stored fields and the location. */
    function GetCurrentWeatherData(): (w: WeatherData)
      reads this
      ensures w.temperature == temperature && w.humidity == humidity && w.pressure == pressure
      ensures w.condition == weatherCondition && w.location == location
    {
      WeatherData(temperature, humidity, pressure, weatherCondition, location)
    }

    /** notifyObservers for an event the station sends, continuing a run of notifications. */
    method Announce(e: Event, d: Payload, ghost sent: seq<Emission>, ghost initial: map<Observer, ObserverState>)
      returns (notices: seq<Notice>)
      requires Valid()
      requires forall o | o in subject.observers :: o in initial && StateOf(o) == Replay(o, initial[o], sent)
      modifies Targets(subject.observers)
      ensures unchanged(this, subject)
      ensures notices == Broadcast(subject.observers, e, d)
      ensures forall o | o in subject.observers :: StateOf(o) == Replay(o, initial[o], sent + [Emission(e, d)])
    {
      var r := subject.NotifyObservers(Some(e), d);
      notices := r.value;
      forall o | o in subject.observers
        ensures Replay(o, initial[o], sent + [Emission(e, d)]) == Delivered(o, Replay(o, initial[o], sent), e, d)
      {
        ReplaySnoc(o, initial[o], sent, Emission(e, d));
      }
    }

    /**
     * setMeasurements: store the three values, relabel, then announce, in
     * order, what Emissions lists.
     */
    method SetMeasurements(t: real, h: real, p: real) returns (notices: seq<Notice>)
      requires Valid()
      modifies this, Targets(subject.observers)
      ensures unchanged(subject) && Valid()
      ensures Current() == Reading(t, h, p, ConditionLabel(t, h, p))
      ensures notices == BroadcastAll(subject.observers, Emissions(old(Current()), t, h, p, location))
      ensures forall o | o in subject.observers ::
        StateOf(o) == Replay(o, old(StateOf(o)), Emissions(old(Current()), t, h, p, location))
    {
      ghost var initial := map o | o in subject.observers :: StateOf(o);
      ghost var start := Current();
      var temperatureChanged := Abs(temperature - t) > TemperatureThreshold;
      var humidityChanged := Abs(humidity - h) > HumidityThreshold;
      var pressureChanged := Abs(pressure - p) > PressureThreshold;
      assert temperatureChanged == (Abs(start.temperature - t) > TemperatureThreshold);
      assert humidityChanged == (Abs(start.humidity - h) > HumidityThreshold);
      assert pressureChanged == (Abs(start.pressure - p) > PressureThreshold);
      temperature, humidity, pressure := t, h, p;

      ghost var sent, next: seq<Emission>;
      var more: seq<Notice>;
      assert weatherCondition == start.condition;
      notices, sent := UpdateWeatherCondition(initial);
      ghost var condition := weatherCondition;
      ghost var cond := sent;
      assert condition == ConditionLabel(t, h, p);
      assert cond == ConditionPart(start.condition, condition);

      ghost var fields := FieldPart(temperatureChanged, TemperatureChanged, t)
        + FieldPart(humidityChanged, HumidityChanged, h)
        + FieldPart(pressureChanged, PressureChanged, p);
      more, next := AnnounceFields(temperatureChanged, humidityChanged, pressureChanged, sent, initial);
      BroadcastAllAppend(subject.observers, sent, fields);
      notices, sent := notices + more, next;

      ghost var tail := [Emission(MeasurementsChanged, Measurements(WeatherData(t, h, p, condition, location)))]
        + ExtremePart(t, h, p, condition);
      more, next := AnnounceReading(sent, initial);
      BroadcastAllAppend(subject.observers, sent, tail);
      notices, sent := notices + more, next;

      assert temperature == t && humidity == h && pressure == p && weatherCondition == condition;
      assert sent == cond + fields + tail;
      EmissionsParts(start, t, h, p, location);
      forall o | o in subject.observers
        ensures StateOf(o) == Replay(o, old(StateOf(o)), Emissions(start, t, h, p, location))
      {
        assert initial[o] == old(StateOf(o));
      }
    }

    /** The snapshot as MEASUREMENTS_CHANGED, then checkExtremeWeather: the last notifications of setMeasurements. */
    method AnnounceReading(ghost sent: seq<Emission>, ghost initial: map<Observer, ObserverState>)
      returns (notices: seq<Notice>, ghost sent': seq<Emission>)
      requires Valid()
      requires forall o | o in subject.observers :: o in initial && StateOf(o) == Replay(o, initial[o], sent)
      modifies Targets(subject.observers)
      ensures unchanged(this, subject)
      ensures var tail := [Emission(MeasurementsChanged, Measurements(GetCurrentWeatherData()))]
          + ExtremePart(temperature, humidity, pressure, weatherCondition);
        sent' == sent + tail && notices == BroadcastAll(subject.observers, tail)
      ensures forall o | o in subject.observers :: StateOf(o) == Replay(o, initial[o], sent')
    {
      var snapshot := Emission(MeasurementsChanged, Measurements(GetCurrentWeatherData()));
      notices := Announce(snapshot.event, snapshot.data, sent, initial);
      BroadcastAllSnoc(subject.observers, [], snapshot);
      var more: seq<Notice>;
      ghost var ew := ExtremePart(temperature, humidity, pressure, weatherCondition);
      more, sent' := CheckExtremeWeather(sent + [snapshot], initial);
      BroadcastAllAppend(subject.observers, [snapshot], ew);
      notices := notices + more;
      AppendAssoc(sent, [snapshot], ew);
    }

    /** The three field notifications of setMeasurements, for the fields that changed, in order. */
    method AnnounceFields(
      temperatureChanged: bool, humidityChanged: bool, pressureChanged: bool,
      ghost sent: seq<Emission>, ghost initial: map<Observer, ObserverState>)
      returns (notices: seq<Notice>, ghost sent': seq<Emission>)
      requires Valid()
      requires forall o | o in subject.observers :: o in initial && StateOf(o) == Replay(o, initial[o], sent)
      modifies Targets(subject.observers)
      ensures unchanged(this, subject)
      ensures var parts :=
          FieldPart(temperatureChanged, TemperatureChanged, temperature)
          + FieldPart(humidityChanged, HumidityChanged, humidity)
          + FieldPart(pressureChanged, PressureChanged, pressure);
        sent' == sent + parts && notices == BroadcastAll(subject.observers, parts)
      ensures forall o | o in subject.observers :: StateOf(o) == Replay(o, initial[o], sent')
    {
      ghost var tc := FieldPart(temperatureChanged, TemperatureChanged, temperature);
      ghost var hc := FieldPart(humidityChanged, HumidityChanged, humidity);
      ghost var pc := FieldPart(pressureChanged, PressureChanged, pressure);
      var more: seq<Notice>;
      ghost var next: seq<Emission>;
      notices, sent' := AnnounceIf(temperatureChanged, TemperatureChanged, temperature, sent, initial);

      more, next := AnnounceIf(humidityChanged, HumidityChanged, humidity, sent', initial);
      BroadcastAllAppend(subject.observers, tc, hc);
      notices, sent' := notices + more, next;

      more, next := AnnounceIf(pressureChanged, PressureChanged, pressure, sent', initial);
      BroadcastAllAppend(subject.observers, tc + hc, pc);
      notices, sent' := notices + more, next;
    }

    /** notifyObservers(e, v) for a field whose change passed its threshold; nothing otherwise. */
    method AnnounceIf(changed: bool, e: Event, v: real, ghost sent: seq<Emission>, ghost initial: map<Observer, ObserverState>)
      returns (notices: seq<Notice>, ghost sent': seq<Emission>)
      requires Valid()
      requires forall o | o in subject.observers :: o in initial && StateOf(o) == Replay(o, initial[o], sent)
      modifies Targets(subject.observers)
      ensures unchanged(this, subject)
      ensures sent' == sent + FieldPart(changed, e, v)
      ensures notices == BroadcastAll(subject.observers, FieldPart(changed, e, v))
      ensures forall o | o in subject.observers :: StateOf(o) == Replay(o, initial[o], sent')
    {
      if changed {
        notices := Announce(e, Number(v), sent, initial);
        BroadcastAllSnoc(subject.observers, [], Emission(e, Number(v)));
        sent' := sent + [Emission(e, Number(v))];
      } else {
        notices, sent' := [], sent;
        assert sent + [] == sent;
      }
    }

    /**
     * updateWeatherCondition: relabel the stored values through
     * setWeatherCondition, as the first notification of a run.
     */
    method UpdateWeatherCondition(ghost initial: map<Observer, ObserverState>)
      returns (notices: seq<Notice>, ghost sent: seq<Emission>)
      requires Valid()
      requires forall o | o in subject.observers :: o in initial && StateOf(o) == initial[o]
      modifies this, Targets(subject.observers)
      ensures unchanged(subject)
      ensures Valid()
      ensures temperature == old(temperature) && humidity == old(humidity) && pressure == old(pressure)
      ensures weatherCondition == ConditionLabel(temperature, humidity, pressure)
      ensures sent == ConditionPart(old(weatherCondition), weatherCondition)
      ensures notices == BroadcastAll(subject.observers, sent)
      ensures forall o | o in subject.observers :: StateOf(o) == Replay(o, initial[o], sent)
    {
      var newCondition := ConditionLabel(temperature, humidity, pressure);
      sent := ConditionPart(weatherCondition, newCondition);
      notices := SetWeatherCondition(newCondition);
      BroadcastAllSnoc(subject.observers, [], Emission(WeatherChanged, Text(newCondition)));
      forall o | o in subject.observers ensures StateOf(o) == Replay(o, initial[o], sent) {
        ReplaySnoc(o, initial[o], [], Emission(WeatherChanged, Text(newCondition)));
      }
    }

    /** setWeatherCondition: a different condition is stored and announced; the same condition is a no-op. */
    method SetWeatherCondition(condition: string) returns (notices: seq<Notice>)
      requires Valid()
      modifies this, Targets(subject.observers)
      ensures unchanged(subject)
      ensures Valid()
      ensures Current() == old(Current()).(condition := condition)
      ensures old(weatherCondition) != condition ==>
        notices == Broadcast(subject.observers, WeatherChanged, Text(condition))
      ensures old(weatherCondition) == condition ==> notices == []
      ensures forall o | o in subject.observers ::
        StateOf(o) == if old(weatherCondition) != condition
                      then Delivered(o, old(StateOf(o)), WeatherChanged, Text(condition))
                      else old(StateOf(o))
    {
      notices := [];
      if weatherCondition != condition {
        weatherCondition := condition;
        var r := subject.NotifyObservers(Some(WeatherChanged), Text(condition));
        notices := r.value;
      }
    }

    /** checkExtremeWeather: announce an alert for an extreme reading. */
    method CheckExtremeWeather(ghost sent: seq<Emission>, ghost initial: map<Observer, ObserverState>)
      returns (notices: seq<Notice>, ghost sent': seq<Emission>)
      requires Valid()
      requires forall o | o in subject.observers :: o in initial && StateOf(o) == Replay(o, initial[o], sent)
      modifies Targets(subject.observers)
      ensures unchanged(this, subject)
      ensures sent' == sent + ExtremePart(temperature, humidity, pressure, weatherCondition)
      ensures notices == BroadcastAll(subject.observers, ExtremePart(temperature, humidity, pressure, weatherCondition))
      ensures forall o | o in subject.observers :: StateOf(o) == Replay(o, initial[o], sent')
    {
      if IsExtreme(temperature, humidity, pressure) {
        var extremeData := NewExtremeWeatherData(temperature, humidity, pressure, weatherCondition);
        notices := Announce(ExtremeWeather, Extreme(extremeData), sent, initial);
        BroadcastAllSnoc(subject.observers, [], Emission(ExtremeWeather, Extreme(extremeData)));
        sent' := sent + [Emission(ExtremeWeather, Extreme(extremeData))];
      } else {
        notices, sent' := [], sent;
        assert sent + [] == sent;
      }
    }

    /**
     * registerObserver with the station's onObserverRegistered: a newly added
     * observer alone is sent the current snapshot as MEASUREMENTS_CHANGED,
     * whatever its interests; an exception from that update is swallowed and
     * the registration stands.
     */
    method RegisterObserver(observer: Option<Observer>) returns (r: Result<bool, Exception>)
      requires Valid()
      modifies subject, TargetOf(observer)
      ensures Valid()
      ensures observer.None? ==> r == Failure(IllegalArgument("Observer cannot be null"))
      ensures observer.Some? ==> r == Success(observer.value !in old(subject.observers))
      ensures subject.observers == if r == Success(true) then old(subject.observers) + [observer.value] else old(subject.observers)
      ensures observer.Some? ==>
        StateOf(observer.value) == if r == Success(true)
                                   then Pushed(observer.value, old(StateOf(observer.value)), GetCurrentWeatherData())
                                   else old(StateOf(observer.value))
    {
      r := subject.RegisterObserver(observer);
      if r == Success(true) {
        var _ := Update(observer.value, MeasurementsChanged, Measurements(GetCurrentWeatherData()));
      }
    }

    method RemoveObserver(observer: Option<Observer>) returns (removed: bool)
      requires Valid()
      modifies subject
      ensures Valid()
      ensures removed <==> observer.Some? && observer.value in old(subject.observers)
      ensures observer.None? ==> subject.observers == old(subject.observers)
      ensures observer.Some? ==> subject.observers == RemoveFirst(old(subject.observers), observer.value)
    {
      removed := subject.RemoveObserver(observer);
    }

    method ClearObservers()
      requires Valid()
      modifies subject
      ensures Valid() && subject.observers == []
    {
      subject.ClearObservers();
    }

    /** getObserverCount, inherited: the number of distinct registered observers. */
    function GetObserverCount(): (r: int)
      reads this, subject
      ensures r == |subject.observers|
      ensures subject.Valid() ==> r == |Observers.Targets(subject.observers)|
    {
      subject.GetObserverCount()
    }
  }
}
