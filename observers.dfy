// The observer side of the pattern: the observers a subject can hold, the
// dispatch of isInterestedIn / update to them, and AbstractSubject, the
// ordered, duplicate-free observer list with its notification loop.

module Observers {
  import opened Wrappers
  import opened Exceptions
  import opened Events
  import WeatherDisplays
  import StatisticsDisplays
  import ForecastDisplays

  /** A recorder's isInterestedIn: Observer's default (every event), a fixed set, or a check that throws. */
  datatype Interest = AllEvents | Only(events: set<Event>) | Throws(error: Exception)

  /**
   * Any other Observer implementation, as the tests write them: it records
   * each event update is called with, may narrow isInterestedIn, and may
   * throw from update instead of recording.
   */
  class Recorder {
    const name: string
    const interest: Interest
    const failure: Option<Exception>
    var receivedEvents: seq<Event>

    constructor(name: string, interest: Interest, failure: Option<Exception>)
      ensures this.name == name && this.interest == interest && this.failure == failure
      ensures receivedEvents == []
    {
      this.name := name;
      this.interest := interest;
      this.failure := failure;
      receivedEvents := [];
    }

    method Update(e: Event, d: Payload) returns (outcome: Outcome<Exception>)
      modifies this
      ensures failure.Some? ==> outcome == Fail(failure.value) && receivedEvents == old(receivedEvents)
      ensures failure.None? ==> outcome == Pass && receivedEvents == old(receivedEvents) + [e]
    {
      if failure.Some? {
        return Fail(failure.value);
      }
      receivedEvents := receivedEvents + [e];
      return Pass;
    }

    /** The number of successful update calls. */
    function GetUpdateCount(): int
      reads this
    {
      |receivedEvents|
    }
  }

  /**
   * A registered observer: a reference to one of the display objects or to a
   * recorder. Two observers are equal exactly when they are the same object,
   * which is the equality List.contains and List.remove use here, since no
   * observer class overrides equals.
   */
  datatype Observer =
    | WeatherObserver(weather: WeatherDisplays.WeatherDisplay)
    | StatisticsObserver(statistics: StatisticsDisplays.StatisticsDisplay)
    | ForecastObserver(forecast: ForecastDisplays.ForecastDisplay)
    | RecordingObserver(recorder: Recorder)

  /** The object an observer is. */
  function Target(o: Observer): object {
    match o
    case WeatherObserver(w) => w
    case StatisticsObserver(s) => s
    case ForecastObserver(f) => f
    case RecordingObserver(r) => r
  }

  function Targets(observers: seq<Observer>): set<object> {
    set o | o in observers :: Target(o)
  }

  /** Distinct observers are distinct objects. */
  lemma TargetInjective(a: Observer, b: Observer)
    requires a != b
    ensures Target(a) != Target(b)
  {
  }

  /** The observers of a list without duplicates are distinct objects. */
  lemma DistinctTargets(observers: seq<Observer>, i: int)
    requires NoDuplicates(observers) && 0 <= i < |observers|
    ensures forall j :: 0 <= j < |observers| && j != i ==> Target(observers[j]) != Target(observers[i])
  {
    forall j | 0 <= j < |observers| && j != i ensures Target(observers[j]) != Target(observers[i]) {
      TargetInjective(observers[j], observers[i]);
    }
  }

  /** getName. */
  function ObserverName(o: Observer): string {
    match o
    case WeatherObserver(w) => w.name
    case StatisticsObserver(s) => s.name
    case ForecastObserver(f) => f.name
    case RecordingObserver(r) => r.name
  }

  /** isInterestedIn: the answer, or the exception it throws. */
  function InterestIn(o: Observer, e: Event): (r: Result<bool, Exception>)
    ensures o.WeatherObserver? ==> r == Success(true)
    ensures o.StatisticsObserver? ==> r == Success(e == MeasurementsChanged)
    ensures o.ForecastObserver? ==>
      r == Success(e == MeasurementsChanged || e == PressureChanged || e == ExtremeWeather)
  {
    match o
    case WeatherObserver(w) => Success(w.IsInterestedIn(e))
    case StatisticsObserver(_) => Success(StatisticsDisplays.IsInterestedIn(e))
    case ForecastObserver(_) => Success(ForecastDisplays.IsInterestedIn(e))
    case RecordingObserver(r) =>
      match r.interest
      case AllEvents => Success(true)
      case Only(events) => Success(e in events)
      case Throws(x) => Failure(x)
  }

  /** The exception update throws, if any; it never depends on the observer's state. */
  function UpdateOutcome(o: Observer, e: Event, d: Payload): (r: Outcome<Exception>)
    ensures o.WeatherObserver? || o.StatisticsObserver? ==> r == Pass
  {
    match o
    case ForecastObserver(_) =>
      (match ForecastDisplays.UpdateError(e, d)
       case Some(x) => Fail(x)
       case None => Pass)
    case RecordingObserver(r) =>
      (match r.failure
       case Some(x) => Fail(x)
       case None => Pass)
    case _ => Pass
  }

  /** What an observer remembers of the notifications it was sent. */
  datatype ObserverState =
    | WeatherState(snapshot: Option<WeatherData>)
    | StatisticsState(stats: StatisticsDisplays.Stats)
    | ForecastState(forecast: ForecastDisplays.Forecast)
    | RecorderState(events: seq<Event>)

  function StateOf(o: Observer): ObserverState
    reads Target(o)
  {
    match o
    case WeatherObserver(w) => WeatherState(w.currentWeatherData)
    case StatisticsObserver(s) => StatisticsState(s.State())
    case ForecastObserver(f) => ForecastState(f.State())
    case RecordingObserver(r) => RecorderState(r.receivedEvents)
  }

  /** An observer's state after an update call that did not throw. */
  function NextState(o: Observer, s: ObserverState, e: Event, d: Payload): ObserverState {
    match (o, s)
    case (WeatherObserver(_), WeatherState(c)) => WeatherState(WeatherDisplays.Receive(c, e, d))
    case (StatisticsObserver(_), StatisticsState(st)) => StatisticsState(StatisticsDisplays.Receive(st, e, d))
    case (ForecastObserver(_), ForecastState(f)) =>
      (match ForecastDisplays.Receive(f, e, d)
       case Success(f') => ForecastState(f')
       case Failure(_) => s)
    case (RecordingObserver(_), RecorderState(events)) => RecorderState(events + [e])
    case _ => s
  }

  /** The state after update(subject, e, d): moved on, or unchanged when update throws. */
  function Updated(o: Observer, s: ObserverState, e: Event, d: Payload): ObserverState {
    if UpdateOutcome(o, e, d).Pass? then NextState(o, s, e, d) else s
  }

  /** update, dispatched to the observer's own class. */
  method Update(o: Observer, e: Event, d: Payload) returns (outcome: Outcome<Exception>)
    modifies Target(o)
    ensures outcome == UpdateOutcome(o, e, d)
    ensures StateOf(o) == Updated(o, old(StateOf(o)), e, d)
  {
    match o {
      case WeatherObserver(w) =>
        w.Update(e, d);
        outcome := Pass;
      case StatisticsObserver(s) =>
        s.Update(e, d);
        outcome := Pass;
      case ForecastObserver(f) =>
        outcome := f.Update(e, d);
      case RecordingObserver(r) =>
        outcome := r.Update(e, d);
    }
  }

  /**
   * What one pass of notifyObservers' loop leaves behind: update was called
   * and returned, or isInterestedIn or update threw and onObserverError was
   * called with the observer and the exception.
   */
  datatype Notice = Notified(observer: Observer) | ErrorHook(observer: Observer, error: Exception)

  /** One pass of the loop: nothing when the observer is not interested. */
  function Delivery(o: Observer, e: Event, d: Payload): (r: seq<Notice>)
    ensures |r| <= 1
  {
    match InterestIn(o, e)
    case Failure(x) => [ErrorHook(o, x)]
    case Success(false) => []
    case Success(true) =>
      match UpdateOutcome(o, e, d)
      case Pass => [Notified(o)]
      case Fail(x) => [ErrorHook(o, x)]
  }

  /** The state one pass of the loop leaves the observer in. */
  function Delivered(o: Observer, s: ObserverState, e: Event, d: Payload): ObserverState {
    if InterestIn(o, e) == Success(true) then Updated(o, s, e, d) else s
  }

  /** One pass of notifyObservers' loop, with its try/catch. */
  method Deliver(o: Observer, e: Event, d: Payload) returns (notices: seq<Notice>)
    modifies Target(o)
    ensures notices == Delivery(o, e, d)
    ensures StateOf(o) == Delivered(o, old(StateOf(o)), e, d)
  {
    match InterestIn(o, e) {
      case Failure(x) =>
        notices := [ErrorHook(o, x)];
      case Success(interested) =>
        notices := [];
        if interested {
          var outcome := Update(o, e, d);
          match outcome {
            case Pass => notices := [Notified(o)];
            case Fail(x) => notices := [ErrorHook(o, x)];
          }
        }
    }
  }

  /** The notices of a whole notification, observer by observer in list order. */
  function Broadcast(observers: seq<Observer>, e: Event, d: Payload): seq<Notice> {
    if observers == [] then []
    else Broadcast(observers[..|observers| - 1], e, d) + Delivery(observers[|observers| - 1], e, d)
  }

  /** Notifying a list in two parts is notifying the parts one after the other. */
  lemma {:induction false} BroadcastAppend(a: seq<Observer>, b: seq<Observer>, e: Event, d: Payload)
    ensures Broadcast(a + b, e, d) == Broadcast(a, e, d) + Broadcast(b, e, d)
    decreases |b|
  {
    if b == [] {
      assert a + b == a;
    } else {
      assert (a + b)[..|a + b| - 1] == a + b[..|b| - 1];
      BroadcastAppend(a, b[..|b| - 1], e, d);
    }
  }

  /**
   * update is called on exactly the listed observers that are interested, and
   * onObserverError on exactly those whose isInterestedIn or update threw; a
   * failing observer does not keep any other from being notified.
   */
  lemma {:induction false} BroadcastNotices(observers: seq<Observer>, e: Event, d: Payload, o: Observer)
    ensures Notified(o) in Broadcast(observers, e, d) <==>
      o in observers && InterestIn(o, e) == Success(true) && UpdateOutcome(o, e, d) == Pass
    ensures (exists x :: ErrorHook(o, x) in Broadcast(observers, e, d)) <==>
      o in observers && (InterestIn(o, e).Failure? || (InterestIn(o, e) == Success(true) && UpdateOutcome(o, e, d).Fail?))
  {
    if observers != [] {
      var init, last := observers[..|observers| - 1], observers[|observers| - 1];
      BroadcastNotices(init, e, d, o);
      assert observers == init + [last];
      assert o in observers <==> o in init || o == last;
      var tail := Delivery(last, e, d);
      assert Broadcast(observers, e, d) == Broadcast(init, e, d) + tail;
      if InterestIn(last, e).Failure? {
        assert ErrorHook(last, InterestIn(last, e).error) in tail;
      } else if InterestIn(last, e) == Success(true) && UpdateOutcome(last, e, d).Fail? {
        assert ErrorHook(last, UpdateOutcome(last, e, d).error) in tail;
      }
    }
  }

  /** No observer appears twice. */
  predicate NoDuplicates(observers: seq<Observer>) {
    forall i, j :: 0 <= i < j < |observers| ==> observers[i] != observers[j]
  }

  /** List.remove: drop the first occurrence, if any. */
  function RemoveFirst(observers: seq<Observer>, o: Observer): (r: seq<Observer>)
    ensures o !in observers ==> r == observers
    ensures o in observers ==> |r| == |observers| - 1
    ensures multiset(r) == multiset(observers) - multiset{o}
  {
    if observers == [] then []
    else if observers[0] == o then
      assert observers == [o] + observers[1..];
      observers[1..]
    else
      assert observers == [observers[0]] + observers[1..];
      [observers[0]] + RemoveFirst(observers[1..], o)
  }

  /** Removing from a duplicate-free list keeps it so and leaves the observer absent. */
  lemma RemoveFirstNoDuplicates(observers: seq<Observer>, o: Observer)
    requires NoDuplicates(observers)
    ensures NoDuplicates(RemoveFirst(observers, o))
    ensures o !in RemoveFirst(observers, o)
  {
    var r := RemoveFirst(observers, o);
    assert multiset(r)[o] == 0 by {
      assert multiset(observers)[o] <= 1 by { CountAtMostOne(observers, o); }
    }
    forall i, j | 0 <= i < j < |r| ensures r[i] != r[j] {
      if r[i] == r[j] {
        CountAtLeastTwo(r, i, j);
        assert multiset(r)[r[i]] <= multiset(observers)[r[i]];
        CountAtMostOne(observers, r[i]);
        assert false;
      }
    }
  }

  lemma {:induction false} CountAtMostOne(observers: seq<Observer>, o: Observer)
    requires NoDuplicates(observers)
    ensures multiset(observers)[o] <= 1
  {
    if observers != [] {
      var init, last := observers[..|observers| - 1], observers[|observers| - 1];
      assert observers == init + [last];
      CountAtMostOne(init, o);
    }
  }

  lemma CountAtLeastTwo(s: seq<Observer>, i: int, j: int)
    requires 0 <= i < j < |s| && s[i] == s[j]
    ensures multiset(s)[s[i]] >= 2
  {
    assert s == s[..i] + [s[i]] + s[i + 1..j] + [s[j]] + s[j + 1..];
  }

  /** A list without duplicates names as many distinct objects as it has entries. */
  lemma {:induction false} TargetCount(observers: seq<Observer>)
    requires NoDuplicates(observers)
    ensures |Targets(observers)| == |observers|
  {
    if observers != [] {
      var n := |observers| - 1;
      var front, last := observers[..n], observers[n];
      assert NoDuplicates(front);
      TargetCount(front);
      assert observers == front + [last];
      assert Targets(observers) == Targets(front) + {Target(last)};
      forall o | o in front
        ensures Target(o) != Target(last)
      {
        var i :| 0 <= i < n && front[i] == o;
        assert observers[i] != observers[n];
        TargetInjective(o, last);
      }
    }
  }

  /**
   * AbstractSubject: the ordered observer list. Locking is not modelled: each
   * call runs alone, and a notification works on the list as it was when the
   * call began.
   */
  class AbstractSubject {
    var observers: seq<Observer>

    /** The list never holds the same observer twice. */
    predicate Valid()
      reads this
    {
      NoDuplicates(observers)
    }

    constructor()
      ensures observers == []
      ensures Valid()
    {
      observers := [];
    }

    /**
     * registerObserver: null is rejected, an observer already present is not
     * added again, and a new one is appended (after which the
     * onObserverRegistered hook, a no-op here, is called).
     */
    method RegisterObserver(observer: Option<Observer>) returns (r: Result<bool, Exception>)
      requires Valid()
      modifies this
      ensures Valid()
      ensures observer.None? ==> r == Failure(IllegalArgument("Observer cannot be null"))
      ensures observer.Some? ==> r == Success(observer.value !in old(observers))
      ensures observers == if r == Success(true) then old(observers) + [observer.value] else old(observers)
    {
      if observer.None? {
        return Failure(IllegalArgument("Observer cannot be null"));
      }
      var o := observer.value;
      if o in observers {
        return Success(false);
      }
      observers := observers + [o];
      return Success(true);
    }

    /**
     * removeObserver: null and absent observers give false; a present one is
     * removed (and the onObserverRemoved hook, a no-op here, is called).
     */
    method RemoveObserver(observer: Option<Observer>) returns (removed: bool)
      requires Valid()
      modifies this
      ensures Valid()
      ensures removed <==> observer.Some? && observer.value in old(observers)
      ensures observer.None? ==> observers == old(observers)
      ensures observer.Some? ==> observers == RemoveFirst(old(observers), observer.value)
      ensures observer.Some? ==> observer.value !in observers
    {
      if observer.None? {
        return false;
      }
      var o := observer.value;
      removed := o in observers;
      RemoveFirstNoDuplicates(observers, o);
      observers := RemoveFirst(observers, o);
    }

    /**
     * notifyObservers: a null event is rejected; otherwise every listed
     * observer, in order, is asked isInterestedIn and, if interested, updated,
     * each inside its own try/catch.
     */
    method NotifyObservers(event: Option<Event>, data: Payload) returns (r: Result<seq<Notice>, Exception>)
      requires Valid()
      modifies Targets(observers)
      ensures event.None? ==> r == Failure(IllegalArgument("Event cannot be null"))
      ensures event.Some? ==> r == Success(Broadcast(observers, event.value, data))
      ensures forall o | o in observers ::
        StateOf(o) == if event.None? then old(StateOf(o)) else Delivered(o, old(StateOf(o)), event.value, data)
    {
      if event.None? {
        return Failure(IllegalArgument("Event cannot be null"));
      }
      var e := event.value;
      if |observers| == 0 {
        return Success([]);
      }
      var notices := [];
      for i := 0 to |observers|
        invariant notices == Broadcast(observers[..i], e, data)
        invariant forall j :: 0 <= j < i ==>
          StateOf(observers[j]) == Delivered(observers[j], old(StateOf(observers[j])), e, data)
        invariant forall j :: i <= j < |observers| ==> StateOf(observers[j]) == old(StateOf(observers[j]))
      {
        var o := observers[i];
        assert observers[..i + 1] == observers[..i] + [o];
        DistinctTargets(observers, i);
        var delivered := Deliver(o, e, data);
        notices := notices + delivered;
      }
      assert observers[..|observers|] == observers;
      return Success(notices);
    }

    /** getObserverCount: the number of distinct registered observers. */
    function GetObserverCount(): (r: int)
      reads this
      ensures r == |observers|
      ensures Valid() ==> r == |Targets(observers)|
    {
      if Valid() then
        TargetCount(observers);
        |observers|
      else
        |observers|
    }

    /** Subject.hasObservers: some observer is registered. */
    predicate HasObservers()
      reads this
      ensures HasObservers() <==> observers != []
    {
      GetObserverCount() > 0
    }

    /** getObservers: a copy, which is what a sequence value is. */
    function GetObservers(): (r: seq<Observer>)
      reads this
      ensures r == observers
    {
      observers
    }

    /** clearObservers: empties the list without calling onObserverRemoved. */
    method ClearObservers()
      modifies this
      ensures observers == []
      ensures Valid() && !HasObservers()
    {
      observers := [];
    }
  }
}
