/** Sensor events and descriptions, and the callback that prepares a sub-HAL's events for the queue. */
module Events {
  import opened Handles
  import opened Sequences

  datatype SensorType = MetaData | PickUpGesture | DynamicSensorMeta | Other(code: int)

  datatype SensorFlags = SensorFlags(wakeUp: bool, directReport: nat, directChannel: nat, others: nat)

  datatype SensorInfo = SensorInfo(
    handle: Handle, sensorType: SensorType, typeAsString: string, flags: SensorFlags, details: int)

  /** `scalarIsZero` says whether the payload, read as a scalar, compares equal to zero;
      `dynamicHandle` is the payload's dynamic-sensor handle; `rest` is everything else. */
  datatype Event = Event(
    handle: Handle, sensorType: SensorType, scalarIsZero: bool, dynamicHandle: Handle, rest: int)

  type SensorMap = map<Handle, SensorInfo>

  /** What the subscript operator of `std::map` value-initialises. */
  const DEFAULT_SENSOR: SensorInfo := SensorInfo(Handle(0, 0), MetaData, "", SensorFlags(false, 0, 0, 0), 0)

  function Lookup(sensors: SensorMap, h: Handle): SensorInfo {
    if h in sensors then sensors[h] else DEFAULT_SENSOR
  }

  predicate IsWakeUp(sensors: SensorMap, e: Event) {
    Lookup(sensors, e.handle).flags.wakeUp
  }

  /** The number of wake-up events. */
  function CountWake(sensors: SensorMap, events: seq<Event>): nat {
    if events == [] then 0
    else
      CountWake(sensors, events[..|events| - 1]) + (if IsWakeUp(sensors, events[|events| - 1]) then 1 else 0)
  }

  /** The positions of events of registered wake-up sensors. */
  ghost function WakePositions(sensors: SensorMap, events: seq<Event>): set<nat> {
    set i: nat | i < |events| && events[i].handle in sensors && sensors[events[i].handle].flags.wakeUp
  }

  lemma {:induction false} CountWakeMeans(sensors: SensorMap, events: seq<Event>)
    ensures CountWake(sensors, events) == |WakePositions(sensors, events)|
  {
    if events == [] {
      assert WakePositions(sensors, events) == {};
    } else {
      var n := |events| - 1;
      CountWakeMeans(sensors, events[..n]);
      var before := WakePositions(sensors, events[..n]);
      if events[n].handle in sensors && sensors[events[n].handle].flags.wakeUp {
        assert WakePositions(sensors, events) == before + {n};
      } else {
        assert WakePositions(sensors, events) == before;
      }
    }
  }

  function HandlesOf(events: seq<Event>): set<Handle> {
    set e <- events :: e.handle
  }

  lemma OneMore(sensors: SensorMap, events: seq<Event>, n: nat)
    requires n < |events|
    ensures HandlesOf(events[..n + 1]) == HandlesOf(events[..n]) + {events[n].handle}
    ensures CountWake(sensors, events[..n + 1])
         == CountWake(sensors, events[..n]) + if IsWakeUp(sensors, events[n]) then 1 else 0
  {
    assert events[..n + 1][..n] == events[..n];
    assert events[..n + 1] == events[..n] + [events[n]];
  }

  lemma NoWake(sensors: SensorMap)
    ensures CountWake(sensors, []) == 0
  {}

  lemma {:induction false} CountWakeAppend(sensors: SensorMap, a: seq<Event>, b: seq<Event>)
    ensures CountWake(sensors, a + b) == CountWake(sensors, a) + CountWake(sensors, b)
  {
    if b == [] {
      assert a + b == a;
    } else {
      assert (a + b)[..|a + b| - 1] == a + b[..|b| - 1];
      CountWakeAppend(sensors, a, b[..|b| - 1]);
    }
  }

  lemma CountWakeSplit(sensors: SensorMap, events: seq<Event>, n: nat)
    requires n <= |events|
    ensures CountWake(sensors, events) == CountWake(sensors, events[..n]) + CountWake(sensors, events[n..])
  {
    assert events[..n] + events[n..] == events;
    CountWakeAppend(sensors, events[..n], events[n..]);
  }

  lemma {:induction false} CountWakeByLookup(sensors1: SensorMap, sensors2: SensorMap, events: seq<Event>)
    requires forall h :: Lookup(sensors1, h) == Lookup(sensors2, h)
    ensures CountWake(sensors1, events) == CountWake(sensors2, events)
  {
    if events != [] {
      CountWakeByLookup(sensors1, sensors2, events[..|events| - 1]);
    }
  }

  /** How the proxy renames the handles of the sub-HAL at `index`. */
  function Tagger(index: nat): Handle -> Handle {
    h => SetSubHalIndex(h, index)
  }

  /** The event as the framework sees it: its handles renamed by `tag`. */
  function Tag(tag: Handle -> Handle, e: Event): Event {
    var tagged := e.(handle := tag(e.handle));
    if tagged.sensorType == DynamicSensorMeta then tagged.(dynamicHandle := tag(e.dynamicHandle)) else tagged
  }

  function TagAll(tag: Handle -> Handle, events: seq<Event>): (tagged: seq<Event>)
    ensures |tagged| == |events|
  {
    seq(|events|, i requires 0 <= i < |events| => Tag(tag, events[i]))
  }

  /** A pick-up gesture reports only zero scalars. */
  predicate Suppressed(sensors: SensorMap, tagged: Event) {
    Lookup(sensors, tagged.handle).sensorType == PickUpGesture && !tagged.scalarIsZero
  }

  /** The tagged events in order, without the suppressed ones. */
  function Processed(sensors: SensorMap, tag: Handle -> Handle, events: seq<Event>): seq<Event> {
    Filter(e => !Suppressed(sensors, e), TagAll(tag, events))
  }

  /** `out` is `e` with its handles renamed: that of its sensor, and the one in its payload if it reports a
      dynamic sensor. */
  predicate IsRenamed(tag: Handle -> Handle, e: Event, out: Event) {
    && out.handle == tag(e.handle)
    && out.dynamicHandle == (if e.sensorType == DynamicSensorMeta then tag(e.dynamicHandle) else e.dynamicHandle)
    && out.sensorType == e.sensorType && out.scalarIsZero == e.scalarIsZero && out.rest == e.rest
  }

  /** Exactly the events come out whose sensor is not registered as a pick-up gesture or whose scalar is zero, in their
      order, renamed and otherwise unchanged. */
  lemma ProcessedKeeps(sensors: SensorMap, tag: Handle -> Handle, events: seq<Event>) returns (at: seq<nat>)
    ensures Selects(at, Processed(sensors, tag, events), TagAll(tag, events))
    ensures forall i :: 0 <= i < |events| ==> (i in at <==> !Suppressed(sensors, Tag(tag, events[i])))
    ensures forall i :: 0 <= i < |events| ==>
              var g := tag(events[i].handle);
              (i in at <==> !(g in sensors && sensors[g].sensorType == PickUpGesture) || events[i].scalarIsZero)
    ensures |at| == |Processed(sensors, tag, events)|
    ensures forall k :: 0 <= k < |at| ==>
              at[k] < |events| && IsRenamed(tag, events[at[k]], Processed(sensors, tag, events)[k])
  {
    at := FilterSelects(e => !Suppressed(sensors, e), TagAll(tag, events));
  }

  /** Cutting a post into several posts changes neither the events nor the wake-up count. */
  lemma ProcessedAppend(sensors: SensorMap, tag: Handle -> Handle, a: seq<Event>, b: seq<Event>)
    ensures Processed(sensors, tag, a + b) == Processed(sensors, tag, a) + Processed(sensors, tag, b)
    ensures CountWake(sensors, Processed(sensors, tag, a + b))
         == CountWake(sensors, Processed(sensors, tag, a)) + CountWake(sensors, Processed(sensors, tag, b))
  {
    assert TagAll(tag, a + b) == TagAll(tag, a) + TagAll(tag, b);
    FilterAppend(e => !Suppressed(sensors, e), TagAll(tag, a), TagAll(tag, b));
    CountWakeAppend(sensors, Processed(sensors, tag, a), Processed(sensors, tag, b));
  }
}
