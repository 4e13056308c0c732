/** The callback that each sub-HAL is given: it prepares the sub-HAL's events and hands them to the proxy. */
module HalProxyCallbacks {
  import opened Handles
  import opened Events
  import opened ProxyCore
  import opened HalProxyObject

  class HalProxyCallback {
    const subHalIndex: nat

    constructor (index: nat)
      ensures subHalIndex == index
    {
      subHalIndex := index;
    }

    method ProcessEvents(sensors: SensorMap, events: seq<Event>)
      returns (eventsOut: seq<Event>, numWakeupEvents: nat)
      ensures eventsOut == Processed(sensors, Tagger(subHalIndex), events)
      ensures numWakeupEvents == CountWake(sensors, eventsOut)
    {
      numWakeupEvents := 0;
      eventsOut := [];
      ghost var tag := Tagger(subHalIndex);
      for i := 0 to |events|
        invariant eventsOut == Processed(sensors, tag, events[..i])
        invariant numWakeupEvents == CountWake(sensors, eventsOut)
      {
        var event := events[i];
        event := event.(handle := SetSubHalIndex(event.handle, subHalIndex));
        if event.sensorType == DynamicSensorMeta {
          event := event.(dynamicHandle := SetSubHalIndex(event.dynamicHandle, subHalIndex));
        }
        assert TagAll(tag, events[..i + 1]) == TagAll(tag, events[..i]) + [event];
        var sensor := Lookup(sensors, event.handle);
        if sensor.sensorType == PickUpGesture && !event.scalarIsZero {
          continue;
        }
        if sensor.flags.wakeUp {
          numWakeupEvents := numWakeupEvents + 1;
        }
        eventsOut := eventsOut + [event];
      }
      assert events[..|events|] == events;
    }

    /** `locked` says whether the scoped wake lock passed along is locked. */
    method PostEvents(proxy: HalProxy, events: seq<Event>, locked: bool, now: int, ok: bool)
      requires proxy.eventQueue.Valid()
      modifies proxy, proxy.eventQueue
      ensures proxy.eventQueue == old(proxy.eventQueue) && proxy.eventQueue.Valid()
      ensures proxy.sensors == old(proxy.sensors)
      ensures events == [] || !old(proxy.threadsRun) ==>
                proxy.Shared() == old(proxy.Shared()) && proxy.eventQueue.contents == old(proxy.eventQueue.contents)
      ensures events != [] && old(proxy.threadsRun) ==>
                var processed := Processed(proxy.sensors, Tagger(subHalIndex), events);
                (proxy.Shared(), proxy.eventQueue.contents)
                == PostNow(old(proxy.Shared()), proxy.cap, old(proxy.eventQueue.contents), proxy.eventQueue.quantum,
                           processed, CountWake(proxy.sensors, processed), locked, now, ok)
    {
      if |events| == 0 || !proxy.threadsRun {
        return;
      }
      var processedEvents, numWakeupEvents := ProcessEvents(proxy.sensors, events);
      proxy.PostEventsToMessageQueue(processedEvents, numWakeupEvents, locked, now, ok);
    }

    /** `postEvents` of the local sub-HAL: the events are posted under a scoped wake lock, which is released
        afterwards. What stays is one reference for each wake-up event that reaches the proxy. */
    method PostScoped(proxy: HalProxy, events: seq<Event>, wakeup: bool, now: int, ok: bool)
      requires proxy.eventQueue.Valid() && proxy.wakelockTimeoutResetTime <= now && now >= 0
      requires proxy.wakelockRefCount > 0 ==> proxy.wakeLockHeld
      modifies proxy, proxy.eventQueue
      ensures proxy.eventQueue == old(proxy.eventQueue) && proxy.eventQueue.Valid()
      ensures old(proxy.threadsRun) && wakeup ==>
                proxy.wakelockRefCount == old(proxy.wakelockRefCount)
                  + CountWake(proxy.sensors, Processed(proxy.sensors, Tagger(subHalIndex), events))
                && proxy.wakeLockHeld == (proxy.wakelockRefCount > 0)
      ensures !old(proxy.threadsRun) || !wakeup ==> proxy.wakelockRefCount == old(proxy.wakelockRefCount)
    {
      var locked, createdAt := false, now;
      if wakeup {
        locked, createdAt := proxy.IncrementRefCountAndMaybeAcquireWakelock(1, now);
      }
      ghost var processed := Processed(proxy.sensors, Tagger(subHalIndex), events);
      PostNowReferences(proxy.Shared(), proxy.cap, proxy.eventQueue.contents, proxy.eventQueue.quantum,
                        processed, CountWake(proxy.sensors, processed), locked, now, ok);
      PostEvents(proxy, events, locked, now, ok);
      if locked {
        proxy.DecrementRefCountAndMaybeReleaseWakelock(1, createdAt);
      }
    }
  }
}
