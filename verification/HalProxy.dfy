/** The HAL proxy as an object: each method is one of the program's functions, run without interference, and is
    proved against the functions that the transition system and the registry lemmas are about. */
module HalProxyObject {
  import opened Handles
  import opened Sequences
  import opened Events
  import opened ProxyCore
  import opened Registry
  import opened OneShotSensor
  import opened OperationModes
  import opened SubHal
  import DynamicSensors
  import opened Pipeline

  class EventQueue {
    const quantum: nat
    var contents: seq<Event>

    ghost predicate Valid()
      reads this
    {
      |contents| <= quantum
    }

    constructor (capacity: nat)
      ensures quantum == capacity && contents == []
    {
      quantum := capacity;
      contents := [];
    }

    /** Writes all of `events`, or nothing when `ok` says that the write fails. */
    method Write(events: seq<Event>, ok: bool)
      requires |contents| + |events| <= quantum
      modifies this
      ensures contents == if ok then old(contents) + events else old(contents)
    {
      if ok {
        contents := contents + events;
      }
    }

    /** The framework reads, and then `events` are written if there is room for them. */
    method WriteBlocking(events: seq<Event>, wait: BlockingWrite) returns (read: seq<Event>, ok: bool)
      requires Valid()
      modifies this
      ensures Valid() && |read| == Min(wait.taken, |old(contents)|)
      ensures ok == (wait.ok && |old(contents)| - |read| + |events| <= quantum)
      ensures read + contents == old(contents) + if ok then events else []
    {
      var n := Min(wait.taken, |contents|);
      read, contents := contents[..n], contents[n..];
      ok := wait.ok && |contents| + |events| <= quantum;
      assert read + contents == old(contents);
      if ok {
        Write(events, true);
      }
    }
  }

  /** The acknowledgements of the framework that the wake-lock thread has not read. */
  class WakeLockQueue {
    var acks: seq<nat>

    constructor ()
      ensures acks == []
    {
      acks := [];
    }
  }

  class HalProxy {
    const cap: nat       // kMaxSizePendingWriteEventsQueue
    const timeout: nat   // kWakelockTimeoutNs

    var threadsRun: bool
    var pendingWriteEventsQueue: seq<Batch>
    var sizePendingWriteEventsQueue: int
    var mostEventsObserved: int
    var wakelockRefCount: nat
    var wakelockTimeoutStartTime: int
    var wakelockTimeoutResetTime: int
    var wakeLockHeld: bool
    var eventQueue: EventQueue
    var wakeLockQueue: WakeLockQueue
    var eventQueueFlag: bool      // whether the event flags of the two queues exist
    var wakelockQueueFlag: bool
    var threadsJoinable: bool
    var sensors: SensorMap
    var dynamicSensors: SensorMap
    var subHals: seq<SensorsSubHal>
    var directChannelSubHal: Option<nat>
    var currentOperationMode: OperationMode
    ghost var allSensors: set<SysfsPollingOneShotSensor>

    constructor (cap: nat, timeout: nat, queue: EventQueue, acks: WakeLockQueue, subHals: seq<SensorsSubHal>,
                 lists: seq<seq<SensorInfo>>, ghost all: set<SysfsPollingOneShotSensor>)
      requires |lists| == |subHals|
      requires forall i, j :: 0 <= i < j < |subHals| ==> subHals[i] != subHals[j]
      requires forall i :: 0 <= i < |subHals| ==> subHals[i].Valid() && subHals[i].sensors.Values <= all
      requires forall i, j :: 0 <= i < j < |subHals| ==> subHals[i].sensors.Values !! subHals[j].sensors.Values
      ensures SubHalsOk()
      ensures this.cap == cap && this.timeout == timeout && this.subHals == subHals && eventQueue == queue
      ensures Shared() == Core(false, [], 0, 0, 0, 0, 0, false)
      ensures Registry(sensors, directChannelSubHal) == RegisterAll(lists)
      ensures dynamicSensors == map[] && currentOperationMode == Normal
      ensures wakeLockQueue == acks && !eventQueueFlag && !wakelockQueueFlag && !threadsJoinable
    {
      this.cap, this.timeout, eventQueue, this.subHals := cap, timeout, queue, subHals;
      threadsRun, pendingWriteEventsQueue, sizePendingWriteEventsQueue, mostEventsObserved := false, [], 0, 0;
      wakelockRefCount, wakelockTimeoutStartTime, wakelockTimeoutResetTime, wakeLockHeld := 0, 0, 0, false;
      sensors, dynamicSensors, directChannelSubHal, currentOperationMode := map[], map[], None, Normal;
      wakeLockQueue, eventQueueFlag, wakelockQueueFlag, threadsJoinable := acks, false, false, false;
      allSensors := all;
      new;
      InitializeSensorList(lists);
    }

    /** Gives the direct channel to the first sub-HAL that asks; returns the flags the sensor keeps. */
    method SetDirectChannelFlags(sensor: SensorInfo, subHalIndex: nat) returns (flags: SensorFlags)
      modifies this`directChannelSubHal
      ensures directChannelSubHal == DirectOwner(old(directChannelSubHal), sensor, subHalIndex)
      ensures flags == FlagsFor(old(directChannelSubHal), sensor, subHalIndex)
    {
      flags := sensor.flags;
      var sensorSupportsDirectChannel := flags.directReport != 0 || flags.directChannel != 0;
      if directChannelSubHal.None? && sensorSupportsDirectChannel {
        directChannelSubHal := Some(subHalIndex);
      } else if directChannelSubHal.Some? && directChannelSubHal.value != subHalIndex {
        flags := flags.(directReport := 0, directChannel := 0);
      }
    }

    /** `lists` holds what each sub-HAL returns from `getSensorsList`. */
    method InitializeSensorList(lists: seq<seq<SensorInfo>>)
      requires |lists| == |subHals| && sensors == map[] && directChannelSubHal.None?
      modifies this`sensors, this`directChannelSubHal
      ensures Registry(sensors, directChannelSubHal) == RegisterAll(lists)
    {
      for subHalIndex := 0 to |subHals|
        invariant Registry(sensors, directChannelSubHal) == RegisterAll(lists[..subHalIndex])
      {
        var list := lists[subHalIndex];
        ghost var before := RegisterAll(lists[..subHalIndex]);
        for k := 0 to |list|
          invariant Registry(sensors, directChannelSubHal) == RegisterList(before, list[..k], subHalIndex)
        {
          assert list[..k + 1][..k] == list[..k];
          var sensor := list[k];
          if SubHalIndexIsClear(sensor.handle) {
            sensor := sensor.(handle := SetSubHalIndex(sensor.handle, subHalIndex));
            var flags := SetDirectChannelFlags(sensor, subHalIndex);
            sensor := sensor.(flags := flags);
            if sensor.typeAsString == TILT_DETECTOR {
              sensor := sensor.(sensorType := PickUpGesture, typeAsString := PICK_UP_GESTURE);
            }
            sensors := sensors[sensor.handle := sensor];
          }
        }
        assert list[..|list|] == list;
        assert lists[..subHalIndex + 1][..subHalIndex] == lists[..subHalIndex];
      }
      assert lists[..|subHals|] == lists;
    }

    function Shared(): Core
      reads this
    {
      Core(threadsRun, pendingWriteEventsQueue, sizePendingWriteEventsQueue, mostEventsObserved,
           wakelockRefCount, wakelockTimeoutStartTime, wakelockTimeoutResetTime, wakeLockHeld)
    }

    method IncrementRefCountAndMaybeAcquireWakelock(delta: nat, now: int)
      returns (ok: bool, timeoutStart: int)
      modifies this`wakeLockHeld, this`wakelockTimeoutStartTime, this`wakelockRefCount
      ensures Shared() == Increment(old(Shared()), delta, now)
      ensures ok == threadsRun && (ok ==> timeoutStart == now)
      ensures ok ==> wakelockTimeoutStartTime == now && wakelockRefCount == old(wakelockRefCount) + delta
      ensures ok ==> wakeLockHeld == (old(wakeLockHeld) || old(wakelockRefCount) == 0)
    {
      timeoutStart := now;
      if !threadsRun {
        return false, timeoutStart;
      }
      if wakelockRefCount == 0 {
        wakeLockHeld := true;
      }
      wakelockTimeoutStartTime := now;
      wakelockRefCount := wakelockRefCount + delta;
      return true, timeoutStart;
    }

    method DecrementRefCountAndMaybeReleaseWakelock(delta: nat, timeoutStart: int)
      modifies this`wakeLockHeld, this`wakelockRefCount
      ensures Shared() == Decrement(old(Shared()), delta, timeoutStart)
      ensures threadsRun && (timeoutStart == -1 || timeoutStart >= wakelockTimeoutResetTime) ==>
                wakelockRefCount == Monus(old(wakelockRefCount), delta)
      ensures !threadsRun || (timeoutStart != -1 && timeoutStart < wakelockTimeoutResetTime) ==>
                wakelockRefCount == old(wakelockRefCount)
      ensures wakeLockHeld == (old(wakeLockHeld) && (wakelockRefCount > 0 || old(wakelockRefCount) == 0))
    {
      if !threadsRun {
        return;
      }
      var start := timeoutStart;
      if start == NO_STAMP {
        start := wakelockTimeoutResetTime;
      }
      if wakelockRefCount == 0 || start < wakelockTimeoutResetTime {
        return;
      }
      wakelockRefCount := wakelockRefCount - Min(wakelockRefCount, delta);
      if wakelockRefCount == 0 {
        wakeLockHeld := false;
      }
    }

    method ResetSharedWakelock(now: int)
      modifies this`wakeLockHeld, this`wakelockRefCount, this`wakelockTimeoutResetTime
      ensures Shared() == ResetWakelock(old(Shared()), now)
    {
      DecrementRefCountAndMaybeReleaseWakelock(wakelockRefCount, NO_STAMP);
      wakelockTimeoutResetTime := now;
    }

    /** The time left is positive or zero, and zero only at the very end of the time-out. */
    method SharedWakelockDidTimeout(now: int) returns (didTimeout: bool, timeLeft: int)
      ensures didTimeout <==> now > wakelockTimeoutStartTime + timeout
      ensures !didTimeout ==> now + timeLeft == wakelockTimeoutStartTime + timeout && timeLeft >= 0
    {
      var duration := now - wakelockTimeoutStartTime;
      didTimeout := duration > timeout;
      timeLeft := if didTimeout then 0 else timeout - duration;
    }

    /** Counts the wake-up events among the first `n`. Looking up an unknown handle adds a default
        sensor to the registry, which changes no later count. */
    method CountNumWakeupEvents(events: seq<Event>, n: nat) returns (numWakeupEvents: nat)
      requires n <= |events|
      modifies this`sensors
      ensures numWakeupEvents == CountWake(old(sensors), events[..n])
      ensures forall h :: Lookup(sensors, h) == Lookup(old(sensors), h)
      ensures sensors.Keys == old(sensors).Keys + HandlesOf(events[..n])
    {
      numWakeupEvents := 0;
      for i := 0 to n
        invariant numWakeupEvents == CountWake(old(sensors), events[..i])
        invariant forall h :: Lookup(sensors, h) == Lookup(old(sensors), h)
        invariant sensors.Keys == old(sensors).Keys + HandlesOf(events[..i])
      {
        var sensorHandle := events[i].handle;
        OneMore(old(sensors), events, i);
        if sensorHandle !in sensors {
          sensors := sensors[sensorHandle := DEFAULT_SENSOR];
        }
        if sensors[sensorHandle].flags.wakeUp {
          numWakeupEvents := numWakeupEvents + 1;
        }
      }
    }

    /** The direct write of a post: as much as there is room for, unless older events wait. */
    method WriteAtOnce(events: seq<Event>, ok: bool) returns (numToWrite: nat)
      requires eventQueue.Valid()
      modifies eventQueue
      ensures eventQueue.Valid() && numToWrite <= |events|
      ensures numToWrite
           == if ok then DirectCount(Shared(), events, eventQueue.quantum - |old(eventQueue.contents)|) else 0
      ensures eventQueue.contents == old(eventQueue.contents) + events[..numToWrite]
    {
      numToWrite := 0;
      if pendingWriteEventsQueue == [] {
        numToWrite := Min(|events|, eventQueue.quantum - |eventQueue.contents|);
        if numToWrite > 0 {
          eventQueue.Write(events[..numToWrite], ok);
          if !ok {
            numToWrite := 0;
          }
        }
      }
      assert eventQueue.contents == old(eventQueue.contents) + events[..numToWrite];
    }

    /** What was not written at once is queued if there is room, and lost otherwise. */
    method QueueRest(events: seq<Event>, numToWrite: nat, numWakeupEvents: nat)
      requires numToWrite <= |events|
      modifies this`pendingWriteEventsQueue, this`sizePendingWriteEventsQueue, this`mostEventsObserved
      ensures Shared() == FinishPost(old(Shared()), cap, events[numToWrite..], numWakeupEvents)
    {
      var numLeft := |events| - numToWrite;
      if numToWrite < |events| && sizePendingWriteEventsQueue + numLeft <= cap {
        var eventsLeft := events[numToWrite..];
        pendingWriteEventsQueue := pendingWriteEventsQueue + [Batch(eventsLeft, numWakeupEvents)];
        sizePendingWriteEventsQueue := sizePendingWriteEventsQueue + numLeft;
        if mostEventsObserved < sizePendingWriteEventsQueue {
          mostEventsObserved := sizePendingWriteEventsQueue;
        }
      }
    }

    /** `locked` says whether the caller's scoped wake lock is locked, `ok` whether the direct write succeeds. */
    method PostEventsToMessageQueue(events: seq<Event>, numWakeupEvents: nat, locked: bool, now: int, ok: bool)
      requires eventQueue.Valid()
      modifies this, eventQueue
      ensures eventQueue == old(eventQueue) && eventQueue.Valid()
      ensures (Shared(), eventQueue.contents)
           == PostNow(old(Shared()), cap, old(eventQueue.contents), eventQueue.quantum,
                      events, numWakeupEvents, locked, now, ok)
      ensures unchanged(`sensors, `dynamicSensors, `subHals, `directChannelSubHal, `currentOperationMode)
    {
      if locked {
        var _, _ := IncrementRefCountAndMaybeAcquireWakelock(numWakeupEvents, now);
      }
      var numToWrite := WriteAtOnce(events, ok);
      QueueRest(events, numToWrite, numWakeupEvents);
    }

    /** Gives back the references of a chunk whose blocking write failed. */
    method RefundFailedWrite(front: Batch)
      modifies this`wakeLockHeld, this`wakelockRefCount, this`sensors
      ensures Shared() == Decrement(old(Shared()), Refund(old(sensors), front, eventQueue.quantum), NO_STAMP)
      ensures forall h :: Lookup(sensors, h) == Lookup(old(sensors), h)
    {
      if front.wakeups > 0 {
        if |front.events| > eventQueue.quantum {
          var refund := CountNumWakeupEvents(front.events, eventQueue.quantum);
          DecrementRefCountAndMaybeReleaseWakelock(refund, NO_STAMP);
        } else {
          DecrementRefCountAndMaybeReleaseWakelock(front.wakeups, NO_STAMP);
        }
      }
    }

    /** One turn of the pending-writes thread: a blocking write of the front chunk, a refund when it fails, then
        the chunk comes off the queue. While it waits without the mutex, the framework reads and the
        threads may be stopped. */
    method WriteFrontChunk(wait: BlockingWrite) returns (chunk: seq<Event>, read: seq<Event>, ok: bool)
      requires pendingWriteEventsQueue != [] && eventQueue.Valid()
      modifies this`pendingWriteEventsQueue, this`sizePendingWriteEventsQueue, this`threadsRun,
               this`wakeLockHeld, this`wakelockRefCount, this`sensors, eventQueue
      ensures eventQueue.Valid() && chunk == Chunk(old(pendingWriteEventsQueue)[0], eventQueue.quantum)
      ensures |read| == Min(wait.taken, |old(eventQueue.contents)|)
      ensures ok == (wait.ok && |old(eventQueue.contents)| - |read| + |chunk| <= eventQueue.quantum)
      ensures wait.ok && wait.taken >= eventQueue.quantum ==> ok
      ensures read + eventQueue.contents == old(eventQueue.contents) + if ok then chunk else []
      ensures threadsRun == (old(threadsRun) && !wait.stops)
      ensures Shared() == WriteFront(old(Shared()).(running := threadsRun), old(sensors), eventQueue.quantum, ok)
      ensures forall h :: Lookup(sensors, h) == Lookup(old(sensors), h)
    {
      var pendingWriteEvents := pendingWriteEventsQueue[0].events;
      var eventQueueSize := eventQueue.quantum;
      var numToWrite := Min(|pendingWriteEvents|, eventQueueSize);
      chunk := pendingWriteEvents[..numToWrite];
      read, ok := eventQueue.WriteBlocking(chunk, wait);
      if wait.stops {
        threadsRun := false;
      }
      if !ok {
        RefundFailedWrite(pendingWriteEventsQueue[0]);
      }
      sizePendingWriteEventsQueue := sizePendingWriteEventsQueue - numToWrite;
      if |pendingWriteEvents| > eventQueueSize {
        pendingWriteEventsQueue :=
          [pendingWriteEventsQueue[0].(events := pendingWriteEvents[eventQueueSize..])] + pendingWriteEventsQueue[1..];
      } else {
        pendingWriteEventsQueue := pendingWriteEventsQueue[1..];
      }
    }

    ghost predicate QueueOk()
      reads this
    {
      QueueCountersOk(Shared(), cap) && WakeupsCovered(sensors, pendingWriteEventsQueue)
    }

    /** A turn of a drain that has come as far as `d`. */
    method Turn(wait: BlockingWrite, d: Drain, ghost known: SensorMap, ghost all: seq<Event>, ghost refs: nat)
      returns (after: Drain, read: seq<Event>, ok: bool)
      requires pendingWriteEventsQueue != [] && eventQueue.Valid() && eventQueue.quantum > 0
      requires Draining(Shared(), cap, known, d, all, refs)
      requires forall h :: Lookup(known, h) == Lookup(sensors, h)
      modifies this`pendingWriteEventsQueue, this`sizePendingWriteEventsQueue, this`threadsRun,
               this`wakeLockHeld, this`wakelockRefCount, this`sensors, eventQueue
      ensures Draining(Shared(), cap, known, after, all, refs)
      ensures forall h :: Lookup(known, h) == Lookup(sensors, h)
      ensures threadsRun == (old(threadsRun) && !wait.stops)
      ensures wait.ok && wait.taken >= eventQueue.quantum ==> after.dropped == d.dropped
      ensures d.written <= after.written && eventQueue.Valid()
      ensures read + eventQueue.contents == old(eventQueue.contents) + after.written[|d.written|..]
      ensures Iterations(pendingWriteEventsQueue, eventQueue.quantum) + 1
           == Iterations(old(pendingWriteEventsQueue), eventQueue.quantum)
    {
      ghost var c, sensorsBefore := Shared(), sensors;
      var chunk;
      chunk, read, ok := WriteFrontChunk(wait);
      after := AfterTurn(d, chunk, ok, threadsRun);
      StoppableTurn(c, Shared(), cap, known, sensorsBefore, d, all, refs, eventQueue.quantum, ok);
    }

    method NextTurn(
      waits: seq<BlockingWrite>, n: nat, d: Drain, read: seq<Event>, ghost known: SensorMap,
      ghost all: seq<Event>, ghost refs: nat, ghost total: nat, ghost began: bool, ghost start: seq<Event>)
      returns (after: Drain, nowRead: seq<Event>)
      requires n < |waits| && threadsRun && pendingWriteEventsQueue != []
      requires eventQueue.Valid() && eventQueue.quantum > 0
      requires DrainedTo(Shared(), cap, known, d, all, refs, eventQueue.quantum, total, began, waits, n)
      requires ReadInOrder(read, eventQueue.contents, start, d.written)
      requires forall h :: Lookup(known, h) == Lookup(sensors, h)
      modifies this`pendingWriteEventsQueue, this`sizePendingWriteEventsQueue, this`threadsRun,
               this`wakeLockHeld, this`wakelockRefCount, this`sensors, eventQueue
      ensures eventQueue.Valid()
      ensures DrainedTo(Shared(), cap, known, after, all, refs, eventQueue.quantum, total, began, waits, n + 1)
      ensures ReadInOrder(nowRead, eventQueue.contents, start, after.written)
      ensures forall h :: Lookup(known, h) == Lookup(sensors, h)
    {
      ghost var c, before := Shared(), eventQueue.contents;
      var more, ok;
      after, more, ok := Turn(waits[n], d, known, all, refs);
      nowRead := read + more;
      ReadOn(read, before, start, d.written, more, eventQueue.contents, after.written);
      DrainedStep(c, Shared(), cap, known, d, after, all, refs, eventQueue.quantum, total, began, waits, n);
    }

    /** Drains the pending queue while nobody posts, until it is empty or the threads stop; `waits` says what happens
        during each blocking write, and `turns` how many there were. The framework reads what was
        written, in order. Only the chunk whose write failed when the threads stopped is not refunded. */
    method HandlePendingWrites(waits: seq<BlockingWrite>) returns (d: Drain, read: seq<Event>, turns: nat)
      requires QueueOk() && eventQueue.Valid() && eventQueue.quantum > 0
      modifies this`pendingWriteEventsQueue, this`sizePendingWriteEventsQueue, this`threadsRun,
               this`wakeLockHeld, this`wakelockRefCount, this`sensors, eventQueue
      ensures eventQueue.Valid()
      ensures DrainedTo(Shared(), cap, old(sensors), d, Flatten(old(pendingWriteEventsQueue)), old(wakelockRefCount),
                        eventQueue.quantum, Iterations(old(pendingWriteEventsQueue), eventQueue.quantum),
                        old(threadsRun), waits, turns)
      ensures turns == |waits| || pendingWriteEventsQueue == [] || !threadsRun
      ensures ReadInOrder(read, eventQueue.contents, old(eventQueue.contents), d.written)
      ensures forall h :: Lookup(old(sensors), h) == Lookup(sensors, h)
    {
      d, read, turns := Drain([], [], []), [], 0;
      ghost var all, known, refs := Flatten(pendingWriteEventsQueue), sensors, wakelockRefCount;
      ghost var total := Iterations(pendingWriteEventsQueue, eventQueue.quantum);
      ghost var start, began := eventQueue.contents, threadsRun;
      DrainedFromStart(Shared(), cap, sensors, eventQueue.quantum, waits);
      NothingRead(start);
      while threadsRun && turns < |waits| && pendingWriteEventsQueue != []
        invariant eventQueue.Valid()
        invariant DrainedTo(Shared(), cap, known, d, all, refs, eventQueue.quantum, total, began, waits, turns)
        invariant ReadInOrder(read, eventQueue.contents, start, d.written)
        invariant forall h :: Lookup(known, h) == Lookup(sensors, h)
        decreases |waits| - turns
      {
        d, read := NextTurn(waits, turns, d, read, known, all, refs, total, began, start);
        turns := turns + 1;
      }
    }

    /** One turn of the wake-lock thread: `ack` is what the wake-lock queue yields in the time left, if anything. */
    method HandleWakelocksTurn(now: int, ack: Option<nat>)
      requires threadsRun && wakelockRefCount > 0
      modifies this`wakeLockHeld, this`wakelockRefCount, this`wakelockTimeoutResetTime
      ensures now > old(wakelockTimeoutStartTime) + timeout ==> Shared() == ResetWakelock(old(Shared()), now)
      ensures now <= old(wakelockTimeoutStartTime) + timeout ==>
                Shared() == if ack.Some? then Decrement(old(Shared()), ack.value, NO_STAMP) else old(Shared())
    {
      var didTimeout, _ := SharedWakelockDidTimeout(now);
      if didTimeout {
        ResetSharedWakelock(now);
      } else if ack.Some? {
        DecrementRefCountAndMaybeReleaseWakelock(ack.value, NO_STAMP);
      }
    }

    /** The sensor object that a request about `handle` is meant for, if there is one. */
    ghost function Target(handle: Handle): (target: set<SysfsPollingOneShotSensor>)
      reads `subHals, (set s <- subHals)`sensors
    {
      var route := Route(handle, |subHals|);
      if route.Some? && route.value.1 in subHals[route.value.0].sensors
      then {subHals[route.value.0].sensors[route.value.1]}
      else {}
    }

    method Activate(handle: Handle, enabled: bool) returns (r: Status)
      modifies Target(handle)
      ensures r == if old(Target(handle)) == {} then Status.BadValue else OK
      ensures forall s <- old(Target(handle)) :: s.State() == Activated(old(s.State()), enabled, true)
    {
      if !IsSubHalIndexValid(handle, |subHals|) {
        return Status.BadValue;
      }
      r := subHals[ExtractSubHalIndex(handle)].Activate(ClearSubHalIndex(handle), enabled);
    }

    ghost predicate SubHalsOk()
      reads `subHals, `allSensors, (set s <- subHals)`sensors
    {
      && (forall i, j :: 0 <= i < j < |subHals| ==> subHals[i] != subHals[j])
      && (forall i :: 0 <= i < |subHals| ==> subHals[i].Valid() && subHals[i].sensors.Values <= allSensors)
      && (forall i, j :: 0 <= i < j < |subHals| ==> subHals[i].sensors.Values !! subHals[j].sensors.Values)
    }

    /** Every sensor is in the mode of its sub-HAL. */
    ghost predicate SensorsInMode()
      reads `subHals, subHals, (set i, h | 0 <= i < |subHals| && h in subHals[i].sensors :: subHals[i].sensors[h])
    {
      forall i, h :: 0 <= i < |subHals| && h in subHals[i].sensors ==>
        subHals[i].sensors[h].mode == subHals[i].currentOperationMode
    }

    function CurrentModes(): Modes
      reads this, subHals
    {
      Modes(seq(|subHals|, i requires 0 <= i < |subHals| reads this, subHals => subHals[i].currentOperationMode),
            currentOperationMode)
    }

    method AskSubHal(k: nat, mode: OperationMode, accepts: bool) returns (r: Status)
      requires SubHalsOk() && k < |subHals|
      modifies {subHals[k]}`currentOperationMode, subHals[k].sensors.Values
      ensures r == if accepts then OK else Status.InvalidOperation
      ensures subHals[k].currentOperationMode == if accepts then mode else old(subHals[k].currentOperationMode)
      ensures SubHalsOk() && (old(SensorsInMode()) ==> SensorsInMode())
    {
      r := subHals[k].SetOperationMode(mode, accepts);
      if old(SensorsInMode()) {
        forall i, h | 0 <= i < |subHals| && h in subHals[i].sensors
          ensures subHals[i].sensors[h].mode == subHals[i].currentOperationMode
        {
          if i == k {
            assert subHals[k].sensors[h].State().mode
                == if accepts then mode else old(subHals[k].sensors[h].State().mode);
          } else {
            assert subHals[i].sensors[h] in subHals[i].sensors.Values;
            assert subHals[i].sensors[h].mode == old(subHals[i].sensors[h].mode);
          }
        }
      }
    }

    /** Asks the first `k` sub-HALs to go back to the current mode. */
    method ResetFlipped(k: nat, undo: seq<bool>)
      requires SubHalsOk() && k <= |subHals| == |undo|
      modifies (set s <- subHals)`currentOperationMode, allSensors
      ensures forall i :: 0 <= i < |subHals| ==>
                subHals[i].currentOperationMode ==
                if i < k && undo[i] then currentOperationMode else old(subHals[i].currentOperationMode)
      ensures old(SensorsInMode()) ==> SensorsInMode()
    {
      for j := 0 to k
        invariant SubHalsOk() && (old(SensorsInMode()) ==> SensorsInMode())
        invariant forall i :: 0 <= i < |subHals| ==>
                    subHals[i].currentOperationMode ==
                    if i < j && undo[i] then currentOperationMode else old(subHals[i].currentOperationMode)
      {
        var _ := AskSubHal(j, currentOperationMode, undo[j]);
      }
    }

    /** Asks the sub-HALs in order until one refuses; `k` is how many accepted. */
    method AskInOrder(mode: OperationMode, answers: seq<bool>) returns (result: Status, k: nat)
      requires SubHalsOk() && |answers| == |subHals|
      modifies (set s <- subHals)`currentOperationMode, allSensors
      ensures SubHalsOk() && k <= |subHals| && (result == OK <==> k == |subHals|)
      ensures forall i :: 0 <= i < k ==> answers[i]
      ensures k < |subHals| ==> !answers[k]
      ensures forall i :: 0 <= i < |subHals| ==>
                subHals[i].currentOperationMode == if i < k then mode else old(subHals[i].currentOperationMode)
      ensures old(SensorsInMode()) ==> SensorsInMode()
    {
      result := OK;
      k := 0;
      while k < |subHals|
        invariant 0 <= k <= |subHals| && result == OK && SubHalsOk()
        invariant old(SensorsInMode()) ==> SensorsInMode()
        invariant forall i :: 0 <= i < k ==> answers[i]
        invariant forall i :: 0 <= i < |subHals| ==>
                    subHals[i].currentOperationMode == if i < k then mode else old(subHals[i].currentOperationMode)
      {
        result := AskSubHal(k, mode, answers[k]);
        if result != OK {
          break;
        }
        k := k + 1;
      }
    }

    /** `answers` says which sub-HALs accept the new mode, `undo` which accept to go back. */
    method SetOperationMode(mode: OperationMode, answers: seq<bool>, undo: seq<bool>) returns (result: Status)
      requires SubHalsOk() && |answers| == |undo| == |subHals|
      modifies this`currentOperationMode, (set s <- subHals)`currentOperationMode, allSensors
      ensures CurrentModes() == SetMode(old(CurrentModes()), mode, answers, undo)
      ensures result == OK <==> forall i :: 0 <= i < |answers| ==> answers[i]
      ensures old(SensorsInMode()) ==> SensorsInMode()
    {
      var k;
      result, k := AskInOrder(mode, answers);
      if result != OK {
        ResetFlipped(k, undo);
      } else {
        currentOperationMode := mode;
      }
      SetModeIs(old(CurrentModes()), mode, answers, undo, k, CurrentModes());
    }

    method ConfigDirectReport(handle: Handle, isStop: bool) returns (outcome: ConfigOutcome)
      ensures outcome == ConfigRoute(directChannelSubHal, handle, isStop)
    {
      if directChannelSubHal.None? {
        return ConfigOutcome.InvalidOperation;
      }
      if handle == ALL_SENSORS && !isStop {
        return ConfigOutcome.BadValue;
      }
      var local := if handle != ALL_SENSORS then ClearSubHalIndex(handle) else handle;
      return To(directChannelSubHal.value, local);
    }

    /** `reported` is what the framework's callback receives. */
    method OnDynamicSensorsConnected(added: seq<SensorInfo>, subHalIndex: nat) returns (reported: seq<SensorInfo>)
      modifies this`dynamicSensors
      ensures DynamicSensors.Update(dynamicSensors, reported)
           == DynamicSensors.Connect(old(dynamicSensors), added, subHalIndex)
    {
      reported := [];
      for i := 0 to |added|
        invariant DynamicSensors.Update(dynamicSensors, reported)
               == DynamicSensors.Connect(old(dynamicSensors), added[..i], subHalIndex)
      {
        assert added[..i + 1][..i] == added[..i];
        var sensor := added[i];
        if SubHalIndexIsClear(sensor.handle) {
          sensor := sensor.(handle := SetSubHalIndex(sensor.handle, subHalIndex));
          dynamicSensors := dynamicSensors[sensor.handle := sensor];
          reported := reported + [sensor];
        }
      }
      assert added[..|added|] == added;
    }

    method OnDynamicSensorsDisconnected(removed: seq<Handle>, subHalIndex: nat) returns (reported: seq<Handle>)
      modifies this`dynamicSensors
      ensures DynamicSensors.Update(dynamicSensors, reported)
           == DynamicSensors.Disconnect(old(dynamicSensors), removed, subHalIndex)
    {
      reported := [];
      for i := 0 to |removed|
        invariant DynamicSensors.Update(dynamicSensors, reported)
               == DynamicSensors.Disconnect(old(dynamicSensors), removed[..i], subHalIndex)
      {
        assert removed[..i + 1][..i] == removed[..i];
        if SubHalIndexIsClear(removed[i]) {
          var sensorHandle := SetSubHalIndex(removed[i], subHalIndex);
          if sensorHandle in dynamicSensors {
            dynamicSensors := dynamicSensors - {sensorHandle};
            reported := reported + [sensorHandle];
          }
        }
      }
      assert removed[..|removed|] == removed;
    }

    static ghost predicate Off(off: set<SysfsPollingOneShotSensor>)
      reads off
    {
      forall s <- off :: !s.isEnabled
    }

    /** `off` contains the sensors that these handles reach. */
    ghost predicate Reaches(handles: set<Handle>, off: set<SysfsPollingOneShotSensor>)
      reads `subHals, `allSensors, (set s <- subHals)`sensors
    {
      off <= allSensors && forall g <- handles :: Target(g) <= off
    }

    method DisableSensor(g: Handle, ghost off: set<SysfsPollingOneShotSensor>)
      requires SubHalsOk() && off <= allSensors && Off(off)
      modifies allSensors
      ensures Off(off + Target(g)) && Target(g) <= allSensors
    {
      TargetIsSensor(g);
      var _ := Activate(g, false);
      forall s <- Target(g) ensures !s.isEnabled {
        assert !s.State().enabled;
      }
    }

    /** `disableAllSensors`: every advertised sensor that exists at its sub-HAL is off afterwards. */
    method DisableAllSensors() returns (ghost off: set<SysfsPollingOneShotSensor>)
      requires SubHalsOk()
      modifies allSensors
      ensures Off(off) && Reaches(sensors.Keys + dynamicSensors.Keys, off)
    {
      var todo := sensors.Keys + dynamicSensors.Keys;
      off := {};
      while todo != {}
        invariant Reaches(sensors.Keys + dynamicSensors.Keys - todo, off)
        invariant Off(off)
      {
        var g :| g in todo;
        DisableSensor(g, off);
        todo := todo - {g};
        off := off + Target(g);
      }
    }

    lemma TargetIsSensor(g: Handle)
      requires SubHalsOk()
      ensures Target(g) <= allSensors
    {
      var route := Route(g, |subHals|);
      if route.Some? && route.value.1 in subHals[route.value.0].sensors {
        assert subHals[route.value.0].sensors[route.value.1] in allSensors;
      }
    }

    method InstallQueues(queue: EventQueue, acks: WakeLockQueue, callback: bool, eventFlag: bool, wakelockFlag: bool)
      returns (result: Status)
      modifies `eventQueue, `wakeLockQueue, `eventQueueFlag, `wakelockQueueFlag
      ensures eventQueue == queue && wakeLockQueue == acks
      ensures eventQueueFlag == eventFlag && wakelockQueueFlag == wakelockFlag
      ensures result == if callback && eventFlag && wakelockFlag then OK else Status.BadValue
    {
      result := OK;
      eventQueue := queue;
      wakeLockQueue := acks;
      eventQueueFlag := eventFlag;
      if !eventFlag {
        result := Status.BadValue;
      }
      wakelockQueueFlag := wakelockFlag;
      if !wakelockFlag {
        result := Status.BadValue;
      }
      if !callback || !eventQueueFlag {
        result := Status.BadValue;
      }
    }

    /** Nothing pending, no dynamic sensors; the threads start whatever failed before. */
    method Restart()
      modifies `pendingWriteEventsQueue, `sizePendingWriteEventsQueue, `dynamicSensors, `threadsRun, `threadsJoinable
      ensures Shared() == ClearPending(old(Shared())).(running := true)
      ensures threadsJoinable && dynamicSensors == map[]
    {
      pendingWriteEventsQueue := [];
      sizePendingWriteEventsQueue := 0;
      dynamicSensors := map[];
      threadsRun := true;
      threadsJoinable := true;
    }

    method Reopen(queue: EventQueue, acks: WakeLockQueue, callback: bool, eventFlag: bool, wakelockFlag: bool,
                  ghost handles: set<Handle>, ghost off: set<SysfsPollingOneShotSensor>)
      returns (result: Status)
      requires SubHalsOk() && Off(off) && Reaches(handles, off)
      modifies `pendingWriteEventsQueue, `sizePendingWriteEventsQueue, `dynamicSensors, `eventQueue, `wakeLockQueue,
               `eventQueueFlag, `wakelockQueueFlag, `threadsRun, `threadsJoinable
      ensures Shared() == ClearPending(old(Shared())).(running := true) && threadsJoinable
      ensures eventQueue == queue && wakeLockQueue == acks && dynamicSensors == map[]
      ensures eventQueueFlag == eventFlag && wakelockQueueFlag == wakelockFlag
      ensures result == if callback && eventFlag && wakelockFlag then OK else Status.BadValue
      ensures SubHalsOk() && Off(off) && Reaches(handles, off)
    {
      result := InstallQueues(queue, acks, callback, eventFlag, wakelockFlag);
      Restart();
    }

    /** The event queue is read empty and the wake-lock thread gets an acknowledgement of nothing, so that neither
        thread stays blocked; then both are joined. */
    method StopThreads()
      modifies `threadsRun, `threadsJoinable, eventQueue, wakeLockQueue
      ensures Shared() == old(Shared()).(running := false) && !threadsJoinable
      ensures eventQueue.contents == if eventQueueFlag then [] else old(eventQueue.contents)
      ensures wakeLockQueue.acks == old(wakeLockQueue.acks) + if wakelockQueueFlag then [0] else []
    {
      threadsRun := false;
      if eventQueueFlag {
        eventQueue.contents := [];
      }
      if wakelockQueueFlag {
        wakeLockQueue.acks := wakeLockQueue.acks + [0];
      }
      threadsJoinable := false;
    }

    /** The first `n` sub-HALs and their sensors are in the normal mode. */
    ghost predicate NormalUpTo(n: nat)
      reads `subHals, subHals, (set i, h | 0 <= i < |subHals| && h in subHals[i].sensors :: subHals[i].sensors[h])
    {
      && (forall i :: 0 <= i < |subHals| && i < n ==> subHals[i].currentOperationMode == Normal)
      && (forall i, h :: 0 <= i < |subHals| && i < n && h in subHals[i].sensors ==>
            subHals[i].sensors[h].mode == Normal)
    }

    method InitializeSubHal(k: nat, answer: Status, ghost off: set<SysfsPollingOneShotSensor>) returns (r: Status)
      requires SubHalsOk() && k < |subHals| && Off(off) && NormalUpTo(k)
      modifies {subHals[k]}`currentOperationMode, subHals[k].sensors.Values
      ensures SubHalsOk() && Off(off) && NormalUpTo(k + 1) && r == answer
    {
      label before:
      r := subHals[k].Initialize(answer);
      forall i, h | 0 <= i < |subHals| && i < k + 1 && h in subHals[i].sensors
        ensures subHals[i].sensors[h].mode == Normal
      {
        if i == k {
          assert subHals[k].sensors[h].State().mode == Normal;
        } else {
          assert subHals[i].sensors[h] in subHals[i].sensors.Values;
        }
      }
      forall s <- off ensures !s.isEnabled {
        if s in subHals[k].sensors.Values {
          var h :| h in subHals[k].sensors && subHals[k].sensors[h] == s;
          assert s.State().enabled == old@before(s.State()).enabled;
        }
      }
    }

    /** The sub-HALs are initialised in list order; each comes up in the normal mode, and the last failure
        is the result. The proxy's mode is then the normal one, too. */
    method InitializeSubHals(
      first: Status, answers: seq<Status>, ghost handles: set<Handle>, ghost off: set<SysfsPollingOneShotSensor>)
      returns (result: Status)
      requires SubHalsOk() && Off(off) && Reaches(handles, off) && |answers| == |subHals|
      modifies `currentOperationMode, (set s <- subHals)`currentOperationMode, allSensors
      ensures currentOperationMode == Normal && Shared() == old(Shared())
      ensures NormalUpTo(|subHals|)
      ensures Off(off) && Reaches(handles, off) && result == LastFailure(first, answers)
    {
      result := first;
      for k := 0 to |subHals|
        invariant SubHalsOk() && Off(off) && Reaches(handles, off)
        invariant result == LastFailure(first, answers[..k])
        invariant NormalUpTo(k)
      {
        var currRes := InitializeSubHal(k, answers[k], off);
        if currRes != OK {
          result := currRes;
        }
        assert answers[..k + 1][..k] == answers[..k];
      }
      assert answers[..|subHals|] == answers;
      currentOperationMode := Normal;
    }

    /** The first half of `initialize`, up to the joined threads: the wake-lock count survives, because nothing
        decrements it while the threads are stopped. */
    method Quiesce(now: int) returns (ghost off: set<SysfsPollingOneShotSensor>)
      requires SubHalsOk()
      modifies `threadsRun, `threadsJoinable, `wakeLockHeld, `wakelockRefCount, `wakelockTimeoutResetTime,
               eventQueue, wakeLockQueue, allSensors
      ensures Shared() == ResetWakelock(old(Shared()).(running := false), now) && !threadsJoinable
      ensures wakelockRefCount == old(wakelockRefCount)
      ensures eventQueue.contents == if eventQueueFlag then [] else old(eventQueue.contents)
      ensures wakeLockQueue.acks == old(wakeLockQueue.acks) + if wakelockQueueFlag then [0] else []
      ensures SubHalsOk() && Off(off) && Reaches(sensors.Keys + dynamicSensors.Keys, off)
    {
      StopThreads();
      ResetSharedWakelock(now);
      off := DisableAllSensors();
    }

    /** `initialize` up to the sub-HALs. */
    method InitializeProxy(
      queue: EventQueue, acks: WakeLockQueue, callback: bool, eventFlag: bool, wakelockFlag: bool, now: int)
      returns (result: Status, ghost off: set<SysfsPollingOneShotSensor>)
      requires SubHalsOk()
      modifies `pendingWriteEventsQueue, `sizePendingWriteEventsQueue, `dynamicSensors, `eventQueue, `wakeLockQueue,
               `eventQueueFlag, `wakelockQueueFlag, `threadsRun, `threadsJoinable,
               `wakeLockHeld, `wakelockRefCount, `wakelockTimeoutResetTime, eventQueue, wakeLockQueue, allSensors
      ensures Shared() == ClearPending(ResetWakelock(old(Shared()).(running := false), now)).(running := true)
      ensures eventQueue == queue && wakeLockQueue == acks && threadsJoinable && dynamicSensors == map[]
      ensures eventQueueFlag == eventFlag && wakelockQueueFlag == wakelockFlag
      ensures SubHalsOk() && Off(off) && Reaches(sensors.Keys + old(dynamicSensors.Keys), off)
      ensures result == if callback && eventFlag && wakelockFlag then OK else Status.BadValue
    {
      ghost var handles := sensors.Keys + dynamicSensors.Keys;
      off := Quiesce(now);
      result := Reopen(queue, acks, callback, eventFlag, wakelockFlag, handles, off);
    }

    /** `initialize`: new queues, nothing pending, no dynamic sensors, all sensors off, all sub-HALs in the normal
        mode, the threads running. `callback` says whether there is one, `eventFlag` and `wakelockFlag` whether
        the event flags can be created, `answers` what the sub-HALs report; none of it stops the
        initialisation. */
    method InitializeCommon(queue: EventQueue, acks: WakeLockQueue, callback: bool, eventFlag: bool, wakelockFlag: bool,
                            answers: seq<Status>, now: int)
      returns (result: Status, ghost off: set<SysfsPollingOneShotSensor>)
      requires SubHalsOk() && |answers| == |subHals|
      modifies `pendingWriteEventsQueue, `sizePendingWriteEventsQueue, `dynamicSensors, `eventQueue, `wakeLockQueue,
               `eventQueueFlag, `wakelockQueueFlag, `threadsRun, `threadsJoinable, `currentOperationMode,
               `wakeLockHeld, `wakelockRefCount, `wakelockTimeoutResetTime, eventQueue, wakeLockQueue,
               (set s <- subHals)`currentOperationMode, allSensors
      ensures Shared() == ClearPending(ResetWakelock(old(Shared()).(running := false), now)).(running := true)
      ensures eventQueue == queue && wakeLockQueue == acks && threadsJoinable
      ensures eventQueueFlag == eventFlag && wakelockQueueFlag == wakelockFlag
      ensures dynamicSensors == map[] && currentOperationMode == Normal
      ensures NormalUpTo(|subHals|)
      ensures Off(off) && Reaches(sensors.Keys + old(dynamicSensors.Keys), off)
      ensures result == LastFailure(if callback && eventFlag && wakelockFlag then OK else Status.BadValue, answers)
    {
      ghost var handles := sensors.Keys + dynamicSensors.Keys;
      result, off := InitializeProxy(queue, acks, callback, eventFlag, wakelockFlag, now);
      result := InitializeSubHals(result, answers, handles, off);
    }
  }
}
