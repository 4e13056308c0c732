/** The fields of the HAL proxy that its threads share, and what each critical section does to them. */
module ProxyCore {
  import opened Sequences
  import opened Events

  /** A batch of events waiting to be written, with the wake-up count of the post it came from. */
  datatype Batch = Batch(events: seq<Event>, wakeups: nat)

  datatype Core = Core(
    running: bool,
    pending: seq<Batch>, size: int, most: int,
    refCount: nat, timeoutStart: int, timeoutReset: int,
    held: bool)   // whether the system wake lock is held

  const NO_STAMP: int := -1

  function Increment(c: Core, delta: nat, now: int): Core {
    if !c.running then c
    else c.(held := c.held || c.refCount == 0, timeoutStart := now, refCount := c.refCount + delta)
  }

  function Decrement(c: Core, delta: nat, stamp: int): Core {
    var start := if stamp == NO_STAMP then c.timeoutReset else stamp;
    if !c.running || c.refCount == 0 || start < c.timeoutReset then c
    else
      var left := c.refCount - Min(c.refCount, delta);
      c.(refCount := left, held := c.held && left != 0)
  }

  function ResetWakelock(c: Core, now: int): Core {
    Decrement(c, c.refCount, NO_STAMP).(timeoutReset := now)
  }

  function Flatten(pending: seq<Batch>): seq<Event> {
    if pending == [] then [] else pending[0].events + Flatten(pending[1..])
  }

  lemma {:induction false} FlattenAppend(a: seq<Batch>, b: seq<Batch>)
    ensures Flatten(a + b) == Flatten(a) + Flatten(b)
  {
    if a == [] {
      assert a + b == b;
    } else {
      assert (a + b)[1..] == a[1..] + b;
      FlattenAppend(a[1..], b);
    }
  }

  lemma FlattenCons(first: Batch, rest: seq<Batch>)
    ensures Flatten([first] + rest) == first.events + Flatten(rest)
  {
    assert ([first] + rest)[1..] == rest;
  }

  /** How much of a post fits into the queue at once: nothing while older events wait. */
  function DirectCount(c: Core, events: seq<Event>, available: nat): nat {
    if c.pending == [] then Min(|events|, available) else 0
  }

  predicate Fits(c: Core, cap: nat, left: nat) {
    c.size + left <= cap
  }

  /** The end of a post: what did not go to the queue at once is queued, unless there is none or no room. */
  function FinishPost(c: Core, cap: nat, left: seq<Event>, wakeups: nat): Core {
    if left != [] && Fits(c, cap, |left|) then
      var size := c.size + |left|;
      c.(pending := c.pending + [Batch(left, wakeups)], size := size, most := if c.most < size then size else c.most)
    else c
  }

  /** How many events of the front batch one blocking write covers. */
  function ChunkSize(front: Batch, quantum: nat): nat {
    Min(|front.events|, quantum)
  }

  function Chunk(front: Batch, quantum: nat): seq<Event> {
    front.events[..ChunkSize(front, quantum)]
  }

  /** The references given back after a failed write of the front chunk. */
  function Refund(sensors: SensorMap, front: Batch, quantum: nat): nat {
    if front.wakeups == 0 then 0
    else if |front.events| > quantum then CountWake(sensors, front.events[..quantum])
    else front.wakeups
  }

  function DropChunk(pending: seq<Batch>, quantum: nat): seq<Batch>
    requires pending != []
  {
    var front := pending[0];
    if |front.events| > quantum then [front.(events := front.events[quantum..])] + pending[1..] else pending[1..]
  }

  function CommitChunk(c: Core, quantum: nat): Core
    requires c.pending != []
  {
    c.(size := c.size - ChunkSize(c.pending[0], quantum), pending := DropChunk(c.pending, quantum))
  }

  lemma FlattenFront(pending: seq<Batch>, quantum: nat)
    requires pending != []
    ensures Flatten(pending) == Chunk(pending[0], quantum) + Flatten(DropChunk(pending, quantum))
  {
    var front := pending[0];
    if |front.events| > quantum {
      FlattenCons(front.(events := front.events[quantum..]), pending[1..]);
      SplitPrefix(front.events, quantum, Flatten(pending[1..]));
    } else {
      assert Chunk(front, quantum) == front.events;
    }
  }

  function ClearPending(c: Core): Core {
    c.(pending := [], size := 0)
  }

  /** The counters agree with the queue. */
  ghost predicate QueueCountersOk(c: Core, cap: nat) {
    && c.size == |Flatten(c.pending)|
    && c.size <= c.most <= cap
    && forall i :: 0 <= i < |c.pending| ==> c.pending[i].events != []
  }

  /** The wake-up count stored with a batch covers the batch's wake-up events. */
  ghost predicate WakeupsCovered(sensors: SensorMap, pending: seq<Batch>) {
    forall i :: 0 <= i < |pending| ==> CountWake(sensors, pending[i].events) <= pending[i].wakeups
  }

  lemma FinishPostKeepsCounters(c: Core, cap: nat, left: seq<Event>, wakeups: nat)
    requires QueueCountersOk(c, cap)
    ensures QueueCountersOk(FinishPost(c, cap, left, wakeups), cap)
  {
    FlattenAppend(c.pending, [Batch(left, wakeups)]);
  }

  lemma CommitKeepsCounters(c: Core, cap: nat, quantum: nat)
    requires QueueCountersOk(c, cap) && c.pending != []
    ensures ChunkSize(c.pending[0], quantum) <= c.size
    ensures QueueCountersOk(CommitChunk(c, quantum), cap)
  {
    FlattenFront(c.pending, quantum);
  }

  lemma CommitKeepsCover(sensors: SensorMap, pending: seq<Batch>, quantum: nat)
    requires WakeupsCovered(sensors, pending) && pending != []
    ensures WakeupsCovered(sensors, DropChunk(pending, quantum))
  {
    var front := pending[0];
    if |front.events| > quantum {
      CountWakeSplit(sensors, front.events, quantum);
    }
  }

  /** A refund never falls short of the wake-up events in the failed chunk, and is exact unless the
      chunk is the end of a batch whose stored count exceeds them. */
  lemma RefundCoversChunk(sensors: SensorMap, front: Batch, quantum: nat)
    requires CountWake(sensors, front.events) <= front.wakeups
    ensures Refund(sensors, front, quantum) >= CountWake(sensors, Chunk(front, quantum))
    ensures Refund(sensors, front, quantum) == CountWake(sensors, Chunk(front, quantum))
       <==> |front.events| > quantum || front.wakeups == CountWake(sensors, front.events)
  {
    if |front.events| > quantum {
      CountWakeSplit(sensors, front.events, quantum);
    } else {
      assert Chunk(front, quantum) == front.events;
    }
  }

  /** A post that nothing interferes with: the fields and the event queue it leaves. */
  function PostNow(
    c: Core, cap: nat, queue: seq<Event>, quantum: nat,
    events: seq<Event>, wakeups: nat, locked: bool, now: int, ok: bool): (Core, seq<Event>)
  {
    var c := if locked then Increment(c, wakeups, now) else c;
    var available := if |queue| <= quantum then quantum - |queue| else 0;
    var sent := if ok then DirectCount(c, events, available) else 0;
    (FinishPost(c, cap, events[sent..], wakeups), queue + events[..sent])
  }

  lemma PostNowSends(
    c: Core, cap: nat, queue: seq<Event>, quantum: nat,
    events: seq<Event>, wakeups: nat, locked: bool, now: int, ok: bool, n: nat)
    requires |queue| <= quantum
    requires n == DirectCount(if locked then Increment(c, wakeups, now) else c, events, quantum - |queue|)
    ensures var acquired := if locked then Increment(c, wakeups, now) else c;
            var sent := if ok then n else 0;
            PostNow(c, cap, queue, quantum, events, wakeups, locked, now, ok)
            == (FinishPost(acquired, cap, events[sent..], wakeups), queue + events[..sent])
  {}

  /** A post that nothing interferes with: when it writes at all it writes everything, or as much as there is room
      for; it writes nothing while older events wait; and what it did not write becomes one batch with the
      wake-up count of the whole post, or is lost when that exceeds the cap. Under a locked wake lock
      the count grows by all of its wake-up events and the time-out starts again. */
  lemma PostNowMeans(
    c: Core, cap: nat, queue: seq<Event>, quantum: nat,
    events: seq<Event>, wakeups: nat, locked: bool, now: int, ok: bool)
    requires |queue| <= quantum
    ensures var (after, contents) := PostNow(c, cap, queue, quantum, events, wakeups, locked, now, ok);
            var sent := |contents| - |queue|;
            var rest := |events| - sent;
            && 0 <= sent <= |events| && contents == queue + events[..sent]
            && (ok && c.pending == [] && |queue| + |events| <= quantum ==> sent == |events|)
            && (ok && c.pending == [] && |queue| + |events| > quantum ==> |contents| == quantum)
            && (!ok || c.pending != [] ==> sent == 0)
            && (rest > 0 && c.size + rest <= cap ==>
                  after.pending == c.pending + [Batch(events[sent..], wakeups)] && after.size == c.size + rest)
            && (rest == 0 || c.size + rest > cap ==> after.pending == c.pending && after.size == c.size)
            && (locked && c.running ==>
                  after.refCount == c.refCount + wakeups && after.timeoutStart == now)
            && (!locked || !c.running ==>
                  after.refCount == c.refCount && after.timeoutStart == c.timeoutStart && after.held == c.held)
            && after.running == c.running && after.timeoutReset == c.timeoutReset
  {}

  /** Beyond the acquisition a post leaves the references alone. */
  lemma PostNowReferences(
    c: Core, cap: nat, queue: seq<Event>, quantum: nat,
    events: seq<Event>, wakeups: nat, locked: bool, now: int, ok: bool)
    ensures var after := PostNow(c, cap, queue, quantum, events, wakeups, locked, now, ok).0;
            var acquired := if locked then Increment(c, wakeups, now) else c;
            && after.running == acquired.running && after.refCount == acquired.refCount
            && after.timeoutReset == acquired.timeoutReset && after.held == acquired.held
  {}

  /** One turn of the pending-writes thread that nothing interferes with. */
  function WriteFront(c: Core, sensors: SensorMap, quantum: nat, ok: bool): Core
    requires c.pending != []
  {
    var refunded := if ok then c else Decrement(c, Refund(sensors, c.pending[0], quantum), NO_STAMP);
    CommitChunk(refunded, quantum)
  }

  lemma WriteFrontKeepsQueue(c: Core, cap: nat, sensors: SensorMap, quantum: nat, ok: bool)
    requires c.pending != [] && QueueCountersOk(c, cap) && WakeupsCovered(sensors, c.pending)
    ensures QueueCountersOk(WriteFront(c, sensors, quantum, ok), cap)
    ensures WakeupsCovered(sensors, WriteFront(c, sensors, quantum, ok).pending)
  {
    CommitKeepsCounters(c, cap, quantum);
    CommitKeepsCover(sensors, c.pending, quantum);
  }

  /** A failed turn gives back at least the dropped wake-up events, as far as the count goes. */
  lemma WriteFrontRefunds(c: Core, sensors: SensorMap, quantum: nat, ok: bool)
    requires c.running && c.pending != [] && WakeupsCovered(sensors, c.pending)
    ensures ok ==> WriteFront(c, sensors, quantum, ok).refCount == c.refCount
    ensures !ok ==>
              WriteFront(c, sensors, quantum, ok).refCount
              <= Monus(c.refCount, CountWake(sensors, Chunk(c.pending[0], quantum)))
  {
    RefundCoversChunk(sensors, c.pending[0], quantum);
  }

  lemma CoverByLookup(sensors1: SensorMap, sensors2: SensorMap, pending: seq<Batch>)
    requires forall h :: Lookup(sensors1, h) == Lookup(sensors2, h)
    requires WakeupsCovered(sensors1, pending)
    ensures WakeupsCovered(sensors2, pending)
  {
    forall i | 0 <= i < |pending| ensures CountWake(sensors2, pending[i].events) <= pending[i].wakeups {
      CountWakeByLookup(sensors1, sensors2, pending[i].events);
    }
  }

  /** In how many chunks a batch of `n` events is written. */
  function Chunks(n: nat, quantum: nat): nat
    requires quantum > 0
  {
    if n == 0 then 0 else if n <= quantum then 1 else 1 + Chunks(n - quantum, quantum)
  }

  /** That is n over the queue's capacity, rounded up. */
  lemma {:induction false} ChunksIsCeiling(n: nat, quantum: nat)
    requires quantum > 0 && n > 0
    ensures (Chunks(n, quantum) - 1) * quantum < n <= Chunks(n, quantum) * quantum
  {
    if n > quantum {
      ChunksIsCeiling(n - quantum, quantum);
      var c := Chunks(n - quantum, quantum);
      assert (c + 1) * quantum == c * quantum + quantum;
      assert c * quantum == (c - 1) * quantum + quantum;
    }
  }

  function Iterations(pending: seq<Batch>, quantum: nat): nat
    requires quantum > 0
  {
    if pending == [] then 0 else Chunks(|pending[0].events|, quantum) + Iterations(pending[1..], quantum)
  }

  /** Each turn of the pending-writes thread deals with at least one event and at most a queue's capacity, and
      brings the end one turn closer. */
  lemma TurnMakesProgress(c: Core, cap: nat, quantum: nat)
    requires quantum > 0 && c.pending != [] && QueueCountersOk(c, cap)
    ensures 1 <= ChunkSize(c.pending[0], quantum) <= quantum
    ensures CommitChunk(c, quantum).size < c.size
    ensures Iterations(CommitChunk(c, quantum).pending, quantum) == Iterations(c.pending, quantum) - 1
  {
    var front := c.pending[0];
    if |front.events| > quantum {
      assert DropChunk(c.pending, quantum)[1..] == c.pending[1..];
    }
  }

  /** A queue without capacity never makes progress. */
  lemma NoCapacityNoProgress(c: Core, cap: nat)
    requires c.pending != [] && QueueCountersOk(c, cap)
    ensures CommitChunk(c, 0) == c
  {
    var front := c.pending[0];
    assert front.events[0..] == front.events;
    assert [front] + c.pending[1..] == c.pending;
  }

  /** The end of a batch, written as its last chunk. */
  function LastChunk(events: seq<Event>, quantum: nat): seq<Event>
    requires quantum > 0
  {
    if |events| <= quantum then events else LastChunk(events[quantum..], quantum)
  }

  /** What is given back for a batch whose chunks are written or dropped as `outcomes` says. */
  function Refunds(sensors: SensorMap, b: Batch, quantum: nat, outcomes: seq<bool>): nat
    requires quantum > 0 && b.events != [] && |outcomes| == Chunks(|b.events|, quantum)
    decreases |b.events|
  {
    (if outcomes[0] then 0 else Refund(sensors, b, quantum))
    + (if |b.events| <= quantum then 0
       else Refunds(sensors, b.(events := b.events[quantum..]), quantum, outcomes[1..]))
  }

  /** The wake-up events in the dropped chunks. */
  function DroppedWake(sensors: SensorMap, events: seq<Event>, quantum: nat, outcomes: seq<bool>): nat
    requires quantum > 0 && events != [] && |outcomes| == Chunks(|events|, quantum)
    decreases |events|
  {
    (if outcomes[0] then 0 else CountWake(sensors, events[..Min(|events|, quantum)]))
    + (if |events| <= quantum then 0 else DroppedWake(sensors, events[quantum..], quantum, outcomes[1..]))
  }

  /** For every pattern of failed chunks the refunds cover the dropped wake-up events; they are exact unless the
      last chunk is dropped and the stored count is not that chunk's own. */
  lemma {:induction false} RefundsCoverDrops(sensors: SensorMap, b: Batch, quantum: nat, outcomes: seq<bool>)
    requires quantum > 0 && b.events != [] && |outcomes| == Chunks(|b.events|, quantum)
    requires CountWake(sensors, b.events) <= b.wakeups
    ensures Refunds(sensors, b, quantum, outcomes) >= DroppedWake(sensors, b.events, quantum, outcomes)
    ensures Refunds(sensors, b, quantum, outcomes) == DroppedWake(sensors, b.events, quantum, outcomes)
       <==> outcomes[|outcomes| - 1] || b.wakeups == CountWake(sensors, LastChunk(b.events, quantum))
    decreases |b.events|
  {
    RefundCoversChunk(sensors, b, quantum);
    if |b.events| > quantum {
      var rest := b.(events := b.events[quantum..]);
      CountWakeSplit(sensors, b.events, quantum);
      RefundsCoverDrops(sensors, rest, quantum, outcomes[1..]);
      assert Chunk(b, quantum) == b.events[..Min(|b.events|, quantum)];
    } else {
      assert Chunk(b, quantum) == b.events;
    }
  }
}
