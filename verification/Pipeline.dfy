/** The event pipeline in every interleaving: counters, single writer, order, and nothing lost silently. */
module Pipeline {
  import opened Sequences
  import opened Events
  import opened ProxyCore
  import opened Protocol

  /** The pending-writes thread is using the front batch without holding the mutex. */
  predicate InFlight(writer: Writer) {
    writer.Writing? || writer.Failed? || writer.Done?
  }

  predicate DirectWrite(producer: Producer) {
    producer.Measured? && producer.direct != []
  }

  ghost predicate ProducerOk(sensors: SensorMap, w: World) {
    match w.producer
    case NoPost => true
    case Entered(events, wakeups) => CountWake(sensors, events) == wakeups
    case Measured(direct, left, wakeups) =>
      && CountWake(sensors, direct + left) == wakeups
      && (direct != [] ==> w.core.pending == [] && |w.fmq| + |direct| <= w.quantum)
    case Written(sent, left, wakeups) => CountWake(sensors, sent + left) == wakeups
  }

  /** The front batch stays in place, unchanged, from the moment the writer takes it. */
  predicate FrontPinned(w: World) {
    InFlight(w.writer) ==> w.core.pending != [] && w.core.pending[0] == w.writer.front
  }

  predicate IsSuffix<T(==)>(part: seq<T>, whole: seq<T>) {
    |part| <= |whole| && part == whole[|whole| - |part|..]
  }

  ghost predicate QueueInv(cfg: Config, w: World) {
    && QueueCountersOk(w.core, cfg.cap)
    && WakeupsCovered(cfg.sensors, w.core.pending)
    && |w.fmq| <= w.quantum
    && IsSuffix(w.fmq, w.log.written)
    && FrontPinned(w)
    && ProducerOk(cfg.sensors, w)
  }

  lemma SuffixAppend<T>(part: seq<T>, whole: seq<T>, tail: seq<T>)
    requires IsSuffix(part, whole)
    ensures IsSuffix(part + tail, whole + tail)
  {}

  lemma SuffixDrop<T>(part: seq<T>, whole: seq<T>, k: nat)
    requires IsSuffix(part, whole) && k <= |part|
    ensures IsSuffix(part[k..], whole)
  {}

  /** The two worlds differ at most in whether the threads run, who may still act, and the exactness. */
  predicate SameButFlag(w: World, x: World) {
    x == w.(core := w.core.(running := x.core.running), inside := x.inside, log := w.log.(exact := x.log.exact))
  }

  lemma QueueStepMeasure(cfg: Config, w: World, l: Label)
    requires QueueInv(cfg, w) && Enabled(cfg, w, l) && l.PostMeasure?
    ensures QueueInv(cfg, Next(cfg, w, l))
  {
    var events := w.producer.events;
    var n := DirectCount(w.core, events, w.quantum - |w.fmq|);
    assert events[..n] + events[n..] == events;
  }

  lemma QueueStepDirect(cfg: Config, w: World, l: Label)
    requires QueueInv(cfg, w) && Enabled(cfg, w, l) && l.PostWrite?
    ensures QueueInv(cfg, Next(cfg, w, l))
  {
    SuffixAppend(w.fmq, w.log.written, w.producer.direct);
    assert [] + (w.producer.direct + w.producer.left) == w.producer.direct + w.producer.left;
  }

  lemma QueueStepLeave(cfg: Config, w: World, l: Label)
    requires QueueInv(cfg, w) && Enabled(cfg, w, l) && l.PostLeave?
    ensures QueueInv(cfg, Next(cfg, w, l))
  {
    CountWakeAppend(cfg.sensors, w.producer.sent, w.producer.left);
    FinishPostKeepsCounters(w.core, cfg.cap, w.producer.left, w.producer.wakeups);
  }

  lemma QueueStepWriter(cfg: Config, w: World, l: Label)
    requires QueueInv(cfg, w) && Enabled(cfg, w, l)
    requires l.WriterTake? || l.WriterWrite? || l.WriterRefund? || l.WriterCommit? || l.WriterExit?
    ensures QueueInv(cfg, Next(cfg, w, l))
  {
    match l
    case WriterTake =>
    case WriterWrite(ok) =>
      SuffixAppend(w.fmq, w.log.written, Chunk(w.writer.front, w.quantum));
    case WriterRefund =>
    case WriterCommit =>
      CommitKeepsCounters(w.core, cfg.cap, w.quantum);
      CommitKeepsCover(cfg.sensors, w.core.pending, w.quantum);
    case WriterExit =>
  }

  lemma QueueStepOther(cfg: Config, w: World, l: Label)
    requires QueueInv(cfg, w) && Enabled(cfg, w, l)
    requires l.CreateHolder? || l.ReleaseHolder? || l.PostEnter? || l.FrameworkRead? || l.FrameworkAck?
    ensures QueueInv(cfg, Next(cfg, w, l))
  {
    if l.FrameworkRead? {
      SuffixDrop(w.fmq, w.log.written, l.k);
    }
  }

  lemma QueueStepWaker(cfg: Config, w: World, l: Label)
    requires QueueInv(cfg, w) && Enabled(cfg, w, l)
    requires l.WakerTimeout? || l.WakerBegin? || l.WakerRead? || l.WakerApply? || l.WakerExit?
    ensures QueueInv(cfg, Next(cfg, w, l))
  {
    var after := Next(cfg, w, l);
    assert after.core.pending == w.core.pending && after.core.size == w.core.size && after.core.most == w.core.most;
    assert after.fmq == w.fmq && after.log.written == w.log.written;
    assert after.producer == w.producer && after.writer == w.writer;
  }

  lemma QueueStepStop(cfg: Config, w: World, l: Label)
    requires QueueInv(cfg, w) && Enabled(cfg, w, l)
    requires l.StopFlag? || l.StopDrain? || l.Restart?
    ensures QueueInv(cfg, Next(cfg, w, l))
  {}

  lemma QueueStep(cfg: Config, w: World, l: Label)
    requires QueueInv(cfg, w) && Enabled(cfg, w, l)
    ensures QueueInv(cfg, Next(cfg, w, l))
  {
    if l.PostMeasure? {
      QueueStepMeasure(cfg, w, l);
    } else if l.PostWrite? {
      QueueStepDirect(cfg, w, l);
    } else if l.PostLeave? {
      QueueStepLeave(cfg, w, l);
    } else if l.WriterTake? || l.WriterWrite? || l.WriterRefund? || l.WriterCommit? || l.WriterExit? {
      QueueStepWriter(cfg, w, l);
    } else if l.CreateHolder? || l.ReleaseHolder? || l.PostEnter? || l.FrameworkRead? || l.FrameworkAck? {
      QueueStepOther(cfg, w, l);
    } else if l.StopFlag? || l.StopDrain? || l.Restart? {
      QueueStepStop(cfg, w, l);
    } else {
      QueueStepWaker(cfg, w, l);
    }
  }

  lemma QueueInvBlind(cfg: Config, w: World, x: World)
    requires SameButFlag(w, x) && QueueInv(cfg, w)
    ensures QueueInv(cfg, x)
  {}

  lemma QueueMove(cfg: Config, w: World, m: Move)
    requires QueueInv(cfg, w) && CanMove(cfg, w, m)
    ensures QueueInv(cfg, Moved(cfg, w, m))
  {
    if m.Late? {
      QueueInvBlind(cfg, w, Resumed(w));
      QueueStep(cfg, Resumed(w), m.step);
      QueueInvBlind(cfg, Next(cfg, Resumed(w), m.step), Moved(cfg, w, m));
    } else {
      QueueStep(cfg, w, m.step);
    }
  }

  /** `trail` holds the events posted and not lost, in the order in which they were posted. */
  ghost predicate Accounted(trail: seq<Event>, lost: seq<Event>, posted: seq<Event>) {
    && IsSubsequence(trail, posted)
    && multiset(trail) + multiset(lost) == multiset(posted)
  }

  lemma AccountedPost(trail: seq<Event>, lost: seq<Event>, posted: seq<Event>, more: seq<Event>)
    requires Accounted(trail, lost, posted)
    ensures Accounted(trail + more, lost, posted + more)
  {
    SubsequenceAppend(trail, posted, more);
  }

  lemma AccountedLoss(a: seq<Event>, b: seq<Event>, c: seq<Event>, lost: seq<Event>, posted: seq<Event>)
    requires Accounted(a + b + c, lost, posted)
    ensures Accounted(a + c, lost + b, posted)
  {
    SubsequenceCut(a, b, c, posted);
  }

  lemma AccountedComplete(trail: seq<Event>, lost: seq<Event>, posted: seq<Event>)
    requires Accounted(trail, lost, posted)
    ensures trail == posted <==> lost == []
  {
    assert |multiset(trail)| + |multiset(lost)| == |multiset(posted)|;
    if lost == [] {
      FullSubsequence(trail, posted);
    }
  }

  /** One chunk leaves the pending queue, written or lost. */
  lemma AccountedTurn(
    written: seq<Event>, pending: seq<Batch>, lost: seq<Event>, posted: seq<Event>, quantum: nat, ok: bool)
    requires pending != [] && Accounted(written + Flatten(pending), lost, posted)
    ensures var chunk := Chunk(pending[0], quantum);
            var rest := Flatten(DropChunk(pending, quantum));
            if ok then Accounted(written + chunk + rest, lost, posted)
            else Accounted(written + rest, lost + chunk, posted)
  {
    var chunk := Chunk(pending[0], quantum);
    var rest := Flatten(DropChunk(pending, quantum));
    FlattenFront(pending, quantum);
    Assoc(written, chunk, rest);
    if !ok {
      AccountedLoss(written, chunk, rest, lost, posted);
    }
  }

  lemma AccountedAll(all: seq<Event>)
    ensures Accounted([] + all, [], all)
  {
    SubsequenceSelf(all);
    assert [] + all == all;
  }

  /** What became of the events of a drain: written, dropped, and dropped with their references given back. */
  datatype Drain = Drain(written: seq<Event>, dropped: seq<Event>, refunded: seq<Event>)

  function AfterTurn(d: Drain, chunk: seq<Event>, ok: bool, running: bool): Drain {
    if ok then d.(written := d.written + chunk)
    else d.(dropped := d.dropped + chunk, refunded := if running then d.refunded + chunk else d.refunded)
  }

  lemma AfterTurnWrites(d: Drain, chunk: seq<Event>, ok: bool, running: bool)
    ensures var after := AfterTurn(d, chunk, ok, running);
            d.written <= after.written && after.written[|d.written|..] == if ok then chunk else []
  {}

  /** A drain of the pending queue that began with the events `all` and `refs` references. */
  ghost predicate Draining(c: Core, cap: nat, sensors: SensorMap, d: Drain, all: seq<Event>, refs: nat) {
    && QueueCountersOk(c, cap)
    && WakeupsCovered(sensors, c.pending)
    && Accounted(d.written + Flatten(c.pending), d.dropped, all)
    && d.refunded <= d.dropped && (c.running ==> d.refunded == d.dropped)
    && c.refCount <= Monus(refs, CountWake(sensors, d.refunded))
  }

  lemma DrainBegins(c: Core, cap: nat, sensors: SensorMap)
    requires QueueCountersOk(c, cap) && WakeupsCovered(sensors, c.pending)
    ensures Draining(c, cap, sensors, Drain([], [], []), Flatten(c.pending), c.refCount)
  {
    AccountedAll(Flatten(c.pending));
    NoWake(sensors);
  }

  lemma DrainStops(c: Core, cap: nat, sensors: SensorMap, d: Drain, all: seq<Event>, refs: nat, running: bool)
    requires Draining(c, cap, sensors, d, all, refs) && (running ==> c.running)
    ensures Draining(c.(running := running), cap, sensors, d, all, refs)
  {}

  lemma DrainEnds(c: Core, cap: nat, sensors: SensorMap, d: Drain, all: seq<Event>, refs: nat)
    requires Draining(c, cap, sensors, d, all, refs) && c.pending == []
    ensures c.size == 0 && Accounted(d.written, d.dropped, all)
  {
    assert d.written + [] == d.written;
  }

  /** One turn of the pending-writes thread, in which the threads may have been stopped. */
  lemma DrainTurn(
    c: Core, cap: nat, sensors: SensorMap, known: SensorMap,
    d: Drain, all: seq<Event>, refs: nat, quantum: nat, ok: bool)
    requires Draining(c, cap, sensors, d, all, refs) && c.pending != []
    requires forall h :: Lookup(sensors, h) == Lookup(known, h)
    ensures var chunk := Chunk(c.pending[0], quantum);
            Draining(WriteFront(c, known, quantum, ok), cap, sensors, AfterTurn(d, chunk, ok, c.running), all, refs)
    ensures quantum > 0 ==>
              Iterations(WriteFront(c, known, quantum, ok).pending, quantum) + 1 == Iterations(c.pending, quantum)
  {
    assert WriteFront(c, known, quantum, ok).pending == DropChunk(c.pending, quantum);
    AccountedTurn(d.written, c.pending, d.dropped, all, quantum, ok);
    TurnKeepsCover(c, cap, sensors, known, quantum, ok);
    TurnRefunds(c, sensors, known, d, refs, quantum, ok);
    if quantum > 0 {
      TurnMakesProgress(c, cap, quantum);
    }
  }

  lemma StoppableTurn(
    c: Core, after: Core, cap: nat, sensors: SensorMap, known: SensorMap,
    d: Drain, all: seq<Event>, refs: nat, quantum: nat, ok: bool)
    requires Draining(c, cap, sensors, d, all, refs) && c.pending != [] && quantum > 0
    requires forall h :: Lookup(sensors, h) == Lookup(known, h)
    requires after.running ==> c.running
    requires after == WriteFront(c.(running := after.running), known, quantum, ok)
    ensures var chunk := Chunk(c.pending[0], quantum);
            var next := AfterTurn(d, chunk, ok, after.running);
            && Draining(after, cap, sensors, next, all, refs)
            && Iterations(after.pending, quantum) + 1 == Iterations(c.pending, quantum)
            && d.written <= next.written && next.written[|d.written|..] == (if ok then chunk else [])
            && (ok ==> next.dropped == d.dropped)
  {
    AfterTurnWrites(d, Chunk(c.pending[0], quantum), ok, after.running);
    DrainStops(c, cap, sensors, d, all, refs, after.running);
    DrainTurn(c.(running := after.running), cap, sensors, known, d, all, refs, quantum, ok);
  }

  lemma TurnKeepsCover(c: Core, cap: nat, sensors: SensorMap, known: SensorMap, quantum: nat, ok: bool)
    requires QueueCountersOk(c, cap) && WakeupsCovered(sensors, c.pending) && c.pending != []
    requires forall h :: Lookup(sensors, h) == Lookup(known, h)
    ensures QueueCountersOk(WriteFront(c, known, quantum, ok), cap)
    ensures WakeupsCovered(sensors, WriteFront(c, known, quantum, ok).pending)
  {
    CoverByLookup(sensors, known, c.pending);
    WriteFrontKeepsQueue(c, cap, known, quantum, ok);
    CoverByLookup(known, sensors, WriteFront(c, known, quantum, ok).pending);
  }

  lemma TurnRefunds(c: Core, sensors: SensorMap, known: SensorMap, d: Drain, refs: nat, quantum: nat, ok: bool)
    requires c.pending != [] && WakeupsCovered(sensors, c.pending)
    requires forall h :: Lookup(sensors, h) == Lookup(known, h)
    requires c.refCount <= Monus(refs, CountWake(sensors, d.refunded))
    ensures WriteFront(c, known, quantum, ok).refCount
         <= Monus(refs, CountWake(sensors,
                                  AfterTurn(d, Chunk(c.pending[0], quantum), ok, c.running).refunded))
  {
    if c.running {
      var chunk := Chunk(c.pending[0], quantum);
      CoverByLookup(sensors, known, c.pending);
      WriteFrontRefunds(c, known, quantum, ok);
      CountWakeByLookup(sensors, known, chunk);
      CountWakeAppend(sensors, d.refunded, chunk);
    }
  }

  /** What happens during a blocking write: how many events the framework reads, whether the write succeeds once
      there is room, and whether the threads are stopped. */
  datatype BlockingWrite = BlockingWrite(taken: nat, ok: bool, stops: bool)

  predicate NoneStops(waits: seq<BlockingWrite>, n: nat)
    requires n <= |waits|
  {
    forall i :: 0 <= i < n ==> !waits[i].stops
  }

  /** The framework makes room for each of the first `n` writes, and they succeed. */
  predicate AllSucceed(waits: seq<BlockingWrite>, n: nat, quantum: nat)
    requires n <= |waits|
  {
    forall i :: 0 <= i < n ==> waits[i].ok && waits[i].taken >= quantum
  }

  /** The queue is empty exactly after all turns; then every event was written or dropped. */
  ghost predicate DrainEnded(c: Core, d: Drain, all: seq<Event>, n: nat, total: nat) {
    && (c.pending == [] <==> n == total)
    && (n == total ==> c.size == 0 && Accounted(d.written, d.dropped, all))
  }

  /** After `n` turns of a drain that needs `total` in all. */
  ghost predicate DrainedTo(
    c: Core, cap: nat, sensors: SensorMap, d: Drain, all: seq<Event>, refs: nat,
    quantum: nat, total: nat, began: bool, waits: seq<BlockingWrite>, n: nat)
    requires quantum > 0
  {
    && n <= |waits| && n + Iterations(c.pending, quantum) == total
    && Draining(c, cap, sensors, d, all, refs)
    && DrainEnded(c, d, all, n, total)
    && (c.running <==> began && NoneStops(waits, n))
    && (AllSucceed(waits, n, quantum) ==> d.dropped == [])
  }

  lemma DrainIsEnded(
    c: Core, cap: nat, sensors: SensorMap, d: Drain, all: seq<Event>, refs: nat, quantum: nat, n: nat, total: nat)
    requires quantum > 0 && n + Iterations(c.pending, quantum) == total
    requires Draining(c, cap, sensors, d, all, refs)
    ensures DrainEnded(c, d, all, n, total)
  {
    if c.pending != [] {
      TurnMakesProgress(c, cap, quantum);
    } else {
      DrainEnds(c, cap, sensors, d, all, refs);
    }
  }

  lemma DrainedFromStart(c: Core, cap: nat, sensors: SensorMap, quantum: nat, waits: seq<BlockingWrite>)
    requires quantum > 0 && QueueCountersOk(c, cap) && WakeupsCovered(sensors, c.pending)
    ensures DrainedTo(c, cap, sensors, Drain([], [], []), Flatten(c.pending), c.refCount, quantum,
                      Iterations(c.pending, quantum), c.running, waits, 0)
  {
    DrainBegins(c, cap, sensors);
    DrainIsEnded(c, cap, sensors, Drain([], [], []), Flatten(c.pending), c.refCount, quantum,
                 0, Iterations(c.pending, quantum));
  }

  lemma DrainedStep(
    c: Core, after: Core, cap: nat, sensors: SensorMap, d: Drain, next: Drain, all: seq<Event>, refs: nat,
    quantum: nat, total: nat, began: bool, waits: seq<BlockingWrite>, n: nat)
    requires quantum > 0 && DrainedTo(c, cap, sensors, d, all, refs, quantum, total, began, waits, n)
    requires n < |waits| && c.running && Draining(after, cap, sensors, next, all, refs)
    requires Iterations(after.pending, quantum) + 1 == Iterations(c.pending, quantum)
    requires after.running <==> !waits[n].stops
    requires waits[n].ok && waits[n].taken >= quantum ==> next.dropped == d.dropped
    ensures DrainedTo(after, cap, sensors, next, all, refs, quantum, total, began, waits, n + 1)
  {
    DrainIsEnded(after, cap, sensors, next, all, refs, quantum, n + 1, total);
  }

  /** Everything written so far, followed by everything still to be written. */
  function Trail(w: World): seq<Event> {
    w.log.written + Undelivered(w)
  }

  ghost predicate OrderInv(w: World) {
    Accounted(Trail(w), w.log.lost, w.log.posted)
  }

  lemma LeftAfterPush(w: World, left: seq<Event>, wakeups: nat)
    requires FrontPinned(w)
    ensures LeftInQueue(w.(core := w.core.(pending := w.core.pending + [Batch(left, wakeups)])))
         == LeftInQueue(w) + left
  {
    var b := [Batch(left, wakeups)];
    FlattenAppend(w.core.pending, b);
    if w.writer.Done? {
      assert DropChunk(w.core.pending + b, w.quantum) == DropChunk(w.core.pending, w.quantum) + b;
      FlattenAppend(DropChunk(w.core.pending, w.quantum), b);
    }
  }

  lemma OrderStepEnter(cfg: Config, w: World, l: Label)
    requires QueueInv(cfg, w) && OrderInv(w) && Enabled(cfg, w, l) && l.PostEnter?
    ensures OrderInv(Next(cfg, w, l))
  {
    var after := Next(cfg, w, l);
    assert Undelivered(w) == LeftInQueue(w);
    Assoc(w.log.written, LeftInQueue(w), l.events);
    AccountedPost(Trail(w), w.log.lost, w.log.posted, l.events);
    assert Undelivered(after) == LeftInQueue(w) + l.events;
  }

  lemma MeasureFrame(cfg: Config, w: World)
    requires Enabled(cfg, w, PostMeasure)
    ensures LeftInQueue(Next(cfg, w, PostMeasure)) == LeftInQueue(w)
    ensures Hand(Next(cfg, w, PostMeasure)) == Hand(w)
  {
    var after := Next(cfg, w, PostMeasure);
    assert after.producer.direct + after.producer.left == w.producer.events;
  }

  lemma OrderStepMeasure(cfg: Config, w: World, l: Label)
    requires QueueInv(cfg, w) && OrderInv(w) && Enabled(cfg, w, l) && l.PostMeasure?
    ensures OrderInv(Next(cfg, w, l))
  {
    MeasureFrame(cfg, w);
  }

  lemma DirectMove<T>(written: seq<T>, queue: seq<T>, direct: seq<T>, left: seq<T>)
    requires direct != [] ==> queue == []
    ensures (written + direct) + (queue + left) == written + (queue + (direct + left))
  {
    if direct == [] {
      assert written + direct == written && direct + left == left;
    } else {
      assert queue + left == left && queue + (direct + left) == direct + left;
      Assoc(written, direct, left);
    }
  }

  lemma DirectFrame(cfg: Config, w: World, ok: bool)
    requires Enabled(cfg, w, PostWrite(ok))
    ensures var after := Next(cfg, w, PostWrite(ok));
            && LeftInQueue(after) == LeftInQueue(w)
            && after.log.lost == w.log.lost && after.log.posted == w.log.posted
            && Hand(after) == (if ok then w.producer.left else w.producer.direct + w.producer.left)
            && after.log.written == (if ok then w.log.written + w.producer.direct else w.log.written)
  {}

  lemma OrderStepDirect(cfg: Config, w: World, l: Label)
    requires QueueInv(cfg, w) && OrderInv(w) && Enabled(cfg, w, l) && l.PostWrite?
    ensures OrderInv(Next(cfg, w, l))
  {
    DirectFrame(cfg, w, l.ok);
    if l.ok {
      EmptyQueueHasNothingLeft(w);
      DirectMove(w.log.written, LeftInQueue(w), w.producer.direct, w.producer.left);
    }
    assert Trail(Next(cfg, w, l)) == Trail(w);
  }

  lemma EmptyQueueHasNothingLeft(w: World)
    ensures w.core.pending == [] ==> LeftInQueue(w) == []
  {}

  lemma LeaveFrame(cfg: Config, w: World)
    requires FrontPinned(w) && Enabled(cfg, w, PostLeave)
    ensures var left := w.producer.left;
            LeftInQueue(Next(cfg, w, PostLeave)) ==
            if Fits(w.core, cfg.cap, |left|) then LeftInQueue(w) + left else LeftInQueue(w)
  {
    var left := w.producer.left;
    if Fits(w.core, cfg.cap, |left|) && left != [] {
      LeftAfterPush(w, left, w.producer.wakeups);
    } else {
      assert left == [] ==> LeftInQueue(w) + left == LeftInQueue(w);
    }
  }

  lemma LeaveLog(cfg: Config, w: World)
    requires Enabled(cfg, w, PostLeave)
    ensures var after := Next(cfg, w, PostLeave);
            var left := w.producer.left;
            var dropped := if Fits(w.core, cfg.cap, |left|) then [] else left;
            && Hand(after) == [] && after.log.written == w.log.written && after.log.posted == w.log.posted
            && after.log.lost == w.log.lost + dropped
            && after.log.leaked == w.log.leaked + CountWake(cfg.sensors, dropped)
  {}

  lemma OrderStepLeave(cfg: Config, w: World, l: Label)
    requires QueueInv(cfg, w) && OrderInv(w) && Enabled(cfg, w, l) && l.PostLeave?
    ensures OrderInv(Next(cfg, w, l))
  {
    LeaveFrame(cfg, w);
    LeaveLog(cfg, w);
    AccountedLeave(w.log.written, LeftInQueue(w), w.producer.left, w.log.lost, w.log.posted,
                   Fits(w.core, cfg.cap, |w.producer.left|));
  }

  lemma AccountedLeave(
    written: seq<Event>, queue: seq<Event>, left: seq<Event>, lost: seq<Event>, posted: seq<Event>, fits: bool)
    requires Accounted(written + (queue + left), lost, posted)
    ensures if fits then Accounted(written + (queue + left + []), lost + [], posted)
            else Accounted(written + (queue + []), lost + left, posted)
  {
    if fits {
      assert queue + left + [] == queue + left && lost + [] == lost;
    } else {
      var kept := written + queue;
      Assoc(written, queue, left);
      assert kept + left + [] == kept + left && kept + [] == kept;
      AccountedLoss(kept, left, [], lost, posted);
      assert queue + [] == queue;
    }
  }

  lemma OrderStepWriter(cfg: Config, w: World, l: Label)
    requires QueueInv(cfg, w) && OrderInv(w) && Enabled(cfg, w, l)
    requires l.WriterWrite? || l.WriterRefund?
    ensures OrderInv(Next(cfg, w, l))
  {
    var after := Next(cfg, w, l);
    var chunk := Chunk(w.writer.front, w.quantum);
    var rest := Flatten(DropChunk(w.core.pending, w.quantum));
    FlattenFront(w.core.pending, w.quantum);
    assert LeftInQueue(w) == chunk + rest;
    Assoc(chunk, rest, Hand(w));
    Assoc(w.log.written, chunk, rest + Hand(w));
    if l.WriterRefund? {
      AccountedLoss(w.log.written, chunk, rest + Hand(w), w.log.lost, w.log.posted);
      assert Undelivered(after) == rest + Hand(w);
    } else if l.ok {
      assert Undelivered(after) == rest + Hand(w);
    } else {
      assert Undelivered(after) == Undelivered(w);
    }
  }

  lemma OrderStepRestart(cfg: Config, w: World, l: Label)
    requires QueueInv(cfg, w) && OrderInv(w) && Enabled(cfg, w, l) && l.Restart?
    ensures OrderInv(Next(cfg, w, l))
  {
    var after := Next(cfg, w, l);
    var pending := Flatten(w.core.pending);
    assert Undelivered(w) == pending;
    assert w.log.written + pending + [] == Trail(w);
    AccountedLoss(w.log.written, pending, [], w.log.lost, w.log.posted);
    assert Undelivered(after) == [];
  }

  /** The steps that move no event between a post, the pending queue and the event queue. */
  predicate MovesNothing(l: Label) {
    match l
    case PostEnter(_, _, _) => false
    case PostMeasure => false
    case PostWrite(_) => false
    case PostLeave => false
    case WriterWrite(_) => false
    case WriterRefund => false
    case Restart(_, _) => false
    case _ => true
  }

  lemma UndeliveredFrame(cfg: Config, w: World, l: Label)
    requires Enabled(cfg, w, l) && MovesNothing(l)
    ensures LeftInQueue(Next(cfg, w, l)) == LeftInQueue(w)
    ensures Hand(Next(cfg, w, l)) == Hand(w)
    ensures Next(cfg, w, l).log.written == w.log.written
    ensures Next(cfg, w, l).log.lost == w.log.lost
    ensures Next(cfg, w, l).log.posted == w.log.posted
  {}

  lemma OrderStep(cfg: Config, w: World, l: Label)
    requires QueueInv(cfg, w) && OrderInv(w) && Enabled(cfg, w, l)
    ensures OrderInv(Next(cfg, w, l))
  {
    match l
    case PostEnter(_, _, _) => OrderStepEnter(cfg, w, l);
    case PostMeasure => OrderStepMeasure(cfg, w, l);
    case PostWrite(_) => OrderStepDirect(cfg, w, l);
    case PostLeave => OrderStepLeave(cfg, w, l);
    case WriterWrite(_) => OrderStepWriter(cfg, w, l);
    case WriterRefund => OrderStepWriter(cfg, w, l);
    case Restart(_, _) => OrderStepRestart(cfg, w, l);
    case _ => UndeliveredFrame(cfg, w, l);
  }

  lemma OrderInvBlind(w: World, x: World)
    requires SameButFlag(w, x) && OrderInv(w)
    ensures OrderInv(x)
  {
    assert LeftInQueue(x) == LeftInQueue(w) && Hand(x) == Hand(w);
  }

  lemma OrderMove(cfg: Config, w: World, m: Move)
    requires QueueInv(cfg, w) && OrderInv(w) && CanMove(cfg, w, m)
    ensures OrderInv(Moved(cfg, w, m))
  {
    if m.Late? {
      QueueInvBlind(cfg, w, Resumed(w));
      OrderInvBlind(w, Resumed(w));
      OrderStep(cfg, Resumed(w), m.step);
      OrderInvBlind(Next(cfg, Resumed(w), m.step), Moved(cfg, w, m));
    } else {
      OrderStep(cfg, w, m.step);
    }
  }

  lemma OrderBegins(cfg: Config)
    ensures QueueInv(cfg, InitWorld()) && OrderInv(InitWorld())
  {
    SubsequenceSelf<Event>([]);
    assert Trail(InitWorld()) == [];
  }

  lemma {:induction false} RunKeepsOrder(cfg: Config, run: seq<Move>)
    requires Exec(cfg, run).Some?
    ensures QueueInv(cfg, Exec(cfg, run).value) && OrderInv(Exec(cfg, run).value)
  {
    if run == [] {
      OrderBegins(cfg);
    } else {
      var before := run[..|run| - 1];
      RunKeepsOrder(cfg, before);
      QueueMove(cfg, Exec(cfg, before).value, run[|run| - 1]);
      OrderMove(cfg, Exec(cfg, before).value, run[|run| - 1]);
    }
  }

  /** The moves that lose events: a post that ends without room, a failed blocking write, and a re-initialisation
      with events pending. */
  predicate LosesEvents(cfg: Config, w: World, m: Move) {
    match m.step
    case PostLeave => w.producer.Written? && !Fits(w.core, cfg.cap, |w.producer.left|)
    case WriterRefund => w.quantum > 0
    case Restart(_, _) => w.core.pending != []
    case _ => false
  }

  lemma RefundLoses(cfg: Config, w: World)
    requires QueueInv(cfg, w) && Enabled(cfg, w, WriterRefund)
    ensures Next(cfg, w, WriterRefund).log.lost == w.log.lost + Chunk(w.writer.front, w.quantum)
    ensures Chunk(w.writer.front, w.quantum) == [] <==> w.quantum == 0
  {
    assert w.core.pending[0].events != [];
  }

  lemma RestartLoses(cfg: Config, w: World, l: Label)
    requires QueueInv(cfg, w) && Enabled(cfg, w, l) && l.Restart?
    ensures Next(cfg, w, l).log.lost == w.log.lost + Flatten(w.core.pending)
    ensures Flatten(w.core.pending) == [] <==> w.core.pending == []
  {}

  lemma LostFrame(cfg: Config, w: World, l: Label)
    requires Enabled(cfg, w, l) && !l.WriterRefund? && !l.PostLeave? && !l.Restart?
    ensures Next(cfg, w, l).log.lost == w.log.lost
  {}

  lemma LossesOfStep(cfg: Config, w: World, l: Label)
    requires QueueInv(cfg, w) && Enabled(cfg, w, l)
    ensures w.log.lost <= Next(cfg, w, l).log.lost
    ensures w.log.lost == Next(cfg, w, l).log.lost <==> !LosesEvents(cfg, w, Now(l))
  {
    match l
    case WriterRefund => RefundLoses(cfg, w);
    case PostLeave => LeaveLog(cfg, w);
    case Restart(_, _) => RestartLoses(cfg, w, l);
    case _ => LostFrame(cfg, w, l);
  }

  /** Lost events are added at the end, and some are exactly in these moves. */
  lemma LossesAreExact(cfg: Config, w: World, m: Move)
    requires QueueInv(cfg, w) && CanMove(cfg, w, m)
    ensures w.log.lost <= Moved(cfg, w, m).log.lost
    ensures w.log.lost == Moved(cfg, w, m).log.lost <==> !LosesEvents(cfg, w, m)
  {
    if m.Late? {
      QueueInvBlind(cfg, w, Resumed(w));
      LossesOfStep(cfg, Resumed(w), m.step);
    } else {
      LossesOfStep(cfg, w, m.step);
    }
  }

  predicate NothingLost(cfg: Config, run: seq<Move>)
    requires Exec(cfg, run).Some?
  {
    run == []
    || (var before := run[..|run| - 1];
        NothingLost(cfg, before) && !LosesEvents(cfg, Exec(cfg, before).value, run[|run| - 1]))
  }

  lemma {:induction false} NothingLostExactly(cfg: Config, run: seq<Move>)
    requires Exec(cfg, run).Some?
    ensures NothingLost(cfg, run) <==> Exec(cfg, run).value.log.lost == []
  {
    if run != [] {
      var before := run[..|run| - 1];
      NothingLostExactly(cfg, before);
      RunKeepsOrder(cfg, before);
      LossesAreExact(cfg, Exec(cfg, before).value, run[|run| - 1]);
    }
  }

  /** A run delivers every posted event, in order, or still holds it, exactly when none of its moves is one of
      the three that lose events. */
  lemma CompleteRunsExactly(cfg: Config, run: seq<Move>)
    requires Exec(cfg, run).Some?
    ensures var w := Exec(cfg, run).value;
            w.log.written + Undelivered(w) == w.log.posted <==> NothingLost(cfg, run)
  {
    NothingLostExactly(cfg, run);
    DeliveryIsOrderedAndComplete(cfg, Exec(cfg, run).value);
  }

  /** In every reachable state the events written, followed by those still queued or in a post's
      hands, are the posted events in order without the lost ones, and all of them exactly when
      nothing was lost to overflow, a failed blocking write or a re-initialisation. */
  lemma DeliveryIsOrderedAndComplete(cfg: Config, w: World)
    requires Reachable(cfg, w)
    ensures IsSubsequence(w.log.written + Undelivered(w), w.log.posted)
    ensures multiset(w.log.written) + multiset(Undelivered(w)) + multiset(w.log.lost) == multiset(w.log.posted)
    ensures w.log.written + Undelivered(w) == w.log.posted <==> w.log.lost == []
  {
    var run :| Exec(cfg, run) == Some(w);
    RunKeepsOrder(cfg, run);
    AccountedComplete(Trail(w), w.log.lost, w.log.posted);
  }

  /** The counters count, in every reachable state, also while the writer works unlocked and right
      after a re-initialisation; the writer's subtraction never underflows. */
  lemma QueueCountersHold(cfg: Config, w: World)
    requires Reachable(cfg, w)
    ensures w.core.size == |Flatten(w.core.pending)|
    ensures forall i :: 0 <= i < |w.core.pending| ==> w.core.pending[i].events != []
    ensures w.core.size <= w.core.most <= cfg.cap
    ensures InFlight(w.writer) ==> ChunkSize(w.writer.front, w.quantum) <= w.core.size
  {
    var run :| Exec(cfg, run) == Some(w);
    RunKeepsOrder(cfg, run);
    if InFlight(w.writer) {
      CommitKeepsCounters(w.core, cfg.cap, w.quantum);
    }
  }

  /** Only one thread writes the event queue: while the writer works unlocked its batch stays at the front,
      unchanged, and no post writes directly. A post's direct write always has room, and
      the framework reads events in the order of writing. */
  lemma SingleWriter(cfg: Config, w: World)
    requires Reachable(cfg, w)
    ensures InFlight(w.writer) ==> w.core.pending != [] && w.core.pending[0] == w.writer.front
    ensures !(InFlight(w.writer) && DirectWrite(w.producer))
    ensures DirectWrite(w.producer) ==> Enabled(cfg, w, PostWrite(true))
    ensures IsSuffix(w.fmq, w.log.written) && |w.fmq| <= w.quantum
  {
    var run :| Exec(cfg, run) == Some(w);
    RunKeepsOrder(cfg, run);
  }
}
