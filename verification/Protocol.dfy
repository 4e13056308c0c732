/** The proxy's threads as a transition system: posting threads, the pending-writes thread, the wake-lock
    thread, the thread that (re-)initialises, and the framework at the other end of both queues. */
module Protocol {
  import opened Sequences
  import opened Events
  import opened ProxyCore

  datatype Config = Config(sensors: SensorMap, cap: nat, timeout: nat)

  /** The post that holds the event-queue mutex, if any. */
  datatype Producer =
    | NoPost
    | Entered(events: seq<Event>, wakeups: nat)
    | Measured(direct: seq<Event>, left: seq<Event>, wakeups: nat)
    | Written(sent: seq<Event>, left: seq<Event>, wakeups: nat)

  /** The pending-writes thread; it works on `front` from `Writing` to `Done` without the mutex. */
  datatype Writer = Idle | Writing(front: Batch) | Failed(front: Batch) | Done(front: Batch) | WriterExited

  datatype Waker = Waiting | Reading | Got(acked: nat) | WakerExited

  /** What happened so far: events posted, written to the event queue, and lost; for each pending batch all
      events of the post it came from (`origins`); references left behind by
      overflow drops or by an earlier initialisation (`leaked`); whether no step since the last
      initialisation fell short (`exact`); whether the wake lock was acquired for no reference
      (`spurious`); and whether the last reset read a clock not past the last acquisition (`tied`). */
  datatype Log = Log(
    posted: seq<Event>, written: seq<Event>, lost: seq<Event>, origins: seq<seq<Event>>,
    leaked: nat, exact: bool, spurious: bool, tied: bool)

  /** `fmq` is the event queue, of capacity `quantum`; `acks` the wake-lock queue; `readUnacked` counts the
      wake-up events the framework has read and not acknowledged; `live` and `stale` are the
      stamps of the live scoped wake locks created since, and before, the last reset. The program tests
      whether the threads run before it takes the wake-lock mutex: while they are stopped, `inside` counts
      the threads that passed the test before the stop and have not acted on it. */
  datatype World = World(
    core: Core, quantum: nat, fmq: seq<Event>, acks: seq<nat>, readUnacked: nat,
    producer: Producer, writer: Writer, waker: Waker,
    live: map<nat, int>, stale: map<nat, int>, clock: int, inside: nat, log: Log)

  datatype Label =
    | CreateHolder(id: nat, now: int)
    | ReleaseHolder(id: nat)
    | PostEnter(events: seq<Event>, holder: Option<nat>, now: int)
    | PostMeasure
    | PostWrite(ok: bool)
    | PostLeave
    | WriterTake
    | WriterWrite(ok: bool)
    | WriterRefund
    | WriterCommit
    | WriterExit
    | FrameworkRead(k: nat)
    | FrameworkAck(k: nat)
    | WakerTimeout(now: int)
    | WakerBegin(now: int)
    | WakerRead(ok: bool)
    | WakerApply
    | WakerExit(now: int)
    | StopFlag(inside: nat)
    | StopDrain
    | Restart(quantum: nat, now: int)

  /** A constructed proxy whose threads have not been started. */
  function InitWorld(): World {
    World(Core(false, [], 0, 0, 0, 0, 0, false), 0, [], [], 0, NoPost, WriterExited, WakerExited,
          map[], map[], 0, 0, Log([], [], [], [], 0, true, false, false))
  }

  predicate IsLocked(w: World, holder: Option<nat>) {
    holder.Some? && (holder.value in w.live || holder.value in w.stale)
  }

  predicate TimedOut(cfg: Config, w: World, now: int) {
    now - w.core.timeoutStart > cfg.timeout
  }

  predicate Enabled(cfg: Config, w: World, l: Label) {
    match l
    case CreateHolder(id, now) => id !in w.live && id !in w.stale && now >= w.clock
    case ReleaseHolder(id) => id in w.live || id in w.stale
    case PostEnter(_, _, now) => w.producer.NoPost? && now >= w.clock
    case PostMeasure => w.producer.Entered?
    case PostWrite(ok) => w.producer.Measured? && (ok ==> |w.fmq| + |w.producer.direct| <= w.quantum)
    case PostLeave => w.producer.Written?
    case WriterTake => w.writer.Idle? && w.producer.NoPost? && w.core.running && w.core.pending != []
    case WriterWrite(ok) => w.writer.Writing? && (ok ==> |w.fmq| + ChunkSize(w.writer.front, w.quantum) <= w.quantum)
    case WriterRefund => w.writer.Failed?
    case WriterCommit => w.writer.Done? && w.producer.NoPost? && w.core.pending != []
    case WriterExit => w.writer.Idle? && w.producer.NoPost? && !w.core.running
    case FrameworkRead(k) => k <= |w.fmq|
    case FrameworkAck(k) => k <= w.readUnacked
    case WakerTimeout(now) =>
      && w.waker.Waiting? && (w.core.running || w.inside > 0)
      && w.core.refCount > 0 && now >= w.clock && TimedOut(cfg, w, now)
    case WakerBegin(now) =>
      w.waker.Waiting? && w.core.running && w.core.refCount > 0 && now >= w.clock && !TimedOut(cfg, w, now)
    case WakerRead(ok) => w.waker.Reading? && (ok ==> w.acks != [])
    case WakerApply => w.waker.Got?
    case WakerExit(now) => w.waker.Waiting? && !w.core.running && now >= w.clock
    case StopFlag(_) => w.core.running
    case StopDrain => !w.core.running
    case Restart(_, now) =>
      !w.core.running && w.writer.WriterExited? && w.waker.WakerExited? && w.producer.NoPost? && now >= w.clock
  }

  /** The world after one of its wake-lock critical sections: an acquisition for no reference is
      remembered until the wake lock is released. */
  function WithCore(w: World, core: Core, emptyAcquire: bool): World {
    w.(core := core, log := w.log.(spurious := (w.log.spurious || emptyAcquire) && core.held))
  }

  /** All live holders become stale, and nothing is left behind. */
  function AfterReset(w: World, now: int): World {
    w.(stale := w.stale + w.live, live := map[], clock := now,
       log := w.log.(tied := now <= w.core.timeoutStart))
  }

  function Apply(cfg: Config, w: World, l: Label): World
    requires Enabled(cfg, w, l)
  {
    match l
    case CreateHolder(id, now) =>
      if w.core.running
      then WithCore(w, Increment(w.core, 1, now), false).(live := w.live[id := now], clock := now)
      else w
    case ReleaseHolder(id) =>
      var stamp := if id in w.live then w.live[id] else w.stale[id];
      WithCore(w, Decrement(w.core, 1, stamp), false).(live := w.live - {id}, stale := w.stale - {id})
    case PostEnter(events, holder, now) =>
      var wakeups := CountWake(cfg.sensors, events);
      var core := if IsLocked(w, holder) then Increment(w.core, wakeups, now) else w.core;
      var emptyAcquire := IsLocked(w, holder) && w.core.running && w.core.refCount == 0 && wakeups == 0;
      var w := WithCore(w, core, emptyAcquire);
      w.(producer := Entered(events, wakeups), clock := now, log := w.log.(posted := w.log.posted + events))
    case PostMeasure =>
      var Entered(events, wakeups) := w.producer;
      var available := if |w.fmq| <= w.quantum then w.quantum - |w.fmq| else 0;
      var n := DirectCount(w.core, events, available);
      w.(producer := Measured(events[..n], events[n..], wakeups))
    case PostWrite(ok) =>
      var Measured(direct, left, wakeups) := w.producer;
      if ok
      then w.(producer := Written(direct, left, wakeups), fmq := w.fmq + direct,
              log := w.log.(written := w.log.written + direct))
      else w.(producer := Written([], direct + left, wakeups))
    case PostLeave =>
      var Written(sent, left, wakeups) := w.producer;
      var dropped := if Fits(w.core, cfg.cap, |left|) then [] else left;
      var queued := left != [] && Fits(w.core, cfg.cap, |left|);
      var origins := if queued then w.log.origins + [sent + left] else w.log.origins;
      w.(producer := NoPost, core := FinishPost(w.core, cfg.cap, left, wakeups),
         log := w.log.(lost := w.log.lost + dropped, leaked := w.log.leaked + CountWake(cfg.sensors, dropped),
                       origins := origins))
    case WriterTake =>
      w.(writer := Writing(w.core.pending[0]))
    case WriterWrite(ok) =>
      var front := w.writer.front;
      if ok
      then w.(writer := Done(front), fmq := w.fmq + Chunk(front, w.quantum),
              log := w.log.(written := w.log.written + Chunk(front, w.quantum)))
      else w.(writer := Failed(front))
    case WriterRefund =>
      var front := w.writer.front;
      var refunded := WithCore(w, Decrement(w.core, Refund(cfg.sensors, front, w.quantum), NO_STAMP), false);
      refunded.(writer := Done(front), log := refunded.log.(lost := w.log.lost + Chunk(front, w.quantum)))
    case WriterCommit =>
      var origins := if |w.core.pending[0].events| > w.quantum || w.log.origins == []
                     then w.log.origins else w.log.origins[1..];
      w.(writer := Idle, core := CommitChunk(w.core, w.quantum), log := w.log.(origins := origins))
    case WriterExit =>
      w.(writer := WriterExited)
    case FrameworkRead(k) =>
      w.(fmq := w.fmq[k..], readUnacked := w.readUnacked + CountWake(cfg.sensors, w.fmq[..k]))
    case FrameworkAck(k) =>
      w.(acks := w.acks + [k], readUnacked := w.readUnacked - k)
    case WakerTimeout(now) =>
      var reset := AfterReset(WithCore(w, ResetWakelock(w.core, now), false), now);
      if w.core.running then reset.(log := reset.log.(leaked := 0)) else reset.(inside := w.inside - 1)
    case WakerBegin(now) =>
      w.(waker := Reading, clock := now)
    case WakerRead(ok) =>
      if ok then w.(waker := Got(w.acks[0]), acks := w.acks[1..]) else w.(waker := Waiting)
    case WakerApply =>
      WithCore(w, Decrement(w.core, w.waker.acked, NO_STAMP), false).(waker := Waiting)
    case WakerExit(now) =>
      AfterReset(WithCore(w, ResetWakelock(w.core, now), false), now).(waker := WakerExited)
    case StopFlag(inside) =>
      w.(core := w.core.(running := false), inside := inside)
    case StopDrain =>
      w.(fmq := [], acks := w.acks + [0])
    case Restart(quantum, now) =>
      var cleared := ClearPending(ResetWakelock(w.core, now)).(running := true);
      var log := w.log.(lost := w.log.lost + Flatten(w.core.pending), leaked := w.core.refCount, origins := []);
      AfterReset(w.(log := log), now)
      .(core := cleared, quantum := quantum, fmq := [], acks := [], readUnacked := 0,
        writer := Idle, waker := Waiting, inside := 0)
  }

  /** Events of the pending queue that the pending-writes thread has not dealt with. */
  function LeftInQueue(w: World): seq<Event> {
    if w.writer.Done? && w.core.pending != []
    then Flatten(DropChunk(w.core.pending, w.quantum))
    else Flatten(w.core.pending)
  }

  /** Events of the post in progress that are not in a queue yet. */
  function Hand(w: World): seq<Event> {
    match w.producer
    case NoPost => []
    case Entered(events, _) => events
    case Measured(direct, left, _) => direct + left
    case Written(_, left, _) => left
  }

  function Undelivered(w: World): seq<Event> {
    LeftInQueue(w) + Hand(w)
  }

  function InTransit(waker: Waker): nat {
    if waker.Got? then waker.acked else 0
  }

  /** Wake-up events whose handling has not been acknowledged to the wake-lock thread. */
  function Owed(cfg: Config, w: World): nat {
    CountWake(cfg.sensors, LeftInQueue(w)) + CountWake(cfg.sensors, Hand(w)) + CountWake(cfg.sensors, w.fmq)
    + w.readUnacked + Sum(w.acks) + InTransit(w.waker)
  }

  /** The references that somebody will give back, and those that nobody will. */
  function Debt(cfg: Config, w: World): nat {
    w.log.leaked + |w.live| + Owed(cfg, w)
  }

  /** The steps that leave fewer references than owed. A refund falls short when it exceeds the wake-up events
      in the failed chunk, a time-out when events are owed, a post when it brings wake-up
      events without a locked wake lock, and a release when its stamp is not older than the
      reset that made it stale. */
  predicate Shortfall(cfg: Config, w: World, l: Label) {
    w.core.running &&
    match l
    case WriterRefund =>
      w.writer.Failed?
      && var due := CountWake(cfg.sensors, Chunk(w.writer.front, w.quantum));
      due < Refund(cfg.sensors, w.writer.front, w.quantum) && due < w.core.refCount
    case WakerTimeout(_) => Owed(cfg, w) > 0
    case PostEnter(events, holder, _) => !IsLocked(w, holder) && CountWake(cfg.sensors, events) > 0
    case ReleaseHolder(id) =>
      id !in w.live && id in w.stale && w.stale[id] >= w.core.timeoutReset && w.core.refCount > 0
    case _ => false
  }

  /** By how many references such a step falls short. */
  function Short(cfg: Config, w: World, l: Label): nat {
    if !w.core.running then 0
    else
      match l
      case WriterRefund =>
        if w.writer.Failed?
        then Monus(Min(w.core.refCount, Refund(cfg.sensors, w.writer.front, w.quantum)),
                   CountWake(cfg.sensors, Chunk(w.writer.front, w.quantum)))
        else 0
      case WakerTimeout(_) => Owed(cfg, w)
      case PostEnter(events, holder, _) => if IsLocked(w, holder) then 0 else CountWake(cfg.sensors, events)
      case ReleaseHolder(id) =>
        if id !in w.live && id in w.stale && w.stale[id] >= w.core.timeoutReset && w.core.refCount > 0 then 1 else 0
      case _ => 0
  }

  function Next(cfg: Config, w: World, l: Label): World
    requires Enabled(cfg, w, l)
  {
    var after := Apply(cfg, w, l);
    after.(log := after.log.(exact := l.Restart? || (w.log.exact && !Shortfall(cfg, w, l))))
  }

  /** The steps that begin with a test of whether the threads run. */
  predicate TestsFlag(l: Label) {
    || l.CreateHolder? || l.ReleaseHolder? || l.PostEnter? || l.WriterTake? || l.WriterRefund?
    || l.WakerTimeout? || l.WakerBegin? || l.WakerApply?
  }

  /** A step, taken now, or by a thread that tested before a stop whether the threads run and acts on it late. */
  datatype Move = Now(step: Label) | Late(step: Label)

  /** What such a thread sees. */
  function Resumed(w: World): World {
    w.(core := w.core.(running := true))
  }

  predicate CanMove(cfg: Config, w: World, m: Move) {
    if m.Now? then Enabled(cfg, w, m.step)
    else !w.core.running && w.inside > 0 && TestsFlag(m.step) && Enabled(cfg, Resumed(w), m.step)
  }

  /** What it leaves behind: the threads stay stopped, and one less may still act. */
  function Suspended(w: World, inside: nat, exact: bool): World {
    w.(core := w.core.(running := false), inside := inside, log := w.log.(exact := exact))
  }

  function Moved(cfg: Config, w: World, m: Move): World
    requires CanMove(cfg, w, m)
  {
    if m.Now? then Next(cfg, w, m.step)
    else Suspended(Next(cfg, Resumed(w), m.step), w.inside - 1, w.log.exact)
  }

  /** The world after the moves `run` from `w`, when each is possible where it is made. */
  function ExecFrom(cfg: Config, w: World, run: seq<Move>): Option<World> {
    if run == [] then Some(w)
    else
      var before := ExecFrom(cfg, w, run[..|run| - 1]);
      var m := run[|run| - 1];
      if before.Some? && CanMove(cfg, before.value, m) then Some(Moved(cfg, before.value, m)) else None
  }

  function Exec(cfg: Config, run: seq<Move>): Option<World> {
    ExecFrom(cfg, InitWorld(), run)
  }

  ghost predicate Reachable(cfg: Config, w: World) {
    exists run :: Exec(cfg, run) == Some(w)
  }
}
