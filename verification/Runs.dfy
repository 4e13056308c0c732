/** Whole runs of the protocol: the methods as runs of steps, how long a drain takes, epochs of scoped wake
    locks, and the runs in which the accounting is known to fail. */
module Runs {
  import opened Sequences
  import opened Events
  import opened ProxyCore
  import opened Protocol
  import opened Pipeline
  import opened WakeLocks
  import opened Accounting

  /** `after` is one step away. */
  predicate Steps(cfg: Config, w: World, l: Label, after: World) {
    Enabled(cfg, w, l) && after == Next(cfg, w, l)
  }

  lemma OneMoveMore(cfg: Config, w: World, run: seq<Move>, x: World, m: Move)
    requires ExecFrom(cfg, w, run) == Some(x) && CanMove(cfg, x, m)
    ensures ExecFrom(cfg, w, run + [m]) == Some(Moved(cfg, x, m))
  {
    assert (run + [m])[..|run + [m]| - 1] == run;
  }

  lemma MoveReachable(cfg: Config, w: World, m: Move)
    requires Reachable(cfg, w) && CanMove(cfg, w, m)
    ensures Reachable(cfg, Moved(cfg, w, m))
  {
    var run :| Exec(cfg, run) == Some(w);
    OneMoveMore(cfg, InitWorld(), run, w, m);
    assert Exec(cfg, run + [m]) == Some(Moved(cfg, w, m));
  }

  lemma EnterStep(cfg: Config, w: World, events: seq<Event>, holder: Option<nat>, now: int) returns (after: World)
    requires w.producer.NoPost? && now >= w.clock
    ensures Steps(cfg, w, PostEnter(events, holder, now), after)
    ensures after.producer == Entered(events, CountWake(cfg.sensors, events))
    ensures after.core
         == if IsLocked(w, holder) then Increment(w.core, CountWake(cfg.sensors, events), now) else w.core
    ensures after.fmq == w.fmq && after.quantum == w.quantum
  {
    after := Next(cfg, w, PostEnter(events, holder, now));
  }

  lemma MeasureStep(cfg: Config, w: World) returns (n: nat, after: World)
    requires w.producer.Entered? && |w.fmq| <= w.quantum
    ensures n == DirectCount(w.core, w.producer.events, w.quantum - |w.fmq|)
    ensures n <= |w.producer.events| && |w.fmq| + n <= w.quantum
    ensures Steps(cfg, w, PostMeasure, after)
    ensures after.producer == Measured(w.producer.events[..n], w.producer.events[n..], w.producer.wakeups)
    ensures after.core == w.core && after.fmq == w.fmq && after.quantum == w.quantum
  {
    n := DirectCount(w.core, w.producer.events, w.quantum - |w.fmq|);
    after := Next(cfg, w, PostMeasure);
  }

  lemma WriteStep(cfg: Config, w: World, events: seq<Event>, n: nat, wakeups: nat, ok: bool) returns (after: World)
    requires n <= |events| && w.producer == Measured(events[..n], events[n..], wakeups)
    requires |w.fmq| + n <= w.quantum
    ensures Steps(cfg, w, PostWrite(ok), after)
    ensures var sent := if ok then n else 0;
            after.producer == Written(events[..sent], events[sent..], wakeups) && after.fmq == w.fmq + events[..sent]
    ensures after.core == w.core
  {
    after := Next(cfg, w, PostWrite(ok));
    if !ok {
      assert events[..n] + events[n..] == events == events[0..];
      assert w.fmq + events[..0] == w.fmq;
    }
  }

  lemma LeaveStep(cfg: Config, w: World) returns (after: World)
    requires w.producer.Written?
    ensures Steps(cfg, w, PostLeave, after)
    ensures after.core == FinishPost(w.core, cfg.cap, w.producer.left, w.producer.wakeups) && after.fmq == w.fmq
  {
    after := Next(cfg, w, PostLeave);
  }

  /** `postEventsToMessageQueue`, run without interference, is the four steps of a post. */
  lemma PostIsFourSteps(cfg: Config, w: World, events: seq<Event>, holder: Option<nat>, now: int, ok: bool)
    returns (w1: World, w2: World, w3: World, after: World)
    requires w.producer.NoPost? && now >= w.clock && |w.fmq| <= w.quantum
    ensures Steps(cfg, w, PostEnter(events, holder, now), w1)
    ensures Steps(cfg, w1, PostMeasure, w2)
    ensures Steps(cfg, w2, PostWrite(ok), w3)
    ensures Steps(cfg, w3, PostLeave, after)
    ensures (after.core, after.fmq)
         == PostNow(w.core, cfg.cap, w.fmq, w.quantum, events, CountWake(cfg.sensors, events),
                    IsLocked(w, holder), now, ok)
  {
    var n: nat;
    w1 := EnterStep(cfg, w, events, holder, now);
    n, w2, w3 := SendSteps(cfg, w1, ok);
    after := LeaveStep(cfg, w3);
    PostNowSends(w.core, cfg.cap, w.fmq, w.quantum, events, CountWake(cfg.sensors, events),
                 IsLocked(w, holder), now, ok, n);
  }

  lemma SendSteps(cfg: Config, w1: World, ok: bool) returns (n: nat, w2: World, w3: World)
    requires w1.producer.Entered? && |w1.fmq| <= w1.quantum
    ensures Steps(cfg, w1, PostMeasure, w2) && Steps(cfg, w2, PostWrite(ok), w3)
    ensures n == DirectCount(w1.core, w1.producer.events, w1.quantum - |w1.fmq|) && n <= |w1.producer.events|
    ensures var sent := if ok then n else 0;
            && w3.producer == Written(w1.producer.events[..sent], w1.producer.events[sent..], w1.producer.wakeups)
            && w3.fmq == w1.fmq + w1.producer.events[..sent]
    ensures w3.core == w1.core
  {
    n, w2 := MeasureStep(cfg, w1);
    w3 := WriteStep(cfg, w2, w1.producer.events, n, w1.producer.wakeups, ok);
  }

  /** A turn of the pending-writes thread, run without interference, is its steps; the refund
      takes place only after a failed write. */
  lemma TurnIsWriterSteps(cfg: Config, w: World, ok: bool) returns (w1: World, w2: World, w3: World, after: World)
    requires w.producer.NoPost? && w.writer.Idle? && w.core.running && w.core.pending != []
    requires ok ==> |w.fmq| + ChunkSize(w.core.pending[0], w.quantum) <= w.quantum
    ensures Steps(cfg, w, WriterTake, w1)
    ensures Steps(cfg, w1, WriterWrite(ok), w2)
    ensures if ok then w3 == w2 else Steps(cfg, w2, WriterRefund, w3)
    ensures Steps(cfg, w3, WriterCommit, after)
    ensures after.core == WriteFront(w.core, cfg.sensors, w.quantum, ok)
    ensures after.fmq == if ok then w.fmq + Chunk(w.core.pending[0], w.quantum) else w.fmq
  {
    w1 := Next(cfg, w, WriterTake);
    w2 := Next(cfg, w1, WriterWrite(ok));
    w3 := if ok then w2 else Next(cfg, w2, WriterRefund);
    after := Next(cfg, w3, WriterCommit);
  }

  /** A turn of the wake-lock thread, run without interference, is its steps: a reset on time-out, otherwise the
      acknowledged references go, or nothing happens when no acknowledgement comes. */
  lemma WakerTurnIsSteps(cfg: Config, w: World, now: int, ack: bool) returns (w1: World, w2: World, after: World)
    requires w.waker.Waiting? && w.core.running && w.core.refCount > 0 && now >= w.clock && (ack ==> w.acks != [])
    ensures now > w.core.timeoutStart + cfg.timeout ==>
              Steps(cfg, w, WakerTimeout(now), after) && after.core == ResetWakelock(w.core, now)
    ensures now <= w.core.timeoutStart + cfg.timeout ==>
              && Steps(cfg, w, WakerBegin(now), w1) && Steps(cfg, w1, WakerRead(ack), w2)
              && (if ack then Steps(cfg, w2, WakerApply, after) else after == w2)
              && after.core == (if ack then Decrement(w.core, w.acks[0], NO_STAMP) else w.core)
  {
    w1, w2 := w, w;
    if now > w.core.timeoutStart + cfg.timeout {
      after := Next(cfg, w, WakerTimeout(now));
    } else {
      w1 := Next(cfg, w, WakerBegin(now));
      w2 := Next(cfg, w1, WakerRead(ack));
      after := if ack then Next(cfg, w2, WakerApply) else w2;
    }
  }

  /** A stop, run without interference, is its steps: the count stays, the event queue is read empty, and the wake-lock
      thread gets an acknowledgement of nothing. */
  lemma StopIsSteps(cfg: Config, w: World) returns (w1: World, after: World)
    requires w.core.running
    ensures Steps(cfg, w, StopFlag(0), w1) && Steps(cfg, w1, StopDrain, after)
    ensures after.core == w.core.(running := false) && after.fmq == [] && after.acks == w.acks + [0]
  {
    w1 := Next(cfg, w, StopFlag(0));
    after := Next(cfg, w1, StopDrain);
  }

  /** And so is the initialisation that follows when both threads have ended: it resets the wake lock, empties the
      pending queue, starts the threads, and has new, empty queues. */
  lemma RestartIsInitialization(cfg: Config, w: World, quantum: nat, now: int) returns (after: World)
    requires Enabled(cfg, w, Restart(quantum, now))
    ensures Steps(cfg, w, Restart(quantum, now), after)
    ensures after.core == w.core.(running := true, pending := [], size := 0, timeoutReset := now)
    ensures after.quantum == quantum && after.fmq == [] && after.acks == []
    ensures after.writer == Idle && after.waker == Waiting && after.live == map[]
  {
    after := Next(cfg, w, Restart(quantum, now));
  }

  function Commits(run: seq<Move>): nat {
    if run == [] then 0
    else Commits(run[..|run| - 1]) + if run[|run| - 1].step.WriterCommit? then 1 else 0
  }

  /** No post ends and nothing is re-initialised. */
  predicate OnlyDrains(run: seq<Move>) {
    forall m <- run :: !m.step.PostLeave? && !m.step.Restart?
  }

  lemma PendingFrame(cfg: Config, w: World, l: Label)
    requires Enabled(cfg, w, l) && !l.PostLeave? && !l.Restart? && !l.WriterCommit?
    ensures Next(cfg, w, l).core.pending == w.core.pending && Next(cfg, w, l).quantum == w.quantum
  {}

  lemma DrainStep(cfg: Config, w: World, l: Label)
    requires QueueInv(cfg, w) && w.quantum > 0 && Enabled(cfg, w, l) && !l.PostLeave? && !l.Restart?
    ensures var after := Next(cfg, w, l);
            && after.quantum == w.quantum
            && (if l.WriterCommit? then 1 else 0) + Iterations(after.core.pending, w.quantum)
               == Iterations(w.core.pending, w.quantum)
  {
    if l.WriterCommit? {
      TurnMakesProgress(w.core, cfg.cap, w.quantum);
    } else {
      PendingFrame(cfg, w, l);
    }
  }

  lemma DrainMove(cfg: Config, w: World, m: Move)
    requires QueueInv(cfg, w) && w.quantum > 0 && CanMove(cfg, w, m) && !m.step.PostLeave? && !m.step.Restart?
    ensures var after := Moved(cfg, w, m);
            && after.quantum == w.quantum
            && (if m.step.WriterCommit? then 1 else 0) + Iterations(after.core.pending, w.quantum)
               == Iterations(w.core.pending, w.quantum)
  {
    if m.Late? {
      PendingFrame(cfg, Resumed(w), m.step);
    } else {
      DrainStep(cfg, w, m.step);
    }
  }

  /** While nobody posts, in whatever way the threads interleave and whichever writes fail, each turn of the
      pending-writes thread brings the end of the queue exactly one turn closer. */
  lemma {:induction false} DrainTakesExactly(cfg: Config, w: World, run: seq<Move>)
    requires QueueInv(cfg, w) && w.quantum > 0
    requires OnlyDrains(run) && ExecFrom(cfg, w, run).Some?
    ensures var after := ExecFrom(cfg, w, run).value;
            && QueueInv(cfg, after) && after.quantum == w.quantum
            && Commits(run) + Iterations(after.core.pending, w.quantum) == Iterations(w.core.pending, w.quantum)
            && (after.core.pending == [] <==> Commits(run) == Iterations(w.core.pending, w.quantum))
  {
    if run != [] {
      var m := run[|run| - 1];
      DrainTakesExactly(cfg, w, run[..|run| - 1]);
      var before := ExecFrom(cfg, w, run[..|run| - 1]).value;
      QueueMove(cfg, before, m);
      DrainMove(cfg, before, m);
    }
    var after := ExecFrom(cfg, w, run).value;
    if after.core.pending != [] {
      TurnMakesProgress(after.core, cfg.cap, w.quantum);
    }
  }

  lemma ReleaseIsExact(cfg: Config, w: World, id: nat)
    requires HolderInv(w) && (w.core.refCount > 0 ==> w.core.held)
    requires w.core.running && Enabled(cfg, w, ReleaseHolder(id))
    ensures var core := Next(cfg, w, ReleaseHolder(id)).core;
            && (id in w.stale ==>
                  (core == w.core <==> w.core.refCount == 0 || w.stale[id] < w.core.timeoutReset))
            && (id in w.live ==> core.refCount == Monus(w.core.refCount, 1))
  {
    var stamp := if id in w.live then w.live[id] else w.stale[id];
    assert Next(cfg, w, ReleaseHolder(id)).core == Decrement(w.core, 1, stamp);
  }

  /** Releasing a scoped wake lock from before the last reset takes nothing exactly when there is nothing to
      take or its stamp is older than the reset; it is, provided that the reset read a later clock than the
      last acquisition. Releasing a newer one gives back its one reference. */
  lemma ReleaseTakesOwnReference(cfg: Config, w: World, id: nat)
    requires Reachable(cfg, w) && w.core.running && Enabled(cfg, w, ReleaseHolder(id))
    ensures id in w.stale ==>
              (Next(cfg, w, ReleaseHolder(id)).core == w.core <==>
               w.core.refCount == 0 || w.stale[id] < w.core.timeoutReset)
    ensures id in w.stale && !w.log.tied ==> w.stale[id] < w.core.timeoutReset
    ensures id in w.live ==>
              Next(cfg, w, ReleaseHolder(id)).core.refCount == Monus(w.core.refCount, 1)
  {
    var run :| Exec(cfg, run) == Some(w);
    RunKeepsBalance(cfg, run);
    ReleaseIsExact(cfg, w, id);
  }

  /** A reset by time-out always reads a later clock. */
  lemma TimeoutsNeverTie(cfg: Config, w: World, now: int)
    requires Enabled(cfg, w, WakerTimeout(now))
    ensures !Next(cfg, w, WakerTimeout(now)).log.tied
  {}

  predicate HolderOrReset(l: Label) {
    l.CreateHolder? || l.ReleaseHolder? || l.WakerTimeout? || l.WakerBegin? || l == WakerRead(false)
  }

  ghost predicate OnlyHoldersCount(cfg: Config, w: World) {
    && w.core.running && w.core.refCount == |w.live|
    && Owed(cfg, w) == 0 && w.log.leaked == 0 && (w.log.tied ==> w.stale == map[])
    && HolderInv(w) && QueueInv(cfg, w)
  }

  lemma HolderRunOwes(cfg: Config, w: World, l: Label)
    requires Enabled(cfg, w, l) && HolderOrReset(l)
    ensures Owed(cfg, Next(cfg, w, l)) == Owed(cfg, w)
  {
    if l.WakerRead? {
      OwedWaker(cfg, w, l);
    } else {
      OwedFrame(cfg, w, l);
    }
  }

  lemma HolderRunFlags(cfg: Config, w: World, l: Label)
    requires HolderInv(w) && w.core.running && Enabled(cfg, w, l) && HolderOrReset(l)
    requires Owed(cfg, w) == 0 && w.log.leaked == 0 && (w.log.tied ==> w.stale == map[])
    ensures var after := Next(cfg, w, l);
            && after.core.running && after.log.leaked == 0 && !Shortfall(cfg, w, l)
            && (after.log.tied ==> after.stale == map[])
  {}

  lemma HolderRunStep(cfg: Config, w: World, l: Label)
    requires OnlyHoldersCount(cfg, w) && Enabled(cfg, w, l) && HolderOrReset(l)
    ensures OnlyHoldersCount(cfg, Next(cfg, w, l))
  {
    HolderStep(cfg, w, l);
    QueueStep(cfg, w, l);
    HolderRunFlags(cfg, w, l);
    HolderRunOwes(cfg, w, l);
    ShortfallsAreExact(cfg, w, l);
  }

  lemma FirstStart(cfg: Config, quantum: nat, now: int)
    requires now >= 0
    ensures OnlyHoldersCount(cfg, Next(cfg, InitWorld(), Restart(quantum, now)))
  {
    HolderStep(cfg, InitWorld(), Restart(quantum, now));
    QueueStep(cfg, InitWorld(), Restart(quantum, now));
  }

  lemma {:induction false} HolderRunsKeepCount(cfg: Config, quantum: nat, start: int, run: seq<Move>, w: World)
    requires start >= 0 && forall m <- run :: HolderOrReset(m.step)
    requires ExecFrom(cfg, Next(cfg, InitWorld(), Restart(quantum, start)), run) == Some(w)
    ensures OnlyHoldersCount(cfg, w)
  {
    if run == [] {
      FirstStart(cfg, quantum, start);
    } else {
      var shorter := run[..|run| - 1];
      var before := ExecFrom(cfg, Next(cfg, InitWorld(), Restart(quantum, start)), shorter).value;
      HolderRunsKeepCount(cfg, quantum, start, shorter, before);
      HolderRunStep(cfg, before, run[|run| - 1].step);
    }
  }

  /** Epoch safety: from the first initialisation on, in every run of acquisitions, releases and time-out
      resets, the count is the number of live scoped wake locks created since the last reset. */
  lemma CountIsLiveHolders(cfg: Config, quantum: nat, start: int, run: seq<Move>, w: World)
    requires start >= 0 && forall m <- run :: HolderOrReset(m.step)
    requires ExecFrom(cfg, Next(cfg, InitWorld(), Restart(quantum, start)), run) == Some(w)
    ensures w.core.refCount == |w.live|
  {
    HolderRunsKeepCount(cfg, quantum, start, run, w);
  }

  /** In no state of the run does a post end without room for what is left of it. */
  ghost predicate NeverOverflows(cfg: Config, w: World, run: seq<Move>) {
    forall k :: 0 <= k < |run| && run[k].step.PostLeave? ==>
      var before := ExecFrom(cfg, w, run[..k]);
      before.Some? && before.value.producer.Written?
      && Fits(before.value.core, cfg.cap, |before.value.producer.left|)
  }

  lemma LeakFrame(cfg: Config, w: World, l: Label)
    requires Enabled(cfg, w, l) && !l.Restart? && !l.PostLeave?
    ensures Next(cfg, w, l).log.leaked == if l.WakerTimeout? && w.core.running then 0 else w.log.leaked
  {}

  lemma LeakedStaysZero(cfg: Config, w: World, m: Move)
    requires w.log.leaked == 0 && CanMove(cfg, w, m) && !m.step.Restart?
    requires m.step.PostLeave? ==> Fits(w.core, cfg.cap, |w.producer.left|)
    ensures Moved(cfg, w, m).log.leaked == 0
  {
    if m.step.PostLeave? {
      LeaveLog(cfg, w);
      NoWake(cfg.sensors);
    } else {
      LeakFrame(cfg, if m.Late? then Resumed(w) else w, m.step);
    }
  }

  predicate NeverRestarts(run: seq<Move>) {
    forall m <- run :: !m.step.Restart?
  }

  lemma StartReachable(cfg: Config, quantum: nat, start: int)
    requires start >= 0
    ensures Reachable(cfg, Next(cfg, InitWorld(), Restart(quantum, start)))
  {
    assert Exec(cfg, []) == Some(InitWorld());
    MoveReachable(cfg, InitWorld(), Now(Restart(quantum, start)));
  }

  lemma {:induction false} RunFromStart(cfg: Config, quantum: nat, start: int, run: seq<Move>)
    requires start >= 0
    requires NeverOverflows(cfg, Next(cfg, InitWorld(), Restart(quantum, start)), run)
    requires NeverRestarts(run)
    requires ExecFrom(cfg, Next(cfg, InitWorld(), Restart(quantum, start)), run).Some?
    ensures Reachable(cfg, ExecFrom(cfg, Next(cfg, InitWorld(), Restart(quantum, start)), run).value)
    ensures ExecFrom(cfg, Next(cfg, InitWorld(), Restart(quantum, start)), run).value.log.leaked == 0
  {
    var w0 := Next(cfg, InitWorld(), Restart(quantum, start));
    if run == [] {
      StartReachable(cfg, quantum, start);
    } else {
      var shorter := run[..|run| - 1];
      assert forall k :: 0 <= k < |shorter| ==> shorter[..k] == run[..k];
      RunFromStart(cfg, quantum, start, shorter);
      var w := ExecFrom(cfg, w0, shorter).value;
      MoveReachable(cfg, w, run[|run| - 1]);
      LeakedStaysZero(cfg, w, run[|run| - 1]);
    }
  }

  /** From the first initialisation on, while no post overflows: the count never exceeds the live scoped wake locks
      of this epoch and the wake-up events owed, even with failed writes and time-outs; and it is
      their number as long as no step falls short. */
  lemma CountWithoutOverflow(cfg: Config, quantum: nat, start: int, run: seq<Move>)
    requires start >= 0
    requires NeverOverflows(cfg, Next(cfg, InitWorld(), Restart(quantum, start)), run)
    requires NeverRestarts(run)
    requires ExecFrom(cfg, Next(cfg, InitWorld(), Restart(quantum, start)), run).Some?
    ensures var w := ExecFrom(cfg, Next(cfg, InitWorld(), Restart(quantum, start)), run).value;
            w.core.running ==>
              && w.core.refCount <= |w.live| + Owed(cfg, w)
              && (w.log.exact ==> w.core.refCount == |w.live| + Owed(cfg, w))
  {
    RunFromStart(cfg, quantum, start, run);
    var w := ExecFrom(cfg, Next(cfg, InitWorld(), Restart(quantum, start)), run).value;
    ReferencesWithinDebt(cfg, w);
    ReferencesMatchDebt(cfg, w);
  }

  /** No write fails, nothing times out, nothing is re-initialised. */
  predicate Undisturbed(l: Label) {
    !l.WriterRefund? && !l.WakerTimeout? && !l.Restart?
  }

  /** Whoever posts wake-up events passes a locked scoped wake lock. */
  ghost predicate PostsHoldLock(cfg: Config, w: World, run: seq<Move>) {
    forall k :: 0 <= k < |run| && run[k].step.PostEnter? ==>
      var before := ExecFrom(cfg, w, run[..k]);
      before.Some? && (CountWake(cfg.sensors, run[k].step.events) == 0 || IsLocked(before.value, run[k].step.holder))
  }

  /** While nothing else loses events, the references left behind are those of the lost wake-up events. */
  lemma LeakIsLoss(cfg: Config, w: World, m: Move)
    requires CanMove(cfg, w, m) && Undisturbed(m.step) && w.log.leaked == CountWake(cfg.sensors, w.log.lost)
    ensures Moved(cfg, w, m).log.leaked == CountWake(cfg.sensors, Moved(cfg, w, m).log.lost)
  {
    if m.step.PostLeave? {
      OverflowLeaks(cfg, w);
    } else {
      LostFrame(cfg, if m.Late? then Resumed(w) else w, m.step);
      LeakFrame(cfg, if m.Late? then Resumed(w) else w, m.step);
    }
  }

  lemma OverflowLeaks(cfg: Config, w: World)
    requires Enabled(cfg, w, PostLeave) && w.log.leaked == CountWake(cfg.sensors, w.log.lost)
    ensures Next(cfg, w, PostLeave).log.leaked == CountWake(cfg.sensors, Next(cfg, w, PostLeave).log.lost)
  {
    var left := w.producer.left;
    LeaveLog(cfg, w);
    CountWakeAppend(cfg.sensors, w.log.lost, if Fits(w.core, cfg.cap, |left|) then [] else left);
  }

  lemma UndisturbedStep(cfg: Config, w: World, m: Move)
    requires CanMove(cfg, w, m) && Undisturbed(m.step) && w.log.exact && (w.core.running ==> w.stale == map[])
    requires m.step.PostEnter? ==> CountWake(cfg.sensors, m.step.events) == 0 || IsLocked(w, m.step.holder)
    ensures var after := Moved(cfg, w, m);
            after.log.exact && (after.core.running ==> after.stale == map[])
  {
    if m.Now? && w.core.running {
      StaleFrame(cfg, w, m.step);
      assert !Shortfall(cfg, w, m.step);
    } else if m.Now? {
      StoppedNow(cfg, w, m.step);
    }
  }

  lemma StaleFrame(cfg: Config, w: World, l: Label)
    requires Enabled(cfg, w, l) && Undisturbed(l) && w.core.running && w.stale == map[]
    ensures Next(cfg, w, l).core.running ==> Next(cfg, w, l).stale == map[]
  {}

  /** From the first initialisation on, in every run without failed writes and time-outs whose posts hold
      the lock, no step falls short, whatever overflows: the count is exactly the live scoped wake
      locks, the wake-up events owed and those dropped on overflow. */
  lemma {:induction false} UndisturbedRunsAreExact(cfg: Config, quantum: nat, start: int, run: seq<Move>)
    requires start >= 0
    requires PostsHoldLock(cfg, Next(cfg, InitWorld(), Restart(quantum, start)), run)
    requires forall m <- run :: Undisturbed(m.step)
    requires ExecFrom(cfg, Next(cfg, InitWorld(), Restart(quantum, start)), run).Some?
    ensures var w := ExecFrom(cfg, Next(cfg, InitWorld(), Restart(quantum, start)), run).value;
            && Reachable(cfg, w) && w.log.exact && (w.core.running ==> w.stale == map[])
            && w.log.leaked == CountWake(cfg.sensors, w.log.lost)
            && (w.core.running ==> w.core.refCount == CountWake(cfg.sensors, w.log.lost) + |w.live| + Owed(cfg, w))
  {
    var w0 := Next(cfg, InitWorld(), Restart(quantum, start));
    if run == [] {
      StartReachable(cfg, quantum, start);
      assert w0.stale == map[];
    } else {
      var shorter := run[..|run| - 1];
      assert forall k :: 0 <= k < |shorter| ==> shorter[..k] == run[..k];
      UndisturbedRunsAreExact(cfg, quantum, start, shorter);
      var w := ExecFrom(cfg, w0, shorter).value;
      MoveReachable(cfg, w, run[|run| - 1]);
      UndisturbedStep(cfg, w, run[|run| - 1]);
      LeakIsLoss(cfg, w, run[|run| - 1]);
    }
    var w := ExecFrom(cfg, w0, run).value;
    ReferencesMatchDebt(cfg, w);
  }

  lemma Go(cfg: Config, w: World, l: Label) returns (after: World)
    requires Reachable(cfg, w) && Enabled(cfg, w, l)
    ensures after == Next(cfg, w, l) && Reachable(cfg, after)
  {
    MoveReachable(cfg, w, Now(l));
    after := Next(cfg, w, l);
  }

  /** A world with empty queues and idle threads. */
  function Quiet(quantum: nat, core: Core, live: map<nat, int>, stale: map<nat, int>, clock: int, log: Log): World {
    World(core, quantum, [], [], 0, NoPost, Idle, Waiting, live, stale, clock, 0, log)
  }

  function QuietCore(refCount: nat, start: int, reset: int, held: bool): Core {
    Core(true, [], 0, 0, refCount, start, reset, held)
  }

  const CLEAN: Log := Log([], [], [], [], 0, true, false, false)

  lemma Started(cfg: Config, quantum: nat) returns (w: World)
    ensures Reachable(cfg, w)
    ensures w == Quiet(quantum, QuietCore(0, 0, 1, false), map[], map[], 1, CLEAN)
  {
    assert Exec(cfg, []) == Some(InitWorld());
    w := Go(cfg, InitWorld(), Restart(quantum, 1));
    assert InitWorld().stale + InitWorld().live == map[];
  }

  lemma Acquired(cfg: Config, quantum: nat) returns (w: World)
    ensures Reachable(cfg, w)
    ensures w == Quiet(quantum, QuietCore(1, 1, 1, true), map[0 := 1], map[], 1, CLEAN)
  {
    w := Started(cfg, quantum);
    w := Go(cfg, w, CreateHolder(0, 1));
  }

  lemma StoppedAndReset(cfg: Config, quantum: nat) returns (w: World)
    ensures Reachable(cfg, w)
    ensures w == Quiet(quantum, QuietCore(1, 1, 1, true).(running := false), map[], map[0 := 1], 1,
                       CLEAN.(tied := true))
                 .(writer := WriterExited, waker := WakerExited)
  {
    var w1 := Stopped(cfg, quantum);
    w := Go(cfg, w1, WakerExit(1));
    assert w.stale == map[0 := 1] && w.live == map[];
  }

  /** A proxy stopped while a scoped wake lock was held, and initialised again at the time `now`. */
  lemma Reinitialized(cfg: Config, quantum: nat, now: int) returns (w: World)
    requires now >= 1
    ensures Reachable(cfg, w)
    ensures w == Quiet(quantum, QuietCore(1, 1, now, true), map[], map[0 := 1], now,
                       CLEAN.(leaked := 1, tied := now <= 1))
  {
    var w1 := StoppedAndReset(cfg, quantum);
    w := Go(cfg, w1, Restart(quantum, now));
    assert w.stale == map[0 := 1];
  }

  lemma Stopped(cfg: Config, quantum: nat) returns (w: World)
    ensures Reachable(cfg, w)
    ensures w == Quiet(quantum, QuietCore(1, 1, 1, true).(running := false), map[0 := 1], map[], 1, CLEAN)
                 .(writer := WriterExited)
  {
    var w1 := Acquired(cfg, quantum);
    var w2 := Go(cfg, w1, StopFlag(0));
    w := Go(cfg, w2, WriterExit);
  }

  /** A stopped and re-initialised proxy keeps counting a reference that nobody owes or holds. */
  lemma StopKeepsReferences(cfg: Config, quantum: nat) returns (w: World)
    ensures Reachable(cfg, w) && w.core.running
    ensures w.core.refCount == 1 && w.live == map[] && Owed(cfg, w) == 0
    ensures 0 in w.stale && Next(cfg, w, ReleaseHolder(0)).core == w.core
  {
    w := Reinitialized(cfg, quantum, 2);
  }

  /** When a reset reads the clock of the last acquisition, an old scoped wake lock takes a newer reference. */
  lemma TiedReleaseTakesNewerReference(cfg: Config, quantum: nat) returns (w: World)
    ensures Reachable(cfg, w) && w.core.running && w.log.tied
    ensures 0 in w.stale && 1 in w.live
    ensures Next(cfg, w, ReleaseHolder(0)).core.refCount == w.core.refCount - 1
  {
    var w1 := Reinitialized(cfg, quantum, 1);
    w := Go(cfg, w1, CreateHolder(1, 1));
  }

  /** What the late steps of a run of a stopped proxy add to the count, together. */
  function TotalGain(cfg: Config, w: World, run: seq<Move>): int
    requires ExecFrom(cfg, w, run).Some?
  {
    if run == [] then 0
    else
      var before := run[..|run| - 1];
      TotalGain(cfg, w, before) + LateGain(cfg, ExecFrom(cfg, w, before).value, run[|run| - 1])
  }

  /** Between a stop and the next initialisation the count changes only by the late steps. */
  lemma {:induction false} StoppedRunsCount(cfg: Config, w: World, run: seq<Move>)
    requires HolderInv(w) && !w.core.running && ExecFrom(cfg, w, run).Some? && NeverRestarts(run)
    ensures var after := ExecFrom(cfg, w, run).value;
            && HolderInv(after) && !after.core.running && after.inside <= w.inside
            && after.core.refCount == w.core.refCount + TotalGain(cfg, w, run)
            && (w.inside == 0 ==> TotalGain(cfg, w, run) == 0 && after.core.held == w.core.held)
  {
    if run != [] {
      var shorter := run[..|run| - 1];
      StoppedRunsCount(cfg, w, shorter);
      var before := ExecFrom(cfg, w, shorter).value;
      HolderMove(cfg, before, run[|run| - 1]);
      StoppedStep(cfg, before, run[|run| - 1]);
    }
  }

  /** A proxy that is stopped, and initialised again after any steps in between, keeps the count it had at the
      stop, and what late threads add or take, though no scoped wake lock of the new epoch lives and no
      event is owed. When no thread is caught between its test and its section, the new count is zero
      exactly when the old one was; unless a step fell short before the stop, exactly when nothing was
      held, owed or left behind. */
  lemma ReinitializationKeepsCount(
    cfg: Config, w: World, inside: nat, run: seq<Move>, quantum: nat, now: int) returns (after: World)
    requires Reachable(cfg, w) && w.core.running && NeverRestarts(run)
    requires ExecFrom(cfg, Next(cfg, w, StopFlag(inside)), run).Some?
    requires Enabled(cfg, ExecFrom(cfg, Next(cfg, w, StopFlag(inside)), run).value, Restart(quantum, now))
    ensures after == Next(cfg, ExecFrom(cfg, Next(cfg, w, StopFlag(inside)), run).value, Restart(quantum, now))
    ensures after.core.running && after.live == map[] && Owed(cfg, after) == 0
    ensures after.core.refCount == w.core.refCount + TotalGain(cfg, Next(cfg, w, StopFlag(inside)), run)
    ensures inside == 0 ==>
              && after.core.refCount == w.core.refCount && after.core.held == w.core.held
              && (w.log.exact ==> (after.core.refCount == 0 <==> w.log.leaked + |w.live| + Owed(cfg, w) == 0))
  {
    var stopped := Next(cfg, w, StopFlag(inside));
    var before := ExecFrom(cfg, stopped, run).value;
    StopFrame(cfg, w, inside);
    StoppedRunsCount(cfg, stopped, run);
    after := Next(cfg, before, Restart(quantum, now));
    StoppedStep(cfg, before, Now(Restart(quantum, now)));
    ReferencesMatchDebt(cfg, w);
    OwesNothing(cfg, after);
  }

  lemma StopFrame(cfg: Config, w: World, inside: nat)
    requires Reachable(cfg, w) && w.core.running
    ensures var stopped := Next(cfg, w, StopFlag(inside));
            && HolderInv(stopped) && !stopped.core.running && stopped.inside == inside
            && stopped.core.refCount == w.core.refCount && stopped.core.held == w.core.held
  {
    var run :| Exec(cfg, run) == Some(w);
    RunKeepsBalance(cfg, run);
    HolderStep(cfg, w, StopFlag(inside));
  }

  ghost predicate ChangesCount(cfg: Config, w: World, run: seq<Move>) {
    NeverRestarts(run) && ExecFrom(cfg, w, run).Some?
    && ExecFrom(cfg, w, run).value.core.refCount != w.core.refCount
  }

  lemma {:induction false} UpperBound(ids: set<nat>) returns (bound: nat)
    ensures forall id <- ids :: id < bound
    decreases ids
  {
    bound := 0;
    if ids != {} {
      var one :| one in ids;
      var rest := UpperBound(ids - {one});
      assert forall id <- ids :: id == one || id in ids - {one};
      bound := if one < rest then rest else one + 1;
    }
  }

  /** The count of a stopped proxy can change before the next initialisation exactly when the stop caught a
      thread between its test and its section. */
  lemma StopIsCleanExactly(cfg: Config, w: World)
    requires HolderInv(w) && !w.core.running
    ensures (exists run :: ChangesCount(cfg, w, run)) <==> w.inside > 0
  {
    if w.inside > 0 {
      var id := UpperBound(w.live.Keys + w.stale.Keys);
      var late := Late(CreateHolder(id, w.clock));
      StoppedStep(cfg, w, late);
      OneMoveMore(cfg, w, [], w, late);
      assert [] + [late] == [late];
      assert ChangesCount(cfg, w, [late]);
    }
    forall run | ChangesCount(cfg, w, run) ensures w.inside > 0 {
      StoppedRunsCount(cfg, w, run);
    }
  }

  lemma LateAcquired(cfg: Config, quantum: nat, w: World) returns (w1: World, w2: World, w3: World)
    requires w == Quiet(quantum, QuietCore(0, 0, 1, false), map[], map[], 1, CLEAN)
    ensures Steps(cfg, w, StopFlag(1), w1)
    ensures CanMove(cfg, w1, Late(CreateHolder(0, 1))) && w2 == Moved(cfg, w1, Late(CreateHolder(0, 1)))
    ensures Steps(cfg, w2, ReleaseHolder(0), w3)
    ensures w3 == Quiet(quantum, QuietCore(1, 1, 1, true).(running := false), map[], map[], 1, CLEAN)
  {
    w1 := Next(cfg, w, StopFlag(1));
    w2 := Moved(cfg, w1, Late(CreateHolder(0, 1)));
    assert w2 == Quiet(quantum, QuietCore(1, 1, 1, true).(running := false), map[0 := 1], map[], 1, CLEAN);
    w3 := Next(cfg, w2, ReleaseHolder(0));
    assert w3.live == map[] && w3.stale == map[];
  }

  /** A thread that has tested the flag when the proxy stops, with nothing counted, held or owed, leaves a reference
      behind: its release is refused, and the count survives the re-initialisation. */
  lemma LateAcquisitionSurvives(cfg: Config, quantum: nat)
    returns (w: World, w1: World, w2: World, w3: World, w4: World, w5: World, after: World)
    ensures Reachable(cfg, w) && w.core.running && w.core.refCount == 0 && Debt(cfg, w) == 0
    ensures Steps(cfg, w, StopFlag(1), w1)
    ensures CanMove(cfg, w1, Late(CreateHolder(0, 1))) && w2 == Moved(cfg, w1, Late(CreateHolder(0, 1)))
    ensures Steps(cfg, w2, ReleaseHolder(0), w3)
    ensures Steps(cfg, w3, WriterExit, w4) && Steps(cfg, w4, WakerExit(1), w5)
    ensures Steps(cfg, w5, Restart(quantum, 1), after)
    ensures after.core.running && after.core.refCount == 1 && after.live == map[] && after.stale == map[]
    ensures Owed(cfg, after) == 0
  {
    w := Started(cfg, quantum);
    NoWake(cfg.sensors);
    OwesNothing(cfg, w);
    w1, w2, w3 := LateAcquired(cfg, quantum, w);
    w4, w5, after := StoppedRestarts(cfg, quantum, w3);
    OwesNothing(cfg, after);
  }

  lemma BothThreadsExit(cfg: Config, quantum: nat, w: World) returns (x1: World, x2: World)
    requires w == Quiet(quantum, QuietCore(1, 1, 1, true).(running := false), map[], map[], 1, CLEAN)
    ensures Steps(cfg, w, WriterExit, x1) && Steps(cfg, x1, WakerExit(1), x2)
    ensures x2 == Quiet(quantum, QuietCore(1, 1, 1, true).(running := false), map[], map[], 1, CLEAN.(tied := true))
                  .(writer := WriterExited, waker := WakerExited)
  {
    x1 := Next(cfg, w, WriterExit);
    assert x1 == w.(writer := WriterExited);
    x2 := Next(cfg, x1, WakerExit(1));
    assert x2.stale == map[] && x2.live == map[];
  }

  lemma StoppedRestarts(cfg: Config, quantum: nat, w: World) returns (x1: World, x2: World, after: World)
    requires w == Quiet(quantum, QuietCore(1, 1, 1, true).(running := false), map[], map[], 1, CLEAN)
    ensures Steps(cfg, w, WriterExit, x1) && Steps(cfg, x1, WakerExit(1), x2)
    ensures Steps(cfg, x2, Restart(quantum, 1), after)
    ensures after == Quiet(quantum, QuietCore(1, 1, 1, true), map[], map[], 1, CLEAN.(leaked := 1, tied := true))
  {
    x1, x2 := BothThreadsExit(cfg, quantum, w);
    after := Next(cfg, x2, Restart(quantum, 1));
    assert after.stale == map[];
  }

  lemma TimedOutHolder(cfg: Config, quantum: nat) returns (w: World)
    ensures Reachable(cfg, w)
    ensures w == Quiet(quantum, QuietCore(0, 1, cfg.timeout + 2, false), map[], map[0 := 1], cfg.timeout + 2, CLEAN)
  {
    var w1 := Acquired(cfg, quantum);
    w := Go(cfg, w1, WakerTimeout(cfg.timeout + 2));
    assert w.stale == map[0 := 1];
  }

  predicate IsWakerStep(l: Label) {
    l.WakerTimeout? || l.WakerBegin? || l.WakerRead? || l.WakerApply? || l.WakerExit?
  }

  lemma {:induction false} ThreadsStayIn(cfg: Config, run: seq<Move>)
    requires Exec(cfg, run).Some?
    ensures ThreadsIn(Exec(cfg, run).value)
  {
    if run != [] {
      ThreadsStayIn(cfg, run[..|run| - 1]);
      if run[|run| - 1].Now? {
        ThreadStaysIn(cfg, Exec(cfg, run[..|run| - 1]).value, run[|run| - 1].step);
      }
    }
  }

  predicate ThreadsIn(w: World) {
    w.core.running ==> !w.waker.WakerExited? && !w.writer.WriterExited?
  }

  lemma ThreadStaysIn(cfg: Config, w: World, l: Label)
    requires Enabled(cfg, w, l) && ThreadsIn(w)
    ensures ThreadsIn(Next(cfg, w, l))
  {
    if !w.core.running && !l.Restart? {
      StoppedNow(cfg, w, l);
    }
  }

  lemma WakerSleeps(cfg: Config, w: World, l: Label)
    requires w.core.running && w.core.refCount == 0 && w.waker.Waiting? && IsWakerStep(l)
    ensures !Enabled(cfg, w, l)
  {}

  lemma WakerCanAct(cfg: Config, w: World) returns (l: Label)
    requires w.core.running && !w.waker.WakerExited? && (w.core.refCount > 0 || !w.waker.Waiting?)
    ensures IsWakerStep(l) && Enabled(cfg, w, l)
  {
    match w.waker
    case Waiting => l := if TimedOut(cfg, w, w.clock) then WakerTimeout(w.clock) else WakerBegin(w.clock);
    case Reading => l := WakerRead(false);
    case Got(_) => l := WakerApply;
  }

  /** While the threads run, the wake-lock thread can act exactly when something is counted or it is in the
      middle of a turn: no counted reference leaves it asleep. */
  lemma WakerActsOnReferences(cfg: Config, w: World)
    requires Reachable(cfg, w) && w.core.running
    ensures (exists l :: IsWakerStep(l) && Enabled(cfg, w, l)) <==> w.core.refCount > 0 || !w.waker.Waiting?
  {
    var run :| Exec(cfg, run) == Some(w);
    ThreadsStayIn(cfg, run);
    if w.core.refCount > 0 || !w.waker.Waiting? {
      var l := WakerCanAct(cfg, w);
    } else {
      forall l | IsWakerStep(l) ensures !Enabled(cfg, w, l) {
        WakerSleeps(cfg, w, l);
      }
    }
  }

  predicate IsWriterStep(l: Label) {
    l.WriterTake? || l.WriterWrite? || l.WriterRefund? || l.WriterCommit? || l.WriterExit?
  }

  predicate IsPostStep(l: Label) {
    l.PostMeasure? || l.PostWrite? || l.PostLeave?
  }

  /** The pending-writes thread is not waiting: it works without the mutex, or can get it with events pending. */
  predicate WriterReady(w: World) {
    w.writer.Writing? || w.writer.Failed? || (w.producer.NoPost? && w.core.pending != [])
  }

  lemma WriterCanAct(cfg: Config, w: World) returns (l: Label)
    requires w.core.running && !w.writer.WriterExited? && WriterReady(w)
    ensures IsWriterStep(l) && Enabled(cfg, w, l)
  {
    match w.writer
    case Idle => l := WriterTake;
    case Writing(_) => l := WriterWrite(false);
    case Failed(_) => l := WriterRefund;
    case Done(_) => l := WriterCommit;
  }

  lemma WriterWaits(cfg: Config, w: World, l: Label)
    requires w.core.running && !WriterReady(w) && IsWriterStep(l)
    ensures !Enabled(cfg, w, l)
  {}

  /** A post in the mutex can always go on. */
  lemma PostCanAct(cfg: Config, w: World) returns (l: Label)
    requires !w.producer.NoPost?
    ensures IsPostStep(l) && Enabled(cfg, w, l)
  {
    match w.producer
    case Entered(_, _) => l := PostMeasure;
    case Measured(_, _, _) => l := PostWrite(false);
    case Written(_, _, _) => l := PostLeave;
  }

  /** While the threads run, the pending-writes thread can act exactly when it is in the unlocked part of a turn, or
      events are pending and no post has the mutex; and a post that has it can leave it. Pending events
      never wait for good. */
  lemma WriterActsOnPending(cfg: Config, w: World)
    requires Reachable(cfg, w) && w.core.running
    ensures (exists l :: IsWriterStep(l) && Enabled(cfg, w, l)) <==> WriterReady(w)
    ensures !w.producer.NoPost? ==> exists l :: IsPostStep(l) && Enabled(cfg, w, l)
  {
    var run :| Exec(cfg, run) == Some(w);
    ThreadsStayIn(cfg, run);
    if WriterReady(w) {
      var l := WriterCanAct(cfg, w);
    } else {
      forall l | IsWriterStep(l) ensures !Enabled(cfg, w, l) {
        WriterWaits(cfg, w, l);
      }
    }
    if !w.producer.NoPost? {
      var l := PostCanAct(cfg, w);
    }
  }

  lemma PostedUnderStale(cfg: Config, quantum: nat, e: Event) returns (w: World)
    requires !IsWakeUp(cfg.sensors, e)
    ensures Reachable(cfg, w)
    ensures var reset := cfg.timeout + 2;
            w == Quiet(quantum, QuietCore(0, reset, reset, true), map[], map[0 := 1], reset,
                       CLEAN.(posted := [e], spurious := true))
                 .(producer := Entered([e], 0))
  {
    CountOne(cfg.sensors, e);
    var w1 := TimedOutHolder(cfg, quantum);
    w := Go(cfg, w1, PostEnter([e], Some(0), cfg.timeout + 2));
  }

  /** A scoped wake lock that a time-out made stale is still locked; a post of ordinary events under it
      acquires the system wake lock for no reference, and the wake-lock thread cannot act. */
  lemma WakeLockHeldForNothing(cfg: Config, quantum: nat, e: Event, l: Label) returns (w: World)
    requires !IsWakeUp(cfg.sensors, e)
    ensures Reachable(cfg, w) && w.core.running
    ensures w.core.held && w.core.refCount == 0 && Owed(cfg, w) == 0 && w.live == map[]
    ensures IsWakerStep(l) ==> !Enabled(cfg, w, l)
  {
    w := PostedUnderStale(cfg, quantum, e);
    CountOne(cfg.sensors, e);
    OwesNothing(cfg, w);
    if IsWakerStep(l) {
      WakerSleeps(cfg, w, l);
    }
  }

  lemma CountOne(sensors: SensorMap, e: Event)
    ensures CountWake(sensors, [e]) == if IsWakeUp(sensors, e) then 1 else 0
  {
    assert [e][..0] == [];
  }

  lemma CountTwo(sensors: SensorMap, e: Event)
    ensures CountWake(sensors, [e, e]) == if IsWakeUp(sensors, e) then 2 else 0
  {
    CountOne(sensors, e);
    assert [e, e][..1] == [e];
  }

  lemma BothEntered(cfg: Config, e: Event) returns (w: World)
    requires IsWakeUp(cfg.sensors, e)
    ensures Reachable(cfg, w)
    ensures w == Quiet(1, QuietCore(3, 1, 1, true), map[0 := 1], map[], 1, CLEAN.(posted := [e, e]))
                 .(producer := Entered([e, e], 2))
  {
    CountTwo(cfg.sensors, e);
    var w0 := Acquired(cfg, 1);
    w := Go(cfg, w0, PostEnter([e, e], Some(0), 1));
    assert w.log.posted == [e, e];
  }

  lemma HalfPosted(cfg: Config, e: Event) returns (w: World)
    requires IsWakeUp(cfg.sensors, e)
    ensures Reachable(cfg, w)
    ensures w == Quiet(1, QuietCore(3, 1, 1, true), map[0 := 1], map[], 1, CLEAN.(posted := [e, e], written := [e]))
                 .(producer := Written([e], [e], 2), fmq := [e])
  {
    var w1 := BothEntered(cfg, e);
    var w2 := Go(cfg, w1, PostMeasure);
    assert w2.producer == Measured([e], [e], 2);
    w := Go(cfg, w2, PostWrite(true));
  }

  lemma HalfQueued(cfg: Config, e: Event) returns (w: World)
    requires IsWakeUp(cfg.sensors, e) && cfg.cap > 0
    ensures Reachable(cfg, w)
    ensures w == Quiet(1, Core(true, [Batch([e], 2)], 1, 1, 3, 1, 1, true), map[0 := 1], map[], 1,
                       CLEAN.(posted := [e, e], written := [e], origins := [[e, e]])).(fmq := [e])
  {
    var w1 := HalfPosted(cfg, e);
    w := Go(cfg, w1, PostLeave);
    assert w.log.lost == [] && [e] + [e] == [e, e] && w.log.origins == [[e, e]];
    NoWake(cfg.sensors);
  }

  lemma RemainderQueued(cfg: Config, e: Event) returns (w: World)
    requires IsWakeUp(cfg.sensors, e) && cfg.cap > 0
    ensures Reachable(cfg, w)
    ensures w == Quiet(1, Core(true, [Batch([e], 2)], 1, 1, 2, 1, 1, true), map[], map[], 1,
                       CLEAN.(posted := [e, e], written := [e], origins := [[e, e]])).(fmq := [e])
  {
    var w1 := HalfQueued(cfg, e);
    w := Go(cfg, w1, ReleaseHolder(0));
    assert w.live == map[] && w.stale == map[];
  }

  /** A post keeps its whole wake-up count although half of it was written at once. When the blocking write of
      the rest fails, the refund takes the reference of the delivered event as well: the system
      may sleep before the framework has read it. */
  lemma RefundOfRemainderIsTooLarge(cfg: Config, e: Event) returns (w: World)
    requires IsWakeUp(cfg.sensors, e) && cfg.cap > 0
    ensures Reachable(cfg, w) && w.core.running
    ensures w.fmq == [e] && Owed(cfg, w) == 1 && w.core.refCount == 0 && !w.core.held
  {
    CountOne(cfg.sensors, e);
    var w1 := RemainderQueued(cfg, e);
    var w2 := Go(cfg, w1, WriterTake);
    var w3 := Go(cfg, w2, WriterWrite(false));
    w := Go(cfg, w3, WriterRefund);
    assert DropChunk(w.core.pending, 1) == [];
  }
}
