/** Wake-lock accounting in every interleaving: the reference count against the references owed, the epochs
    of scoped wake locks, and the system wake lock. */
module WakeLocks {
  import opened Sequences
  import opened Events
  import opened ProxyCore
  import opened Protocol
  import opened Pipeline

  /** Stamps lie where the last reset and the last acquisition put them. */
  ghost predicate HolderInv(w: World) {
    && 0 <= w.core.timeoutStart <= w.clock
    && w.core.timeoutReset <= w.clock
    && w.live.Keys !! w.stale.Keys
    && (forall id <- w.live :: 0 <= w.live[id] <= w.core.timeoutStart && w.core.timeoutReset <= w.live[id])
    && (forall id <- w.stale :: 0 <= w.stale[id] <= w.core.timeoutStart)
    && (!w.log.tied ==> forall id <- w.stale :: w.stale[id] < w.core.timeoutReset)
  }

  /** The system wake lock is held for a reference, or since an acquisition for none. */
  predicate HeldInv(w: World) {
    w.core.held <==> w.core.refCount > 0 || w.log.spurious
  }

  lemma HolderStepAcquire(cfg: Config, w: World, l: Label)
    requires HolderInv(w) && Enabled(cfg, w, l)
    requires l.CreateHolder? || l.ReleaseHolder? || l.PostEnter?
    ensures HolderInv(Next(cfg, w, l))
  {}

  /** A reset that reads a clock past the last acquisition outdates every earlier stamp. */
  lemma HolderStepReset(cfg: Config, w: World, l: Label)
    requires HolderInv(w) && Enabled(cfg, w, l)
    requires l.WakerTimeout? || l.WakerExit? || l.Restart?
    ensures HolderInv(Next(cfg, w, l))
  {
    var after := Next(cfg, w, l);
    assert after.stale == w.stale + w.live && after.live == map[];
    assert after.core.timeoutReset == l.now && after.core.timeoutStart == w.core.timeoutStart;
  }

  lemma HolderStep(cfg: Config, w: World, l: Label)
    requires HolderInv(w) && Enabled(cfg, w, l)
    ensures HolderInv(Next(cfg, w, l))
  {
    if l.CreateHolder? || l.ReleaseHolder? || l.PostEnter? {
      HolderStepAcquire(cfg, w, l);
    } else if l.WakerTimeout? || l.WakerExit? || l.Restart? {
      HolderStepReset(cfg, w, l);
    } else {
      var after := Next(cfg, w, l);
      assert after.stale == w.stale && after.live == w.live && after.log.tied == w.log.tied;
    }
  }

  lemma HolderInvBlind(w: World, x: World)
    requires SameButFlag(w, x) && HolderInv(w)
    ensures HolderInv(x)
  {}

  lemma HolderMove(cfg: Config, w: World, m: Move)
    requires HolderInv(w) && CanMove(cfg, w, m)
    ensures HolderInv(Moved(cfg, w, m))
  {
    if m.Late? {
      HolderInvBlind(w, Resumed(w));
      HolderStep(cfg, Resumed(w), m.step);
      HolderInvBlind(Next(cfg, Resumed(w), m.step), Moved(cfg, w, m));
    } else {
      HolderStep(cfg, w, m.step);
    }
  }

  /** The steps with a critical section of the wake-lock mutex. */
  predicate ChangesReferences(l: Label) {
    || l.CreateHolder? || l.ReleaseHolder? || l.PostEnter? || l.WriterRefund?
    || l.WakerTimeout? || l.WakerApply? || l.WakerExit? || l.Restart?
  }

  lemma ReferencesFrame(cfg: Config, w: World, l: Label)
    requires Enabled(cfg, w, l) && !ChangesReferences(l)
    ensures var after := Next(cfg, w, l);
            && after.core.refCount == w.core.refCount && after.core.held == w.core.held
            && after.log.spurious == w.log.spurious
            && (after.core.running <==> w.core.running && !l.StopFlag?)
  {}

  lemma HeldStep(cfg: Config, w: World, l: Label)
    requires HeldInv(w) && Enabled(cfg, w, l)
    ensures HeldInv(Next(cfg, w, l))
  {
    if !ChangesReferences(l) {
      ReferencesFrame(cfg, w, l);
    }
  }

  lemma HeldMove(cfg: Config, w: World, m: Move)
    requires HeldInv(w) && CanMove(cfg, w, m)
    ensures HeldInv(Moved(cfg, w, m))
  {
    HeldStep(cfg, if m.Late? then Resumed(w) else w, m.step);
  }

  /** The system is kept awake although nothing is counted. */
  predicate HeldForNothing(w: World) {
    w.core.held && w.core.refCount == 0
  }

  /** A post of ordinary events under a locked scoped wake lock, while the count is zero. */
  predicate AcquiresForNothing(cfg: Config, w: World, m: Move) {
    && m.step.PostEnter? && IsLocked(w, m.step.holder)
    && (w.core.running || m.Late?) && w.core.refCount == 0
    && CountWake(cfg.sensors, m.step.events) == 0
  }

  /** The wake lock is held for nothing after the move exactly when the move acquires it so, or it was held so
      before and no reference has come. */
  ghost predicate KeepsHeldExact(cfg: Config, w: World, m: Move, after: World) {
    && (after.core.refCount > 0 ==> after.core.held)
    && (HeldForNothing(after) <==>
          AcquiresForNothing(cfg, w, m) || (HeldForNothing(w) && after.core.refCount == 0))
  }

  lemma HeldForNothingNow(cfg: Config, w: World, l: Label)
    requires Enabled(cfg, w, l) && (w.core.refCount > 0 ==> w.core.held)
    ensures KeepsHeldExact(cfg, w, Now(l), Next(cfg, w, l))
  {
    if !ChangesReferences(l) {
      ReferencesFrame(cfg, w, l);
    } else if l.PostEnter? {
      var core := Next(cfg, w, l).core;
      assert core
          == if IsLocked(w, l.holder) then Increment(w.core, CountWake(cfg.sensors, l.events), l.now) else w.core;
    }
  }

  /** Such a post is the only move after which the wake lock is held for nothing, if it was not before; and
      only a new reference ends it. */
  lemma HeldForNothingStep(cfg: Config, w: World, m: Move)
    requires CanMove(cfg, w, m) && (w.core.refCount > 0 ==> w.core.held)
    ensures KeepsHeldExact(cfg, w, m, Moved(cfg, w, m))
    ensures (w.core.held <==> w.core.refCount > 0) ==>
              var after := Moved(cfg, w, m);
              (after.core.held <==> after.core.refCount > 0) <==> !AcquiresForNothing(cfg, w, m)
  {
    HeldForNothingNow(cfg, if m.Late? then Resumed(w) else w, m.step);
  }

  /** What a thread that tested the flag before the stop adds to the count, or takes from it. */
  function LateGain(cfg: Config, w: World, m: Move): int {
    var count: int := w.core.refCount;
    if m.Now? then 0
    else
      match m.step
      case CreateHolder(_, _) => 1
      case PostEnter(events, holder, _) => if IsLocked(w, holder) then CountWake(cfg.sensors, events) else 0
      case ReleaseHolder(id) =>
        var stamp := if id in w.live then w.live[id] else if id in w.stale then w.stale[id] else NO_STAMP;
        if count > 0 && stamp >= w.core.timeoutReset then -1 else 0
      case WriterRefund =>
        if w.writer.Failed? then -Min(count, Refund(cfg.sensors, w.writer.front, w.quantum)) else 0
      case WakerApply => if w.waker.Got? then -Min(count, w.waker.acked) else 0
      case WakerTimeout(_) => -count
      case _ => 0
  }

  lemma LateHolder(cfg: Config, w: World, l: Label)
    requires HolderInv(w) && Enabled(cfg, Resumed(w), l) && (l.CreateHolder? || l.ReleaseHolder?)
    ensures Next(cfg, Resumed(w), l).core.refCount == w.core.refCount + LateGain(cfg, w, Late(l))
  {}

  lemma LatePost(cfg: Config, w: World, l: Label)
    requires Enabled(cfg, Resumed(w), l) && (l.PostEnter? || l.WriterRefund?)
    ensures Next(cfg, Resumed(w), l).core.refCount == w.core.refCount + LateGain(cfg, w, Late(l))
  {
    if l.WriterRefund? {
      RefundFrame(cfg, Resumed(w));
    }
  }

  lemma LateWaker(cfg: Config, w: World, l: Label)
    requires Enabled(cfg, Resumed(w), l) && (l.WakerApply? || l.WakerTimeout?)
    ensures Next(cfg, Resumed(w), l).core.refCount == w.core.refCount + LateGain(cfg, w, Late(l))
  {}

  lemma LateStep(cfg: Config, w: World, l: Label)
    requires HolderInv(w) && Enabled(cfg, Resumed(w), l) && TestsFlag(l)
    ensures Next(cfg, Resumed(w), l).core.refCount == w.core.refCount + LateGain(cfg, w, Late(l))
  {
    if l.CreateHolder? || l.ReleaseHolder? {
      LateHolder(cfg, w, l);
    } else if l.PostEnter? || l.WriterRefund? {
      LatePost(cfg, w, l);
    } else if l.WakerApply? || l.WakerTimeout? {
      LateWaker(cfg, w, l);
    } else {
      ReferencesFrame(cfg, Resumed(w), l);
    }
  }

  lemma StoppedNow(cfg: Config, w: World, l: Label)
    requires Enabled(cfg, w, l) && !w.core.running
    ensures var after := Next(cfg, w, l);
            && after.core.refCount == w.core.refCount && after.core.held == w.core.held
            && (after.core.running <==> l.Restart?) && after.inside <= w.inside
  {
    if !ChangesReferences(l) {
      ReferencesFrame(cfg, w, l);
    }
  }

  /** While the threads are stopped the count changes by what threads add or take that tested the flag before the
      stop, each of them once, and by nothing else, the re-initialisation included. */
  lemma StoppedStep(cfg: Config, w: World, m: Move)
    requires HolderInv(w) && CanMove(cfg, w, m) && !w.core.running
    ensures var after := Moved(cfg, w, m);
            && after.core.refCount == w.core.refCount + LateGain(cfg, w, m)
            && (m.Now? ==> LateGain(cfg, w, m) == 0 && after.core.held == w.core.held)
            && (after.core.running <==> m.step.Restart?)
            && after.inside <= w.inside && (m.Late? ==> after.inside < w.inside)
  {
    if m.Late? {
      LateStep(cfg, w, m.step);
    } else {
      StoppedNow(cfg, w, m.step);
    }
  }

  /** The steps that leave every term of `Owed` as it was. */
  predicate KeepsOwed(l: Label) {
    match l
    case CreateHolder(_, _) => true
    case ReleaseHolder(_) => true
    case WriterTake => true
    case WriterCommit => true
    case WriterExit => true
    case WakerTimeout(_) => true
    case WakerBegin(_) => true
    case WakerExit(_) => true
    case StopFlag(_) => true
    case _ => false
  }

  lemma OwedFrame(cfg: Config, w: World, l: Label)
    requires Enabled(cfg, w, l) && KeepsOwed(l)
    ensures Owed(cfg, Next(cfg, w, l)) == Owed(cfg, w)
  {
    UndeliveredFrame(cfg, w, l);
    var after := Next(cfg, w, l);
    assert after.fmq == w.fmq && after.acks == w.acks && after.readUnacked == w.readUnacked;
    assert InTransit(after.waker) == InTransit(w.waker);
  }

  lemma OwedPostEnter(cfg: Config, w: World, l: Label)
    requires Enabled(cfg, w, l) && l.PostEnter?
    ensures Owed(cfg, Next(cfg, w, l)) == Owed(cfg, w) + CountWake(cfg.sensors, l.events)
  {
    assert LeftInQueue(Next(cfg, w, l)) == LeftInQueue(w);
  }

  lemma OwedPostMeasure(cfg: Config, w: World, l: Label)
    requires QueueInv(cfg, w) && Enabled(cfg, w, l) && l.PostMeasure?
    ensures Owed(cfg, Next(cfg, w, l)) == Owed(cfg, w)
  {
    MeasureFrame(cfg, w);
  }

  lemma OwedPostWrite(cfg: Config, w: World, l: Label)
    requires Enabled(cfg, w, l) && l.PostWrite?
    ensures Owed(cfg, Next(cfg, w, l)) == Owed(cfg, w)
  {
    DirectFrame(cfg, w, l.ok);
    CountWakeAppend(cfg.sensors, w.producer.direct, w.producer.left);
    CountWakeAppend(cfg.sensors, w.fmq, w.producer.direct);
  }

  lemma OwedPostLeave(cfg: Config, w: World, l: Label)
    requires FrontPinned(w) && Enabled(cfg, w, l) && l.PostLeave?
    ensures Owed(cfg, Next(cfg, w, l)) + Next(cfg, w, l).log.leaked == Owed(cfg, w) + w.log.leaked
  {
    LeaveFrame(cfg, w);
    CountWakeAppend(cfg.sensors, LeftInQueue(w), w.producer.left);
    assert CountWake(cfg.sensors, []) == 0;
  }

  lemma OwedWriter(cfg: Config, w: World, l: Label)
    requires FrontPinned(w) && Enabled(cfg, w, l)
    requires l.WriterWrite? || l.WriterRefund?
    ensures var due := CountWake(cfg.sensors, Chunk(w.writer.front, w.quantum));
            Owed(cfg, Next(cfg, w, l)) == if l.WriterRefund? then Owed(cfg, w) - due else Owed(cfg, w)
  {
    var after := Next(cfg, w, l);
    var chunk := Chunk(w.writer.front, w.quantum);
    var rest := Flatten(DropChunk(w.core.pending, w.quantum));
    FlattenFront(w.core.pending, w.quantum);
    CountWakeAppend(cfg.sensors, chunk, rest);
    CountWakeAppend(cfg.sensors, w.fmq, chunk);
    assert LeftInQueue(w) == chunk + rest;
    assert Hand(after) == Hand(w);
    assert after.writer.Done? ==> LeftInQueue(after) == rest;
  }

  lemma OwedFramework(cfg: Config, w: World, l: Label)
    requires Enabled(cfg, w, l) && (l.FrameworkRead? || l.FrameworkAck?)
    ensures Owed(cfg, Next(cfg, w, l)) == Owed(cfg, w)
  {
    UndeliveredFrame(cfg, w, l);
    if l.FrameworkRead? {
      CountWakeSplit(cfg.sensors, w.fmq, l.k);
    } else {
      SumAppend(w.acks, [l.k]);
    }
  }

  lemma OwedWaker(cfg: Config, w: World, l: Label)
    requires Enabled(cfg, w, l) && (l.WakerRead? || l.WakerApply?)
    ensures Owed(cfg, Next(cfg, w, l)) + (if l.WakerApply? then w.waker.acked else 0) == Owed(cfg, w)
  {
    UndeliveredFrame(cfg, w, l);
  }

  lemma RemoveKey(m: map<nat, int>, id: nat)
    ensures |m - {id}| == if id in m then |m| - 1 else |m|
  {
    assert (m - {id}).Keys == m.Keys - {id};
    assert |m| == |m.Keys| && |m - {id}| == |(m - {id}).Keys|;
  }

  /** References never exceed what is owed or held; they equal it unless some step fell short. */
  ghost predicate Balanced(cfg: Config, w: World) {
    w.core.running ==>
      && w.core.refCount <= Debt(cfg, w)
      && (w.log.exact ==> w.core.refCount == Debt(cfg, w))
  }

  /** What is owed or held without a reference. */
  ghost function Gap(cfg: Config, w: World): int {
    Debt(cfg, w) - w.core.refCount
  }

  /** After the step the references still do not exceed the debt; the gap grows by at most what the step falls
      short, and from balance by exactly that. */
  ghost predicate StepBalances(cfg: Config, w: World, l: Label)
    requires Enabled(cfg, w, l)
  {
    var after := Next(cfg, w, l);
    && 0 <= Gap(cfg, after) <= Gap(cfg, w) + Short(cfg, w, l)
    && (Gap(cfg, w) == 0 ==> Gap(cfg, after) == Short(cfg, w, l))
  }

  lemma ShortIsShortfall(cfg: Config, w: World, l: Label)
    ensures Shortfall(cfg, w, l) <==> Short(cfg, w, l) > 0
  {}

  lemma BalanceIdle(cfg: Config, w: World, l: Label)
    requires w.core.running && Enabled(cfg, w, l) && w.core.refCount <= Debt(cfg, w)
    requires l.WriterTake? || l.WriterCommit? || l.WakerBegin?
    ensures StepBalances(cfg, w, l)
  {
    OwedFrame(cfg, w, l);
  }

  lemma BalanceCreate(cfg: Config, w: World, l: Label)
    requires w.core.running && Enabled(cfg, w, l) && l.CreateHolder?
    requires w.core.refCount <= Debt(cfg, w)
    ensures StepBalances(cfg, w, l)
  {
    OwedFrame(cfg, w, l);
    assert Next(cfg, w, l).live == w.live[l.id := l.now];
  }

  lemma BalanceRelease(cfg: Config, w: World, l: Label)
    requires HolderInv(w) && w.core.running && Enabled(cfg, w, l) && l.ReleaseHolder?
    requires w.core.refCount <= Debt(cfg, w)
    ensures StepBalances(cfg, w, l)
  {
    OwedFrame(cfg, w, l);
    RemoveKey(w.live, l.id);
    ReleaseFrame(cfg, w, l);
  }

  lemma ReleaseFrame(cfg: Config, w: World, l: Label)
    requires w.core.running && Enabled(cfg, w, l) && l.ReleaseHolder?
    ensures var after := Next(cfg, w, l);
            var stamp := if l.id in w.live then w.live[l.id] else w.stale[l.id];
            var taken := w.core.refCount > 0 && (stamp == NO_STAMP || stamp >= w.core.timeoutReset);
            && after.live == w.live - {l.id} && after.log.leaked == w.log.leaked
            && after.core.refCount == if taken then w.core.refCount - 1 else w.core.refCount
  {}

  lemma BalancePosts(cfg: Config, w: World, l: Label)
    requires QueueInv(cfg, w) && w.core.running && Enabled(cfg, w, l)
    requires l.PostEnter? || l.PostMeasure? || l.PostWrite? || l.PostLeave?
    requires w.core.refCount <= Debt(cfg, w)
    ensures StepBalances(cfg, w, l)
  {
    match l
    case PostEnter(_, _, _) => OwedPostEnter(cfg, w, l);
    case PostMeasure => OwedPostMeasure(cfg, w, l);
    case PostWrite(_) => OwedPostWrite(cfg, w, l);
    case PostLeave => OwedPostLeave(cfg, w, l);
  }

  lemma BalanceWrite(cfg: Config, w: World, l: Label)
    requires QueueInv(cfg, w) && w.core.running && Enabled(cfg, w, l) && l.WriterWrite?
    requires w.core.refCount <= Debt(cfg, w)
    ensures StepBalances(cfg, w, l)
  {
    OwedWriter(cfg, w, l);
    var after := Next(cfg, w, l);
    assert after.core == w.core && after.live == w.live && after.log.leaked == w.log.leaked;
  }

  lemma BalanceRefund(cfg: Config, w: World, l: Label)
    requires QueueInv(cfg, w) && w.core.running && Enabled(cfg, w, l) && l.WriterRefund?
    requires w.core.refCount <= Debt(cfg, w)
    ensures StepBalances(cfg, w, l)
  {
    OwedWriter(cfg, w, l);
    RefundFrame(cfg, w);
    RefundCoversChunk(cfg.sensors, w.writer.front, w.quantum);
  }

  lemma RefundFrame(cfg: Config, w: World)
    requires w.core.running && Enabled(cfg, w, WriterRefund)
    ensures var after := Next(cfg, w, WriterRefund);
            && after.live == w.live && after.log.leaked == w.log.leaked
            && after.core.refCount
               == w.core.refCount - Min(w.core.refCount, Refund(cfg.sensors, w.writer.front, w.quantum))
  {}

  lemma BalanceTimeout(cfg: Config, w: World, l: Label)
    requires w.core.running && Enabled(cfg, w, l) && l.WakerTimeout?
    requires w.core.refCount <= Debt(cfg, w)
    ensures StepBalances(cfg, w, l)
  {
    OwedFrame(cfg, w, l);
  }

  lemma BalanceAcks(cfg: Config, w: World, l: Label)
    requires w.core.running && Enabled(cfg, w, l)
    requires l.FrameworkRead? || l.FrameworkAck? || l.WakerRead? || l.WakerApply?
    requires w.core.refCount <= Debt(cfg, w)
    ensures StepBalances(cfg, w, l)
  {
    if l.WakerRead? || l.WakerApply? {
      OwedWaker(cfg, w, l);
    } else {
      OwedFramework(cfg, w, l);
    }
  }

  lemma ShortStep(cfg: Config, w: World, l: Label)
    requires QueueInv(cfg, w) && HolderInv(w) && Enabled(cfg, w, l)
    requires w.core.running && Next(cfg, w, l).core.running
    requires w.core.refCount <= Debt(cfg, w)
    ensures StepBalances(cfg, w, l)
  {
    if l.CreateHolder? {
      BalanceCreate(cfg, w, l);
    } else if l.ReleaseHolder? {
      BalanceRelease(cfg, w, l);
    } else if l.PostEnter? || l.PostMeasure? || l.PostWrite? || l.PostLeave? {
      BalancePosts(cfg, w, l);
    } else if l.WriterWrite? {
      BalanceWrite(cfg, w, l);
    } else if l.WriterRefund? {
      BalanceRefund(cfg, w, l);
    } else if l.WakerTimeout? {
      BalanceTimeout(cfg, w, l);
    } else if l.FrameworkRead? || l.FrameworkAck? || l.WakerRead? || l.WakerApply? {
      BalanceAcks(cfg, w, l);
    } else {
      assert l.WriterTake? || l.WriterCommit? || l.WakerBegin?;
      BalanceIdle(cfg, w, l);
    }
  }

  /** While the threads run, no step makes the references exceed the debt, and the gap between them grows by at
      most what the step falls short. From balance it is exactly that: exactly the shortfalls lead to
      an unbalanced state, and the count still covers the live scoped wake locks and the wake-up events
      owed exactly when the references left behind make up for what the step falls short. */
  lemma ShortfallsAreExact(cfg: Config, w: World, l: Label)
    requires QueueInv(cfg, w) && HolderInv(w) && Enabled(cfg, w, l)
    requires w.core.running && Next(cfg, w, l).core.running
    requires w.core.refCount <= Debt(cfg, w)
    ensures var after := Next(cfg, w, l);
            && 0 <= Gap(cfg, after) <= Gap(cfg, w) + Short(cfg, w, l)
            && (w.core.refCount == Debt(cfg, w) ==>
                  && Gap(cfg, after) == Short(cfg, w, l)
                  && (after.core.refCount == Debt(cfg, after) <==> !Shortfall(cfg, w, l))
                  && (Short(cfg, w, l) <= after.log.leaked
                      <==> after.core.refCount >= |after.live| + Owed(cfg, after)))
  {
    ShortStep(cfg, w, l);
    ShortIsShortfall(cfg, w, l);
  }

  lemma BalanceStep(cfg: Config, w: World, l: Label)
    requires QueueInv(cfg, w) && HolderInv(w) && Balanced(cfg, w) && Enabled(cfg, w, l)
    ensures Balanced(cfg, Next(cfg, w, l))
  {
    if w.core.running && Next(cfg, w, l).core.running {
      ShortfallsAreExact(cfg, w, l);
    } else if l.Restart? {
      BalanceRestart(cfg, w, l);
    } else {
      ReferencesStop(cfg, w, l);
    }
  }

  lemma BalanceRestart(cfg: Config, w: World, l: Label)
    requires Enabled(cfg, w, l) && l.Restart?
    ensures Balanced(cfg, Next(cfg, w, l))
  {
    var after := Next(cfg, w, l);
    assert after.core.refCount == w.core.refCount == after.log.leaked && after.live == map[];
    OwesNothing(cfg, after);
  }

  lemma ReferencesStop(cfg: Config, w: World, l: Label)
    requires Enabled(cfg, w, l) && !l.Restart? && !(w.core.running && Next(cfg, w, l).core.running)
    ensures !Next(cfg, w, l).core.running
  {}

  lemma OwesNothing(cfg: Config, w: World)
    requires w.core.pending == [] && w.fmq == [] && w.acks == [] && w.readUnacked == 0 && !w.waker.Got?
    requires CountWake(cfg.sensors, Hand(w)) == 0
    ensures Owed(cfg, w) == 0
  {
    assert LeftInQueue(w) == [];
    NoWake(cfg.sensors);
  }

  lemma BalanceMove(cfg: Config, w: World, m: Move)
    requires QueueInv(cfg, w) && HolderInv(w) && Balanced(cfg, w) && CanMove(cfg, w, m)
    ensures Balanced(cfg, Moved(cfg, w, m))
  {
    if m.Now? {
      BalanceStep(cfg, w, m.step);
    }
  }

  lemma {:induction false} RunKeepsBalance(cfg: Config, run: seq<Move>)
    requires Exec(cfg, run).Some?
    ensures QueueInv(cfg, Exec(cfg, run).value)
    ensures HolderInv(Exec(cfg, run).value)
    ensures HeldInv(Exec(cfg, run).value)
    ensures Balanced(cfg, Exec(cfg, run).value)
  {
    RunKeepsOrder(cfg, run);
    if run != [] {
      var before := run[..|run| - 1];
      var m := run[|run| - 1];
      RunKeepsBalance(cfg, before);
      var w := Exec(cfg, before).value;
      HolderMove(cfg, w, m);
      HeldMove(cfg, w, m);
      BalanceMove(cfg, w, m);
    }
  }
}
