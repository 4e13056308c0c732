/** What the wake-lock accounting guarantees in every reachable state. */
module Accounting {
  import opened Sequences
  import opened Protocol
  import opened Pipeline
  import opened WakeLocks

  /** While the threads run, the count never exceeds the references left behind, the live scoped wake locks created
      since the last reset, and the wake-up events owed. */
  lemma ReferencesWithinDebt(cfg: Config, w: World)
    requires Reachable(cfg, w)
    ensures w.core.running ==> w.core.refCount <= w.log.leaked + |w.live| + Owed(cfg, w)
  {
    var run :| Exec(cfg, run) == Some(w);
    RunKeepsBalance(cfg, run);
  }

  /** And it is exactly that unless some step since the last initialisation fell short. */
  lemma ReferencesMatchDebt(cfg: Config, w: World)
    requires Reachable(cfg, w)
    ensures w.core.running && w.log.exact ==> w.core.refCount == w.log.leaked + |w.live| + Owed(cfg, w)
  {
    var run :| Exec(cfg, run) == Some(w);
    RunKeepsBalance(cfg, run);
  }

  /** What the steps since the last initialisation fell short, together. */
  function ShortSince(cfg: Config, run: seq<Move>): nat
    requires Exec(cfg, run).Some?
  {
    if run == [] then 0
    else
      var before := run[..|run| - 1];
      var l := run[|run| - 1].step;
      if l.Restart? then 0 else ShortSince(cfg, before) + Short(cfg, Exec(cfg, before).value, l)
  }

  ghost predicate GapWithin(cfg: Config, w: World, short: nat) {
    && (w.log.exact <==> short == 0)
    && (w.core.running ==> 0 <= Gap(cfg, w) <= short)
  }

  lemma GapStep(cfg: Config, w: World, l: Label, short: nat)
    requires QueueInv(cfg, w) && HolderInv(w) && Enabled(cfg, w, l) && GapWithin(cfg, w, short)
    ensures GapWithin(cfg, Next(cfg, w, l), if l.Restart? then 0 else short + Short(cfg, w, l))
  {
    ShortIsShortfall(cfg, w, l);
    if w.core.running && Next(cfg, w, l).core.running {
      ShortfallsAreExact(cfg, w, l);
    } else if l.Restart? {
      BalanceRestart(cfg, w, l);
    } else {
      ReferencesStop(cfg, w, l);
    }
  }

  lemma GapMove(cfg: Config, w: World, m: Move, short: nat)
    requires QueueInv(cfg, w) && HolderInv(w) && CanMove(cfg, w, m) && GapWithin(cfg, w, short)
    ensures GapWithin(cfg, Moved(cfg, w, m), if m.step.Restart? then 0 else short + Short(cfg, w, m.step))
  {
    if m.Now? {
      GapStep(cfg, w, m.step, short);
    }
  }

  /** In every run the count is at most the debt, and at least the debt less what the steps since the last
      initialisation fell short: with that many references left behind, the count covers the live
      scoped wake locks and the wake-up events owed. */
  lemma {:induction false} CountWithinShorts(cfg: Config, run: seq<Move>)
    requires Exec(cfg, run).Some?
    ensures var w := Exec(cfg, run).value;
            && (w.log.exact <==> ShortSince(cfg, run) == 0)
            && (w.core.running ==>
                  && w.core.refCount <= w.log.leaked + |w.live| + Owed(cfg, w)
                     <= w.core.refCount + ShortSince(cfg, run)
                  && (ShortSince(cfg, run) <= w.log.leaked ==> |w.live| + Owed(cfg, w) <= w.core.refCount))
  {
    if run != [] {
      var before := run[..|run| - 1];
      CountWithinShorts(cfg, before);
      RunKeepsBalance(cfg, before);
      GapMove(cfg, Exec(cfg, before).value, run[|run| - 1], ShortSince(cfg, before));
    }
  }

  /** What the count is for: with no shortfall, the system stays awake while a scoped wake lock of this epoch
      lives, or a wake-up event is pending or delivered but unacknowledged. */
  lemma AwakeWhileOwed(cfg: Config, w: World)
    requires Reachable(cfg, w)
    ensures w.core.running && w.log.exact && w.log.leaked + |w.live| + Owed(cfg, w) > 0 ==> w.core.held
  {
    var run :| Exec(cfg, run) == Some(w);
    RunKeepsBalance(cfg, run);
  }

  /** A positive count means the system wake lock is held, in every reachable state; a wake lock held without
      one is remembered as acquired for no reference. */
  lemma HeldWhenCounted(cfg: Config, w: World)
    requires Reachable(cfg, w)
    ensures w.core.refCount > 0 ==> w.core.held
    ensures w.core.held <==> w.core.refCount > 0 || w.log.spurious
  {
    var run :| Exec(cfg, run) == Some(w);
    RunKeepsBalance(cfg, run);
  }

  /** The step `run[k]` acquires the wake lock for no reference, and none comes until the end of the run. */
  predicate IdleSince(cfg: Config, run: seq<Move>, k: nat)
    requires Exec(cfg, run).Some?
  {
    && k < |run|
    && Exec(cfg, run).value.core.refCount == 0
    && var before := run[..|run| - 1];
       if k == |before| then AcquiresForNothing(cfg, Exec(cfg, before).value, run[k])
       else IdleSince(cfg, before, k)
  }

  lemma HeldForNothingLast(cfg: Config, run: seq<Move>)
    requires run != [] && Exec(cfg, run).Some?
    ensures var before := run[..|run| - 1];
            HeldForNothing(Exec(cfg, run).value) <==>
              IdleSince(cfg, run, |before|)
              || (HeldForNothing(Exec(cfg, before).value) && Exec(cfg, run).value.core.refCount == 0)
  {
    var before := run[..|run| - 1];
    RunKeepsBalance(cfg, before);
    HeldForNothingStep(cfg, Exec(cfg, before).value, run[|run| - 1]);
  }

  lemma {:induction false} FindIdleSince(cfg: Config, run: seq<Move>) returns (k: nat)
    requires Exec(cfg, run).Some? && HeldForNothing(Exec(cfg, run).value)
    ensures IdleSince(cfg, run, k)
  {
    HeldForNothingLast(cfg, run);
    k := |run| - 1;
    if !IdleSince(cfg, run, k) {
      k := FindIdleSince(cfg, run[..|run| - 1]);
    }
  }

  lemma {:induction false} IdleSinceHolds(cfg: Config, run: seq<Move>, k: nat)
    requires Exec(cfg, run).Some? && IdleSince(cfg, run, k)
    ensures HeldForNothing(Exec(cfg, run).value)
  {
    HeldForNothingLast(cfg, run);
    if k < |run| - 1 {
      IdleSinceHolds(cfg, run[..|run| - 1], k);
    }
  }

  /** The wake lock is held without a reference exactly when some post of ordinary events under a locked scoped
      wake lock found the count at zero, and no reference has come since. */
  lemma HeldForNothingExactly(cfg: Config, run: seq<Move>) returns (k: nat)
    requires Exec(cfg, run).Some?
    ensures HeldForNothing(Exec(cfg, run).value) <==> IdleSince(cfg, run, k)
    ensures forall other: nat :: IdleSince(cfg, run, other) ==> IdleSince(cfg, run, k)
  {
    k := 0;
    if HeldForNothing(Exec(cfg, run).value) {
      k := FindIdleSince(cfg, run);
    }
    forall other: nat | IdleSince(cfg, run, other) ensures HeldForNothing(Exec(cfg, run).value) {
      IdleSinceHolds(cfg, run, other);
    }
  }

  /** At a count of zero, with no shortfall, only a scoped wake lock from before the last reset is still locked:
      posts under newer ones never acquire for nothing. */
  lemma IdleLockIsStale(cfg: Config, w: World, holder: Option<nat>)
    requires Reachable(cfg, w) && w.core.running && w.log.exact && w.core.refCount == 0
    ensures IsLocked(w, holder) <==> holder.Some? && holder.value in w.stale
    ensures forall m :: AcquiresForNothing(cfg, w, m) ==> m.step.holder.value in w.stale
  {
    ReferencesMatchDebt(cfg, w);
    assert |w.live| == 0;
  }
}
