/** What the wake-lock thread measures its time-out from. */
module Timeouts {
  import opened Sequences
  import opened Protocol

  /** When the move acquires references: a scoped wake lock is created, or a post is made under a locked one,
      by a thread that has seen the threads run. */
  function AcquiredAt(w: World, m: Move): Option<int> {
    if !w.core.running && m.Now? then None
    else
      match m.step
      case CreateHolder(_, now) => Some(now)
      case PostEnter(_, holder, now) => if IsLocked(w, holder) then Some(now) else None
      case _ => None
  }

  /** When the move resets the wake lock. */
  function ResetAt(m: Move): Option<int> {
    match m.step
    case WakerTimeout(now) => Some(now)
    case WakerExit(now) => Some(now)
    case Restart(_, now) => Some(now)
    case _ => None
  }

  predicate TouchesTimes(l: Label) {
    l.CreateHolder? || l.PostEnter? || l.WakerTimeout? || l.WakerExit? || l.Restart?
  }

  lemma TimesFrame(cfg: Config, w: World, l: Label)
    requires Enabled(cfg, w, l) && !TouchesTimes(l)
    ensures Next(cfg, w, l).core.timeoutStart == w.core.timeoutStart
    ensures Next(cfg, w, l).core.timeoutReset == w.core.timeoutReset
  {}

  lemma TimesOfStep(cfg: Config, w: World, l: Label)
    requires Enabled(cfg, w, l)
    ensures Next(cfg, w, l).core.timeoutStart == AcquiredAt(w, Now(l)).GetOr(w.core.timeoutStart)
    ensures Next(cfg, w, l).core.timeoutReset == ResetAt(Now(l)).GetOr(w.core.timeoutReset)
  {
    if !TouchesTimes(l) {
      TimesFrame(cfg, w, l);
    }
  }

  /** Every acquisition restarts the time-out, whatever it adds to the count, and nothing else does; every reset
      is remembered with its time. */
  lemma AcquisitionsRestartTimeout(cfg: Config, w: World, m: Move)
    requires CanMove(cfg, w, m)
    ensures Moved(cfg, w, m).core.timeoutStart == AcquiredAt(w, m).GetOr(w.core.timeoutStart)
    ensures Moved(cfg, w, m).core.timeoutReset == ResetAt(m).GetOr(w.core.timeoutReset)
  {
    TimesOfStep(cfg, if m.Late? then Resumed(w) else w, m.step);
  }

  /** The time of the last acquisition in a run, or zero. */
  function LastAcquired(cfg: Config, run: seq<Move>): int
    requires Exec(cfg, run).Some?
  {
    if run == [] then 0
    else
      var before := run[..|run| - 1];
      AcquiredAt(Exec(cfg, before).value, run[|run| - 1]).GetOr(LastAcquired(cfg, before))
  }

  lemma {:induction false} StartIsLastAcquired(cfg: Config, run: seq<Move>)
    requires Exec(cfg, run).Some?
    ensures Exec(cfg, run).value.core.timeoutStart == LastAcquired(cfg, run)
  {
    if run != [] {
      StartIsLastAcquired(cfg, run[..|run| - 1]);
      AcquisitionsRestartTimeout(cfg, Exec(cfg, run[..|run| - 1]).value, run[|run| - 1]);
    }
  }

  lemma TimesOutAfter(cfg: Config, w: World, now: int)
    ensures Enabled(cfg, w, WakerTimeout(now)) ==> now > w.core.timeoutStart + cfg.timeout
    ensures Enabled(cfg, w, WakerBegin(now)) ==> now <= w.core.timeoutStart + cfg.timeout
  {}

  /** In every run the wake-lock thread times out only later than the time-out after the last acquisition, and
      waits for an acknowledgement only until then. */
  lemma TimeoutsFollowAcquisitions(cfg: Config, run: seq<Move>, now: int)
    requires Exec(cfg, run).Some?
    ensures Enabled(cfg, Exec(cfg, run).value, WakerTimeout(now)) ==> now > LastAcquired(cfg, run) + cfg.timeout
    ensures Enabled(cfg, Exec(cfg, run).value, WakerBegin(now)) ==> now <= LastAcquired(cfg, run) + cfg.timeout
  {
    StartIsLastAcquired(cfg, run);
    TimesOutAfter(cfg, Exec(cfg, run).value, now);
  }
}
