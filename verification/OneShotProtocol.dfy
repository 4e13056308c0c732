/** The polling sensor's thread among activations and mode changes. */
module OneShotProtocol {
  import opened Sequences
  import opened OneShotSensor

  /** Where the sensor's thread is; it holds the lock at `Top` only. */
  datatype Thread = Starting | Top | Waiting(notified: bool) | Polling | Returned(result: PollResult) | Exited

  /** `modeWrites` counts mode changes that have set the mode and not yet written to the pipe; `enables`
      the transitions from disabled to enabled. */
  datatype World = World(f: Fields, thread: Thread, modeWrites: nat, enables: nat)

  datatype Label =
    | Start
    | Head
    | WakeUp
    | PollReturn(result: PollResult)
    | Resume(trigger: bool)
    | Activate(enable: bool)
    | SetMode(mode: OperationMode)
    | WriteInterrupt

  function InitWorld(): World {
    World(Fields(false, Normal, false, 0, 0), Starting, 0, 0)
  }

  predicate Enabled(w: World, l: Label) {
    match l
    case Start => w.thread.Starting?
    case Head => w.thread.Top?
    case WakeUp => w.thread.Waiting?
    case PollReturn(r) =>
      w.thread.Polling? && (r.pipeReady <==> w.f.pipe > 0) && (r.failed || r.fileReady || r.pipeReady)
    case Resume(_) => w.thread.Returned?
    case Activate(_) => !w.thread.Top?
    case SetMode(_) => !w.thread.Top?
    case WriteInterrupt => w.modeWrites > 0
  }

  function Notified(thread: Thread, changed: bool): Thread {
    if thread.Waiting? && changed then Waiting(true) else thread
  }

  function Next(w: World, l: Label): World
    requires Enabled(w, l)
  {
    match l
    case Start => w.(thread := Top)
    case Head =>
      w.(thread := match LoopHead(w.f) case Exit => Exited case Wait => Waiting(false) case Poll => Polling)
    case WakeUp => w.(thread := if Runnable(w.f) || w.f.stop then Top else Waiting(false))
    case PollReturn(r) => w.(thread := Returned(r))
    case Resume(trigger) => w.(f := AfterPoll(w.f, w.thread.result, trigger), thread := Top)
    case Activate(enable) =>
      w.(f := Activated(w.f, enable, true), thread := Notified(w.thread, w.f.enabled != enable),
         enables := w.enables + if enable && !w.f.enabled then 1 else 0)
    case SetMode(mode) =>
      w.(f := w.f.(mode := mode), thread := Notified(w.thread, w.f.mode != mode), modeWrites := w.modeWrites + 1)
    case WriteInterrupt => w.(f := Interrupted(w.f), modeWrites := w.modeWrites - 1)
  }

  function ExecFrom(w: World, run: seq<Label>): Option<World> {
    if run == [] then Some(w)
    else
      var before := ExecFrom(w, run[..|run| - 1]);
      var l := run[|run| - 1];
      if before.Some? && Enabled(before.value, l) then Some(Next(before.value, l)) else None
  }

  function Exec(run: seq<Label>): Option<World> {
    ExecFrom(InitWorld(), run)
  }

  /** How the fields follow the steps: an activation sets whether the sensor is enabled, an event switches it off,
      a failed poll ends the thread; every change of activation and every written interrupt adds a byte to the
      pipe, and a turn that was interrupted and posts nothing reads one. */
  lemma FieldsFollowSteps(w: World, l: Label)
    requires Enabled(w, l)
    ensures var f := Next(w, l).f;
            var posts := l.Resume? && !w.thread.result.failed && w.thread.result.fileReady && l.trigger;
            var drains := l.Resume? && !w.thread.result.failed && !posts && w.thread.result.pipeReady && w.f.pipe > 0;
            && f.enabled == (if l.Activate? then l.enable else if posts then false else w.f.enabled)
            && f.mode == (if l.SetMode? then l.mode else w.f.mode)
            && f.stop == (w.f.stop || (l.Resume? && w.thread.result.failed))
            && f.posted == w.f.posted + (if posts then 1 else 0)
            && f.pipe == w.f.pipe - (if drains then 1 else 0)
               + (if l.WriteInterrupt? || (l.Activate? && l.enable != w.f.enabled) then 1 else 0)
  {}

  /** Where the thread goes from the head of its loop: it ends when it is told to stop, polls when the sensor is
      enabled in the normal mode, and waits otherwise; and it leaves the wait only for one of the others. */
  lemma HeadDecides(w: World)
    ensures Enabled(w, Head) ==>
              var thread := Next(w, Head).thread;
              && (thread == Exited <==> w.f.stop)
              && (thread == Polling <==> !w.f.stop && w.f.enabled && w.f.mode == Normal)
              && (thread == Waiting(false) <==> !w.f.stop && !(w.f.enabled && w.f.mode == Normal))
    ensures Enabled(w, WakeUp) ==>
              (Next(w, WakeUp).thread == Top <==> w.f.stop || (w.f.enabled && w.f.mode == Normal))
  {}

  ghost predicate Reachable(w: World) {
    exists run :: Exec(run) == Some(w)
  }

  predicate InPoll(thread: Thread) {
    thread.Polling? || thread.Returned?
  }

  predicate BoundInv(w: World) {
    w.f.posted + (if w.f.enabled || InPoll(w.thread) then 1 else 0) <= w.enables
  }

  predicate InterruptInv(w: World) {
    && (w.thread.Polling? && !Runnable(w.f) ==> w.f.pipe > 0 || w.modeWrites > 0)
    && (w.thread.Returned? && w.thread.result.pipeReady ==> w.f.pipe > 0)
    && (w.thread.Waiting? && Runnable(w.f) ==> w.thread.notified)
  }

  lemma {:induction false} RunKeepsInvariants(run: seq<Label>)
    requires Exec(run).Some?
    ensures BoundInv(Exec(run).value) && InterruptInv(Exec(run).value)
  {
    if run != [] {
      RunKeepsInvariants(run[..|run| - 1]);
    }
  }

  /** The polling loop posts at most one event per enabling, whatever activations and mode changes land
      while it polls; an enabled or polling sensor still has its event to come. */
  lemma OneEventPerEnable(w: World)
    requires Reachable(w)
    ensures w.f.posted + (if w.f.enabled || InPoll(w.thread) then 1 else 0) <= w.enables
  {
    var run :| Exec(run) == Some(w);
    RunKeepsInvariants(run);
  }

  /** A thread that polls although the sensor must not run has an interrupt to read, or one is about to be
      written; a thread that waits although the sensor may run has been notified. */
  lemma NoLostInterrupt(w: World)
    requires Reachable(w)
    ensures w.thread.Polling? && !Runnable(w.f) ==> w.f.pipe > 0 || w.modeWrites > 0
    ensures w.thread.Waiting? && Runnable(w.f) ==> w.thread.notified
  {
    var run :| Exec(run) == Some(w);
    RunKeepsInvariants(run);
  }

  function PollOutcome(w: World, failed: bool, fileReady: bool): PollResult {
    PollResult(failed, fileReady, w.f.pipe > 0)
  }

  /** And so it leaves `poll`: once the interrupt is in the pipe, poll cannot block, and whatever it
      reports the thread's next turn ends in a wait or at the exit. */
  lemma InterruptEndsPolling(w: World, failed: bool, fileReady: bool, trigger: bool)
    requires Reachable(w) && w.thread.Polling? && !Runnable(w.f) && (w.f.pipe > 0 || w.modeWrites == 0)
    ensures var l := PollReturn(PollOutcome(w, failed, fileReady));
            && Enabled(w, l)
            && var w1 := Next(Next(w, l), Resume(trigger));
            Enabled(w1, Head) && (Next(w1, Head).thread == Waiting(false) || Next(w1, Head).thread == Exited)
  {
    NoLostInterrupt(w);
  }

  /** A turn that was only interrupted uses up one byte and posts nothing: stale interrupts run out. */
  lemma InterruptedTurnReadsOneByte(w: World, trigger: bool)
    requires Reachable(w) && w.thread.Returned? && w.thread.result.pipeReady
    requires !w.thread.result.failed && !(w.thread.result.fileReady && trigger)
    ensures w.f.pipe > 0 && Next(w, Resume(trigger)).f == w.f.(pipe := w.f.pipe - 1)
  {
    var run :| Exec(run) == Some(w);
    RunKeepsInvariants(run);
  }

  lemma ReachableStep(w: World, l: Label)
    requires Reachable(w) && Enabled(w, l)
    ensures Reachable(Next(w, l))
  {
    var run :| Exec(run) == Some(w);
    assert (run + [l])[..|run + [l]| - 1] == run;
    assert Exec(run + [l]) == Some(Next(w, l));
  }

  /** `poll` has seen the file change. */
  predicate SawFile(result: PollResult) {
    !result.failed && result.fileReady
  }

  /** The polling loop posts an event exactly when it resumes from a poll that saw the file change and then
      finds it set, whether or not the sensor is still enabled. */
  lemma EventsComeFromTriggers(w: World, l: Label)
    requires Enabled(w, l)
    ensures Next(w, l).f.posted == w.f.posted + if l.Resume? && SawFile(w.thread.result) && l.trigger then 1 else 0
  {}

  /** The thread can still post, however the poll that is under way ends. */
  predicate MayPost(thread: Thread) {
    thread.Polling? || (thread.Returned? && SawFile(thread.result))
  }

  predicate NeverEnables(run: seq<Label>) {
    forall l <- run :: !(l.Activate? && l.enable)
  }

  /** A sensor that is off stays off until it is enabled, and posts at most the event of the poll that was under
      way; with no poll under way, none. */
  lemma {:induction false} OffSensorFinishesItsPoll(w: World, run: seq<Label>)
    requires !w.f.enabled && NeverEnables(run) && ExecFrom(w, run).Some?
    ensures var after := ExecFrom(w, run).value;
            && !after.f.enabled
            && after.f.posted + (if InPoll(after.thread) then 1 else 0)
               <= w.f.posted + (if InPoll(w.thread) then 1 else 0)
            && after.f.posted + (if MayPost(after.thread) then 1 else 0)
               <= w.f.posted + (if MayPost(w.thread) then 1 else 0)
  {
    if run != [] {
      OffSensorFinishesItsPoll(w, run[..|run| - 1]);
    }
  }

  /** The shortest run that posts the event of the poll under way. */
  function Posting(w: World): seq<Label> {
    if w.thread.Polling? then [PollReturn(PollOutcome(w, false, true)), Resume(true)] else [Resume(true)]
  }

  lemma PostingPosts(w: World)
    requires MayPost(w.thread)
    ensures ExecFrom(w, Posting(w)).Some? && ExecFrom(w, Posting(w)).value.f.posted == w.f.posted + 1
  {
    var run := Posting(w);
    assert ExecFrom(w, run[..0]) == Some(w);
    if w.thread.Polling? {
      assert run[..1] == [run[0]] && run[..1][..0] == run[..0];
      assert ExecFrom(w, run[..1]) == Some(Next(w, run[0]));
    }
  }

  ghost predicate PostsWithoutEnabling(w: World, run: seq<Label>) {
    NeverEnables(run) && ExecFrom(w, run).Some? && ExecFrom(w, run).value.f.posted > w.f.posted
  }

  /** An event can still come from a sensor that is off exactly when it was switched off during a poll, or before
      the thread resumed from a poll that saw the file change. */
  lemma OffSensorPostsExactly(w: World)
    requires !w.f.enabled
    ensures (exists run :: PostsWithoutEnabling(w, run)) <==> MayPost(w.thread)
  {
    if MayPost(w.thread) {
      PostingPosts(w);
      assert PostsWithoutEnabling(w, Posting(w));
    }
    forall run | PostsWithoutEnabling(w, run) ensures MayPost(w.thread) {
      OffSensorFinishesItsPoll(w, run);
    }
  }

  /** An event may come from a sensor that has been switched off: the loop looks at the file first. */
  lemma EventAfterDisable() returns (w: World)
    ensures Reachable(w) && !w.f.enabled && w.f.posted == 0 && w.thread.Returned?
    ensures Next(w, Resume(true)).f.posted == 1
  {
    w := InitWorld();
    assert Exec([]) == Some(w);
    var run := [Start, Head, Activate(true), WakeUp, Head, Activate(false),
                PollReturn(PollResult(false, true, true)), Resume(true)];
    for i := 0 to 7
      invariant Reachable(w)
      invariant w == [InitWorld(),
                      World(Fields(false, Normal, false, 0, 0), Top, 0, 0),
                      World(Fields(false, Normal, false, 0, 0), Waiting(false), 0, 0),
                      World(Fields(true, Normal, false, 1, 0), Waiting(true), 0, 1),
                      World(Fields(true, Normal, false, 1, 0), Top, 0, 1),
                      World(Fields(true, Normal, false, 1, 0), Polling, 0, 1),
                      World(Fields(false, Normal, false, 2, 0), Polling, 0, 1),
                      World(Fields(false, Normal, false, 2, 0),
                            Returned(PollResult(false, true, true)), 0, 1)][i]
    {
      ReachableStep(w, run[i]);
      w := Next(w, run[i]);
    }
  }
}
