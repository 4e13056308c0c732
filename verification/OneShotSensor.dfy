/** The one-shot sensor that polls a sysfs file without holding its lock, and the pipe that interrupts it. */
module OneShotSensor {
  datatype OperationMode = Normal | DataInjection

  /** `posted` counts the events handed to the callback by the polling loop; `pipe` the unread bytes. */
  datatype Fields = Fields(enabled: bool, mode: OperationMode, stop: bool, pipe: nat, posted: nat)

  predicate Runnable(f: Fields) {
    f.enabled && f.mode == Normal
  }

  function Interrupted(f: Fields): Fields {
    f.(pipe := f.pipe + 1)
  }

  function Activated(f: Fields, enable: bool, notify: bool): Fields {
    if f.enabled == enable then f
    else if notify then Interrupted(f.(enabled := enable))
    else f.(enabled := enable)
  }

  /** What `poll` reports. */
  datatype PollResult = PollResult(failed: bool, fileReady: bool, pipeReady: bool)

  /** `trigger` is what the sysfs file reads as when the thread holds the lock again. */
  function AfterPoll(f: Fields, r: PollResult, trigger: bool): Fields {
    if r.failed then f.(stop := true)
    else if r.fileReady && trigger then
      var off := Activated(f, false, false);
      off.(posted := off.posted + 1)
    else if r.pipeReady && f.pipe > 0 then f.(pipe := f.pipe - 1)
    else f
  }

  datatype Action = Exit | Wait | Poll

  function LoopHead(f: Fields): Action {
    if f.stop then Exit else if !Runnable(f) then Wait else Poll
  }

  class SysfsPollingOneShotSensor {
    var isEnabled: bool
    var mode: OperationMode
    var stopThread: bool
    var pipe: nat
    var posted: nat

    constructor ()
      ensures State() == Fields(false, Normal, false, 0, 0)
    {
      isEnabled, mode, stopThread, pipe, posted := false, Normal, false, 0, 0;
    }

    function State(): Fields
      reads this
    {
      Fields(isEnabled, mode, stopThread, pipe, posted)
    }

    method InterruptPoll()
      modifies this`pipe
      ensures State() == Interrupted(old(State()))
    {
      pipe := pipe + 1;
    }

    method Activate(enable: bool, notify: bool)
      modifies this`isEnabled, this`pipe
      ensures State() == Activated(old(State()), enable, notify)
    {
      if isEnabled != enable {
        isEnabled := enable;
        if notify {
          InterruptPoll();
        }
      }
    }

    /** Two sections in the program: the mode under the lock, then the interrupt without it. */
    method SetOperationMode(newMode: OperationMode)
      modifies this`mode, this`pipe
      ensures State() == Interrupted(old(State()).(mode := newMode))
    {
      if mode != newMode {
        mode := newMode;
      }
      InterruptPoll();
    }

    /** One turn of the loop under the lock: from the return of `poll` to the next wait or poll. */
    method RunSection(r: PollResult, trigger: bool) returns (action: Action)
      modifies this
      ensures State() == AfterPoll(old(State()), r, trigger)
      ensures action == LoopHead(State())
    {
      if r.failed {
        stopThread := true;
      } else if r.fileReady && trigger {
        Activate(false, false);
        posted := posted + 1;
      } else if r.pipeReady && pipe > 0 {
        pipe := pipe - 1;
      }
      if stopThread {
        action := Exit;
      } else if !isEnabled || mode == DataInjection {
        action := Wait;
      } else {
        action := Poll;
      }
    }
  }
}
