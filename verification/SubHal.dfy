/** A sub-HAL: the sensors it owns, by local handle. */
module SubHal {
  import opened Handles
  import opened OneShotSensor

  datatype Status = OK | BadValue | InvalidOperation

  /** The status `first`, overwritten by every later failure. */
  function LastFailure(first: Status, answers: seq<Status>): (result: Status)
    ensures result == OK <==> first == OK && forall i :: 0 <= i < |answers| ==> answers[i] == OK
  {
    if answers == [] then first
    else if answers[|answers| - 1] != OK then answers[|answers| - 1]
    else LastFailure(first, answers[..|answers| - 1])
  }

  /** It is the last failure, and `first` when there is none. */
  lemma {:induction false} LastFailureMeans(first: Status, answers: seq<Status>)
    ensures LastFailure(first, answers) != first ==> LastFailure(first, answers) in answers
    ensures forall k :: 0 <= k < |answers| && answers[k] != OK && (forall j :: k < j < |answers| ==> answers[j] == OK)
              ==> LastFailure(first, answers) == answers[k]
    ensures (forall j :: 0 <= j < |answers| ==> answers[j] == OK) ==> LastFailure(first, answers) == first
  {
    if answers != [] {
      LastFailureMeans(first, answers[..|answers| - 1]);
    }
  }

  class SensorsSubHal {
    var sensors: map<Handle, SysfsPollingOneShotSensor>
    var currentOperationMode: OperationMode

    /** Each sensor is a separate object. */
    ghost predicate Valid()
      reads `sensors
    {
      forall g, h :: g in sensors && h in sensors && g != h ==> sensors[g] != sensors[h]
    }

    method Activate(handle: Handle, enabled: bool) returns (r: Status)
      modifies if handle in sensors then {sensors[handle]} else {}
      ensures r == if handle in sensors then OK else BadValue
      ensures handle in sensors ==>
                sensors[handle].State() == Activated(old(sensors[handle].State()), enabled, true)
    {
      if handle in sensors {
        sensors[handle].Activate(enabled, true);
        return OK;
      }
      return BadValue;
    }

    /** A sub-HAL other than the local one may refuse; it then changes nothing. */
    method SetOperationMode(mode: OperationMode, accepts: bool) returns (r: Status)
      requires Valid()
      modifies this`currentOperationMode, sensors.Values
      ensures r == if accepts then OK else InvalidOperation
      ensures currentOperationMode == if accepts then mode else old(currentOperationMode)
      ensures forall h <- sensors ::
                sensors[h].State() ==
                if accepts then Interrupted(old(sensors[h].State()).(mode := mode)) else old(sensors[h].State())
    {
      if !accepts {
        return InvalidOperation;
      }
      var todo := sensors.Keys;
      while todo != {}
        invariant todo <= sensors.Keys
        invariant forall h <- sensors ::
                    sensors[h].State() ==
                    if h in todo then old(sensors[h].State()) else Interrupted(old(sensors[h].State()).(mode := mode))
      {
        var h :| h in todo;
        sensors[h].SetOperationMode(mode);
        todo := todo - {h};
      }
      currentOperationMode := mode;
      return OK;
    }

    /** Initialising the local sub-HAL puts it and its sensors into the normal mode; `answer` is the status
        it reports, OK for the local one. */
    method Initialize(answer: Status) returns (r: Status)
      requires Valid()
      modifies this`currentOperationMode, sensors.Values
      ensures r == answer && currentOperationMode == Normal
      ensures forall h <- sensors :: sensors[h].State() == Interrupted(old(sensors[h].State()).(mode := Normal))
    {
      var _ := SetOperationMode(Normal, true);
      return answer;
    }
  }
}
