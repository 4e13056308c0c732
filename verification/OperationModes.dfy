/** The operation mode that the proxy sets on all of its sub-HALs, or on none. */
module OperationModes {
  import opened OneShotSensor

  /** The mode of each sub-HAL, and the mode the proxy believes in. */
  datatype Modes = Modes(subHals: seq<OperationMode>, current: OperationMode)

  /** How many sub-HALs accept before the first one refuses. */
  function Accepting(answers: seq<bool>): (k: nat)
    ensures k <= |answers|
    ensures forall i :: 0 <= i < k ==> answers[i]
    ensures k < |answers| ==> !answers[k]
  {
    if answers == [] || !answers[0] then 0 else 1 + Accepting(answers[1..])
  }

  lemma AcceptingIs(answers: seq<bool>, k: nat)
    requires k <= |answers|
    requires forall i :: 0 <= i < k ==> answers[i]
    requires k < |answers| ==> !answers[k]
    ensures Accepting(answers) == k
  {}

  /** `answers` says which sub-HALs accept the new mode, `undo` which accept to go back. */
  function SetMode(m: Modes, mode: OperationMode, answers: seq<bool>, undo: seq<bool>): Modes
    requires |answers| == |undo| == |m.subHals|
  {
    var k := Accepting(answers);
    if k == |answers| then Modes(seq(|m.subHals|, i => mode), mode)
    else
      m.(subHals := seq(|m.subHals|, i requires 0 <= i < |m.subHals| =>
                        if i >= k then m.subHals[i] else if undo[i] then m.current else mode))
  }

  lemma SetModeIs(m: Modes, mode: OperationMode, answers: seq<bool>, undo: seq<bool>, k: nat, after: Modes)
    requires |answers| == |undo| == |m.subHals| == |after.subHals| && k <= |answers|
    requires (forall i :: 0 <= i < k ==> answers[i]) && (k < |answers| ==> !answers[k])
    requires after.current == if k == |answers| then mode else m.current
    requires forall i :: 0 <= i < |answers| ==>
               after.subHals[i] == if i >= k then m.subHals[i]
                                   else if k < |answers| && undo[i] then m.current else mode
    ensures after == SetMode(m, mode, answers, undo)
  {
    AcceptingIs(answers, k);
    assert after.subHals == SetMode(m, mode, answers, undo).subHals;
  }

  /** Sub-HAL by sub-HAL: all are in the new mode if all accept. Otherwise those from the first refusal on are as they
      were, and those before it are back in the current mode if they accept that, and in the new mode if not. */
  lemma SetModeMeans(m: Modes, mode: OperationMode, answers: seq<bool>, undo: seq<bool>, i: nat)
    requires |answers| == |undo| == |m.subHals| && i < |answers|
    ensures var after := SetMode(m, mode, answers, undo);
            && |after.subHals| == |m.subHals|
            && ((forall j :: 0 <= j < |answers| ==> answers[j]) ==>
                  after.subHals[i] == mode && after.current == mode)
            && ((exists j :: 0 <= j < |answers| && !answers[j]) ==> after.current == m.current)
            && ((exists j :: 0 <= j <= i && !answers[j]) ==> after.subHals[i] == m.subHals[i])
            && ((forall j :: 0 <= j <= i ==> answers[j]) && (exists j :: i < j < |answers| && !answers[j]) ==>
                  after.subHals[i] == if undo[i] then m.current else mode)
  {
    var k := Accepting(answers);
    if k < |answers| {
      assert !answers[k];
    }
  }

  ghost predicate Agree(m: Modes) {
    forall i :: 0 <= i < |m.subHals| ==> m.subHals[i] == m.current
  }

  /** From agreement, a call ends in agreement exactly when all accept, or all that had changed go
      back, or nothing was to change; and only full acceptance changes the proxy's mode. */
  lemma SetModeAllOrNothing(m: Modes, mode: OperationMode, answers: seq<bool>, undo: seq<bool>)
    requires |answers| == |undo| == |m.subHals| && Agree(m)
    ensures var after := SetMode(m, mode, answers, undo);
            var k := Accepting(answers);
            && (Agree(after) <==>
                  k == |answers| || mode == m.current || forall i :: 0 <= i < k ==> undo[i])
            && after.current == (if forall i :: 0 <= i < |answers| ==> answers[i] then mode else m.current)
  {
    var after := SetMode(m, mode, answers, undo);
    var k := Accepting(answers);
    if k < |answers| {
      assert !answers[k];
      if i :| 0 <= i < k && !undo[i] && mode != m.current {
        assert after.subHals[i] != after.current;
      }
    }
  }

  datatype Call =
    | Initialize
    | SetOperationMode(mode: OperationMode, answers: seq<bool>)

  /** `initializeCommon` assumes that initialising a sub-HAL puts it into the normal mode. */
  function AfterCall(m: Modes, c: Call): Modes
    requires c.SetOperationMode? ==> |c.answers| == |m.subHals|
  {
    match c
    case Initialize => Modes(seq(|m.subHals|, i => Normal), Normal)
    case SetOperationMode(mode, answers) => SetMode(m, mode, answers, seq(|answers|, i => true))
  }

  function AfterCalls(m: Modes, calls: seq<Call>): (after: Modes)
    requires forall c <- calls :: c.SetOperationMode? ==> |c.answers| == |m.subHals|
    ensures |after.subHals| == |m.subHals|
  {
    if calls == [] then m else AfterCall(AfterCalls(m, calls[..|calls| - 1]), calls[|calls| - 1])
  }

  /** With sub-HALs that obey when asked to go back, all are in the proxy's mode after every sequence of calls. */
  lemma {:induction false} CallsKeepAgreement(m: Modes, calls: seq<Call>)
    requires forall c <- calls :: c.SetOperationMode? ==> |c.answers| == |m.subHals|
    requires Agree(m)
    ensures Agree(AfterCalls(m, calls))
  {
    if calls != [] {
      var c := calls[|calls| - 1];
      var before := AfterCalls(m, calls[..|calls| - 1]);
      CallsKeepAgreement(m, calls[..|calls| - 1]);
      if c.SetOperationMode? {
        SetModeAllOrNothing(before, c.mode, c.answers, seq(|c.answers|, i => true));
      }
    }
  }
}
