/** Dynamic sensors: the table the proxy keeps and the reports it sends to the framework. The table is updated
    under a lock; the report goes out after the lock is released, so that reports of different
    sub-HALs may overtake each other. */
module DynamicSensors {
  import opened Handles
  import opened Sequences
  import opened Events

  datatype Update<T> = Update(sensors: SensorMap, reported: seq<T>)

  function Connect(sensors: SensorMap, added: seq<SensorInfo>, index: nat): Update<SensorInfo> {
    if added == [] then Update(sensors, [])
    else
      var u := Connect(sensors, added[..|added| - 1], index);
      var s := added[|added| - 1];
      if !SubHalIndexIsClear(s.handle) then u
      else
        var tagged := s.(handle := SetSubHalIndex(s.handle, index));
        Update(u.sensors[tagged.handle := tagged], u.reported + [tagged])
  }

  function Disconnect(sensors: SensorMap, removed: seq<Handle>, index: nat): Update<Handle> {
    if removed == [] then Update(sensors, [])
    else
      var u := Disconnect(sensors, removed[..|removed| - 1], index);
      var h := removed[|removed| - 1];
      var g := SetSubHalIndex(h, index);
      if SubHalIndexIsClear(h) && g in u.sensors then Update(u.sensors - {g}, u.reported + [g]) else u
  }

  function HandleSet(sensors: seq<SensorInfo>): set<Handle> {
    set s <- sensors :: s.handle
  }

  /** The global handles of the well-formed local ones. */
  function Tagged(handles: seq<Handle>, index: nat): set<Handle> {
    set h <- handles | SubHalIndexIsClear(h) :: SetSubHalIndex(h, index)
  }

  function LocalHandles(sensors: seq<SensorInfo>): seq<Handle> {
    seq(|sensors|, i requires 0 <= i < |sensors| => sensors[i].handle)
  }

  function Elements(handles: seq<Handle>): set<Handle> {
    set g <- handles
  }

  lemma ElementsStep(handles: seq<Handle>, g: Handle)
    ensures Elements(handles + [g]) == Elements(handles) + {g}
  {
    assert forall x :: x in handles + [g] <==> x in handles || x == g;
  }

  lemma TaggedStep(handles: seq<Handle>, h: Handle, index: nat)
    ensures Tagged(handles + [h], index)
         == Tagged(handles, index) + if SubHalIndexIsClear(h) then {SetSubHalIndex(h, index)} else {}
  {
    assert forall x :: x in handles + [h] <==> x in handles || x == h;
  }

  lemma HandleSetStep(sensors: seq<SensorInfo>, s: SensorInfo)
    ensures HandleSet(sensors + [s]) == HandleSet(sensors) + {s.handle}
  {
    assert forall x :: x in sensors + [s] <==> x in sensors || x == s;
  }

  /** A connection report names exactly the sensors now in the table under their global handles. */
  lemma {:induction false} ConnectReportsKeys(sensors: SensorMap, added: seq<SensorInfo>, index: nat)
    ensures var u := Connect(sensors, added, index);
            && HandleSet(u.reported) == Tagged(LocalHandles(added), index)
            && u.sensors.Keys == sensors.Keys + HandleSet(u.reported)
            && (forall g <- sensors :: g !in HandleSet(u.reported) ==> u.sensors[g] == sensors[g])
            && (forall g <- HandleSet(u.reported) :: u.sensors[g].handle == g && u.sensors[g] in u.reported)
  {
    if added != [] {
      var n := |added| - 1;
      ConnectReportsKeys(sensors, added[..n], index);
      assert LocalHandles(added) == LocalHandles(added[..n]) + [added[n].handle];
      TaggedStep(LocalHandles(added[..n]), added[n].handle, index);
      HandleSetStep(Connect(sensors, added[..n], index).reported,
                    added[n].(handle := SetSubHalIndex(added[n].handle, index)));
    }
  }

  /** `out` is the sensor `s` under its global handle. */
  predicate IsRenamed(s: SensorInfo, index: nat, out: SensorInfo) {
    && out.handle == SetSubHalIndex(s.handle, index) && out.sensorType == s.sensorType
    && out.typeAsString == s.typeAsString && out.flags == s.flags && out.details == s.details
  }

  /** The report holds, in order, exactly the added sensors with local handles, renamed and otherwise unchanged. */
  ghost predicate ReportsAll(added: seq<SensorInfo>, index: nat, at: seq<nat>, reported: seq<SensorInfo>) {
    && |at| == |reported| && Increasing(at)
    && (forall i :: 0 <= i < |added| ==> (i in at <==> added[i].handle.top == 0))
    && (forall k :: 0 <= k < |at| ==> at[k] < |added| && IsRenamed(added[at[k]], index, reported[k]))
  }

  lemma ReportsOneMore(
    added: seq<SensorInfo>, index: nat, at: seq<nat>, reported: seq<SensorInfo>, s: SensorInfo, out: SensorInfo)
    requires ReportsAll(added, index, at, reported) && s.handle.top == 0 && IsRenamed(s, index, out)
    ensures ReportsAll(added + [s], index, at + [|added|], reported + [out])
  {
    var now := at + [|added|];
    forall i | 0 <= i <= |added| ensures i in now <==> (added + [s])[i].handle.top == 0 {
      if i == |added| {
        assert now[|at|] == i;
      }
    }
  }

  lemma ReportsNoMore(added: seq<SensorInfo>, index: nat, at: seq<nat>, reported: seq<SensorInfo>, s: SensorInfo)
    requires ReportsAll(added, index, at, reported) && s.handle.top != 0
    ensures ReportsAll(added + [s], index, at, reported)
  {}

  lemma {:induction false} ConnectReportsInOrder(sensors: SensorMap, added: seq<SensorInfo>, index: nat)
    returns (at: seq<nat>)
    ensures ReportsAll(added, index, at, Connect(sensors, added, index).reported)
  {
    if added == [] {
      at := [];
    } else {
      var n := |added| - 1;
      var before := Connect(sensors, added[..n], index).reported;
      at := ConnectReportsInOrder(sensors, added[..n], index);
      assert added == added[..n] + [added[n]];
      if added[n].handle.top == 0 {
        ReportsOneMore(added[..n], index, at, before, added[n],
                       added[n].(handle := SetSubHalIndex(added[n].handle, index)));
        at := at + [n];
      } else {
        ReportsNoMore(added[..n], index, at, before, added[n]);
      }
    }
  }

  predicate IsLastReport(reported: seq<SensorInfo>, k: nat) {
    k < |reported| && forall j :: k < j < |reported| ==> reported[j].handle != reported[k].handle
  }

  /** The table holds what was reported last under each handle. */
  lemma {:induction false} TableHoldsReports(sensors: SensorMap, added: seq<SensorInfo>, index: nat, k: nat)
    requires IsLastReport(Connect(sensors, added, index).reported, k)
    ensures var u := Connect(sensors, added, index);
            u.reported[k].handle in u.sensors && u.sensors[u.reported[k].handle] == u.reported[k]
  {
    var n := |added| - 1;
    var before := Connect(sensors, added[..n], index);
    var reported := Connect(sensors, added, index).reported;
    if k < |before.reported| {
      assert forall j :: 0 <= j < |before.reported| ==> reported[j] == before.reported[j];
      if added[n].handle.top == 0 {
        assert reported[|before.reported|].handle == SetSubHalIndex(added[n].handle, index);
      }
      TableHoldsReports(sensors, added[..n], index, k);
    }
  }

  /** A disconnection report names, once each, exactly the sensors that leave the table. */
  lemma {:induction false} DisconnectReportsKeys(sensors: SensorMap, removed: seq<Handle>, index: nat)
    ensures var u := Disconnect(sensors, removed, index);
            && Elements(u.reported) == Tagged(removed, index) * sensors.Keys
            && u.sensors == sensors - Elements(u.reported)
            && forall i, j :: 0 <= i < j < |u.reported| ==> u.reported[i] != u.reported[j]
  {
    if removed != [] {
      var n := |removed| - 1;
      DisconnectReportsKeys(sensors, removed[..n], index);
      assert removed == removed[..n] + [removed[n]];
      TaggedStep(removed[..n], removed[n], index);
      ElementsStep(Disconnect(sensors, removed[..n], index).reported, SetSubHalIndex(removed[n], index));
    }
  }

  /** The report keeps the order of the handles removed. */
  lemma {:induction false} DisconnectReportsInOrder(sensors: SensorMap, removed: seq<Handle>, index: nat)
    returns (at: seq<nat>)
    ensures var reported := Disconnect(sensors, removed, index).reported;
            && |at| == |reported| && Increasing(at)
            && forall k :: 0 <= k < |at| ==> at[k] < |removed| && reported[k] == SetSubHalIndex(removed[at[k]], index)
  {
    if removed == [] {
      at := [];
    } else {
      var n := |removed| - 1;
      at := DisconnectReportsInOrder(sensors, removed[..n], index);
      if |at| < |Disconnect(sensors, removed, index).reported| {
        at := at + [n];
      }
    }
  }

  lemma TaggedIndex(handles: seq<Handle>, index: nat)
    requires index < 256
    ensures forall g <- Tagged(handles, index) :: g.top == index
  {
    forall h <- handles | SubHalIndexIsClear(h) ensures SetSubHalIndex(h, index).top == index {
      HandleRoundTrip(h, index);
    }
  }

  datatype Report = Added(handles: set<Handle>) | Removed(handles: set<Handle>)

  /** `inFlight` holds, for each sub-HAL, the report of the call that has released the lock and has not
      returned; `log` the reports the framework has received. */
  datatype State = State(sensors: SensorMap, inFlight: map<nat, Report>, log: seq<Report>)

  datatype Call =
    | OnConnected(index: nat, added: seq<SensorInfo>)
    | OnDisconnected(index: nat, removed: seq<Handle>)
    | Deliver(index: nat)

  /** Each sub-HAL makes its calls one after the other. */
  predicate Enabled(s: State, c: Call) {
    match c
    case OnConnected(index, _) => index < 256 && index !in s.inFlight
    case OnDisconnected(index, _) => index < 256 && index !in s.inFlight
    case Deliver(index) => index in s.inFlight
  }

  function Next(s: State, c: Call): State
    requires Enabled(s, c)
  {
    match c
    case OnConnected(index, added) =>
      var u := Connect(s.sensors, added, index);
      s.(sensors := u.sensors, inFlight := s.inFlight[index := Added(HandleSet(u.reported))])
    case OnDisconnected(index, removed) =>
      var u := Disconnect(s.sensors, removed, index);
      s.(sensors := u.sensors, inFlight := s.inFlight[index := Removed(Elements(u.reported))])
    case Deliver(index) =>
      s.(inFlight := s.inFlight - {index}, log := s.log + [s.inFlight[index]])
  }

  function Exec(calls: seq<Call>): Option<State> {
    if calls == [] then Some(State(map[], map[], []))
    else
      var before := Exec(calls[..|calls| - 1]);
      var c := calls[|calls| - 1];
      if before.Some? && Enabled(before.value, c) then Some(Next(before.value, c)) else None
  }

  function After(handles: set<Handle>, r: Report): set<Handle> {
    match r
    case Added(more) => handles + more
    case Removed(gone) => handles - gone
  }

  /** What the framework believes: the handles reported connected and not since reported disconnected. */
  function Believed(log: seq<Report>): set<Handle> {
    if log == [] then {} else After(Believed(log[..|log| - 1]), log[|log| - 1])
  }

  function IndexOf(g: Handle): nat {
    g.top
  }

  /** What the framework will believe about `g` once the report in flight about it has arrived. */
  predicate WillBelieve(s: State, g: Handle) {
    if IndexOf(g) in s.inFlight then g in After(Believed(s.log), s.inFlight[IndexOf(g)]) else g in Believed(s.log)
  }

  ghost predicate TraceInv(s: State) {
    && (forall i <- s.inFlight :: forall g <- s.inFlight[i].handles :: IndexOf(g) == i)
    && (forall g :: g in s.sensors <==> WillBelieve(s, g))
  }

  lemma CallStep(s: State, c: Call)
    requires TraceInv(s) && Enabled(s, c) && !c.Deliver?
    ensures TraceInv(Next(s, c))
  {
    match c
    case OnConnected(index, added) =>
      ConnectReportsKeys(s.sensors, added, index);
      TaggedIndex(LocalHandles(added), index);
    case OnDisconnected(index, removed) =>
      DisconnectReportsKeys(s.sensors, removed, index);
      TaggedIndex(removed, index);
  }

  lemma DeliverStep(s: State, c: Call)
    requires TraceInv(s) && Enabled(s, c) && c.Deliver?
    ensures TraceInv(Next(s, c))
  {
    var after := Next(s, c);
    var r := s.inFlight[c.index];
    assert after.log[..|after.log| - 1] == s.log;
    assert Believed(after.log) == After(Believed(s.log), r);
    forall g ensures g in after.sensors <==> WillBelieve(after, g) {
      assert IndexOf(g) != c.index ==> g !in r.handles;
      assert g in s.sensors <==> WillBelieve(s, g);
    }
  }

  lemma {:induction false} CallsKeepTrace(calls: seq<Call>)
    requires Exec(calls).Some?
    ensures TraceInv(Exec(calls).value)
  {
    if calls != [] {
      var c := calls[|calls| - 1];
      CallsKeepTrace(calls[..|calls| - 1]);
      var s := Exec(calls[..|calls| - 1]).value;
      if c.Deliver? {
        DeliverStep(s, c);
      } else {
        CallStep(s, c);
      }
    }
  }

  /** After any calls, however their reports were interleaved, the framework and the table agree about every
      sensor of a sub-HAL with no report in flight, and about all sensors when there is none. */
  lemma ReportsMatchTable(calls: seq<Call>)
    requires Exec(calls).Some?
    ensures var s := Exec(calls).value;
            && (forall g :: IndexOf(g) !in s.inFlight ==> (g in s.sensors <==> g in Believed(s.log)))
            && (s.inFlight == map[] ==> s.sensors.Keys == Believed(s.log))
  {
    CallsKeepTrace(calls);
    var s := Exec(calls).value;
    assert forall g :: g in s.sensors <==> WillBelieve(s, g);
  }

  /** Calls of different sub-HALs touch different keys, so that their order does not matter. */
  lemma SubHalsTouchDisjointKeys(added: seq<SensorInfo>, index1: nat, removed: seq<Handle>, index2: nat)
    requires index1 < 256 && index2 < 256 && index1 != index2
    ensures Tagged(LocalHandles(added), index1) !! Tagged(removed, index2)
  {
    TaggedIndex(LocalHandles(added), index1);
    TaggedIndex(removed, index2);
    forall g | g in Tagged(LocalHandles(added), index1) ensures g !in Tagged(removed, index2) {
      assert g.top == index1;
    }
  }
}
