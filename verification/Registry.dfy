/** The sensors the proxy advertises, and the one sub-HAL that keeps its direct-channel abilities. */
module Registry {
  import opened Handles
  import opened Sequences
  import opened Events

  const TILT_DETECTOR: string := "android.sensor.tilt_detector"
  const PICK_UP_GESTURE: string := "android.sensor.pick_up_gesture"

  datatype Registry = Registry(sensors: SensorMap, direct: Option<nat>)

  predicate SupportsDirect(flags: SensorFlags) {
    flags.directReport != 0 || flags.directChannel != 0
  }

  function WithoutDirect(flags: SensorFlags): SensorFlags {
    flags.(directReport := 0, directChannel := 0)
  }

  /** The first sub-HAL to offer a direct channel owns it; all others lose the flags. */
  function DirectOwner(direct: Option<nat>, s: SensorInfo, index: nat): Option<nat> {
    if direct.None? && SupportsDirect(s.flags) then Some(index) else direct
  }

  function FlagsFor(direct: Option<nat>, s: SensorInfo, index: nat): SensorFlags {
    if direct.Some? && direct.value != index then WithoutDirect(s.flags) else s.flags
  }

  function Standardized(s: SensorInfo): SensorInfo {
    if s.typeAsString == TILT_DETECTOR
    then s.(sensorType := PickUpGesture, typeAsString := PICK_UP_GESTURE)
    else s
  }

  function Register(r: Registry, s: SensorInfo, index: nat): Registry {
    if !SubHalIndexIsClear(s.handle) then r
    else
      var g := SetSubHalIndex(s.handle, index);
      var entry := Standardized(s.(handle := g, flags := FlagsFor(r.direct, s, index)));
      Registry(r.sensors[g := entry], DirectOwner(r.direct, s, index))
  }

  function RegisterList(r: Registry, list: seq<SensorInfo>, index: nat): Registry {
    if list == [] then r else Register(RegisterList(r, list[..|list| - 1], index), list[|list| - 1], index)
  }

  function RegisterAll(lists: seq<seq<SensorInfo>>): Registry {
    if lists == [] then Registry(map[], None)
    else
      var n := |lists| - 1;
      RegisterList(RegisterAll(lists[..n]), lists[n], n)
  }

  /** The sensor that a sub-HAL offers under a local handle: the last one of its list. */
  function Offered(list: seq<SensorInfo>, h: Handle): Option<SensorInfo> {
    if list == [] || !SubHalIndexIsClear(h) then None
    else if list[|list| - 1].handle == h then Some(list[|list| - 1])
    else Offered(list[..|list| - 1], h)
  }

  predicate OffersDirect(list: seq<SensorInfo>) {
    exists s <- list :: SubHalIndexIsClear(s.handle) && SupportsDirect(s.flags)
  }

  /** The first sub-HAL in list order to offer a direct channel. */
  predicate IsFirstDirect(lists: seq<seq<SensorInfo>>, owner: Option<nat>) {
    match owner
    case None => forall i :: 0 <= i < |lists| ==> !OffersDirect(lists[i])
    case Some(o) => o < |lists| && OffersDirect(lists[o]) && forall i :: 0 <= i < o ==> !OffersDirect(lists[i])
  }

  /** What the framework is shown of a sensor of the sub-HAL at `index`. */
  function Published(s: SensorInfo, index: nat, owner: Option<nat>): SensorInfo {
    Standardized(s.(handle := SetSubHalIndex(s.handle, index),
                    flags := if owner == Some(index) then s.flags else WithoutDirect(s.flags)))
  }

  /** Every sensor on offer is published under its own global handle. */
  ghost predicate PublishesAll(sensors: SensorMap, lists: seq<seq<SensorInfo>>, owner: Option<nat>) {
    forall i, h :: 0 <= i < |lists| && Offered(lists[i], h).Some? ==>
      SetSubHalIndex(h, i) in sensors
      && sensors[SetSubHalIndex(h, i)] == Published(Offered(lists[i], h).value, i, owner)
  }

  predicate IsOffer(lists: seq<seq<SensorInfo>>, g: Handle, h: Handle, i: nat) {
    i < |lists| && Offered(lists[i], h).Some? && g == SetSubHalIndex(h, i)
  }

  /** Nothing else is published. */
  ghost predicate PublishesOnly(sensors: SensorMap, lists: seq<seq<SensorInfo>>) {
    forall g <- sensors :: exists h, i :: IsOffer(lists, g, h, i)
  }

  lemma {:induction false} OfferedIsListed(list: seq<SensorInfo>, h: Handle)
    requires Offered(list, h).Some?
    ensures SubHalIndexIsClear(h) && Offered(list, h).value in list && Offered(list, h).value.handle == h
  {
    if list[|list| - 1].handle != h {
      OfferedIsListed(list[..|list| - 1], h);
    }
  }

  lemma OffersDirectStep(list: seq<SensorInfo>, s: SensorInfo)
    ensures OffersDirect(list + [s])
       <==> OffersDirect(list) || (SubHalIndexIsClear(s.handle) && SupportsDirect(s.flags))
  {
    assert (list + [s])[|list|] == s;
    forall x | x in list ensures x in list + [s] {}
  }

  lemma OfferedStep(list: seq<SensorInfo>, s: SensorInfo, h: Handle)
    ensures Offered(list + [s], h) == if SubHalIndexIsClear(h) && s.handle == h then Some(s) else Offered(list, h)
  {
    assert (list + [s])[..|list|] == list;
  }

  lemma FirstDirectStep(lists: seq<seq<SensorInfo>>, list: seq<SensorInfo>, s: SensorInfo, direct: Option<nat>)
    requires IsFirstDirect(lists + [list], direct)
    ensures IsFirstDirect(
      lists + [list + [s]],
      if SubHalIndexIsClear(s.handle) then DirectOwner(direct, s, |lists|) else direct)
  {
    var before := lists + [list];
    var after := lists + [list + [s]];
    OffersDirectStep(list, s);
    assert forall i :: 0 <= i < |lists| ==> before[i] == after[i] == lists[i];
    assert before[|lists|] == list && after[|lists|] == list + [s];
  }

  /** Without a direct channel on offer, it does not matter whose flags are cleared. */
  lemma PublishedWithoutDirect(s: SensorInfo, index: nat, owner1: Option<nat>, owner2: Option<nat>)
    requires !SupportsDirect(s.flags)
    ensures Published(s, index, owner1) == Published(s, index, owner2)
  {}

  lemma EntryIsPublished(r: Registry, s: SensorInfo, index: nat)
    requires SubHalIndexIsClear(s.handle)
    ensures SetSubHalIndex(s.handle, index) in Register(r, s, index).sensors
    ensures Register(r, s, index).sensors[SetSubHalIndex(s.handle, index)]
         == Published(s, index, DirectOwner(r.direct, s, index))
    ensures Register(r, s, index).sensors.Keys == r.sensors.Keys + {SetSubHalIndex(s.handle, index)}
    ensures forall x <- r.sensors ::
              x != SetSubHalIndex(s.handle, index) ==> Register(r, s, index).sensors[x] == r.sensors[x]
  {}

  /** The lists read so far, when the last one has been read as far as `list`. */
  function ReadSoFar(lists: seq<seq<SensorInfo>>, list: seq<SensorInfo>): seq<seq<SensorInfo>> {
    lists + [list]
  }

  lemma OfferedNow(lists: seq<seq<SensorInfo>>, list: seq<SensorInfo>, s: SensorInfo, i: nat, h: Handle)
    requires i <= |lists|
    ensures Offered(ReadSoFar(lists, list + [s])[i], h)
         == if i == |lists| && SubHalIndexIsClear(h) && s.handle == h then Some(s)
            else Offered(ReadSoFar(lists, list)[i], h)
  {
    OfferedStep(list, s, h);
  }

  lemma RegisteredValue(
    lists: seq<seq<SensorInfo>>, list: seq<SensorInfo>, s: SensorInfo, r: Registry, i: nat, h: Handle)
    requires |lists| < 256 && i <= |lists| && SubHalIndexIsClear(s.handle)
    requires IsFirstDirect(ReadSoFar(lists, list), r.direct)
    requires PublishesAll(r.sensors, ReadSoFar(lists, list), r.direct)
    requires Offered(ReadSoFar(lists, list + [s])[i], h).Some?
    ensures var after := Register(r, s, |lists|);
            var offer := Offered(ReadSoFar(lists, list + [s])[i], h).value;
            && SetSubHalIndex(h, i) in after.sensors
            && after.sensors[SetSubHalIndex(h, i)] == Published(offer, i, after.direct)
  {
    OfferedNow(lists, list, s, i, h);
    EntryIsPublished(r, s, |lists|);
    if i != |lists| || s.handle != h {
      var known := Offered(ReadSoFar(lists, list)[i], h).value;
      OfferedIsListed(ReadSoFar(lists, list)[i], h);
      if SetSubHalIndex(h, i) == SetSubHalIndex(s.handle, |lists|) {
        TaggingIsInjective(h, i, s.handle, |lists|);
        assert false;
      }
      if r.direct.None? {
        assert !OffersDirect(ReadSoFar(lists, list)[i]);
        PublishedWithoutDirect(known, i, r.direct, Register(r, s, |lists|).direct);
      }
    }
  }

  lemma RegisteredKey(
    lists: seq<seq<SensorInfo>>, list: seq<SensorInfo>, s: SensorInfo, r: Registry, g: Handle)
    requires PublishesOnly(r.sensors, ReadSoFar(lists, list))
    requires g in Register(r, s, |lists|).sensors
    ensures exists h, i :: IsOffer(ReadSoFar(lists, list + [s]), g, h, i)
  {
    if SubHalIndexIsClear(s.handle) && g == SetSubHalIndex(s.handle, |lists|) {
      OfferedNow(lists, list, s, |lists|, s.handle);
      assert IsOffer(ReadSoFar(lists, list + [s]), g, s.handle, |lists|);
    } else {
      assert g in r.sensors;
      var h, i :| IsOffer(ReadSoFar(lists, list), g, h, i);
      OfferedNow(lists, list, s, i, h);
      assert IsOffer(ReadSoFar(lists, list + [s]), g, h, i);
    }
  }

  lemma RegisterStepAll(lists: seq<seq<SensorInfo>>, list: seq<SensorInfo>, s: SensorInfo, r: Registry)
    requires |lists| < 256
    requires IsFirstDirect(ReadSoFar(lists, list), r.direct)
    requires PublishesAll(r.sensors, ReadSoFar(lists, list), r.direct)
    ensures PublishesAll(
      Register(r, s, |lists|).sensors, ReadSoFar(lists, list + [s]), Register(r, s, |lists|).direct)
  {
    var now := ReadSoFar(lists, list + [s]);
    var after := Register(r, s, |lists|);
    forall i: nat, h | i < |now| && Offered(now[i], h).Some?
      ensures SetSubHalIndex(h, i) in after.sensors
      ensures after.sensors[SetSubHalIndex(h, i)] == Published(Offered(now[i], h).value, i, after.direct)
    {
      OfferedNow(lists, list, s, i, h);
      if SubHalIndexIsClear(s.handle) {
        RegisteredValue(lists, list, s, r, i, h);
      }
    }
  }

  ghost predicate RegistryOk(r: Registry, lists: seq<seq<SensorInfo>>) {
    && IsFirstDirect(lists, r.direct)
    && PublishesAll(r.sensors, lists, r.direct)
    && PublishesOnly(r.sensors, lists)
  }

  lemma RegisterStep(lists: seq<seq<SensorInfo>>, list: seq<SensorInfo>, s: SensorInfo, r: Registry)
    requires |lists| < 256 && RegistryOk(r, ReadSoFar(lists, list))
    ensures RegistryOk(Register(r, s, |lists|), ReadSoFar(lists, list + [s]))
  {
    FirstDirectStep(lists, list, s, r.direct);
    RegisterStepAll(lists, list, s, r);
    forall g <- Register(r, s, |lists|).sensors
      ensures exists h, i :: IsOffer(ReadSoFar(lists, list + [s]), g, h, i)
    {
      RegisteredKey(lists, list, s, r, g);
    }
  }

  lemma {:induction false} RegisterListOk(lists: seq<seq<SensorInfo>>, list: seq<SensorInfo>, r: Registry)
    requires |lists| < 256 && RegistryOk(r, ReadSoFar(lists, []))
    ensures RegistryOk(RegisterList(r, list, |lists|), ReadSoFar(lists, list))
  {
    if list != [] {
      var n := |list| - 1;
      RegisterListOk(lists, list[..n], r);
      RegisterStep(lists, list[..n], list[n], RegisterList(r, list[..n], |lists|));
      assert list[..n] + [list[n]] == list;
    }
  }

  lemma NextListIsEmpty(r: Registry, lists: seq<seq<SensorInfo>>)
    requires RegistryOk(r, lists)
    ensures RegistryOk(r, ReadSoFar(lists, []))
  {
    var now := ReadSoFar(lists, []);
    assert forall i :: 0 <= i < |lists| ==> now[i] == lists[i];
    assert now[|lists|] == [];
    forall g <- r.sensors ensures exists h, i :: IsOffer(now, g, h, i) {
      var h, i :| IsOffer(lists, g, h, i);
      assert IsOffer(now, g, h, i);
    }
  }

  /** The advertised sensors are the disjoint union of the sensors the sub-HALs offer, and the direct channel
      belongs to the first sub-HAL that offers one. */
  lemma {:induction false} SensorListIsUnion(lists: seq<seq<SensorInfo>>)
    requires |lists| <= 256
    ensures RegistryOk(RegisterAll(lists), lists)
  {
    if lists != [] {
      var n := |lists| - 1;
      SensorListIsUnion(lists[..n]);
      NextListIsEmpty(RegisterAll(lists[..n]), lists[..n]);
      RegisterListOk(lists[..n], lists[n], RegisterAll(lists[..n]));
      assert ReadSoFar(lists[..n], lists[n]) == lists;
    }
  }

  /** The entry `k` is the last of the list with its handle, and the handle is a local one. */
  predicate IsLastOffer(list: seq<SensorInfo>, k: nat) {
    && k < |list| && list[k].handle.top == 0
    && forall j :: k < j < |list| ==> list[j].handle != list[k].handle
  }

  lemma {:induction false} LastOfferIsOffered(list: seq<SensorInfo>, k: nat)
    requires IsLastOffer(list, k)
    ensures Offered(list, list[k].handle) == Some(list[k])
  {
    if k < |list| - 1 {
      LastOfferIsOffered(list[..|list| - 1], k);
    }
  }

  /** `entry` is what is advertised of the sensor `s` of the sub-HAL at `i`: its handle is renamed, the direct-channel
      abilities stay at the owner of the direct channel only, an oplus tilt detector becomes a pick-up
      gesture, and all else is as offered. */
  predicate IsAdvertised(s: SensorInfo, i: nat, owner: Option<nat>, entry: SensorInfo) {
    && entry.handle == SetSubHalIndex(s.handle, i) && entry.details == s.details
    && entry.flags.wakeUp == s.flags.wakeUp && entry.flags.others == s.flags.others
    && entry.flags.directReport == (if owner == Some(i) then s.flags.directReport else 0)
    && entry.flags.directChannel == (if owner == Some(i) then s.flags.directChannel else 0)
    && (s.typeAsString == "android.sensor.tilt_detector" ==>
          entry.sensorType == PickUpGesture && entry.typeAsString == "android.sensor.pick_up_gesture")
    && (s.typeAsString != "android.sensor.tilt_detector" ==>
          entry.sensorType == s.sensorType && entry.typeAsString == s.typeAsString)
  }

  lemma PublishedIsAdvertised(s: SensorInfo, i: nat, owner: Option<nat>)
    ensures IsAdvertised(s, i, owner, Published(s, i, owner))
  {}

  /** Every sensor on offer is advertised so, field by field, under its own global handle. */
  lemma AdvertisedFields(lists: seq<seq<SensorInfo>>, i: nat, k: nat)
    requires |lists| <= 256 && i < |lists| && IsLastOffer(lists[i], k)
    ensures var r := RegisterAll(lists);
            var g := Handle(i, lists[i][k].handle.rest);
            g in r.sensors && IsAdvertised(lists[i][k], i, r.direct, r.sensors[g])
  {
    LastOfferIsOffered(lists[i], k);
    SensorListIsUnion(lists);
    OfferIsAdvertised(RegisterAll(lists), lists, i, lists[i][k]);
  }

  lemma OfferIsAdvertised(r: Registry, lists: seq<seq<SensorInfo>>, i: nat, s: SensorInfo)
    requires i < |lists| && i < 256 && s.handle.top == 0 && Offered(lists[i], s.handle) == Some(s)
    requires PublishesAll(r.sensors, lists, r.direct)
    ensures Handle(i, s.handle.rest) in r.sensors
    ensures IsAdvertised(s, i, r.direct, r.sensors[Handle(i, s.handle.rest)])
  {
    TaggedParts(s.handle, i);
    PublishedEntry(r.sensors, lists, r.direct, i, s.handle);
    PublishedIsAdvertised(s, i, r.direct);
  }

  lemma PublishedEntry(sensors: SensorMap, lists: seq<seq<SensorInfo>>, owner: Option<nat>, i: nat, h: Handle)
    requires PublishesAll(sensors, lists, owner) && i < |lists| && Offered(lists[i], h).Some?
    ensures SetSubHalIndex(h, i) in sensors
    ensures sensors[SetSubHalIndex(h, i)] == Published(Offered(lists[i], h).value, i, owner)
  {}

  /** The list offers a direct channel or a direct report for some local handle. */
  ghost predicate HasDirect(list: seq<SensorInfo>) {
    exists k :: 0 <= k < |list| && list[k].handle.top == 0
             && (list[k].flags.directReport != 0 || list[k].flags.directChannel != 0)
  }

  /** The direct channel belongs to the first sub-HAL that has it on offer. */
  lemma DirectOwnerIsFirst(lists: seq<seq<SensorInfo>>, owner: nat)
    requires |lists| <= 256
    ensures RegisterAll(lists).direct == Some(owner) <==>
            owner < |lists| && HasDirect(lists[owner]) && forall i :: 0 <= i < owner ==> !HasDirect(lists[i])
  {
    SensorListIsUnion(lists);
    forall i | 0 <= i < |lists| ensures OffersDirect(lists[i]) <==> HasDirect(lists[i]) {
      if OffersDirect(lists[i]) {
        var s :| s in lists[i] && SubHalIndexIsClear(s.handle) && SupportsDirect(s.flags);
        var k :| 0 <= k < |lists[i]| && lists[i][k] == s;
      }
    }
  }

  lemma OffersAreDisjoint(
    lists: seq<seq<SensorInfo>>, g: Handle, h1: Handle, i1: nat, h2: Handle, i2: nat)
    requires |lists| <= 256 && IsOffer(lists, g, h1, i1) && IsOffer(lists, g, h2, i2)
    ensures h1 == h2 && i1 == i2
  {
    OfferedIsListed(lists[i1], h1);
    OfferedIsListed(lists[i2], h2);
    TaggingIsInjective(h1, i1, h2, i2);
  }

  /** Where a request about one sensor goes: the sub-HAL's position and its local handle. */
  function Route(g: Handle, count: nat): Option<(nat, Handle)> {
    if IsSubHalIndexValid(g, count) then Some((ExtractSubHalIndex(g), ClearSubHalIndex(g))) else None
  }

  /** A handle is routed exactly when its top byte is the index of a sub-HAL below 128, to that sub-HAL and under its
      lower 24 bits. */
  lemma RouteMeans(g: Handle, count: nat)
    requires count <= 0x8000_0000_0000_0000
    ensures Route(g, count).Some? <==> g.top < 128 && g.top < count
    ensures Route(g, count).Some? ==> Route(g, count).value == (g.top, Handle(0, g.rest))
  {}

  /** A tagged handle finds its way back exactly for the first 128 sub-HALs. */
  lemma RoutingRoundTrip(h: Handle, index: nat, count: nat)
    requires SubHalIndexIsClear(h) && index < count <= 0x8000_0000_0000_0000
    ensures Route(SetSubHalIndex(h, index), count) == Some((index, h)) <==> index < 128
  {
    HandleRoundTrip(h, index);
  }

  /** Every advertised handle reaches the sub-HAL that offers the sensor, under the local handle, and
      that sensor's events carry the advertised handle. */
  lemma AdvertisedHandlesRoute(lists: seq<seq<SensorInfo>>, g: Handle)
    returns (h: Handle, i: nat)
    requires |lists| <= 128 && g in RegisterAll(lists).sensors
    ensures IsOffer(lists, g, h, i)
    ensures Route(g, |lists|) == Some((i, h))
    ensures RegisterAll(lists).sensors[g].handle == g
    ensures forall e: Event :: e.handle == h ==> Tag(Tagger(i), e).handle == g
  {
    SensorListIsUnion(lists);
    h, i :| IsOffer(lists, g, h, i);
    OfferedIsListed(lists[i], h);
    RoutingRoundTrip(h, i, |lists|);
  }

  datatype ConfigOutcome = InvalidOperation | BadValue | To(index: nat, handle: Handle)

  const ALL_SENSORS: Handle := Handle(0xFF, 0xFF_FFFF)

  /** `configDirectReport`: the handle's index is cleared, not consulted. */
  function ConfigRoute(direct: Option<nat>, g: Handle, isStop: bool): ConfigOutcome {
    match direct
    case None => InvalidOperation
    case Some(owner) =>
      if g == ALL_SENSORS then (if isStop then To(owner, g) else BadValue) else To(owner, ClearSubHalIndex(g))
  }

  /** A direct report for the handle -1 is passed on as it is when it stops the reports of all sensors, and refused
      otherwise; for any other handle it goes to the owner under the handle's lower 24 bits. */
  lemma ConfigRouteMeans(direct: Option<nat>, g: Handle, isStop: bool)
    ensures var outcome := ConfigRoute(direct, g, isStop);
            && (outcome == InvalidOperation <==> direct.None?)
            && (outcome == BadValue <==> direct.Some? && Value(g) == -1 && !isStop)
            && (outcome.To? ==> direct == Some(outcome.index) && outcome.handle.rest == g.rest
                                && outcome.handle.top == (if Value(g) == -1 then 255 else 0))
  {}

  lemma AdvertisedIsNotAll(h: Handle, i: nat)
    requires SubHalIndexIsClear(h) && i < 128
    ensures SetSubHalIndex(h, i) != ALL_SENSORS
  {
    HandleRoundTrip(h, i);
    HandleDecomposition(SetSubHalIndex(h, i));
  }

  lemma ConfigTarget(direct: Option<nat>, h: Handle, i: nat, isStop: bool)
    requires SubHalIndexIsClear(h) && i < 128
    ensures ConfigRoute(direct, SetSubHalIndex(h, i), isStop)
         == if direct.Some? then To(direct.value, h) else InvalidOperation
  {
    HandleRoundTrip(h, i);
    AdvertisedIsNotAll(h, i);
  }

  lemma FlagsOfOwner(lists: seq<seq<SensorInfo>>, h: Handle, i: nat)
    requires |lists| <= 128 && i < |lists| && Offered(lists[i], h).Some?
    ensures var r := RegisterAll(lists);
            && SetSubHalIndex(h, i) in r.sensors
            && (SupportsDirect(r.sensors[SetSubHalIndex(h, i)].flags) ==> r.direct == Some(i))
  {
    SensorListIsUnion(lists);
    assert PublishesAll(RegisterAll(lists).sensors, lists, RegisterAll(lists).direct);
  }

  /** A sensor advertised with direct-channel abilities is configured at its own sub-HAL; any other
      sensor's request goes astray exactly when that sub-HAL is not the owner. */
  lemma DirectReportsReachOwner(lists: seq<seq<SensorInfo>>, g: Handle, h: Handle, i: nat, isStop: bool)
    requires |lists| <= 128 && IsOffer(lists, g, h, i)
    ensures var r := RegisterAll(lists);
            && g in r.sensors
            && (SupportsDirect(r.sensors[g].flags) ==> ConfigRoute(r.direct, g, isStop) == To(i, h))
            && (ConfigRoute(r.direct, g, isStop) == To(i, h) <==> r.direct == Some(i))
  {
    FlagsOfOwner(lists, h, i);
    OfferedIsListed(lists[i], h);
    ConfigTarget(RegisterAll(lists).direct, h, i, isStop);
  }

  /** A sensor that its sub-HAL calls a tilt detector reports only zero scalars. */
  lemma TiltDetectorIsFiltered(lists: seq<seq<SensorInfo>>, i: nat, e: Event)
    requires |lists| <= 256 && i < |lists|
    requires Offered(lists[i], e.handle).Some?
    requires Offered(lists[i], e.handle).value.typeAsString == TILT_DETECTOR
    ensures Suppressed(RegisterAll(lists).sensors, Tag(Tagger(i), e)) <==> !e.scalarIsZero
  {
    SensorListIsUnion(lists);
    assert Tag(Tagger(i), e).handle == SetSubHalIndex(e.handle, i);
  }
}
