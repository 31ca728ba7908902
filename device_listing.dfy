/**
 * The DeviceLister of src/device-lister.js: the list of backends chosen from
 * the capability flags, and the conflation of one round of backend results
 * into a map from normalised serial number to the merged device object,
 * with the events emitted along the way.
 *
 * The backends themselves, the USB attach/detach subscription and the
 * promise plumbing are not part of this model: a round enters as its
 * outcome, either every backend's result array or the reason of a
 * rejection. An element of a result array is a capability object, or the
 * `undefined` (or `null`) a backend can resolve to, on which `_conflate`
 * throws.
 */
module DeviceListing {
  import opened JsValues
  import opened NumText

  // ---------------------------------------------------------------------
  // Backend selection
  // ---------------------------------------------------------------------

  datatype BackendKind = Usb | NordicUsb | SeggerUsb | SerialPort | Jlink

  /** The capability flag that enables a backend. */
  function FlagName(b: BackendKind): string {
    match b
    case Usb => "usb"
    case NordicUsb => "nordicUsb"
    case SeggerUsb => "seggerUsb"
    case SerialPort => "serialport"
    case Jlink => "jlink"
  }

  /** Position of a backend in the order the constructor tests the flags. */
  function Rank(b: BackendKind): nat {
    match b
    case Usb => 0
    case NordicUsb => 1
    case SeggerUsb => 2
    case SerialPort => 3
    case Jlink => 4
  }

  const BackendOrder: seq<BackendKind> := [Usb, NordicUsb, SeggerUsb, SerialPort, Jlink]

  /** Rank and BackendOrder describe the same order: each is the other's inverse. */
  lemma RankIsPosition()
    ensures forall b: BackendKind :: Rank(b) < |BackendOrder| && BackendOrder[Rank(b)] == b
    ensures forall i :: 0 <= i < |BackendOrder| ==> Rank(BackendOrder[i]) == i
  {
  }

  predicate Enabled(capabilities: Object, b: BackendKind) {
    Truthy(Get(capabilities, FlagName(b)))
  }

  /** The constructor's step for one backend: push it when its flag is truthy. */
  function PushIfEnabled(selected: seq<BackendKind>, capabilities: Object, b: BackendKind): seq<BackendKind> {
    if Enabled(capabilities, b) then selected + [b] else selected
  }

  /** The backends of `order` whose flags are truthy, in the same order. */
  function SelectFrom(order: seq<BackendKind>, capabilities: Object): seq<BackendKind> {
    if order == [] then []
    else PushIfEnabled(SelectFrom(order[..|order| - 1], capabilities), capabilities, order[|order| - 1])
  }

  function SelectBackends(capabilities: Object): seq<BackendKind> {
    SelectFrom(BackendOrder, capabilities)
  }

  /** Testing one more flag of the fixed order. */
  lemma SelectNext(capabilities: Object, k: nat)
    requires k < |BackendOrder|
    ensures SelectFrom(BackendOrder[..k + 1], capabilities) ==
              PushIfEnabled(SelectFrom(BackendOrder[..k], capabilities), capabilities, BackendOrder[k])
  {
    assert BackendOrder[..k + 1][..k] == BackendOrder[..k];
  }

  /** SelectBackends written out flag by flag, as the constructor tests them. */
  lemma SelectBackendsUnfolded(capabilities: Object)
    ensures SelectBackends(capabilities) ==
              var c := capabilities;
              PushIfEnabled(PushIfEnabled(PushIfEnabled(PushIfEnabled(PushIfEnabled([], c, Usb), c, NordicUsb), c, SeggerUsb), c, SerialPort), c, Jlink)
  {
    var c := capabilities;
    assert BackendOrder[..0] == [];
    SelectNext(c, 0);
    var s1 := SelectFrom(BackendOrder[..1], c);
    assert s1 == PushIfEnabled([], c, Usb);
    SelectNext(c, 1);
    var s2 := SelectFrom(BackendOrder[..2], c);
    assert s2 == PushIfEnabled(s1, c, NordicUsb);
    SelectNext(c, 2);
    var s3 := SelectFrom(BackendOrder[..3], c);
    assert s3 == PushIfEnabled(s2, c, SeggerUsb);
    SelectNext(c, 3);
    var s4 := SelectFrom(BackendOrder[..4], c);
    assert s4 == PushIfEnabled(s3, c, SerialPort);
    SelectNext(c, 4);
    assert BackendOrder[..5] == BackendOrder;
  }

  predicate Increasing(bs: seq<BackendKind>) {
    forall i, j :: 0 <= i < j < |bs| ==> Rank(bs[i]) < Rank(bs[j])
  }

  // ---------------------------------------------------------------------
  // One capability object of a backend result
  // ---------------------------------------------------------------------

  /**
   * The key a serial number is stored under: a string of one or more
   * decimal digits becomes its numeric value, anything else is kept.
   */
  function NormalizeKey(serialNumber: Value): (key: Value)
    ensures !serialNumber.Str? ==> key == serialNumber
    ensures serialNumber.Str? && !IsAllDigits(serialNumber.s) ==> key == serialNumber
    ensures serialNumber.Str? && IsAllDigits(serialNumber.s) ==> key.Num? && key.n == DecimalValue(serialNumber.s)
    ensures !(key.Str? && IsAllDigits(key.s))
  {
    if serialNumber.Str? && IsAllDigits(serialNumber.s) then Num(DecimalValue(serialNumber.s))
    else serialNumber
  }

  /** What the conflation does with one capability object. */
  datatype Disposition = Failed | NoSerial | Keyed(key: Value)

  function Classify(capability: Object): (d: Disposition)
    ensures d.Failed? <==> Truthy(Get(capability, "error"))
    ensures d.NoSerial? <==> !Truthy(Get(capability, "error")) && !Truthy(Get(capability, "serialNumber"))
    ensures d.Keyed? ==> Truthy(Get(capability, "serialNumber")) && d.key == NormalizeKey(Get(capability, "serialNumber"))
  {
    if Truthy(Get(capability, "error")) then Failed
    else if !Truthy(Get(capability, "serialNumber")) then NoSerial
    else Keyed(NormalizeKey(Get(capability, "serialNumber")))
  }

  // ---------------------------------------------------------------------
  // Events
  // ---------------------------------------------------------------------

  type DeviceMap = map<Value, Object>

  /**
   * The argument of an 'error' event: a failed capability, the reason of a
   * rejected round, or the TypeError `_conflate` throws on reaching an
   * `undefined` or `null` element.
   */
  datatype ErrorDetail = FailedCapability(capability: Object) | Rejection(reason: Value) | DestructuringTypeError

  datatype Event =
    | Error(detail: ErrorDetail)
    | NoSerialNumber(capability: Object)
    | Conflated(devices: DeviceMap)

  // ---------------------------------------------------------------------
  // Conflation, as functions of the capability objects seen so far
  // ---------------------------------------------------------------------

  /** `Map.prototype.set` of the merge `Object.assign({}, map.get(key) || {}, capability)`. */
  function Store(deviceMap: DeviceMap, capability: Object): (updated: DeviceMap)
    ensures !Classify(capability).Keyed? ==> updated == deviceMap
    ensures Classify(capability).Keyed? ==>
              var key := Classify(capability).key;
              && updated.Keys == deviceMap.Keys + {key}
              && (forall k :: k in deviceMap && k != key ==> updated[k] == deviceMap[k])
              && (forall name :: name in updated[key] <==> name in capability || (key in deviceMap && name in deviceMap[key]))
              && (forall name :: name in capability ==> updated[key][name] == capability[name])
              && (forall name :: name !in capability && key in deviceMap && name in deviceMap[key] ==>
                    updated[key][name] == deviceMap[key][name])
  {
    match Classify(capability)
    case Keyed(key) =>
      var device := if key in deviceMap then deviceMap[key] else map[];
      deviceMap[key := device + capability]
    case _ => deviceMap
  }

  /** The events one capability object emits. */
  function EventsFor(capability: Object): seq<Event> {
    match Classify(capability)
    case Failed => [Error(FailedCapability(capability))]
    case NoSerial => [NoSerialNumber(capability)]
    case Keyed(_) => []
  }

  /** An element of a backend's result array. */
  datatype Fragment = Capability(props: Object) | UndefinedFragment | NullFragment

  predicate AllCapabilities(fragments: seq<Fragment>) {
    forall i :: 0 <= i < |fragments| ==> fragments[i].Capability?
  }

  /**
   * The capability objects `_conflate` reaches: those before the first
   * element that is undefined or null, where destructuring throws.
   */
  function Leading(fragments: seq<Fragment>): (objects: seq<Object>)
    ensures |objects| <= |fragments|
    ensures forall i :: 0 <= i < |objects| ==> fragments[i] == Capability(objects[i])
    ensures |objects| < |fragments| ==> !fragments[|objects|].Capability?
    ensures |objects| == |fragments| <==> AllCapabilities(fragments)
  {
    if fragments == [] || !fragments[0].Capability? then []
    else [fragments[0].props] + Leading(fragments[1..])
  }

  /** The per-backend arrays, joined in backend order. */
  function Flatten(backendsResult: seq<seq<Fragment>>): seq<Fragment> {
    if backendsResult == [] then []
    else Flatten(backendsResult[..|backendsResult| - 1]) + backendsResult[|backendsResult| - 1]
  }

  /** The device map after storing `capabilities` in order into an empty map. */
  function MergeAll(capabilities: seq<Object>): DeviceMap {
    if capabilities == [] then map[]
    else Store(MergeAll(capabilities[..|capabilities| - 1]), capabilities[|capabilities| - 1])
  }

  /** The events emitted while storing `capabilities` in order. */
  function EventsOf(capabilities: seq<Object>): seq<Event> {
    if capabilities == [] then []
    else EventsOf(capabilities[..|capabilities| - 1]) + EventsFor(capabilities[|capabilities| - 1])
  }

  /** The map one round of backend results conflates into, when no element throws. */
  function Conflation(backendsResult: seq<seq<Fragment>>): DeviceMap {
    MergeAll(Leading(Flatten(backendsResult)))
  }

  lemma AppendOne(capabilities: seq<Object>, capability: Object)
    ensures MergeAll(capabilities + [capability]) == Store(MergeAll(capabilities), capability)
    ensures EventsOf(capabilities + [capability]) == EventsOf(capabilities) + EventsFor(capability)
  {
    assert (capabilities + [capability])[..|capabilities|] == capabilities;
  }

  lemma FlattenStep(backendsResult: seq<seq<Fragment>>, i: nat)
    requires i < |backendsResult|
    ensures Flatten(backendsResult[..i + 1]) == Flatten(backendsResult[..i]) + backendsResult[i]
  {
    assert backendsResult[..i + 1][..i] == backendsResult[..i];
  }

  /** The arrays of the first `k` backends come first in the joined results. */
  lemma {:induction false} FlattenPrefix(backendsResult: seq<seq<Fragment>>, k: nat) returns (rest: seq<Fragment>)
    requires k <= |backendsResult|
    ensures Flatten(backendsResult) == Flatten(backendsResult[..k]) + rest
  {
    if k == |backendsResult| {
      assert backendsResult[..k] == backendsResult;
      rest := [];
    } else {
      var n := |backendsResult| - 1;
      var init := backendsResult[..n];
      assert init[..k] == backendsResult[..k];
      var r := FlattenPrefix(init, k);
      rest := r + backendsResult[n];
    }
  }

  lemma {:induction false} LeadingAppend(a: seq<Fragment>, b: seq<Fragment>)
    requires AllCapabilities(a)
    ensures Leading(a + b) == Leading(a) + Leading(b)
  {
    if a != [] {
      assert (a + b)[1..] == a[1..] + b;
      LeadingAppend(a[1..], b);
    } else {
      assert a + b == b;
    }
  }

  /** The capability objects before an undefined or null element are all that is reached. */
  lemma LeadingStops(prefix: seq<Fragment>, tail: seq<Fragment>)
    requires AllCapabilities(prefix) && tail != [] && !tail[0].Capability?
    ensures !AllCapabilities(prefix + tail)
    ensures Leading(prefix + tail) == Leading(prefix)
  {
    assert (prefix + tail)[|prefix|] == tail[0];
    LeadingAppend(prefix, tail);
  }

  /** The joined results around element `j` of backend `i`. */
  lemma SplitAt(backendsResult: seq<seq<Fragment>>, i: nat, j: nat) returns (tail: seq<Fragment>)
    requires i < |backendsResult| && j < |backendsResult[i]|
    ensures Flatten(backendsResult) == (Flatten(backendsResult[..i]) + backendsResult[i][..j]) + tail
    ensures tail != [] && tail[0] == backendsResult[i][j]
  {
    var results := backendsResult[i];
    var rest := FlattenPrefix(backendsResult, i + 1);
    FlattenStep(backendsResult, i);
    assert results == results[..j] + results[j..];
    tail := results[j..] + rest;
  }

  /** Reaching `_conflate`'s element `j` of backend `i`, which is undefined or null. */
  lemma ThrowAt(backendsResult: seq<seq<Fragment>>, i: nat, j: nat)
    requires i < |backendsResult| && j < |backendsResult[i]|
    requires AllCapabilities(Flatten(backendsResult[..i])) && AllCapabilities(backendsResult[i][..j])
    requires !backendsResult[i][j].Capability?
    ensures !AllCapabilities(Flatten(backendsResult))
    ensures Leading(Flatten(backendsResult)) == Leading(Flatten(backendsResult[..i])) + Leading(backendsResult[i][..j])
  {
    var seen: seq<Fragment> := Flatten(backendsResult[..i]);
    var done: seq<Fragment> := backendsResult[i][..j];
    var prefix := seen + done;
    var tail := SplitAt(backendsResult, i, j);
    assert AllCapabilities(prefix) by {
      forall k | 0 <= k < |prefix| ensures prefix[k].Capability? {
        if k >= |seen| { assert prefix[k] == done[k - |seen|]; }
      }
    }
    LeadingAppend(seen, done);
    LeadingStops(prefix, tail);
  }

  /** The three branches of the loop body of `_conflate`, in terms of Store and EventsFor. */
  lemma StoreCases(deviceMap: DeviceMap, capability: Object)
    ensures Truthy(Get(capability, "error")) ==>
              Store(deviceMap, capability) == deviceMap && EventsFor(capability) == [Error(FailedCapability(capability))]
    ensures !Truthy(Get(capability, "error")) && !Truthy(Get(capability, "serialNumber")) ==>
              Store(deviceMap, capability) == deviceMap && EventsFor(capability) == [NoSerialNumber(capability)]
    ensures !Truthy(Get(capability, "error")) && Truthy(Get(capability, "serialNumber")) ==>
              var key := NormalizeKey(Get(capability, "serialNumber"));
              var device := if key in deviceMap then deviceMap[key] else map[];
              Store(deviceMap, capability) == deviceMap[key := device + capability] && EventsFor(capability) == []
  {
  }

  /** Taking one more element, a capability object, of a backend's results. */
  lemma ConflateStep(seen: seq<Object>, results: seq<Fragment>, j: nat)
    requires j < |results| && AllCapabilities(results[..j]) && results[j].Capability?
    ensures AllCapabilities(results[..j + 1])
    ensures Leading(results[..j + 1]) == Leading(results[..j]) + [results[j].props]
    ensures MergeAll(seen + Leading(results[..j + 1])) == Store(MergeAll(seen + Leading(results[..j])), results[j].props)
    ensures EventsOf(seen + Leading(results[..j + 1])) == EventsOf(seen + Leading(results[..j])) + EventsFor(results[j].props)
  {
    var done := Leading(results[..j]);
    var capability := results[j].props;
    assert results[..j + 1] == results[..j] + [results[j]];
    LeadingAppend(results[..j], [results[j]]);
    assert Leading([results[j]]) == [capability];
    assert seen + (done + [capability]) == (seen + done) + [capability];
    AppendOne(seen + done, capability);
  }

  lemma ExtendLog(log: seq<Event>, xs: seq<Event>, ys: seq<Event>)
    ensures log + (xs + ys) == (log + xs) + ys
  {
  }

  /** The outcome of `Promise.all` over the backends of one reenumeration. */
  datatype RoundOutcome = AllResolved(backendsResult: seq<seq<Fragment>>) | OneRejected(reason: Value)

  class DeviceLister {
    var backends: seq<BackendKind>
    var currentDevices: DeviceMap
    /** The events emitted so far, oldest first. */
    ghost var events: seq<Event>

    constructor (capabilities: Object)
      ensures backends == SelectBackends(capabilities)
      ensures currentDevices == map[] && events == []
    {
      currentDevices := map[];
      var selected: seq<BackendKind> := [];
      ghost var before := selected;
      if Enabled(capabilities, Usb) { selected := selected + [Usb]; }
      assert selected == PushIfEnabled(before, capabilities, Usb);
      before := selected;
      if Enabled(capabilities, NordicUsb) { selected := selected + [NordicUsb]; }
      assert selected == PushIfEnabled(before, capabilities, NordicUsb);
      before := selected;
      if Enabled(capabilities, SeggerUsb) { selected := selected + [SeggerUsb]; }
      assert selected == PushIfEnabled(before, capabilities, SeggerUsb);
      before := selected;
      if Enabled(capabilities, SerialPort) { selected := selected + [SerialPort]; }
      assert selected == PushIfEnabled(before, capabilities, SerialPort);
      before := selected;
      if Enabled(capabilities, Jlink) { selected := selected + [Jlink]; }
      assert selected == PushIfEnabled(before, capabilities, Jlink);
      SelectBackendsUnfolded(capabilities);
      backends := selected;
      events := [];
    }

    /**
     * The callback `_conflate` runs for each capability object: emit 'error'
     * for a truthy error, 'noserialnumber' for a falsy serial number, and
     * otherwise merge the object into the device stored under its key.
     */
    method ConflateCapability(deviceMap: DeviceMap, capability: Object) returns (updated: DeviceMap)
      modifies this`events
      ensures updated == Store(deviceMap, capability)
      ensures events == old(events) + EventsFor(capability)
    {
      updated := deviceMap;
      StoreCases(deviceMap, capability);
      var serialNumber := Get(capability, "serialNumber");
      if Truthy(Get(capability, "error")) {
        events := events + [Error(FailedCapability(capability))];
      } else if !Truthy(serialNumber) {
        events := events + [NoSerialNumber(capability)];
      } else {
        serialNumber := NormalizeKey(serialNumber);
        var device := if serialNumber in updated then updated[serialNumber] else map[];
        device := device + capability;
        updated := updated[serialNumber := device];
      }
    }

    /**
     * `_conflate`: stores every capability object of every backend result
     * into a fresh map, emitting 'error' and 'noserialnumber' on the way,
     * then replaces the current devices and emits 'conflated'. On an element
     * that is undefined or null, destructuring it throws a TypeError
     * (`thrown`): the events emitted so far stay, and neither the current
     * devices nor 'conflated' follow.
     */
    method Conflate(backendsResult: seq<seq<Fragment>>) returns (thrown: bool)
      modifies this`currentDevices, this`events
      ensures thrown <==> !AllCapabilities(Flatten(backendsResult))
      ensures !thrown ==>
                && currentDevices == Conflation(backendsResult)
                && events == old(events) + EventsOf(Leading(Flatten(backendsResult))) + [Conflated(currentDevices)]
      ensures thrown ==>
                && currentDevices == old(currentDevices)
                && events == old(events) + EventsOf(Leading(Flatten(backendsResult)))
    {
      var deviceMap: DeviceMap := map[];
      ghost var seenFragments: seq<Fragment> := [];
      ghost var seen: seq<Object> := [];
      var i := 0;
      while i < |backendsResult|
        invariant i <= |backendsResult|
        invariant seenFragments == Flatten(backendsResult[..i])
        invariant AllCapabilities(seenFragments) && seen == Leading(seenFragments)
        invariant deviceMap == MergeAll(seen)
        invariant events == old(events) + EventsOf(seen)
        invariant currentDevices == old(currentDevices)
      {
        var results := backendsResult[i];
        var j := 0;
        assert seen + Leading(results[..0]) == seen;
        while j < |results|
          invariant j <= |results|
          invariant AllCapabilities(results[..j])
          invariant deviceMap == MergeAll(seen + Leading(results[..j]))
          invariant events == old(events) + EventsOf(seen + Leading(results[..j]))
          invariant currentDevices == old(currentDevices)
        {
          if !results[j].Capability? {
            ThrowAt(backendsResult, i, j);
            return true;
          }
          var capability := results[j].props;
          deviceMap := ConflateCapability(deviceMap, capability);
          ConflateStep(seen, results, j);
          ExtendLog(old(events), EventsOf(seen + Leading(results[..j])), EventsFor(capability));
          j := j + 1;
        }
        assert results[..j] == results;
        FlattenStep(backendsResult, i);
        LeadingAppend(seenFragments, results);
        seenFragments := seenFragments + results;
        seen := seen + Leading(results);
        i := i + 1;
      }
      assert backendsResult[..i] == backendsResult;
      currentDevices := deviceMap;
      events := events + [Conflated(deviceMap)];
      thrown := false;
    }

    /**
     * `reenumerate` once its backends have settled, with one result array per
     * backend: a round whose results all arrived is conflated, and a TypeError
     * thrown by the conflation is emitted as 'error'; a rejected round emits
     * one 'error' with the reason. Either error leaves the current devices as
     * they were.
     */
    method Reenumerate(outcome: RoundOutcome)
      requires outcome.AllResolved? ==> |outcome.backendsResult| == |backends|
      modifies this`currentDevices, this`events
      ensures backends == old(backends)
      ensures outcome.AllResolved? && AllCapabilities(Flatten(outcome.backendsResult)) ==>
                && currentDevices == Conflation(outcome.backendsResult)
                && events == old(events) + EventsOf(Leading(Flatten(outcome.backendsResult))) + [Conflated(currentDevices)]
      ensures outcome.AllResolved? && !AllCapabilities(Flatten(outcome.backendsResult)) ==>
                && currentDevices == old(currentDevices)
                && events == old(events) + EventsOf(Leading(Flatten(outcome.backendsResult))) + [Error(DestructuringTypeError)]
      ensures outcome.OneRejected? ==>
                && currentDevices == old(currentDevices)
                && events == old(events) + [Error(Rejection(outcome.reason))]
    {
      match outcome
      case AllResolved(backendsResult) =>
        var thrown := Conflate(backendsResult);
        if thrown {
          events := events + [Error(DestructuringTypeError)];
        }
      case OneRejected(reason) =>
        events := events + [Error(Rejection(reason))];
    }
  }
}
