/**
 * What the conflation of src/device-lister.js promises about its result:
 * which backends are asked, which keys the device map has, what each stored
 * device holds, which events the round emits, and how serial numbers are
 * normalised into keys.
 */
module ConflationProperties {
  import opened JsValues
  import opened NumText
  import opened DeviceListing

  // ---------------------------------------------------------------------
  // Backend selection
  // ---------------------------------------------------------------------

  lemma IncreasingAppend(bs: seq<BackendKind>, b: BackendKind)
    requires Increasing(bs) && forall x :: x in bs ==> Rank(x) < Rank(b)
    ensures Increasing(bs + [b])
  {
    var r := bs + [b];
    forall i, j | 0 <= i < j < |r| ensures Rank(r[i]) < Rank(r[j]) {
      if j == |bs| {
        assert r[i] == bs[i] && r[i] in bs;
      } else {
        assert r[i] == bs[i] && r[j] == bs[j];
      }
    }
  }

  lemma {:induction false} SelectFromSpec(order: seq<BackendKind>, capabilities: Object)
    requires Increasing(order)
    ensures forall b :: b in SelectFrom(order, capabilities) <==> b in order && Enabled(capabilities, b)
    ensures Increasing(SelectFrom(order, capabilities))
  {
    if order != [] {
      var init := order[..|order| - 1];
      var last := order[|order| - 1];
      assert order == init + [last];
      assert Increasing(init) by {
        forall i, j | 0 <= i < j < |init| ensures Rank(init[i]) < Rank(init[j]) {
          assert init[i] == order[i] && init[j] == order[j];
        }
      }
      SelectFromSpec(init, capabilities);
      var rest := SelectFrom(init, capabilities);
      forall b | b in rest ensures Rank(b) < Rank(last) {
        var i :| 0 <= i < |init| && init[i] == b;
        assert order[i] == b;
      }
      if Enabled(capabilities, last) {
        IncreasingAppend(rest, last);
      }
    }
  }

  /**
   * The backends are those whose flag is truthy, each once, in the fixed
   * order usb, nordicUsb, seggerUsb, serialport, jlink.
   */
  lemma BackendSelection(capabilities: Object)
    ensures forall b :: b in SelectBackends(capabilities) <==> Enabled(capabilities, b)
    ensures Increasing(SelectBackends(capabilities))
  {
    assert Increasing(BackendOrder);
    SelectFromSpec(BackendOrder, capabilities);
    forall b ensures b in BackendOrder {
      assert BackendOrder[Rank(b)] == b;
    }
  }

  lemma {:induction false} SelectFromAgree(order: seq<BackendKind>, c1: Object, c2: Object)
    requires forall b :: Enabled(c1, b) <==> Enabled(c2, b)
    ensures SelectFrom(order, c1) == SelectFrom(order, c2)
  {
    if order != [] {
      SelectFromAgree(order[..|order| - 1], c1, c2);
    }
  }

  /** A capability flag other than the five backend flags (nordicDfu, say) selects nothing. */
  lemma OtherFlagsIgnored(capabilities: Object, name: string, v: Value)
    requires forall b :: FlagName(b) != name
    ensures SelectBackends(capabilities[name := v]) == SelectBackends(capabilities)
  {
    forall b ensures Enabled(capabilities[name := v], b) <==> Enabled(capabilities, b) {
      assert FlagName(b) != name;
    }
    SelectFromAgree(BackendOrder, capabilities[name := v], capabilities);
  }

  // ---------------------------------------------------------------------
  // Key normalisation
  // ---------------------------------------------------------------------

  /**
   * Two string serial numbers share a key exactly when they are equal or
   * both are digit strings of the same value.
   */
  lemma StringKeys(s: string, t: string)
    ensures NormalizeKey(Str(s)) == NormalizeKey(Str(t)) <==>
              s == t || (IsAllDigits(s) && IsAllDigits(t) && DecimalValue(s) == DecimalValue(t))
  {
  }

  lemma DigitsOfDecimal(s: string)
    requires IsDigitsIn(10, s)
    ensures forall i :: 0 <= i < |s| ==> IsDigit(s[i])
  {
    forall i | 0 <= i < |s| ensures IsDigit(s[i]) {
      assert IsLowerHexDigit(s[i]) && DigitValue(s[i]) < 10;
    }
  }

  /** Leading zeros do not change the key of a digit string, which is its numeric value. */
  lemma LeadingZerosShareKey(s: string, k: nat)
    requires IsAllDigits(s)
    ensures IsAllDigits(Zeros(k) + s)
    ensures NormalizeKey(Str(Zeros(k) + s)) == NormalizeKey(Str(s)) == NormalizeKey(Num(DecimalValue(s)))
  {
    DecimalDigitsIn(s);
    LeadingZeros(10, k, s);
    DigitsOfDecimal(Zeros(k) + s);
  }

  /** "007", "7" and 7 share a key; "00AB" and "AB" do not; "0" is keyed as 0. */
  lemma KeyExamples()
    ensures NormalizeKey(Str("007")) == NormalizeKey(Str("7")) == NormalizeKey(Num(7)) == Num(7)
    ensures NormalizeKey(Str("00AB")) == Str("00AB") != NormalizeKey(Str("AB"))
    ensures NormalizeKey(Str("0")) == Num(0)
  {
    assert Zeros(2) == "00";
    assert Zeros(2) + "7" == "007";
    LeadingZerosShareKey("7", 2);
    assert "7"[..0] == [];
    assert "00AB"[2] == 'A' && "AB"[0] == 'A';
    assert "0"[..0] == [];
  }

  lemma NormalizeKeyIdempotent(serialNumber: Value)
    ensures NormalizeKey(NormalizeKey(serialNumber)) == NormalizeKey(serialNumber)
  {
  }

  /**
   * An error wins over a serial number; undefined, "" and 0 are no serial
   * number, while the string "0" is.
   */
  lemma ClassifyExamples(serial: Value, error: Value)
    ensures Truthy(error) ==> Classify(map["serialNumber" := serial, "error" := error]) == Failed
    ensures Classify(map[]) == NoSerial
    ensures Classify(map["serialNumber" := Str("")]) == NoSerial
    ensures Classify(map["serialNumber" := Num(0)]) == NoSerial
    ensures Classify(map["serialNumber" := Str("0")]) == Keyed(Num(0))
  {
    assert "0"[..0] == [];
  }

  // ---------------------------------------------------------------------
  // The keys of the device map
  // ---------------------------------------------------------------------

  /** The keys of the capability objects that are stored. */
  function StoredKeys(capabilities: seq<Object>): set<Value> {
    set c | c in capabilities && Classify(c).Keyed? :: Classify(c).key
  }

  /**
   * The map's keys are exactly the normalised serial numbers of the
   * capability objects without a truthy error and with a truthy serial.
   */
  lemma {:induction false} MergeKeys(capabilities: seq<Object>)
    ensures MergeAll(capabilities).Keys == StoredKeys(capabilities)
  {
    if capabilities != [] {
      var init := capabilities[..|capabilities| - 1];
      var last := capabilities[|capabilities| - 1];
      assert capabilities == init + [last];
      MergeKeys(init);
      var added := if Classify(last).Keyed? then {Classify(last).key} else {};
      assert MergeAll(capabilities).Keys == MergeAll(init).Keys + added;
      assert StoredKeys(capabilities) == StoredKeys(init) + added;
    }
  }

  /** The key set does not depend on the order of the capability objects. */
  lemma KeysIgnoreOrder(c1: seq<Object>, c2: seq<Object>)
    requires multiset(c1) == multiset(c2)
    ensures MergeAll(c1).Keys == MergeAll(c2).Keys
  {
    MergeKeys(c1);
    MergeKeys(c2);
    forall c ensures c in c1 <==> c in c2 {
      assert c in c1 <==> c in multiset(c1);
      assert c in c2 <==> c in multiset(c2);
    }
  }

  // ---------------------------------------------------------------------
  // The stored devices
  // ---------------------------------------------------------------------

  /** The capability objects stored under `key`, in order. */
  function Matching(capabilities: seq<Object>, key: Value): seq<Object> {
    if capabilities == [] then []
    else
      var last := capabilities[|capabilities| - 1];
      Matching(capabilities[..|capabilities| - 1], key) + if Classify(last) == Keyed(key) then [last] else []
  }

  /** `Object.assign({}, f0, f1, …)`: the objects merged left to right. */
  function Assign(objects: seq<Object>): Object {
    if objects == [] then map[] else Assign(objects[..|objects| - 1]) + objects[|objects| - 1]
  }

  lemma {:induction false} MatchingMembers(capabilities: seq<Object>, key: Value)
    ensures forall c :: c in Matching(capabilities, key) ==> c in capabilities && Classify(c) == Keyed(key)
  {
    if capabilities != [] {
      var init := capabilities[..|capabilities| - 1];
      MatchingMembers(init, key);
      assert capabilities == init + [capabilities[|capabilities| - 1]];
    }
  }

  /** The device stored under a key is the merge of every capability object with that key. */
  lemma {:induction false} EntryIsMergeOfMatching(capabilities: seq<Object>, key: Value)
    ensures key in MergeAll(capabilities) <==> Matching(capabilities, key) != []
    ensures key in MergeAll(capabilities) ==> MergeAll(capabilities)[key] == Assign(Matching(capabilities, key))
  {
    if capabilities != [] {
      var init := capabilities[..|capabilities| - 1];
      EntryIsMergeOfMatching(init, key);
      EntryStep(MergeAll(init), capabilities[|capabilities| - 1], key, Matching(init, key));
    }
  }

  /** Storing one more capability object keeps an entry equal to the merge of the objects with its key. */
  lemma EntryStep(deviceMap: DeviceMap, last: Object, key: Value, before: seq<Object>)
    requires key in deviceMap <==> before != []
    requires key in deviceMap ==> deviceMap[key] == Assign(before)
    ensures var now := before + if Classify(last) == Keyed(key) then [last] else [];
            && (key in Store(deviceMap, last) <==> now != [])
            && (key in Store(deviceMap, last) ==> Store(deviceMap, last)[key] == Assign(now))
  {
    StoreCases(deviceMap, last);
    if Classify(last) == Keyed(key) {
      var now := before + [last];
      assert now[..|now| - 1] == before;
      assert Assign(now) == Assign(before) + last;
    } else {
      assert before + [] == before;
      assert key in deviceMap ==> Store(deviceMap, last)[key] == deviceMap[key];
    }
  }

  /** A property is in a merge exactly when one of the merged objects has it. */
  lemma {:induction false} AssignHas(objects: seq<Object>, name: string)
    ensures name in Assign(objects) <==> exists i :: 0 <= i < |objects| && name in objects[i]
  {
    if objects != [] {
      var init := objects[..|objects| - 1];
      AssignHas(init, name);
      if name in Assign(objects) && name !in objects[|objects| - 1] {
        var i :| 0 <= i < |init| && name in init[i];
        assert objects[i] == init[i];
      }
      if exists i :: 0 <= i < |objects| && name in objects[i] {
        var i :| 0 <= i < |objects| && name in objects[i];
        if i < |init| {
          assert init[i] == objects[i];
        }
      }
    }
  }

  /** On a shared property the last object that has it wins. */
  lemma {:induction false} AssignLastWins(objects: seq<Object>, name: string, i: nat)
    requires i < |objects| && name in objects[i]
    requires forall j :: i < j < |objects| ==> name !in objects[j]
    ensures name in Assign(objects) && Assign(objects)[name] == objects[i][name]
  {
    var init := objects[..|objects| - 1];
    if i < |objects| - 1 {
      assert init[i] == objects[i];
      forall j | i < j < |init| ensures name !in init[j] {
        assert init[j] == objects[j];
      }
      AssignLastWins(init, name, i);
    }
  }

  /** A stored device: no truthy error, and a truthy serial number that normalises to its key. */
  predicate WellStored(key: Value, device: Object) {
    && !Truthy(Get(device, "error"))
    && "serialNumber" in device
    && Truthy(device["serialNumber"])
    && NormalizeKey(device["serialNumber"]) == key
  }

  lemma {:induction false} StoredDevices(capabilities: seq<Object>)
    ensures forall key :: key in MergeAll(capabilities) ==> WellStored(key, MergeAll(capabilities)[key])
  {
    if capabilities != [] {
      var init := capabilities[..|capabilities| - 1];
      var last := capabilities[|capabilities| - 1];
      StoredDevices(init);
      var before := MergeAll(init);
      if Classify(last).Keyed? {
        var key := Classify(last).key;
        var device := if key in before then before[key] else map[];
        var merged := device + last;
        assert !Truthy(Get(device, "error"));
        assert Get(merged, "error") == if "error" in last then last["error"] else Get(device, "error");
        assert WellStored(key, merged);
      }
    }
  }

  /** The stored serial number is the raw one of the last object merged under the key. */
  lemma StoredSerialIsLast(capabilities: seq<Object>, key: Value)
    requires key in MergeAll(capabilities)
    ensures Matching(capabilities, key) != []
    ensures var matching := Matching(capabilities, key);
            "serialNumber" in matching[|matching| - 1] && "serialNumber" in MergeAll(capabilities)[key]
    ensures var matching := Matching(capabilities, key);
            MergeAll(capabilities)[key]["serialNumber"] == matching[|matching| - 1]["serialNumber"]
  {
    EntryIsMergeOfMatching(capabilities, key);
    var matching := Matching(capabilities, key);
    MatchingMembers(capabilities, key);
    var lastOne := matching[|matching| - 1];
    assert lastOne in matching;
    AssignLastWins(matching, "serialNumber", |matching| - 1);
  }

  // ---------------------------------------------------------------------
  // Objects that are not stored, and the events of a round
  // ---------------------------------------------------------------------

  /** The capability objects that are stored, in order. */
  function Stored(capabilities: seq<Object>): seq<Object> {
    if capabilities == [] then []
    else
      var last := capabilities[|capabilities| - 1];
      Stored(capabilities[..|capabilities| - 1]) + if Classify(last).Keyed? then [last] else []
  }

  /** The capability objects that are reported instead, in order. */
  function Reported(capabilities: seq<Object>): seq<Object> {
    if capabilities == [] then []
    else
      var last := capabilities[|capabilities| - 1];
      Reported(capabilities[..|capabilities| - 1]) + if Classify(last).Keyed? then [] else [last]
  }

  /** Objects with an error or without a serial number leave the map as it is. */
  lemma {:induction false} ReportedIgnored(capabilities: seq<Object>)
    ensures MergeAll(capabilities) == MergeAll(Stored(capabilities))
  {
    if capabilities != [] {
      var init := capabilities[..|capabilities| - 1];
      var last := capabilities[|capabilities| - 1];
      ReportedIgnored(init);
      if Classify(last).Keyed? {
        AppendOne(Stored(init), last);
      } else {
        assert Stored(capabilities) == Stored(init) + [] == Stored(init);
        assert Store(MergeAll(init), last) == MergeAll(init);
      }
    }
  }

  /**
   * Every capability object is either stored or reported, once; the round's
   * events are one per reported object, in order: 'error' for a truthy
   * error, otherwise 'noserialnumber'. None of them is 'conflated'.
   */
  lemma {:induction false} EventsAccount(capabilities: seq<Object>)
    ensures |Stored(capabilities)| + |Reported(capabilities)| == |capabilities|
    ensures |EventsOf(capabilities)| == |Reported(capabilities)|
    ensures forall i :: 0 <= i < |Reported(capabilities)| ==>
              var c := Reported(capabilities)[i];
              EventsOf(capabilities)[i] ==
                if Truthy(Get(c, "error")) then Error(FailedCapability(c)) else NoSerialNumber(c)
    ensures forall c :: c in Reported(capabilities) ==>
              c in capabilities && (Truthy(Get(c, "error")) || !Truthy(Get(c, "serialNumber")))
    ensures forall e :: e in EventsOf(capabilities) ==> !e.Conflated?
  {
    if capabilities != [] {
      var init := capabilities[..|capabilities| - 1];
      var last := capabilities[|capabilities| - 1];
      assert capabilities == init + [last];
      EventsAccount(init);
      var events := EventsOf(capabilities);
      var reported := Reported(capabilities);
      assert events == EventsOf(init) + EventsFor(last);
      assert reported == Reported(init) + if Classify(last).Keyed? then [] else [last];
      forall i | 0 <= i < |reported|
        ensures events[i] ==
                  if Truthy(Get(reported[i], "error")) then Error(FailedCapability(reported[i]))
                  else NoSerialNumber(reported[i])
      {
        if i < |Reported(init)| {
          assert reported[i] == Reported(init)[i];
          assert events[i] == EventsOf(init)[i];
        }
      }
    }
  }
}
