/**
 * The device's state record (`DeviceCharacteristics`) and how a
 * `get_properties` answer changes it.
 */
module Characteristics {
  import opened JsValues
  import opened Properties

  /**
   * The ten state fields. `power` holds whatever the update writes into it,
   * which need not be a boolean; the other fields are never written after
   * initialisation and keep their declared types.
   */
  datatype DeviceCharacteristics = DeviceCharacteristics(
    power: JsValue,
    mode: int,
    aqi: int,
    filterLifeRemaining: int,
    filterHoursUsed: int,
    buzzer: bool,
    ledLevel: int,
    childLock: bool,
    motorSpeed: int,
    favoriteRpm: int)

  /** The record as the device starts out. */
  const Initial := DeviceCharacteristics(Bool(false), 0, 0, 0, 0, false, 0, false, 0, 0)

  /** `t` agrees with `s` on every field except perhaps `power`. */
  predicate SameExceptPower(s: DeviceCharacteristics, t: DeviceCharacteristics)
  {
    s.(power := t.power) == t
  }

  /**
   * Reading a member named `value` off an array: the filter result is an
   * array, which has no such member, so the read yields `undefined` whatever
   * the array holds.
   */
  function ArrayValueMember(a: seq<PropertyRecord>): JsValue
  {
    Undefined
  }

  /**
   * `setDeviceCharateristics` as written: `power` is set from `.value` of the
   * filter result for (2, 1), and nothing else is touched.
   */
  function PolledAsWritten(s: DeviceCharacteristics, props: seq<PropertyRecord>): (t: DeviceCharacteristics)
    ensures SameExceptPower(s, t)
    ensures t.power == Undefined
  {
    s.(power := ArrayValueMember(GetProperty(props, PowerKey.siid, PowerKey.piid)))
  }

  /**
   * The evidently intended update: `power` takes the value of the first record
   * keyed (2, 1); an answer without one leaves the record as it was, just as
   * the thrown error of `[0].value` on an empty array would.
   */
  function PolledAsIntended(s: DeviceCharacteristics, props: seq<PropertyRecord>): (t: DeviceCharacteristics)
    ensures SameExceptPower(s, t)
    ensures (forall i :: 0 <= i < |props| ==> !HasKey(props[i], PowerKey.siid, PowerKey.piid)) ==> t == s
  {
    var matches := GetProperty(props, PowerKey.siid, PowerKey.piid);
    if matches == [] then s else s.(power := matches[0].value)
  }

  /** The intended update reads the power value from the first (2, 1) record of the answer. */
  lemma PolledAsIntendedReadsFirstMatch(s: DeviceCharacteristics, props: seq<PropertyRecord>, i: nat)
    requires i < |props| && HasKey(props[i], PowerKey.siid, PowerKey.piid)
    requires forall j :: 0 <= j < i ==> !HasKey(props[j], PowerKey.siid, PowerKey.piid)
    ensures PolledAsIntended(s, props).power == props[i].value
  {
    GetPropertyHeadIsFirstMatch(props, PowerKey.siid, PowerKey.piid, i);
  }
}
