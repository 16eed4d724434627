/**
 * MIoT property records and the registry of (siid, piid) pairs the purifier
 * device tracks (src/accessory.ts, class AirPurifierDevice).
 */
module Properties {
  import opened Wrappers
  import opened JsValues

  /**
   * A `{did, siid, piid, value}` record: a request carries `value: null`,
   * a `get_properties` answer carries the value the purifier reports.
   */
  datatype PropertyRecord = PropertyRecord(did: string, siid: int, piid: int, value: JsValue)

  /** A property's identity: its service id and property id. */
  datatype Key = Key(siid: int, piid: int)

  /** The fields of the device's state record. */
  datatype Field =
    | Power | Mode | Aqi | FilterLifeRemaining | FilterHoursUsed
    | Buzzer | LedLevel | ChildLock | MotorSpeed | FavoriteRpm

  /** The pairs the constructor registers, in registration order. */
  const TrackedKeys: seq<Key> :=
    [Key(2, 1), Key(2, 4), Key(3, 4), Key(4, 1), Key(4, 3), Key(6, 1), Key(8, 1), Key(9, 1), Key(9, 3)]

  /** The pair of the power switch, which the device both polls and writes. */
  const PowerKey := Key(2, 1)

  /** The request record registered for a pair: the device id and a null value. */
  function Request(did: string, k: Key): PropertyRecord
  {
    PropertyRecord(did, k.siid, k.piid, Null)
  }

  /**
   * The registered pair that stands for each state field, as the constructor's
   * comments name them; the child lock has a field but no registered pair.
   */
  function TrackedKeyOf(f: Field): (k: Option<Key>)
    ensures k.Some? <==> f != ChildLock
    ensures k.Some? ==> k.value in TrackedKeys
    ensures f == Power <==> k == Some(PowerKey)
  {
    match f
    case Power => Some(PowerKey)
    case Mode => Some(Key(2, 4))
    case Aqi => Some(Key(3, 4))
    case FilterLifeRemaining => Some(Key(4, 1))
    case FilterHoursUsed => Some(Key(4, 3))
    case Buzzer => Some(Key(6, 1))
    case LedLevel => Some(Key(8, 1))
    case ChildLock => None
    case MotorSpeed => Some(Key(9, 1))
    case FavoriteRpm => Some(Key(9, 3))
  }

  /** The nine registered pairs are distinct and each names exactly one field. */
  lemma TrackedKeysNameDistinctFields()
    ensures |TrackedKeys| == 9
    ensures forall i, j :: 0 <= i < j < |TrackedKeys| ==> TrackedKeys[i] != TrackedKeys[j]
    ensures forall k :: k in TrackedKeys ==> exists f :: TrackedKeyOf(f) == Some(k)
    ensures forall f, g :: TrackedKeyOf(f).Some? && TrackedKeyOf(f) == TrackedKeyOf(g) ==> f == g
  {
    forall k | k in TrackedKeys ensures exists f :: TrackedKeyOf(f) == Some(k) {
      var i :| 0 <= i < |TrackedKeys| && TrackedKeys[i] == k;
      var fields := [Power, Mode, Aqi, FilterLifeRemaining, FilterHoursUsed, Buzzer, LedLevel, MotorSpeed, FavoriteRpm];
      assert TrackedKeyOf(fields[i]) == Some(k);
    }
  }

  /** Whether a record carries the pair (siid, piid). */
  predicate HasKey(p: PropertyRecord, siid: int, piid: int)
  {
    p.siid == siid && p.piid == piid
  }

  /**
   * `getProperty`: the records of `props` keyed (siid, piid), in their order.
   * A response with no such record yields the empty sequence.
   */
  function GetProperty(props: seq<PropertyRecord>, siid: int, piid: int): (r: seq<PropertyRecord>)
    ensures |r| <= |props|
    ensures forall p :: p in r <==> p in props && HasKey(p, siid, piid)
    ensures r == [] <==> forall p :: p in props ==> !HasKey(p, siid, piid)
  {
    if props == [] then []
    else
      var rest := GetProperty(props[1..], siid, piid);
      assert forall p :: p in props <==> p == props[0] || p in props[1..];
      if HasKey(props[0], siid, piid) then [props[0]] + rest else rest
  }

  /** `a` is `b` with some elements left out and the rest kept in order. */
  predicate IsSubsequence<T(==)>(a: seq<T>, b: seq<T>)
    decreases |b|
  {
    if a == [] then true
    else if b == [] then false
    else if a[0] == b[0] then IsSubsequence(a[1..], b[1..])
    else IsSubsequence(a, b[1..])
  }

  /** The filter keeps the order of the records it lets through. */
  lemma {:induction false} GetPropertyIsSubsequence(props: seq<PropertyRecord>, siid: int, piid: int)
    ensures IsSubsequence(GetProperty(props, siid, piid), props)
  {
    if props != [] {
      var rest := GetProperty(props[1..], siid, piid);
      GetPropertyIsSubsequence(props[1..], siid, piid);
      if HasKey(props[0], siid, piid) {
        assert ([props[0]] + rest)[1..] == rest;
      } else if rest != [] {
        assert rest[0] in rest;
      }
    }
  }

  /** The filter keeps every matching record, as often as it occurs, and nothing else. */
  lemma {:induction false} GetPropertyKeepsEveryMatch(props: seq<PropertyRecord>, siid: int, piid: int)
    ensures forall p :: multiset(GetProperty(props, siid, piid))[p] ==
                        if HasKey(p, siid, piid) then multiset(props)[p] else 0
  {
    if props != [] {
      GetPropertyKeepsEveryMatch(props[1..], siid, piid);
      assert props == [props[0]] + props[1..];
      assert multiset(props) == multiset{props[0]} + multiset(props[1..]);
    }
  }

  /** The head of the filter's result is the first matching record. */
  lemma {:induction false} GetPropertyHeadIsFirstMatch(props: seq<PropertyRecord>, siid: int, piid: int, i: nat)
    requires i < |props| && HasKey(props[i], siid, piid)
    requires forall j :: 0 <= j < i ==> !HasKey(props[j], siid, piid)
    ensures GetProperty(props, siid, piid) != []
    ensures GetProperty(props, siid, piid)[0] == props[i]
  {
    if i > 0 {
      assert !HasKey(props[0], siid, piid);
      GetPropertyHeadIsFirstMatch(props[1..], siid, piid, i - 1);
    }
  }
}
