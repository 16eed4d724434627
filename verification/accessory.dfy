/**
 * The pure logic of `XiaomiAirPurifier3CAccessory`: the air-quality ladder
 * and the mapping between the device's `power` field and HomeKit's `Active`
 * characteristic (src/accessory.ts:217-262).
 */
module Accessory {
  import opened JsValues
  import opened Properties
  import opened Characteristics
  import opened Remote
  import opened Device

  /** HomeKit's AirQuality characteristic. */
  datatype AirQuality = Unknown | Excellent | Good | Fair | Inferior | Poor

  /** The characteristic's numeric value. */
  function QualityCode(q: AirQuality): int
  {
    match q
    case Unknown => 0
    case Excellent => 1
    case Good => 2
    case Fair => 3
    case Inferior => 4
    case Poor => 5
  }

  /** The number of breakpoints the ladder consults. */
  const Rungs := 4

  /**
   * `aqi <= breakpoints[i]`. Past the end of the configured list the entry is
   * `undefined`, and a comparison with `undefined` is false.
   */
  predicate AtOrBelow(aqi: int, breakpoints: seq<int>, i: nat)
  {
    i < |breakpoints| && aqi <= breakpoints[i]
  }

  /**
   * `getAirQuality`'s if/else ladder. The category is never Unknown: it is
   * the first rung i whose breakpoint the reading does not exceed, and Poor
   * when the reading exceeds all four.
   */
  function ClassifyAirQuality(aqi: int, breakpoints: seq<int>): (q: AirQuality)
    ensures q != Unknown
    ensures 1 <= QualityCode(q) <= Rungs + 1
    ensures QualityCode(q) <= Rungs ==> AtOrBelow(aqi, breakpoints, QualityCode(q) - 1)
    ensures forall j: nat :: j < QualityCode(q) - 1 ==> !AtOrBelow(aqi, breakpoints, j)
  {
    if AtOrBelow(aqi, breakpoints, 0) then Excellent
    else if AtOrBelow(aqi, breakpoints, 1) then Good
    else if AtOrBelow(aqi, breakpoints, 2) then Fair
    else if AtOrBelow(aqi, breakpoints, 3) then Inferior
    else Poor
  }

  /**
   * A reference for the ladder: the first rung at or after `from` whose
   * breakpoint the reading does not exceed, or `Rungs` when there is none.
   */
  function FirstRungAtOrAbove(aqi: int, breakpoints: seq<int>, from: nat): (k: nat)
    requires from <= Rungs
    decreases Rungs - from
  {
    if from == Rungs then Rungs
    else if AtOrBelow(aqi, breakpoints, from) then from
    else FirstRungAtOrAbove(aqi, breakpoints, from + 1)
  }

  /** The rung the search finds really is the first one at or after `from`. */
  lemma {:induction false} FirstRungIsFirst(aqi: int, breakpoints: seq<int>, from: nat)
    requires from <= Rungs
    ensures from <= FirstRungAtOrAbove(aqi, breakpoints, from) <= Rungs
    ensures FirstRungAtOrAbove(aqi, breakpoints, from) < Rungs ==>
              AtOrBelow(aqi, breakpoints, FirstRungAtOrAbove(aqi, breakpoints, from))
    ensures forall j: nat :: from <= j < FirstRungAtOrAbove(aqi, breakpoints, from) ==>
              !AtOrBelow(aqi, breakpoints, j)
    decreases Rungs - from
  {
    if from < Rungs && !AtOrBelow(aqi, breakpoints, from) {
      FirstRungIsFirst(aqi, breakpoints, from + 1);
    }
  }

  /** The ladder picks the category of the rung the reference search finds. */
  lemma ClassifyIsFirstRung(aqi: int, breakpoints: seq<int>)
    ensures QualityCode(ClassifyAirQuality(aqi, breakpoints)) == FirstRungAtOrAbove(aqi, breakpoints, 0) + 1
  {
  }

  /**
   * A higher reading never gets a better category, whatever the breakpoints:
   * any breakpoint the higher reading does not exceed, the lower one does not
   * exceed either.
   */
  lemma ClassifyIsMonotone(lower: int, higher: int, breakpoints: seq<int>)
    requires lower <= higher
    ensures QualityCode(ClassifyAirQuality(lower, breakpoints)) <= QualityCode(ClassifyAirQuality(higher, breakpoints))
  {
  }

  /** The four breakpoints are configured and do not decrease. */
  predicate Ascending(breakpoints: seq<int>)
  {
    |breakpoints| >= Rungs && forall i, j :: 0 <= i <= j < Rungs ==> breakpoints[i] <= breakpoints[j]
  }

  /**
   * With ascending breakpoints the category is band k exactly when the
   * reading lies above breakpoint k - 1 (if any) and at or below breakpoint k
   * (if any).
   */
  lemma ClassifyBand(aqi: int, breakpoints: seq<int>, k: nat)
    requires Ascending(breakpoints) && k <= Rungs
    ensures QualityCode(ClassifyAirQuality(aqi, breakpoints)) == k + 1 <==>
              (k == 0 || breakpoints[k - 1] < aqi) && (k == Rungs || aqi <= breakpoints[k])
  {
  }

  /** HomeKit's Active characteristic. */
  datatype Active = Inactive | ActiveOn

  /** The characteristic's numeric value. */
  function ActiveCode(a: Active): int
  {
    match a
    case Inactive => 0
    case ActiveOn => 1
  }

  /**
   * `getPower`: Active exactly when the state's power loosely equals `true`,
   * which among the values modelled is `true` or the number 1; `undefined`
   * and `null` read as Inactive.
   */
  function GetPower(power: JsValue): (a: Active)
    ensures a == ActiveOn <==> power == Bool(true) || power == Num(1)
  {
    if LooselyEqualsTrue(power) then ActiveOn else Inactive
  }

  /**
   * `setPower`: the power to request is on exactly when the value is
   * strictly HomeKit's Active code. The comparison does not convert, so a
   * boolean `true` or any number but 1 requests power off.
   */
  function SetPower(value: JsValue): (on: bool)
    ensures on <==> value == Num(1)
  {
    StrictlyEqualsNum(value, ActiveCode(ActiveOn))
  }

  /**
   * The two mappings are inverse on HomeKit's Active codes: the flag `setPower`
   * derives from a code is mapped back to that code by `getPower`. (The device
   * itself never stores the flag it sends; see `PowerOnShownInactive`.)
   */
  lemma PowerRequestRoundTrip(a: Active)
    ensures GetPower(Bool(SetPower(Num(ActiveCode(a))))) == a
  {
  }

  /** The two mappings are inverse on power flags: a flag shown as a code and sent back gives the same flag. */
  lemma PowerFlagRoundTrip(on: bool)
    ensures SetPower(Num(ActiveCode(GetPower(Bool(on))))) == on
  {
  }

  /**
   * As written, a successful poll leaves `power` undefined, so HomeKit is
   * shown Inactive after every poll, whatever the purifier reported.
   */
  lemma PolledAsWrittenShowsInactive(s: DeviceCharacteristics, props: seq<PropertyRecord>)
    ensures GetPower(PolledAsWritten(s, props).power) == Inactive
  {
  }

  /**
   * The input that shows it: the purifier reports power on. As written the
   * record ends up with `undefined` and shows Inactive; the intended update
   * stores `true` and shows Active.
   */
  lemma PowerOnReportIsLost(did: string)
    ensures PolledAsWritten(Initial, [PropertyRecord(did, 2, 1, Bool(true))]).power == Undefined
    ensures GetPower(PolledAsWritten(Initial, [PropertyRecord(did, 2, 1, Bool(true))]).power) == Inactive
    ensures PolledAsIntended(Initial, [PropertyRecord(did, 2, 1, Bool(true))]).power == Bool(true)
    ensures GetPower(PolledAsIntended(Initial, [PropertyRecord(did, 2, 1, Bool(true))]).power) == ActiveOn
  {
  }

  /**
   * With the intended update, a poll whose first (2, 1) record reports a
   * power flag makes HomeKit show exactly that flag.
   */
  lemma PolledAsIntendedShowsReportedPower(s: DeviceCharacteristics, props: seq<PropertyRecord>, i: nat, on: bool)
    requires i < |props| && HasKey(props[i], PowerKey.siid, PowerKey.piid) && props[i].value == Bool(on)
    requires forall j :: 0 <= j < i ==> !HasKey(props[j], PowerKey.siid, PowerKey.piid)
    ensures GetPower(PolledAsIntended(s, props).power) == (if on then ActiveOn else Inactive)
  {
    PolledAsIntendedReadsFirstMatch(s, props, i);
  }

  /**
   * The whole path as written: HomeKit asks for Active, the write succeeds and
   * the read-back poll reports power on, yet HomeKit is then shown Inactive.
   */
  method PowerOnShownInactive(config: DeviceConfig, session: Session, firmware: string, did: string)
    returns (shown: Active)
    ensures shown == Inactive
  {
    var answer := [PropertyRecord(did, 2, 1, Bool(true))];
    var d := new AirPurifierDevice(config, Ok(session), Ok(firmware), Ok(answer));
    d.PowerSwitch(SetPower(Num(ActiveCode(ActiveOn))), Ok(()), Ok(answer));
    shown := GetPower(d.GetDeviceCharacteristics().power);
  }
}
