/**
 * `AirPurifierDevice`: the property registry, the connection lifecycle and the
 * polling of the purifier (src/accessory.ts:47-148).
 *
 * Every remote call is an oracle: the caller passes the `Reply` the purifier
 * (or the network) gives. A failed connection attempt arms a 30-second retry
 * timer; the model counts armed timers in `pendingRetries`, and
 * `RetryConnect` stands for one of them firing. Calls whose promise the code
 * does not await are taken to complete before the caller's next step.
 */
module Device {
  import opened Wrappers
  import opened JsValues
  import opened Properties
  import opened Remote
  import opened Characteristics

  /** Connection parameters from the plugin configuration. */
  datatype DeviceConfig = DeviceConfig(did: string, token: string, ip: string)

  /** The model name, fixed, and the firmware version the purifier reports. */
  datatype DeviceInfo = DeviceInfo(model: string, firmware: string)

  const Model := "zhimi.airpurifier.mb4"

  /** The firmware shown until a connection reports the real one. */
  const UnknownFirmware := "UNKNOWN"

  /** The calls one connection attempt issues, given how far it gets. */
  function ConnectCalls(config: DeviceConfig, properties: seq<PropertyRecord>,
                        open: Reply<Session>, info: Reply<string>): seq<RemoteCall>
  {
    [OpenSession(config.ip, config.token)] +
    if open.Failed? then []
    else [Call(open.value, InfoMethod, [])] +
         if info.Failed? then [] else [Call(open.value, GetPropertiesMethod, properties)]
  }

  class AirPurifierDevice {
    const config: DeviceConfig
    var properties: seq<PropertyRecord>
    var device: Option<Session>
    var deviceCharacteristics: DeviceCharacteristics
    var deviceInfo: DeviceInfo
    /** Retry timers armed by failed connection attempts that have not fired yet. */
    var pendingRetries: nat
    /** Every remote call issued so far, oldest first. */
    ghost var sent: seq<RemoteCall>
    /** Whether some connection attempt has got as far as the reported firmware. */
    ghost var everConnected: bool

    /**
     * The object invariant: the model name never changes; every registered
     * record is a request for this device; only `power` ever moves away from
     * its initial value; and until a connection attempt has succeeded the
     * firmware is still "UNKNOWN" (such an attempt opened a session, too).
     */
    ghost predicate Valid()
      reads this
    {
      && deviceInfo.model == Model
      && (forall p :: p in properties ==> p.did == config.did && p.value == Null)
      && SameExceptPower(Initial, deviceCharacteristics)
      && (!everConnected ==> deviceInfo.firmware == UnknownFirmware)
      && (device.None? ==> !everConnected)
    }

    /**
     * Registers the nine tracked pairs in their fixed order and makes the
     * first connection attempt.
     */
    constructor (config: DeviceConfig, open: Reply<Session>, info: Reply<string>,
                 poll: Reply<seq<PropertyRecord>>)
      ensures Valid()
      ensures this.config == config
      ensures |properties| == |TrackedKeys|
      ensures forall i :: 0 <= i < |TrackedKeys| ==> properties[i] == Request(config.did, TrackedKeys[i])
      ensures device == (if open.Ok? then Some(open.value) else None)
      ensures deviceInfo.firmware == (if open.Ok? && info.Ok? then info.value else UnknownFirmware)
      ensures everConnected == (open.Ok? && info.Ok?)
      ensures pendingRetries == (if open.Ok? && info.Ok? then 0 else 1)
      ensures deviceCharacteristics ==
                (if open.Ok? && info.Ok? && poll.Ok? then PolledAsWritten(Initial, poll.value) else Initial)
      ensures sent == ConnectCalls(config, properties, open, info)
    {
      this.config := config;
      properties := [];
      device := None;
      deviceCharacteristics := Initial;
      deviceInfo := DeviceInfo(Model, UnknownFirmware);
      pendingRetries := 0;
      sent := [];
      everConnected := false;
      new;
      TrackProperty(2, 1); // power
      TrackProperty(2, 4); // mode
      TrackProperty(3, 4); // aqi
      TrackProperty(4, 1); // filter life remaining
      TrackProperty(4, 3); // filter hours used
      TrackProperty(6, 1); // buzzer
      TrackProperty(8, 1); // LED
      TrackProperty(9, 1); // motor speed
      TrackProperty(9, 3); // favourite rpm
      Connect(open, info, poll);
    }

    /** The firmware version; "UNKNOWN" as long as no connection attempt has succeeded. */
    function GetFirmware(): (r: string)
      reads this
      requires Valid()
      ensures !everConnected ==> r == UnknownFirmware
    {
      deviceInfo.firmware
    }

    /** The state record; every field but `power` still holds its initial value. */
    function GetDeviceCharacteristics(): (r: DeviceCharacteristics)
      reads this
      requires Valid()
      ensures SameExceptPower(Initial, r)
      ensures r.aqi == 0 && !r.childLock
    {
      deviceCharacteristics
    }

    /** Appends one request record for (siid, piid); earlier records stay as they were. */
    method TrackProperty(siid: int, piid: int)
      requires Valid()
      modifies this
      ensures Valid()
      ensures properties == old(properties) + [PropertyRecord(config.did, siid, piid, Null)]
      ensures device == old(device) && deviceInfo == old(deviceInfo) && pendingRetries == old(pendingRetries)
      ensures deviceCharacteristics == old(deviceCharacteristics) && sent == old(sent)
      ensures everConnected == old(everConnected)
    {
      properties := properties + [PropertyRecord(config.did, siid, piid, Null)];
    }

    /** Writes the power read from a `get_properties` answer, as the code reads it. */
    method SetDeviceCharacteristics(props: seq<PropertyRecord>)
      requires Valid()
      modifies this
      ensures Valid()
      ensures deviceCharacteristics == PolledAsWritten(old(deviceCharacteristics), props)
      ensures properties == old(properties) && device == old(device) && deviceInfo == old(deviceInfo)
      ensures pendingRetries == old(pendingRetries) && sent == old(sent)
      ensures everConnected == old(everConnected)
    {
      deviceCharacteristics := deviceCharacteristics.(power := ArrayValueMember(GetProperty(props, PowerKey.siid, PowerKey.piid)));
    }

    /**
     * One poll: asks the session for every registered record and applies the
     * answer. Without a session the call throws before anything is sent; a
     * failed call leaves the state record as it was. Either error is only logged.
     */
    method UpdateProperties(response: Reply<seq<PropertyRecord>>)
      requires Valid()
      modifies this
      ensures Valid()
      ensures sent == old(sent) +
                (if device.Some? then [Call(device.value, GetPropertiesMethod, properties)] else [])
      ensures deviceCharacteristics ==
                (if device.Some? && response.Ok? then PolledAsWritten(old(deviceCharacteristics), response.value)
                 else old(deviceCharacteristics))
      ensures properties == old(properties) && device == old(device) && deviceInfo == old(deviceInfo)
      ensures pendingRetries == old(pendingRetries) && everConnected == old(everConnected)
    {
      if device.None? {
        return;
      }
      sent := sent + [Call(device.value, GetPropertiesMethod, properties)];
      if response.Ok? {
        SetDeviceCharacteristics(response.value);
      }
    }

    /**
     * Asks the purifier to switch power to `value` with a single
     * `{did, siid 2, piid 1, value}` record; only a write that succeeds is
     * followed by a poll. Without a session nothing is sent.
     */
    method PowerSwitch(value: bool, write: Reply<()>, poll: Reply<seq<PropertyRecord>>)
      requires Valid()
      modifies this
      ensures Valid()
      ensures sent == old(sent) +
                if device.None? then []
                else [Call(device.value, SetPropertiesMethod, [PropertyRecord(config.did, PowerKey.siid, PowerKey.piid, Bool(value))])] +
                     if write.Failed? then [] else [Call(device.value, GetPropertiesMethod, properties)]
      ensures deviceCharacteristics ==
                (if device.Some? && write.Ok? && poll.Ok? then PolledAsWritten(old(deviceCharacteristics), poll.value)
                 else old(deviceCharacteristics))
      ensures properties == old(properties) && device == old(device) && deviceInfo == old(deviceInfo)
      ensures pendingRetries == old(pendingRetries) && everConnected == old(everConnected)
    {
      if device.None? {
        return;
      }
      sent := sent + [Call(device.value, SetPropertiesMethod, [PropertyRecord(config.did, PowerKey.siid, PowerKey.piid, Bool(value))])];
      if write.Ok? {
        UpdateProperties(poll);
      }
    }

    /**
     * One connection attempt. A session that opens is kept even if the info
     * call then fails; a reported firmware version is recorded and followed by
     * exactly one poll; any failure arms exactly one retry timer.
     */
    method Connect(open: Reply<Session>, info: Reply<string>, poll: Reply<seq<PropertyRecord>>)
      requires Valid()
      modifies this
      ensures Valid()
      ensures device == (if open.Ok? then Some(open.value) else old(device))
      ensures deviceInfo.firmware == (if open.Ok? && info.Ok? then info.value else old(deviceInfo.firmware))
      ensures everConnected == (old(everConnected) || (open.Ok? && info.Ok?))
      ensures pendingRetries == old(pendingRetries) + (if open.Ok? && info.Ok? then 0 else 1)
      ensures deviceCharacteristics ==
                (if open.Ok? && info.Ok? && poll.Ok? then PolledAsWritten(old(deviceCharacteristics), poll.value)
                 else old(deviceCharacteristics))
      ensures sent == old(sent) + ConnectCalls(config, properties, open, info)
      ensures properties == old(properties) && deviceInfo.model == old(deviceInfo.model)
    {
      sent := sent + [OpenSession(config.ip, config.token)];
      if open.Failed? {
        pendingRetries := pendingRetries + 1;
        return;
      }
      device := Some(open.value);
      sent := sent + [Call(open.value, InfoMethod, [])];
      if info.Failed? {
        pendingRetries := pendingRetries + 1;
        return;
      }
      deviceInfo := deviceInfo.(firmware := info.value);
      everConnected := true;
      UpdateProperties(poll);
    }

    /** One armed retry timer fires and makes a new connection attempt. */
    method RetryConnect(open: Reply<Session>, info: Reply<string>, poll: Reply<seq<PropertyRecord>>)
      requires Valid() && pendingRetries > 0
      modifies this
      ensures Valid()
      ensures device == (if open.Ok? then Some(open.value) else old(device))
      ensures deviceInfo.firmware == (if open.Ok? && info.Ok? then info.value else old(deviceInfo.firmware))
      ensures everConnected == (old(everConnected) || (open.Ok? && info.Ok?))
      ensures pendingRetries == old(pendingRetries) - (if open.Ok? && info.Ok? then 1 else 0)
      ensures deviceCharacteristics ==
                (if open.Ok? && info.Ok? && poll.Ok? then PolledAsWritten(old(deviceCharacteristics), poll.value)
                 else old(deviceCharacteristics))
      ensures sent == old(sent) + ConnectCalls(config, properties, open, info)
      ensures properties == old(properties)
    {
      pendingRetries := pendingRetries - 1;
      Connect(open, info, poll);
    }
  }

  /**
   * A first attempt that cannot reach the purifier, then the retry that
   * connects: the retry leaves no timer armed and the firmware shown is the
   * one the purifier reports.
   */
  method ReconnectAfterFailure(config: DeviceConfig, session: Session, firmware: string,
                               poll: Reply<seq<PropertyRecord>>)
    returns (before: string, after: string, retries: nat)
    ensures before == UnknownFirmware
    ensures after == firmware && retries == 0
  {
    var d := new AirPurifierDevice(config, Failed, Failed, poll);
    before := d.GetFirmware();
    d.RetryConnect(Ok(session), Ok(firmware), poll);
    after := d.GetFirmware();
    retries := d.pendingRetries;
  }
}
