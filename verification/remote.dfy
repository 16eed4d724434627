/**
 * The miio transport, seen only from the outside: a session is an opaque
 * handle, every remote call either answers or fails, and the calls the device
 * issues are recorded so that contracts can say what was sent.
 */
module Remote {
  import opened Properties

  /** The outcome of one remote call: an answer, or a thrown error. */
  datatype Reply<+T> = Ok(value: T) | Failed

  /** An open miio session (the object `miio.device` resolves to). */
  datatype Session = Session(id: nat)

  /** One request put on the wire. */
  datatype RemoteCall =
    | OpenSession(address: string, token: string)
    | Call(session: Session, name: string, args: seq<PropertyRecord>)

  const InfoMethod := "miIO.info"
  const GetPropertiesMethod := "get_properties"
  const SetPropertiesMethod := "set_properties"
}
