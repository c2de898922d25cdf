/**
 * The `Message_Type` enumeration of the session class. It mirrors the native
 * binding's message-type enumeration: values of the Message Type field of
 * the SOME/IP header (AUTOSAR SOME/IP Protocol Specification, section
 * 4.1.2.7), without the TP variants, plus the binding's own `Unknown`
 * sentinel 0xFF.
 */
module MessageTypes {
  import opened Wrappers

  datatype MessageType =
    | Request
    | RequestNoReturn
    | Notification
    | RequestAck
    | RequestNoReturnAck
    | NotificationAck
    | Response
    | Error
    | ResponseAck
    | ErrorAck
    | Unknown

  /** The bit that turns a message type into its acknowledgement variant. */
  const AckBit: bv8 := 0x40

  /** The enumeration's value table. */
  function Code(t: MessageType): bv8
  {
    match t
    case Request => 0x00
    case RequestNoReturn => 0x01
    case Notification => 0x02
    case RequestAck => 0x40
    case RequestNoReturnAck => 0x41
    case NotificationAck => 0x42
    case Response => 0x80
    case Error => 0x81
    case ResponseAck => 0xC0
    case ErrorAck => 0xC1
    case Unknown => 0xFF
  }

  /**
   * Lookup by value, as `Message_Type(c)` does: a code outside the table has
   * no member (Python raises ValueError); `Unknown` is the member for 0xFF
   * only, not a catch-all.
   */
  function FromCode(c: bv8): (r: Option<MessageType>)
    ensures r.Some? ==> Code(r.value) == c
    ensures r.None? ==> forall t :: Code(t) != c
  {
    if c == 0x00 then Some(Request)
    else if c == 0x01 then Some(RequestNoReturn)
    else if c == 0x02 then Some(Notification)
    else if c == 0x40 then Some(RequestAck)
    else if c == 0x41 then Some(RequestNoReturnAck)
    else if c == 0x42 then Some(NotificationAck)
    else if c == 0x80 then Some(Response)
    else if c == 0x81 then Some(Error)
    else if c == 0xC0 then Some(ResponseAck)
    else if c == 0xC1 then Some(ErrorAck)
    else if c == 0xFF then Some(Unknown)
    else None
  }

  /** Every member has its own code. */
  lemma CodeInjective(a: MessageType, b: MessageType)
    ensures Code(a) == Code(b) <==> a == b
  {
  }

  /** Looking up a member's code gives the member back. */
  lemma FromCodeRoundTrip(t: MessageType)
    ensures FromCode(Code(t)) == Some(t)
  {
  }

  /** The five message types that have an acknowledgement variant. */
  predicate HasAck(t: MessageType)
  {
    t.Request? || t.RequestNoReturn? || t.Notification? || t.Response? || t.Error?
  }

  /** The acknowledgement variant of a base message type. */
  function Ack(t: MessageType): (r: MessageType)
    requires HasAck(t)
    ensures Code(t) & AckBit == 0
    ensures Code(r) == Code(t) | AckBit
    ensures !HasAck(r) && r != Unknown
  {
    match t
    case Request => RequestAck
    case RequestNoReturn => RequestNoReturnAck
    case Notification => NotificationAck
    case Response => ResponseAck
    case Error => ErrorAck
  }
}
