/**
 * The boundary to the native vsomeip binding. Its effects are not modelled:
 * a session only records which native calls it issued, in order.
 */
module Boundary {

  /** A payload as handed to the binding. */
  type Payload = seq<bv8>

  /** The triple every native call starts with. */
  datatype App = App(name: string, service: int, instance: int)

  /**
   * A callback handed to the binding: the session's own default callback
   * (its bound `callback` method), or a caller's function, known by a tag.
   */
  datatype Callback = SessionCallback | UserCallback(tag: nat)

  /** One call into the native binding, named after the binding's function. */
  datatype Call =
    | Create(app: App)
    | Start(app: App)
    | Stop(app: App)
    | RequestService(app: App, major: int, minor: int)
    | SendService(app: App, id: int, data: Payload)
    | RegisterMessage(app: App, id: int, callback: Callback)
    | RequestEventService(app: App, id: int, group: int, major: int, minor: int)
    | OfferService(app: App, major: int, minor: int)
    | OfferEventService(app: App, id: int, group: int)
    | NotifyClients(app: App, id: int, data: Payload)

  /** A call by which a session advertises itself as a service. */
  predicate IsOffer(c: Call)
  {
    c.OfferService? || c.OfferEventService?
  }

  /** A call that only a client may issue. */
  predicate IsClientRequest(c: Call)
  {
    c.RequestService? || c.SendService?
  }
}
