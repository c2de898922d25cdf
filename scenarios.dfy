/** The service and client sequences the repository's tests drive, on the session model. */
module Scenarios {
  import opened Wrappers
  import opened Boundary
  import opened Session

  /**
   * A session that offered its service, started and offered an event is a
   * service: register and request raise and issue nothing.
   */
  lemma ServiceRefusesClientOperations(id: Identity, data: Payload)
    ensures Run(id, Init(id.app), [Offer(None), StartApp, Offer(Some([0x8778]))]).calls
              == [Create(id.app), OfferService(id.app, id.major, id.minor), Start(id.app),
                  OfferEventService(id.app, 0x8778, id.group)]
    ensures var s := Run(id, Init(id.app), [Offer(None), StartApp, Offer(Some([0x8778]))]);
            Step(id, s, Register) == (UserWarning(RegisterWarning), s) &&
            Step(id, s, Request(0x9002, Some(data))) == (UserWarning(RequestWarning), s)
  {
  }

  /**
   * A client that started, registered and requested method 0x9002 with
   * bytes 1, 2, 3 hands exactly those bytes to the binding, and may not notify.
   */
  lemma ClientRequestsAndMayNotNotify(id: Identity)
    ensures Run(id, Init(id.app), [StartApp, Register, Request(0x9002, Some([0x01, 0x02, 0x03]))]).calls
              == [Create(id.app), Start(id.app), RequestService(id.app, id.major, id.minor),
                  SendService(id.app, 0x9002, [0x01, 0x02, 0x03])]
    ensures var c := Run(id, Init(id.app), [StartApp, Register, Request(0x9002, Some([0x01, 0x02, 0x03]))]);
            Step(id, c, Notify(0x8778, Some([0x01, 0x02, 0x03]))) == (UserWarning(NotifyWarning), c)
  {
  }

  /** A session that never offered may not notify, and nothing is sent. */
  lemma NotifyBeforeOfferFails(id: Identity, eventId: int, data: Option<Payload>)
    ensures Step(id, Init(id.app), Notify(eventId, data)) == (UserWarning(NotifyWarning), Init(id.app))
  {
  }
}
