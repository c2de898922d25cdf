/**
 * The `SOMEIP` session class. Its native calls are appended to `calls`;
 * every method is proved to do what `Session.Step` says of its operation.
 */
module Vsomeip {
  import opened Wrappers
  import opened Configuration
  import opened Boundary
  import opened Session

  class Someip {
    const name: string
    const id: int
    const instance: int
    const major: int
    const minor: int
    const group: int
    const config: Document
    /** The document the caller passed to the constructor. */
    ghost const givenConfig: Document
    /** The default document built from the template. */
    ghost const defaultConfig: Document

    /** The role flag: false until the first offer. */
    var isService: bool
    /** Set by start, cleared by stop. */
    var isReady: bool
    /** The native calls issued so far, oldest first. */
    var calls: seq<Call>

    /** The configuration was chosen at construction and the event group is the default. */
    ghost predicate Valid()
    {
      config == Select(defaultConfig, givenConfig) && group == DefaultGroup
    }

    function Endpoint(): App
    {
      App(name, id, instance)
    }

    function Ident(): Identity
    {
      Identity(Endpoint(), major, minor, group)
    }

    ghost function Snapshot(): State
      reads this
    {
      State(isService, isReady, calls)
    }

    /**
     * Keeps the caller's document when it is non-empty, the default one
     * otherwise, and creates the application.
     */
    constructor (name: string, id: int, instance: int, given: Document,
                 template: Document, hostAddress: Option<string>, major: int, minor: int)
      ensures Valid()
      ensures this.name == name && this.id == id && this.instance == instance
      ensures this.major == major && this.minor == minor
      ensures givenConfig == given && defaultConfig == Default(template, hostAddress)
      ensures !isService && !isReady
      ensures calls == [Create(App(name, id, instance))]
      ensures Snapshot() == Init(Endpoint())
    {
      this.name := name;
      this.id := id;
      this.instance := instance;
      this.group := DefaultGroup;
      var defaults := Default(template, hostAddress);
      this.defaultConfig := defaults;
      this.givenConfig := given;
      this.config := if |given| > 0 then given else defaults;
      this.isService := false;
      this.isReady := false;
      this.major := major;
      this.minor := minor;
      this.calls := [Create(App(name, id, instance))];
    }

    /** The document in use: the caller's when it was non-empty, else the default. */
    function ConfigurationInUse(): (r: Document)
      requires Valid()
      ensures |givenConfig| > 0 ==> r == givenConfig
      ensures |givenConfig| == 0 ==> r == defaultConfig
    {
      config
    }

    method Start()
      modifies this
      ensures isReady && isService == old(isService)
      ensures calls == old(calls) + [Call.Start(Endpoint())]
      ensures Step(Ident(), old(Snapshot()), StartApp) == (Ok, Snapshot())
    {
      calls := calls + [Call.Start(Endpoint())];
      isReady := true;
    }

    method Stop()
      modifies this
      ensures !isReady && isService == old(isService)
      ensures calls == old(calls) + [Call.Stop(Endpoint())]
      ensures Step(Ident(), old(Snapshot()), StopApp) == (Ok, Snapshot())
    {
      calls := calls + [Call.Stop(Endpoint())];
      isReady := false;
    }

    /** Joins the service's offering; a service may not. */
    method Register() returns (outcome: Outcome)
      modifies this
      ensures old(isService) ==> outcome == UserWarning(RegisterWarning) && calls == old(calls)
      ensures !old(isService) ==> outcome == Ok && calls == old(calls) + [RequestService(Endpoint(), major, minor)]
      ensures isService == old(isService) && isReady == old(isReady)
      ensures Step(Ident(), old(Snapshot()), Session.Register) == (outcome, Snapshot())
    {
      if isService {
        return UserWarning(RegisterWarning);
      }
      calls := calls + [RequestService(Endpoint(), major, minor)];
      outcome := Ok;
    }

    /** Sends a method request; a service may not. No data sends one zero byte. */
    method Request(msgId: int, data: Option<Payload>) returns (outcome: Outcome)
      modifies this
      ensures old(isService) ==> outcome == UserWarning(RequestWarning) && calls == old(calls)
      ensures !old(isService) && data.None? ==>
                outcome == Ok && calls == old(calls) + [SendService(Endpoint(), msgId, [0x00])]
      ensures !old(isService) && data.Some? ==>
                outcome == Ok && calls == old(calls) + [SendService(Endpoint(), msgId, data.value)]
      ensures isService == old(isService) && isReady == old(isReady)
      ensures Step(Ident(), old(Snapshot()), Session.Request(msgId, data)) == (outcome, Snapshot())
    {
      if isService {
        return UserWarning(RequestWarning);
      }
      var payload := PayloadOrNull(data);
      calls := calls + [SendService(Endpoint(), msgId, payload)];
      outcome := Ok;
    }

    /**
     * The default callback: the reply `Session.DefaultReply` gives for the
     * session's role at the time the callback is invoked.
     */
    function DefaultCallback(msgType: int, msgId: int, data: Payload): (r: Option<Payload>)
      reads this
      ensures r == DefaultReply(isService, msgType, msgId, data)
    {
      DefaultReply(isService, msgType, msgId, data)
    }

    /** Registers a handler for a message id; no callback registers the default one. */
    method OnMessage(msgId: int, callback: Option<Callback>)
      modifies this
      ensures callback.None? ==> calls == old(calls) + [RegisterMessage(Endpoint(), msgId, SessionCallback)]
      ensures callback.Some? ==> calls == old(calls) + [RegisterMessage(Endpoint(), msgId, callback.value)]
      ensures isService == old(isService) && isReady == old(isReady)
      ensures Step(Ident(), old(Snapshot()), Session.OnMessage(msgId, callback)) == (Ok, Snapshot())
    {
      calls := calls + [RegisterMessage(Endpoint(), msgId, CallbackOrDefault(callback))];
    }

    /** Subscribes to an event, then registers a handler for it. */
    method OnEvent(eventId: int, callback: Option<Callback>)
      modifies this
      ensures callback.None? ==> calls == old(calls) + [RequestEventService(Endpoint(), eventId, group, major, minor),
                                                        RegisterMessage(Endpoint(), eventId, SessionCallback)]
      ensures callback.Some? ==> calls == old(calls) + [RequestEventService(Endpoint(), eventId, group, major, minor),
                                                        RegisterMessage(Endpoint(), eventId, callback.value)]
      ensures isService == old(isService) && isReady == old(isReady)
      ensures Step(Ident(), old(Snapshot()), Session.OnEvent(eventId, callback)) == (Ok, Snapshot())
    {
      var cb := CallbackOrDefault(callback);
      calls := calls + [RequestEventService(Endpoint(), eventId, group, major, minor)];
      OnMessage(eventId, Some(cb));
    }

    /**
     * Makes the session a service, then offers each event in turn, or the
     * service itself when there are no events.
     */
    method Offer(events: Option<seq<int>>)
      modifies this
      ensures isService && isReady == old(isReady)
      ensures calls == old(calls) + OfferCalls(Ident(), events)
      ensures Step(Ident(), old(Snapshot()), Session.Offer(events)) == (Ok, Snapshot())
    {
      isService := true;
      if events.Some? && |events.value| > 0 {
        var evs := events.value;
        for i := 0 to |evs|
          invariant isService && isReady == old(isReady)
          invariant calls == old(calls) + EventOffers(Endpoint(), evs[..i], group)
        {
          calls := calls + [OfferEventService(Endpoint(), evs[i], group)];
          assert evs[..i + 1][..i] == evs[..i];
        }
        assert evs[..|evs|] == evs;
      } else {
        calls := calls + [OfferService(Endpoint(), major, minor)];
      }
    }

    /** Publishes an event; only a service may. No data sends one zero byte. */
    method Notify(eventId: int, data: Option<Payload>) returns (outcome: Outcome)
      modifies this
      ensures !old(isService) ==> outcome == UserWarning(NotifyWarning) && calls == old(calls)
      ensures old(isService) && data.None? ==>
                outcome == Ok && calls == old(calls) + [NotifyClients(Endpoint(), eventId, [0x00])]
      ensures old(isService) && data.Some? ==>
                outcome == Ok && calls == old(calls) + [NotifyClients(Endpoint(), eventId, data.value)]
      ensures isService == old(isService) && isReady == old(isReady)
      ensures Step(Ident(), old(Snapshot()), Session.Notify(eventId, data)) == (outcome, Snapshot())
    {
      if !isService {
        return UserWarning(NotifyWarning);
      }
      var payload := PayloadOrNull(data);
      calls := calls + [NotifyClients(Endpoint(), eventId, payload)];
      outcome := Ok;
    }
  }
}
