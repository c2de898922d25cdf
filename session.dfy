/**
 * The session's behaviour as a function of its state: the role flag, the
 * ready flag and the calls issued so far. The class in module Vsomeip is
 * proved against `Step`; the lemmas here are about whole call sequences.
 */
module Session {
  import opened Wrappers
  import opened Boundary

  /** What a session passes to every native call besides the payload. */
  datatype Identity = Identity(app: App, major: int, minor: int, group: int)

  /** `isService` is the role flag (Python's None reads as false). */
  datatype State = State(isService: bool, isReady: bool, calls: seq<Call>)

  /** The session's operations, with Python's optional arguments as Options. */
  datatype Op =
    | StartApp
    | StopApp
    | Register
    | Request(id: int, data: Option<Payload>)
    | OnMessage(id: int, callback: Option<Callback>)
    | OnEvent(id: int, callback: Option<Callback>)
    | Offer(events: Option<seq<int>>)
    | Notify(id: int, data: Option<Payload>)

  /** Success, or the UserWarning the operation raises. */
  datatype Outcome = Ok | UserWarning(message: string)

  const RegisterWarning: string := "client registers, service offer"
  const RequestWarning: string := "client requests, service responds"
  const NotifyWarning: string := "client consumes event"

  /** The one-byte payload sent when the caller gives none. */
  const NullPayload: Payload := [0x00]

  /** The group every event is offered in and requested from. */
  const DefaultGroup: int := 0x00

  function PayloadOrNull(data: Option<Payload>): Payload
  {
    match data
    case Some(d) => d
    case None => NullPayload
  }

  function CallbackOrDefault(callback: Option<Callback>): Callback
  {
    match callback
    case Some(cb) => cb
    case None => SessionCallback
  }

  /** The events an `offer` iterates over (None offers none). */
  function EventList(events: Option<seq<int>>): seq<int>
  {
    match events
    case Some(evs) => evs
    case None => []
  }

  /** One `offer_event_service` per event, in the order of the list. */
  function EventOffers(app: App, events: seq<int>, group: int): (r: seq<Call>)
    ensures |r| == |events|
    ensures forall k :: 0 <= k < |r| ==> r[k] == OfferEventService(app, events[k], group)
  {
    if events == [] then []
    else EventOffers(app, events[..|events| - 1], group) + [OfferEventService(app, events[|events| - 1], group)]
  }

  /**
   * The calls one `offer` issues: one event offer per event when the list is
   * non-empty, otherwise a single service offer.
   */
  function OfferCalls(id: Identity, events: Option<seq<int>>): (r: seq<Call>)
    ensures |r| >= 1
    ensures forall k :: 0 <= k < |r| ==> IsOffer(r[k])
    ensures |EventList(events)| > 0 ==> r == EventOffers(id.app, EventList(events), id.group)
    ensures |EventList(events)| == 0 ==> r == [OfferService(id.app, id.major, id.minor)]
  {
    var evs := EventList(events);
    if |evs| > 0 then EventOffers(id.app, evs, id.group)
    else [OfferService(id.app, id.major, id.minor)]
  }

  /**
   * The reply of the session's default callback: a service echoes the
   * payload as its response, a non-service gives none, whatever the message
   * type and id.
   */
  function DefaultReply(isService: bool, msgType: int, msgId: int, data: Payload): (r: Option<Payload>)
    ensures isService ==> r == Some(data)
    ensures !isService ==> r == None
  {
    if isService then Some(data) else None
  }

  /** A freshly constructed session: no role, not ready, the application created. */
  function Init(app: App): State
  {
    State(false, false, [Create(app)])
  }

  /**
   * One operation. A raised warning leaves the state as it was; only `Offer`
   * writes the role, and always to service; only start and stop write the
   * ready flag; calls are only ever appended.
   */
  function Step(id: Identity, s: State, op: Op): (r: (Outcome, State))
    ensures r.0.UserWarning? <==> (s.isService && (op.Register? || op.Request?)) || (!s.isService && op.Notify?)
    ensures r.0.UserWarning? ==> r.1 == s
    ensures r.1.isService == (s.isService || op.Offer?)
    ensures r.1.isReady == (if op.StartApp? then true else if op.StopApp? then false else s.isReady)
    ensures |s.calls| <= |r.1.calls| && r.1.calls[..|s.calls|] == s.calls
  {
    match op
    case StartApp =>
      (Ok, s.(isReady := true, calls := s.calls + [Start(id.app)]))
    case StopApp =>
      (Ok, s.(isReady := false, calls := s.calls + [Stop(id.app)]))
    case Register =>
      if s.isService then (UserWarning(RegisterWarning), s)
      else (Ok, s.(calls := s.calls + [RequestService(id.app, id.major, id.minor)]))
    case Request(m, data) =>
      if s.isService then (UserWarning(RequestWarning), s)
      else (Ok, s.(calls := s.calls + [SendService(id.app, m, PayloadOrNull(data))]))
    case OnMessage(m, cb) =>
      (Ok, s.(calls := s.calls + [RegisterMessage(id.app, m, CallbackOrDefault(cb))]))
    case OnEvent(e, cb) =>
      (Ok, s.(calls := s.calls + [RequestEventService(id.app, e, id.group, id.major, id.minor),
                                  RegisterMessage(id.app, e, CallbackOrDefault(cb))]))
    case Offer(events) =>
      (Ok, s.(isService := true, calls := s.calls + OfferCalls(id, events)))
    case Notify(e, data) =>
      if !s.isService then (UserWarning(NotifyWarning), s)
      else (Ok, s.(calls := s.calls + [NotifyClients(id.app, e, PayloadOrNull(data))]))
  }

  /** The state after a sequence of operations (raised warnings are ignored). */
  function Run(id: Identity, s: State, ops: seq<Op>): State
    decreases |ops|
  {
    if ops == [] then s else Run(id, Step(id, s, ops[0]).1, ops[1..])
  }

  /** Some operation in `ops` is an offer. */
  ghost predicate Offers(ops: seq<Op>)
  {
    exists k :: 0 <= k < |ops| && ops[k].Offer?
  }

  /** Some call in `calls` is an offer. */
  ghost predicate HasOffer(calls: seq<Call>)
  {
    exists k :: 0 <= k < |calls| && IsOffer(calls[k])
  }

  /**
   * The role rules, read off the call log: no client request follows an
   * offer, and every notification follows one.
   */
  ghost predicate RoleRespected(calls: seq<Call>)
  {
    (forall i, j :: 0 <= i < j < |calls| && IsOffer(calls[i]) ==> !IsClientRequest(calls[j])) &&
    (forall j :: 0 <= j < |calls| && calls[j].NotifyClients? ==> HasOffer(calls[..j]))
  }

  /** The role flag is set exactly when the log holds an offer, and the log respects the roles. */
  ghost predicate Consistent(s: State)
  {
    RoleRespected(s.calls) && (s.isService <==> HasOffer(s.calls))
  }

  /** The role after a run is service exactly when it was already, or the run offered. */
  lemma {:induction false} RunRole(id: Identity, s: State, ops: seq<Op>)
    ensures Run(id, s, ops).isService == (s.isService || Offers(ops))
    decreases |ops|
  {
    if ops != [] {
      var next := Step(id, s, ops[0]).1;
      RunRole(id, next, ops[1..]);
      if Offers(ops[1..]) {
        var k :| 0 <= k < |ops[1..]| && ops[1..][k].Offer?;
        assert ops[k + 1].Offer?;
      }
      if Offers(ops) && !ops[0].Offer? {
        var k :| 0 <= k < |ops| && ops[k].Offer?;
        assert ops[1..][k - 1].Offer?;
      }
    }
  }

  /** A run only appends to the call log. */
  lemma {:induction false} RunAppendOnly(id: Identity, s: State, ops: seq<Op>)
    ensures |s.calls| <= |Run(id, s, ops).calls|
    ensures Run(id, s, ops).calls[..|s.calls|] == s.calls
    decreases |ops|
  {
    if ops != [] {
      var next := Step(id, s, ops[0]).1;
      RunAppendOnly(id, next, ops[1..]);
      assert Run(id, s, ops).calls[..|next.calls|][..|s.calls|] == s.calls;
    }
  }

  /** Appending calls that bring neither a client request nor a notification keeps the roles respected. */
  lemma AppendPassive(calls: seq<Call>, extra: seq<Call>)
    requires RoleRespected(calls)
    requires forall k :: 0 <= k < |extra| ==> !IsClientRequest(extra[k]) && !extra[k].NotifyClients?
    ensures RoleRespected(calls + extra)
  {
    var all := calls + extra;
    forall j | 0 <= j < |all| && all[j].NotifyClients?
      ensures HasOffer(all[..j])
    {
      assert j < |calls|;
      assert all[..j] == calls[..j];
    }
  }

  /** Appending one call keeps the roles respected when the log allows it. */
  lemma AppendOne(calls: seq<Call>, c: Call)
    requires RoleRespected(calls)
    requires IsClientRequest(c) ==> !HasOffer(calls)
    requires c.NotifyClients? ==> HasOffer(calls)
    ensures RoleRespected(calls + [c])
  {
    var all := calls + [c];
    forall i, j | 0 <= i < j < |all| && IsOffer(all[i])
      ensures !IsClientRequest(all[j])
    {
      if j == |calls| {
        assert IsOffer(calls[i]);
      }
    }
    forall j | 0 <= j < |all| && all[j].NotifyClients?
      ensures HasOffer(all[..j])
    {
      if j == |calls| {
        assert all[..j] == calls;
      } else {
        assert all[..j] == calls[..j];
      }
    }
  }

  /** Appending calls that hold no offer does not add one. */
  lemma HasOfferAppend(calls: seq<Call>, extra: seq<Call>)
    requires forall k :: 0 <= k < |extra| ==> !IsOffer(extra[k])
    ensures HasOffer(calls + extra) == HasOffer(calls)
  {
    if HasOffer(calls + extra) {
      var k :| 0 <= k < |calls + extra| && IsOffer((calls + extra)[k]);
      assert k < |calls|;
      assert IsOffer(calls[k]);
    }
    if HasOffer(calls) {
      var k :| 0 <= k < |calls| && IsOffer(calls[k]);
      assert IsOffer((calls + extra)[k]);
    }
  }

  /** Appending calls that are neither offers, client requests nor notifications keeps a state consistent. */
  lemma AppendPassiveConsistent(s: State, r: State, extra: seq<Call>)
    requires Consistent(s)
    requires r.isService == s.isService && r.calls == s.calls + extra
    requires forall k :: 0 <= k < |extra| ==> !IsOffer(extra[k]) && !IsClientRequest(extra[k]) && !extra[k].NotifyClients?
    ensures Consistent(r)
  {
    AppendPassive(s.calls, extra);
    HasOfferAppend(s.calls, extra);
  }

  /** Appending one call that the role allows keeps a state consistent. */
  lemma AppendAllowedConsistent(s: State, r: State, c: Call)
    requires Consistent(s)
    requires r.isService == s.isService && r.calls == s.calls + [c]
    requires !IsOffer(c)
    requires IsClientRequest(c) ==> !s.isService
    requires c.NotifyClients? ==> s.isService
    ensures Consistent(r)
  {
    AppendOne(s.calls, c);
    HasOfferAppend(s.calls, [c]);
  }

  /** An offer keeps a state consistent. */
  lemma OfferConsistent(id: Identity, s: State, events: Option<seq<int>>)
    requires Consistent(s)
    ensures Consistent(Step(id, s, Offer(events)).1)
  {
    var extra := OfferCalls(id, events);
    var r := Step(id, s, Offer(events)).1;
    assert r.calls == s.calls + extra;
    AppendPassive(s.calls, extra);
    assert IsOffer(r.calls[|s.calls|]);
  }

  /** Every operation keeps the role flag and the log consistent. */
  lemma StepConsistent(id: Identity, s: State, op: Op)
    requires Consistent(s)
    ensures Consistent(Step(id, s, op).1)
  {
    var r := Step(id, s, op).1;
    match op
    case StartApp =>
      AppendPassiveConsistent(s, r, [Start(id.app)]);
    case StopApp =>
      AppendPassiveConsistent(s, r, [Stop(id.app)]);
    case OnMessage(m, cb) =>
      AppendPassiveConsistent(s, r, [RegisterMessage(id.app, m, CallbackOrDefault(cb))]);
    case OnEvent(e, cb) =>
      AppendPassiveConsistent(s, r, [RequestEventService(id.app, e, id.group, id.major, id.minor),
                                     RegisterMessage(id.app, e, CallbackOrDefault(cb))]);
    case Offer(events) =>
      OfferConsistent(id, s, events);
    case Register =>
      if !s.isService {
        AppendAllowedConsistent(s, r, RequestService(id.app, id.major, id.minor));
      }
    case Request(m, data) =>
      if !s.isService {
        AppendAllowedConsistent(s, r, SendService(id.app, m, PayloadOrNull(data)));
      }
    case Notify(e, data) =>
      if s.isService {
        AppendAllowedConsistent(s, r, NotifyClients(id.app, e, PayloadOrNull(data)));
      }
  }

  /** Every run keeps the role flag and the log consistent. */
  lemma {:induction false} RunConsistent(id: Identity, s: State, ops: seq<Op>)
    requires Consistent(s)
    ensures Consistent(Run(id, s, ops))
    decreases |ops|
  {
    if ops != [] {
      StepConsistent(id, s, ops[0]);
      RunConsistent(id, Step(id, s, ops[0]).1, ops[1..]);
    }
  }

  /**
   * Whatever a freshly constructed session is asked to do, its log never
   * shows a register or request after an offer, and never a notification
   * before one.
   */
  lemma FreshSessionRespectsRoles(id: Identity, ops: seq<Op>)
    ensures RoleRespected(Run(id, Init(id.app), ops).calls)
    ensures Run(id, Init(id.app), ops).isService <==> HasOffer(Run(id, Init(id.app), ops).calls)
  {
    var s := Init(id.app);
    assert !IsOffer(s.calls[0]);
    assert Consistent(s);
    RunConsistent(id, s, ops);
  }

  /**
   * After any sequence of operations on a new session, the default callback
   * echoes a payload exactly when the sequence holds an offer.
   */
  lemma DefaultReplyAfterRun(id: Identity, ops: seq<Op>, msgType: int, msgId: int, data: Payload)
    ensures Offers(ops) ==> DefaultReply(Run(id, Init(id.app), ops).isService, msgType, msgId, data) == Some(data)
    ensures !Offers(ops) ==> DefaultReply(Run(id, Init(id.app), ops).isService, msgType, msgId, data) == None
  {
    RunRole(id, Init(id.app), ops);
  }

  /** Offering the same events twice issues the offer calls twice: there is no deduplication. */
  lemma RepeatedOfferIsNotDeduplicated(id: Identity, s: State, events: Option<seq<int>>)
    ensures Run(id, s, [Offer(events), Offer(events)]).calls == s.calls + OfferCalls(id, events) + OfferCalls(id, events)
    ensures Run(id, s, [Offer(events), Offer(events)]).isService
  {
    var once := Step(id, s, Offer(events)).1;
    assert [Offer(events), Offer(events)][1..] == [Offer(events)];
    assert Run(id, once, [Offer(events)]) == Step(id, once, Offer(events)).1;
  }
}
