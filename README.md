# someip_adapter session model

A Dafny model of the `SOMEIP` session class of `someip_adapter` (file
`someip_adapter/vsomeip.py`). The class is a thin Python wrapper around the
native vsomeip binding. It holds a role flag (`_is_service`), a ready flag
(`_is_ready`) and the configuration document it chose at construction. Most
of its methods issue calls into the binding, and some of them refuse to run
for the wrong role. `configuration()`, `callback` and the static `default()`
issue none.

The binding itself is not modelled. A session instead keeps the log of native
calls it has issued (`calls`, a sequence of `Boundary.Call`), and every
contract says which calls are appended, in which order, and when none is.

Modules:

- `Wrappers`: `Option`, for Python's `None` arguments.
- `MessageTypes`: the `Message_Type` enumeration. It mirrors the native
  binding's message-type enumeration. Its values are those of the Message
  Type field of the SOME/IP header (AUTOSAR SOME/IP Protocol Specification,
  section 4.1.2.7), without the TP variants, plus the binding's own `Unknown`
  sentinel 0xFF.
- `Configuration`: the JSON document, the default built from a template, and
  the choice between the caller's document and the default.
- `Boundary`: the native calls, the application triple `(name, service,
  instance)` and the callback values handed to the binding.
- `Session`: the session as a pure state machine. `Step` gives the outcome
  and the new state of one operation, and `Run` applies a sequence of them.
  The lemmas here are about whole sequences: the role rules seen in the call
  log, when the role is set, that the log is append-only, and that repeated
  offers are not deduplicated.
- `Vsomeip`: the class `Someip`. Its fields are the source's identity,
  version, group, role flag, ready flag and configuration; the native module
  handle and the unused lock are not fields. The constructor is proved to
  produce `Session.Init`. `Start`, `Stop`, `Register`, `Request`,
  `OnMessage`, `OnEvent`, `Offer` and `Notify` are each proved to do what
  `Session.Step` says of their operation. `ConfigurationInUse` and
  `DefaultCallback` change nothing and are not `Step` operations. The static
  `default()` is `Configuration.Default`, outside the class.
- `Scenarios`: the call sequences the repository's tests drive.

A raised `UserWarning` is modelled as the outcome `UserWarning(message)`,
with the source's message text. It leaves the state and the call log
unchanged.

## Model

| member | source | states |
|---|---|---|
| `MessageTypes.FromCode` | someip_adapter/vsomeip.py:21-32 | Value lookup in the enumeration. A result is the member with that code. No result means no member has that code. 0xFF is `Unknown` like any other member; it does not catch other values. |
| `MessageTypes.CodeInjective` | someip_adapter/vsomeip.py:21-32 | Two members have the same code exactly when they are the same member. |
| `MessageTypes.FromCodeRoundTrip` | someip_adapter/vsomeip.py:21-32 | Looking up a member's code gives that member back. |
| `MessageTypes.Ack` | someip_adapter/vsomeip.py:22-31 | REQUEST, REQUEST_NO_RETURN, NOTIFICATION, RESPONSE and ERROR each have an acknowledgement variant. Its code is the base code with bit 0x40 set, and the base code has that bit clear. |
| `Configuration.Default` | someip_adapter/vsomeip.py:91-104 | The default document is the template with `unicast` set to 127.0.0.1, or to the host's resolved address on Windows. Every other key of the template is kept unchanged. |
| `Configuration.Select` | someip_adapter/vsomeip.py:68-70 | A non-empty caller document is kept as it is. An empty one leaves the default. |
| `Configuration.CallerDocumentIsNotMerged` | someip_adapter/vsomeip.py:68-70 | Nothing is merged: a caller document without `unicast` still has none, although the default always does. |
| `Session.EventOffers` | someip_adapter/vsomeip.py:192-194 | One `offer_event_service` per event, with the session's group, in list order. |
| `Session.OfferCalls` | someip_adapter/vsomeip.py:192-196 | An offer issues at least one call, and every call it issues is an offer. A non-empty event list gives the event offers. None or an empty list gives a single `offer_service` with the session's version. |
| `Session.Step` | someip_adapter/vsomeip.py:113-210 | An operation raises exactly when register or request runs on a service, or notify on a non-service. A raise changes nothing. The role afterwards is service exactly when it was before or the operation is an offer. Only start sets the ready flag and only stop clears it. Calls are only appended. |
| `Session.RunRole` | someip_adapter/vsomeip.py:190 | After any sequence of operations, the session is a service exactly when it already was or the sequence holds an offer. |
| `Session.RunAppendOnly` | someip_adapter/vsomeip.py:113-210 | A sequence of operations only appends to the call log. |
| `Session.StepConsistent` | someip_adapter/vsomeip.py:127-210 | Every operation preserves two facts. The role flag is set exactly when the log holds an offer call. The log has no register or request after an offer, and no notification before one. |
| `Session.RunConsistent` | someip_adapter/vsomeip.py:127-210 | The same two facts are preserved by any sequence of operations. |
| `Session.FreshSessionRespectsRoles` | someip_adapter/vsomeip.py:127-210 | Whatever a new session is asked to do, its log never shows a register or request after an offer, nor a notification before one. Its role is service exactly when its log holds an offer. |
| `Session.RepeatedOfferIsNotDeduplicated` | someip_adapter/vsomeip.py:185-196 | The same offer made twice issues its calls twice. |
| `Vsomeip.Someip.constructor` | someip_adapter/vsomeip.py:52-82 | Stores the identity, event group 0 and version. Starts with no role and not ready. Keeps the chosen configuration and issues exactly one `create`. |
| `Vsomeip.Someip.ConfigurationInUse` | someip_adapter/vsomeip.py:106-111 | Returns the caller's document when it was non-empty, and the default document otherwise. |
| `Vsomeip.Someip.Start` | someip_adapter/vsomeip.py:113-118 | Issues `start` and sets the ready flag. The role is unchanged. |
| `Vsomeip.Someip.Stop` | someip_adapter/vsomeip.py:120-125 | Issues `stop` and clears the ready flag. The role is unchanged. |
| `Vsomeip.Someip.Register` | someip_adapter/vsomeip.py:127-134 | A service gets the register warning and nothing is issued. Otherwise exactly one `request_service` with the session's version is issued. |
| `Vsomeip.Someip.Request` | someip_adapter/vsomeip.py:136-147 | A service gets the request warning and nothing is issued. Otherwise exactly one `send_service` is issued, carrying the given bytes unchanged, or the single byte 0x00 when none are given. |
| `Session.DefaultReply` | someip_adapter/vsomeip.py:158-161 | A service returns the payload unchanged. A non-service returns no response. The message type and id do not matter. |
| `Session.DefaultReplyAfterRun` | someip_adapter/vsomeip.py:158-161 | After any sequence of operations on a new session, the default callback echoes a payload exactly when the sequence holds an offer. |
| `Vsomeip.Someip.DefaultCallback` | someip_adapter/vsomeip.py:149-161 | Gives the `Session.DefaultReply` for the session's role at the time of the call. |
| `Vsomeip.Someip.OnMessage` | someip_adapter/vsomeip.py:163-171 | Issues one `register_message`, with the given callback or the session's default callback. |
| `Vsomeip.Someip.OnEvent` | someip_adapter/vsomeip.py:173-183 | Issues `request_event_service` with group 0 and the session's version, then `register_message` for the same id with the given callback or the default one. |
| `Vsomeip.Someip.Offer` | someip_adapter/vsomeip.py:185-196 | Sets the role to service whether or not events are given, then issues the offer calls of `Session.OfferCalls`. The loop is proved to issue one call per event, in order. |
| `Vsomeip.Someip.Notify` | someip_adapter/vsomeip.py:198-210 | A non-service gets the notify warning and nothing is issued. A service issues exactly one `notify_clients`, carrying the given bytes, or 0x00 when none are given. |
| `Scenarios.ServiceRefusesClientOperations` | someip_adapter/tests/test_service.py:10-30 | After `offer()`, `start()` and `offer([0x8778])`, the log is create, offer_service, start, offer_event_service(0x8778). Register and request then raise and leave the session as it was. |
| `Scenarios.ClientRequestsAndMayNotNotify` | someip_adapter/tests/test_client.py:16-76 | A client that starts, registers and requests method 0x9002 with bytes 1, 2, 3 passes exactly those bytes to `send_service`. A notify from it raises. |
| `Scenarios.NotifyBeforeOfferFails` | someip_adapter/vsomeip.py:205-206 | Notify on a new session raises and issues nothing. |

## Notes on the code's behaviour

- A non-empty caller document replaces the default wholesale. Nothing is
  merged (`Configuration.CallerDocumentIsNotMerged`).
- There is no routing election or release. The lock created at
  someip_adapter/vsomeip.py:72 is never used, and `stop` only stops the
  application and clears the ready flag. Routing is set only where an example
  program writes the `routing` key by hand.
- `request` takes no transport hint, and none is passed to `send_service`
  (someip_adapter/vsomeip.py:147).
- UNKNOWN is an ordinary member with value 0xFF. Looking up any other
  unlisted value fails (`MessageTypes.FromCode`).
- Repeated offers are not deduplicated
  (`Session.RepeatedOfferIsNotDeduplicated`).

## Left out

- Stale lock purge (`_purge`, someip_adapter/vsomeip.py:36-50) and the `force` flag that triggers it: directory listing, file removal and sleeping are I/O.
- `Vsomeip.Someip.ConfigurationInUse`: the document is a value. The source keeps the caller's dict by reference and `configuration()` returns that same object, so later mutations by the caller, or of the returned dict, are not modelled.
- `Vsomeip.Someip.constructor`: every argument is required. In the source, `configuration` and `version` are optional; leaving them out corresponds to an empty `given` and `major = minor = 0` here.
- Writing `vsomeip.json` in the constructor (someip_adapter/vsomeip.py:79-80): file I/O. The code dumps its `configuration` argument, not the document it kept, so with no caller document it writes `{}`. The model does not track the file.
- Reading the template file and resolving the host name in `default()` (someip_adapter/vsomeip.py:98-103): the template and the Windows host address are parameters of `Configuration.Default`.
- The native binding (`vsomeip_ext`): its effects, its threads and the delivery of callbacks are not modelled. Only the fact and order of the calls are.
- User callbacks are opaque tokens (`Boundary.UserCallback`). The default callback is recorded as `SessionCallback`. It is the bound method, so when invoked it reads the role at that time (`Vsomeip.Someip.DefaultCallback`), not at registration time.
- `Vsomeip.Someip.DefaultCallback`: its `print` of the message is output only and is left out.
- The unused lock, the no-op `__del__` and packaging (`setup.py`).
- The class-level `_configuration = {}` attribute is shadowed by the instance attribute in every constructor. It is left out.
- `request` sends the Python list `[0x00]` and `notify` sends `bytearray([0x00])`. Both are the single byte 0x00 here; the difference in Python type is not modelled.
- Identifiers and versions are unbounded integers: the code does no range checks, and what the binding does with out-of-range values is outside the model.
- JSON numbers are integers only; floating-point values in a configuration document are not modelled.
- Test helpers that call members absent from `vsomeip.py` (a static `configuration()`, `create()`, `callback_message` in someip_adapter/tests/test_base.py) are stale and are not modelled.
