/**
 * The vsomeip configuration document kept by a session: the default built
 * from a template, and the choice between it and the caller's document.
 */
module Configuration {
  import opened Wrappers

  /** A JSON value (numbers are kept as integers). */
  datatype Json =
    | Null
    | Bool(b: bool)
    | Num(n: int)
    | Str(s: string)
    | List(items: seq<Json>)
    | Dict(members: map<string, Json>)

  /** A configuration document: the top-level JSON object. */
  type Document = map<string, Json>

  const UnicastKey: string := "unicast"
  const Loopback: string := "127.0.0.1"

  /**
   * The default document: the template with its unicast address set to the
   * loopback address, or, on Windows, to the address the host name resolves
   * to (`hostAddress`, None on every other platform).
   */
  function Default(template: Document, hostAddress: Option<string>): (r: Document)
    ensures r.Keys == template.Keys + {UnicastKey}
    ensures hostAddress.None? ==> r[UnicastKey] == Str(Loopback)
    ensures hostAddress.Some? ==> r[UnicastKey] == Str(hostAddress.value)
    ensures forall k :: k in template && k != UnicastKey ==> r[k] == template[k]
  {
    var address := match hostAddress
      case Some(a) => a
      case None => Loopback;
    template[UnicastKey := Str(address)]
  }

  /**
   * The document a session keeps: a non-empty caller document replaces the
   * default wholesale, an empty one leaves the default.
   */
  function Select(defaults: Document, given: Document): (r: Document)
    ensures |given| > 0 ==> r == given
    ensures |given| == 0 ==> r == defaults
  {
    if |given| > 0 then given else defaults
  }

  /**
   * There is no merge: a caller document without a unicast address keeps
   * none, although the default always has one.
   */
  lemma CallerDocumentIsNotMerged(template: Document, hostAddress: Option<string>, given: Document)
    requires |given| > 0 && UnicastKey !in given
    ensures UnicastKey in Default(template, hostAddress)
    ensures UnicastKey !in Select(Default(template, hostAddress), given)
  {
  }
}
