/** The two reachability probes of the health checker: one HTTP request to a
    pool's dashboard API, and one TCP port scan of a stratum port.  The network,
    the port scanner and the JSON parser are not modelled; what they answered on
    one attempt is supplied as a value. */
module Probes {

  datatype Option<T> = None | Some(value: T)

  /** A parsed JSON document (what JSON.parse returns). */
  datatype Json =
    | JNull
    | JBool(b: bool)
    | JNumber(n: int)
    | JString(s: string)
    | JArray(items: seq<Json>)
    | JObject(members: seq<(string, Json)>)

  /** What JSON.parse did with a received body: returned a document, or threw
      an exception with the given `name`. */
  datatype ParseOutcome = Parsed(json: Json) | Threw(name: string)

  /** What one HTTP GET answered: a transport error (timeout, refused
      connection, DNS failure), or a body together with what parsing it gave. */
  datatype WebAttempt =
    | TransportError(reason: string)
    | Received(body: string, parse: ParseOutcome)

  /** The `error` property of the object checkAPI returns: the transport
      error itself, or the name of the parse exception. */
  datatype ApiError = Transport(reason: string) | ExceptionName(name: string)

  /** The object checkAPI returns, with its three optional properties. */
  datatype ApiData = ApiData(error: Option<ApiError>, body: Option<string>, json: Option<Json>)

  const SyntaxError: string := "SyntaxError"

  /** Reference definition of a successful web attempt: a body arrived and
      parsing it did not throw a SyntaxError. */
  predicate WebAttemptSucceeds(a: WebAttempt) {
    a.Received? && a.parse != Threw(SyntaxError)
  }

  /** checkAPI: builds the result object from the transport answer, then
      tries to parse the body and records the parse result in place. */
  method CheckApi(reply: WebAttempt) returns (data: ApiData)
    ensures data.error.None? <==> WebAttemptSucceeds(reply)
    ensures reply.TransportError? ==> data == ApiData(Some(Transport(reply.reason)), None, None)
    ensures reply.Received? ==> data.body == Some(reply.body)
    ensures reply.Received? && reply.parse.Parsed? ==> data == ApiData(None, Some(reply.body), Some(reply.parse.json))
    ensures reply.Received? && reply.parse == Threw(SyntaxError) ==>
              data == ApiData(Some(ExceptionName(SyntaxError)), Some(reply.body), None)
    // any other exception is only logged: no error, no json
    ensures reply.Received? && reply.parse.Threw? && reply.parse.name != SyntaxError ==>
              data == ApiData(None, Some(reply.body), None)
  {
    match reply {
      case TransportError(e) =>
        data := ApiData(Some(Transport(e)), None, None);
      case Received(b, _) =>
        data := ApiData(None, Some(b), None);
    }
    if data.error.None? {
      match reply.parse {
        case Parsed(j) =>
          data := data.(json := Some(j));
        case Threw(name) =>
          if name == SyntaxError {
            data := data.(error := Some(ExceptionName(name)));
          }
      }
    }
  }

  /** What the port scanner's promise settled to: a status string ('open',
      'closed', ...) or a rejection. */
  datatype ScanOutcome = PortStatus(status: string) | ScanRejected(reason: string)

  const Open: string := "open"

  /** checkStratum: a rejected scan is caught and becomes `false`; the result
      is `portStatus === 'open'`. */
  function CheckStratum(scan: ScanOutcome): (up: bool)
    ensures up <==> scan == PortStatus(Open)
    ensures scan.ScanRejected? ==> !up
  {
    match scan
    case PortStatus(status) => status == Open
    case ScanRejected(_) => false
  }
}
