/**
 * The HTTP handler: method and configuration gating, the one upstream request,
 * the status and body sent back, and the response object the handler writes to.
 */
module Handler {
  import opened Wrappers
  import opened JsValues
  import opened EventMapping

  const MethodNotAllowedMessage := "Method not allowed"
  const MissingKeyMessage := "Missing TT_API_KEY env var"
  const ApiErrorMessage := "Ticket Tailor API error"
  const ServerErrorMessage := "Server error"
  const EventsEndpoint := "https://api.tickettailor.com/v1/events"

  /** What the early checks decide before anything is fetched. */
  datatype Decision = Preflight | MethodNotAllowed | MissingKey | Proceed(apiKey: string)

  /** The value `process.env.TT_API_KEY` reads as: undefined when unset, else a string. */
  function EnvValue(apiKey: Option<string>): Value {
    if apiKey.Some? then Def(JStr(apiKey.value)) else Undefined
  }

  /** The key passes `!apiKey` when it is truthy: set, and not the empty string. */
  predicate KeyPresent(apiKey: Option<string>)
    ensures KeyPresent(apiKey) <==> apiKey.Some? && apiKey.value != ""
  {
    Truthy(EnvValue(apiKey))
  }

  /** The three checks, in order: OPTIONS first, then GET-only, then the key. */
  function Gate(httpMethod: string, apiKey: Option<string>): (d: Decision)
    ensures d == Preflight <==> httpMethod == "OPTIONS"
    ensures d == MethodNotAllowed <==> httpMethod != "OPTIONS" && httpMethod != "GET"
    ensures d == MissingKey <==> httpMethod == "GET" && !KeyPresent(apiKey)
    ensures d.Proceed? <==> httpMethod == "GET" && KeyPresent(apiKey)
    ensures d.Proceed? ==> Some(d.apiKey) == apiKey
  {
    if httpMethod == "OPTIONS" then Preflight
    else if httpMethod != "GET" then MethodNotAllowed
    else if !KeyPresent(apiKey) then MissingKey
    else Proceed(apiKey.value)
  }

  /** Basic credentials for a key; the base64 encoding of the key is kept opaque. */
  datatype Credential = Basic(apiKey: string)

  /** The request the handler sends upstream. */
  datatype FetchRequest = FetchRequest(url: string, accept: string, authorization: Credential)

  /** The one request: the events endpoint, asking for JSON, with Basic credentials for the key. */
  function EventsRequest(apiKey: string): (r: FetchRequest)
    ensures r.url == "https://api.tickettailor.com/v1/events"
    ensures r.accept == "application/json"
    ensures r.authorization == Basic(apiKey)
  {
    FetchRequest(EventsEndpoint, "application/json", Basic(apiKey))
  }

  /** How the upstream exchange ended, as the handler observes it. */
  datatype Upstream =
    | Unreachable(reason: string)  // fetch rejected
    | NotOk(text: string)          // a non-ok status, with the body it sent as text
    | BadJson(reason: string)      // ok, but the body did not parse as JSON
    | OkJson(body: Json)           // ok, with the parsed body

  /**
   * The `details` of an error object: absent, a known text, or String(err) of
   * a TypeError the handler's own code raised, whose engine-specific text the
   * model does not fix.
   */
  datatype Details = Absent | Text(text: string) | EngineMessage

  /** A JSON error object: `error`, and its `details`. */
  datatype Body =
    | NoBody
    | ErrorBody(error: string, details: Details)
    | EventsBody(events: seq<Event>)

  datatype Reply = Reply(status: int, body: Body)

  /** The reply sent back and the upstream requests issued on the way. */
  datatype Outcome = Outcome(reply: Reply, requests: seq<FetchRequest>)

  /** The reply once the request has been issued. */
  function Respond(upstream: Upstream): (r: Reply)
    ensures r.status == 200 || r.status == 500
    ensures r.status == 200 <==> upstream.OkJson? && NormalizeBody(upstream.body).Ok?
    ensures r.status == 200 ==> r.body == EventsBody(NormalizeBody(upstream.body).value)
    ensures upstream.NotOk? ==> r == Reply(500, ErrorBody(ApiErrorMessage, Text(upstream.text)))
    ensures r.status == 500 && !upstream.NotOk? ==> r.body.ErrorBody? && r.body.error == ServerErrorMessage
  {
    match upstream
    case Unreachable(reason) => Reply(500, ErrorBody(ServerErrorMessage, Text(reason)))
    case NotOk(text) => Reply(500, ErrorBody(ApiErrorMessage, Text(text)))
    case BadJson(reason) => Reply(500, ErrorBody(ServerErrorMessage, Text(reason)))
    case OkJson(raw) =>
      match NormalizeBody(raw)
      case Ok(events) => Reply(200, EventsBody(events))
      case Err(_) => Reply(500, ErrorBody(ServerErrorMessage, EngineMessage))
  }

  /** The whole handler, given the method, the configured key and what upstream does. */
  function Handle(httpMethod: string, apiKey: Option<string>, upstream: Upstream): (o: Outcome)
    ensures httpMethod == "OPTIONS" ==> o == Outcome(Reply(200, NoBody), [])
    ensures httpMethod != "OPTIONS" && httpMethod != "GET" ==>
              o == Outcome(Reply(405, ErrorBody(MethodNotAllowedMessage, Absent)), [])
    ensures httpMethod == "GET" && !KeyPresent(apiKey) ==>
              o == Outcome(Reply(500, ErrorBody(MissingKeyMessage, Absent)), [])
    ensures httpMethod == "GET" && KeyPresent(apiKey) ==>
              o == Outcome(Respond(upstream), [EventsRequest(apiKey.value)])
    ensures |o.requests| <= 1
  {
    match Gate(httpMethod, apiKey)
    case Preflight => Outcome(Reply(200, NoBody), [])
    case MethodNotAllowed => Outcome(Reply(405, ErrorBody(MethodNotAllowedMessage, Absent)), [])
    case MissingKey => Outcome(Reply(500, ErrorBody(MissingKeyMessage, Absent)), [])
    case Proceed(key) => Outcome(Respond(upstream), [EventsRequest(key)])
  }

  /** Unless the request is a GET with a key, nothing is fetched, so upstream cannot matter. */
  lemma GatedReplyIgnoresUpstream(httpMethod: string, apiKey: Option<string>, u1: Upstream, u2: Upstream)
    requires !Gate(httpMethod, apiKey).Proceed?
    ensures Handle(httpMethod, apiKey, u1) == Handle(httpMethod, apiKey, u2)
    ensures Handle(httpMethod, apiKey, u1).requests == []
  {
  }

  /** A 200 reply to a GET carries a list only when upstream answered ok. */
  lemma NoListWithoutOkUpstream(apiKey: Option<string>, upstream: Upstream)
    requires Handle("GET", apiKey, upstream).reply.body.EventsBody?
    ensures KeyPresent(apiKey) && upstream.OkJson?
    ensures Handle("GET", apiKey, upstream).reply.status == 200
  {
  }

  /**
   * The response object the handler writes to: `res.status(code)` sets the
   * status, `res.json(body)` and `res.end()` send the response and finish it.
   */
  class ServerResponse {
    var statusCode: int
    var body: Body
    var ended: bool

    constructor ()
      ensures statusCode == 200 && body == NoBody && !ended
    {
      statusCode := 200;
      body := NoBody;
      ended := false;
    }

    method Status(code: int)
      modifies this
      ensures statusCode == code && body == old(body) && ended == old(ended)
    {
      statusCode := code;
    }

    method Json(b: Body)
      requires !ended
      modifies this
      ensures ended && body == b && statusCode == old(statusCode)
    {
      body := b;
      ended := true;
    }

    method End()
      requires !ended
      modifies this
      ensures ended && body == old(body) && statusCode == old(statusCode)
    {
      ended := true;
    }
  }

  /**
   * The handler as it runs: checks with early returns, one request upstream,
   * and exactly one response written. Returns the upstream requests it issued.
   */
  method Serve(res: ServerResponse, httpMethod: string, apiKey: Option<string>, upstream: Upstream)
    returns (requests: seq<FetchRequest>)
    requires !res.ended && res.body == NoBody
    modifies res
    ensures res.ended
    ensures Reply(res.statusCode, res.body) == Handle(httpMethod, apiKey, upstream).reply
    ensures requests == Handle(httpMethod, apiKey, upstream).requests
  {
    requests := [];
    if httpMethod == "OPTIONS" {
      res.Status(200);
      res.End();
      return;
    }
    if httpMethod != "GET" {
      res.Status(405);
      res.Json(ErrorBody(MethodNotAllowedMessage, Absent));
      return;
    }
    if !KeyPresent(apiKey) {
      res.Status(500);
      res.Json(ErrorBody(MissingKeyMessage, Absent));
      return;
    }
    requests := [EventsRequest(apiKey.value)];
    match upstream {
      case Unreachable(reason) =>
        res.Status(500);
        res.Json(ErrorBody(ServerErrorMessage, Text(reason)));
      case NotOk(text) =>
        res.Status(500);
        res.Json(ErrorBody(ApiErrorMessage, Text(text)));
      case BadJson(reason) =>
        res.Status(500);
        res.Json(ErrorBody(ServerErrorMessage, Text(reason)));
      case OkJson(raw) =>
        var normalized := NormalizeBody(raw);
        if normalized.Ok? {
          res.Status(200);
          res.Json(EventsBody(normalized.value));
        } else {
          res.Status(500);
          res.Json(ErrorBody(ServerErrorMessage, EngineMessage));
        }
    }
  }
}
