/**
 * `make_pendo_request`: one authenticated call to the Pendo REST API whose
 * every failure collapses into "no data". The network is the parameter
 * `server`, which maps the call that leaves the process to the reply that
 * comes back; the integration-key header and the 30-second timeout are
 * the same on every call and are not modelled.
 */
module PendoRequest {
  import opened PyJson

  const ApiBase := "https://app.pendo.io"

  /** A call as it goes out: GET sends query parameters, POST a JSON body. */
  datatype HttpCall =
    | HttpGet(url: string, params: seq<(string, string)>)
    | HttpPost(url: string, body: Option<Json>)

  /**
   * What comes back: a response with its status and its body decoded as
   * JSON (`None` when the body is not JSON), or a failure of the transport
   * itself (connection refused, timeout).
   */
  datatype HttpReply =
    | Response(status: int, body: Option<Json>)
    | TransportFailure

  /** The call that was issued, if any, and the data handed to the tool. */
  datatype Fetch = Fetch(call: Option<HttpCall>, data: Option<Json>)

  /**
   * `raise_for_status()` then `response.json()`, inside the handlers that
   * turn every exception into `None`. The HTTP client raises for every
   * status outside 200-299.
   */
  function ResponseData(reply: HttpReply): (r: Option<Json>)
    ensures r.Some? <==> reply.Response? && 200 <= reply.status < 300 && reply.body.Some?
    ensures r.Some? ==> r == reply.body
  {
    match reply
    case TransportFailure => None
    case Response(status, body) => if 200 <= status < 300 then body else None
  }

  /**
   * The whole helper. The HTTP method is `verb`: only "GET" and "POST"
   * reach the network; any other method returns `None` without a call.
   */
  function MakePendoRequest(endpoint: string, verb: string, params: seq<(string, string)>,
                            jsonBody: Option<Json>, server: HttpCall -> HttpReply): (r: Fetch)
    ensures r.call.Some? <==> verb == "GET" || verb == "POST"
    ensures verb == "GET" ==> r.call == Some(HttpGet(ApiBase + endpoint, params))
    ensures verb == "POST" ==> r.call == Some(HttpPost(ApiBase + endpoint, jsonBody))
    ensures r.call.None? ==> r.data.None?
    ensures r.call.Some? ==> r.data == ResponseData(server(r.call.value))
  {
    var url := ApiBase + endpoint;
    if verb == "GET" then
      var call := HttpGet(url, params);
      Fetch(Some(call), ResponseData(server(call)))
    else if verb == "POST" then
      var call := HttpPost(url, jsonBody);
      Fetch(Some(call), ResponseData(server(call)))
    else
      Fetch(None, None)
  }
}
