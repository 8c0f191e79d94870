/** `netlify/functions/n8n-proxy.js`: the serverless function that relays a request to the n8n
    instance. The relayed request is an input: `fetch` maps the outgoing request to what the upstream
    answers, `content-type` header and body text already read, or to the rejection of `fetch` or of
    `res.text()`, which the handler does not catch. */
module Proxy {
  import opened Wrappers
  import opened Strings

  const FunctionPrefix := "/.netlify/functions/n8n-proxy"
  const UpstreamBase := "https://a570-2a00-a041-e569-1e00-fc03-a411-513d-3bb9.ngrok-free.app"
  const Json := "application/json"

  type Headers = map<string, string>

  /** The fields of the Netlify event the handler reads; `body` is `null` when absent. */
  datatype Event = Event(path: string, httpMethod: string, headers: Headers, body: Option<string>)

  /** The `fetch` call: URL and options; a `None` body is `undefined`. */
  datatype UpstreamRequest = UpstreamRequest(url: string, httpMethod: string, headers: Headers, body: Option<string>)

  /** The upstream answer: status, the `content-type` header (`null` when absent) and the body text. */
  datatype UpstreamResponse = UpstreamResponse(status: int, contentType: Option<string>, text: string)

  /** The object the handler returns. */
  datatype ProxyResponse = ProxyResponse(statusCode: int, headers: Headers, body: string)

  /** `event.path.replace('/.netlify/functions/n8n-proxy', '')`: the first occurrence is removed, and a
      path without the prefix is relayed unchanged. */
  function Endpoint(path: string): (r: string)
    ensures !Contains(path, FunctionPrefix) ==> r == path
    ensures Contains(path, FunctionPrefix) ==> |r| == |path| - |FunctionPrefix|
  {
    ReplaceFirst(path, FunctionPrefix, "")
  }

  /** A path under the function's own prefix is relayed as the rest of the path. */
  lemma EndpointOfPrefixedPath(path: string)
    requires StartsWith(path, FunctionPrefix)
    ensures Endpoint(path) == path[|FunctionPrefix|..]
  {
    OccursAtZero(path, FunctionPrefix);
    assert path[..0] + "" + path[|FunctionPrefix|..] == path[|FunctionPrefix|..];
  }

  /** Only the first occurrence is removed, wherever it is: a later one stays. */
  lemma EndpointRemovesFirstOccurrence(path: string, i: nat)
    requires OccursAt(path, FunctionPrefix, i)
    requires forall j: nat :: j < i ==> !OccursAt(path, FunctionPrefix, j)
    ensures Endpoint(path) == path[..i] + path[i + |FunctionPrefix|..]
    ensures |Endpoint(path)| == |path| - |FunctionPrefix|
  {
    assert path[..i] + "" + path[i + |FunctionPrefix|..] == path[..i] + path[i + |FunctionPrefix|..];
  }

  /** `['POST', 'PUT', 'PATCH'].includes(event.httpMethod)`: an exact, case-sensitive match, so only
      an upper-case method name can carry a body. */
  function ForwardsBody(httpMethod: string): (b: bool)
    ensures b <==> httpMethod == "POST" || httpMethod == "PUT" || httpMethod == "PATCH"
    ensures b ==> 3 <= |httpMethod| <= 5 && httpMethod[0] == 'P'
    ensures b ==> forall i :: 0 <= i < |httpMethod| ==> 'A' <= httpMethod[i] <= 'Z'
  {
    httpMethod in ["POST", "PUT", "PATCH"]
  }

  /** The request sent upstream. */
  function RequestFor(event: Event): (r: UpstreamRequest)
    ensures r.url == UpstreamBase + Endpoint(event.path)
    ensures r.httpMethod == event.httpMethod
  {
    UpstreamRequest(UpstreamBase + Endpoint(event.path), event.httpMethod,
                    map["Content-Type" := Json],
                    if ForwardsBody(event.httpMethod) then event.body else None)
  }

  /** No inbound header is relayed, `Host` included: the outgoing headers are exactly the JSON content
      type, whatever the event carries. */
  lemma OnlyContentTypeForwarded(event: Event)
    ensures RequestFor(event).headers.Keys == {"Content-Type"}
    ensures RequestFor(event).headers["Content-Type"] == Json
    ensures "Host" !in RequestFor(event).headers && "host" !in RequestFor(event).headers
    ensures forall k :: k in event.headers && k != "Content-Type" ==> k !in RequestFor(event).headers
  {
  }

  /** The body is relayed verbatim for the three methods that carry one and dropped otherwise. */
  lemma BodyForwardedExactly(event: Event)
    ensures ForwardsBody(event.httpMethod) ==> RequestFor(event).body == event.body
    ensures !ForwardsBody(event.httpMethod) ==> RequestFor(event).body.None?
  {
  }

  /** The method names are compared exactly: a lower-case `post` loses its body. */
  lemma LowerCasePostDropsBody(event: Event)
    requires event.httpMethod == "post"
    ensures RequestFor(event).body.None?
  {
    assert event.httpMethod[0] == 'p';
  }

  /** The response handed back to the caller. */
  function ResponseFor(res: UpstreamResponse): (r: ProxyResponse)
    ensures r.statusCode == res.status && r.body == res.text
  {
    ProxyResponse(res.status,
                  map["Content-Type" := OptOrElse(res.contentType, Json),
                      "Access-Control-Allow-Origin" := "*",
                      "Access-Control-Allow-Headers" := "*"],
                  res.text)
  }

  /** The response headers: the upstream content type, `application/json` when it sent none, and
      both CORS headers set to `*`. */
  lemma ResponseHeaders(res: UpstreamResponse)
    ensures ResponseFor(res).headers.Keys == {"Content-Type", "Access-Control-Allow-Origin", "Access-Control-Allow-Headers"}
    ensures Truthy(res.contentType) ==> ResponseFor(res).headers["Content-Type"] == res.contentType.value
    ensures !Truthy(res.contentType) ==> ResponseFor(res).headers["Content-Type"] == Json
    ensures ResponseFor(res).headers["Access-Control-Allow-Origin"] == "*"
    ensures ResponseFor(res).headers["Access-Control-Allow-Headers"] == "*"
  {
  }

  /** `handler`: relay the event, then shape what came back. A rejected upstream call rejects the
      handler with the same error. */
  function Handler(event: Event, fetch: UpstreamRequest -> Result<UpstreamResponse, string>): (r: Result<ProxyResponse, string>)
    ensures fetch(RequestFor(event)).Failure? ==> r == Failure(fetch(RequestFor(event)).error)
    ensures fetch(RequestFor(event)).Success? ==>
              r.Success? &&
              r.value.statusCode == fetch(RequestFor(event)).value.status &&
              r.value.body == fetch(RequestFor(event)).value.text
    ensures fetch(RequestFor(event)).Success? ==> r == Success(ResponseFor(fetch(RequestFor(event)).value))
    ensures r.Success? ==>
              r.value.headers.Keys == {"Content-Type", "Access-Control-Allow-Origin", "Access-Control-Allow-Headers"} &&
              r.value.headers["Access-Control-Allow-Origin"] == "*" &&
              r.value.headers["Access-Control-Allow-Headers"] == "*"
  {
    match fetch(RequestFor(event))
    case Failure(e) => Failure(e)
    case Success(res) =>
      ResponseHeaders(res);
      Success(ResponseFor(res))
  }
}
