/** The upstream HTTP services as the aggregator sees them: each GET is a
    request value, and its outcome is an abstract reply chosen by the
    environment (the network is not modelled).
 */
module Upstream {
  import opened Python

  /** The two base URLs, `ALSHUB_BASE` and `ESAF_BASE`, read from configuration. */
  datatype Service = AlsHub | Esaf

  /** One GET: `<base>/<path>/?<param>=<arg>`. */
  datatype Request = Request(service: Service, path: string, param: string, arg: Json)

  /** A response body: empty content, content that is not JSON, or a JSON document. */
  datatype Body = NoContent | NotJson | Parsed(doc: Json)

  /** The result of one GET: the client raised, or a response arrived. */
  datatype Reply = Raises | Response(status: int, body: Body)

  /** The environment's answer to every request. */
  type Fetch = Request -> Reply

  /** httpx's `is_error`: a 4xx or 5xx status. */
  predicate IsError(status: int) {
    400 <= status <= 599
  }

  /** `response.content` is truthy. */
  predicate HasContent(body: Body) {
    !body.NoContent?
  }

  /** `response.json()`: raises unless the content is a JSON document. */
  function DecodeBody(body: Body): (r: Result<Json>)
    ensures r.Ok? <==> body.Parsed?
    ensures r.Ok? ==> r.value == body.doc
    ensures r.Raise? ==> r.cause == JsonDecodeError
  {
    match body
    case Parsed(doc) => Ok(doc)
    case _ => Raise(JsonDecodeError)
  }
}
