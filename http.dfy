/** What crosses the network: decoded JSON values, the request the code
    sends and the response the store returns. The transport itself is not
    modelled; a store is a function from the request sent to its response. */
module Http {
  import opened Wrappers

  /** A decoded JSON value. */
  datatype Json =
    | JNull
    | JBool(b: bool)
    | JInt(i: int)
    | JString(s: string)
    | JArray(items: seq<Json>)
    | JObject(fields: map<string, Json>)

  datatype Verb = GET | POST

  /** One HTTP request: its verb, its URL and its JSON body (empty for a GET). */
  datatype HttpRequest = HttpRequest(verb: Verb, url: string, json: map<string, Json>)

  /** The store's answer: a status code and the decoded JSON body. */
  datatype Response = Response(status: int, body: Json)

  /** The remote store, answering each request it is sent. */
  type Store = HttpRequest -> Response

  /** `body['data']`: the "data" member of an object body; None where Python
      raises (a body that is not an object, or one without "data"). */
  function DataField(body: Json): (r: Option<Json>)
    ensures r.Some? <==> body.JObject? && "data" in body.fields
    ensures r.Some? ==> r.value == body.fields["data"]
  {
    if body.JObject? && "data" in body.fields then Some(body.fields["data"]) else None
  }
}
