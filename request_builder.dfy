/**
 * Request building of the API access layer: the header set (`headers`),
 * the request options with optional query parameters (`get`, `patch`), and
 * the payload handed to the transport (`post`, `put`, `patch`).
 */
module RequestBuilder {
  import opened Wrappers
  import opened Js

  datatype Header = Header(name: string, value: string)

  const ContentTypeJson := Header("Content-Type", "application/json")

  function Bearer(token: string): Header {
    Header("Authorization", "Bearer " + token)
  }

  /** `headers(token?, mimetypeJSON)`: appended in order, Content-Type first. */
  function BuildHeaders(token: Option<string>, json: bool): (hs: seq<Header>)
    ensures ContentTypeJson in hs <==> json
    ensures (exists t :: Bearer(t) in hs) <==> token.Some?
    ensures token.Some? ==> Bearer(token.value) in hs
    ensures forall h :: h in hs ==> h == ContentTypeJson || (token.Some? && h == Bearer(token.value))
    ensures |hs| == (if json then 1 else 0) + (if token.Some? then 1 else 0)
    ensures json ==> hs[0] == ContentTypeJson
  {
    var hs := if json then [ContentTypeJson] else [];
    if token.Some? then hs + [Bearer(token.value)] else hs
  }

  /** Query parameters, passed through unvalidated. */
  type Params = map<string, string>

  datatype RequestOptions = RequestOptions(headers: seq<Header>, params: Option<Params>)

  /** The options every verb sends: no verb passes a token; `get` and `patch` attach non-null params. */
  function VerbOptions(params: Option<Params>): (o: RequestOptions)
    ensures o.headers == [ContentTypeJson]
    ensures o.params == params
  {
    var options := RequestOptions(BuildHeaders(None, true), None);
    if params.Some? then options.(params := params) else options
  }

  /** Caller-supplied payload: `undefined` or a JSON value (`null` is `Value(JNull)`). */
  datatype Data = Undefined | Value(v: Json)

  predicate IsNullish(d: Data) {
    d.Undefined? || d.v.JNull?
  }

  /** What is handed to the transport: the data itself, or `JSON.stringify` of it. */
  datatype Payload = Raw(data: Data) | Stringified(data: Data)

  /** `post`: only non-null data is stringified, and only when `isJson`. */
  function PostPayload(data: Data, isJson: bool): (p: Payload)
    ensures p.data == data
    ensures p.Stringified? <==> isJson && !IsNullish(data)
  {
    var temp := Raw(data);
    if !IsNullish(data) then (if isJson then Stringified(data) else temp) else temp
  }

  /** `put`: the data is stringified whenever `isJson`, `null` and `undefined` included. */
  function PutPayload(data: Data, isJson: bool): (p: Payload)
    ensures p.data == data
    ensures p.Stringified? <==> isJson
  {
    if isJson then Stringified(data) else Raw(data)
  }

  /** `post` and `put` agree except on nullish data sent as JSON. */
  lemma PostPutDiffer(data: Data, isJson: bool)
    ensures PostPayload(data, isJson) != PutPayload(data, isJson) <==> isJson && IsNullish(data)
  {
  }
}
