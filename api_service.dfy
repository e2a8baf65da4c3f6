/**
 * The generic API access service: five verbs that resolve a reference,
 * build the request, hand it to the transport and normalise the reply, and
 * an error handler that notifies the user and re-throws. The transport and
 * the snack bar are modelled by two append-only logs; the backend's reply
 * to a request is a parameter of each verb.
 */
module ApiService {
  import opened Wrappers
  import opened Js
  import opened UrlResolver
  import opened RequestBuilder
  import opened Normalizer

  /** One request handed to the transport. */
  datatype Request = Request(verb: Verb, url: string, payload: Option<Payload>, options: RequestOptions)

  /** A URL the service may send to: absolute, or under the base with one '/' after it. */
  predicate ResolvedAgainst(base: string, url: string) {
    StartsWith(url, "http") || StartsWith(url, StripTrailingSlash(base) + "/")
  }

  class ApiBaseFunctionService {
    /** The configured API base URL. */
    const base: string
    /** `JSON.parse`; `None` when it throws. */
    const parse: string -> Option<Json>
    /** Snack-bar notifications, oldest first. */
    var notifications: seq<Notification>
    /** Requests handed to the transport, oldest first. */
    var requests: seq<Request>

    /** Every notification is a persistent error notice or the deletion confirmation; every
        request carries only the JSON content type and goes to a resolved URL. */
    ghost predicate Valid()
      reads this
    {
      && (forall n :: n in notifications ==> WellFormedNotice(n))
      && (forall q :: q in requests ==> q.options.headers == [ContentTypeJson] && ResolvedAgainst(base, q.url))
    }

    constructor (base: string, parse: string -> Option<Json>)
      ensures Valid()
      ensures this.base == base && this.parse == parse
      ensures notifications == [] && requests == []
    {
      this.base := base;
      this.parse := parse;
      notifications := [];
      requests := [];
    }

    /** Hands a request to the transport. */
    method Send(verb: Verb, url: string, payload: Option<Payload>, options: RequestOptions)
      requires Valid()
      requires options.headers == [ContentTypeJson] && ResolvedAgainst(base, url)
      modifies this`requests
      ensures Valid()
      ensures requests == old(requests) + [Request(verb, url, payload, options)]
    {
      requests := requests + [Request(verb, url, payload, options)];
    }

    /** `showError`: at most one persistent notification, then the same error is re-thrown. */
    method ShowError(error: HttpError, verb: Verb) returns (thrown: HttpError)
      requires Valid()
      modifies this`notifications
      ensures Valid()
      ensures thrown == error
      ensures notifications == old(notifications) + ErrorNotices(parse, error, verb)
    {
      notifications := notifications + ErrorNotices(parse, error, verb);
      thrown := error;
    }

    method Get(ref: Reference, params: Option<Params>, reply: Reply) returns (r: Outcome)
      requires Valid()
      modifies this
      ensures Valid()
      ensures requests == old(requests) + [Request(GET, ExtractUrl(base, ref), None, VerbOptions(params))]
      ensures notifications == old(notifications) + Notices(parse, GET, reply)
      ensures r == Settle(parse, GET, reply)
    {
      var url := ExtractUrl(base, ref);
      var options := VerbOptions(params);
      Send(GET, url, None, options);
      match reply
      case Failure(e) =>
        var thrown := ShowError(e, GET);
        r := Failed(Rethrown(thrown));
      case Success(_, body) =>
        r := ParseBody(parse, body);
    }

    method Post(ref: Reference, data: Data, isJson: bool, reply: Reply) returns (r: Outcome)
      requires Valid()
      modifies this
      ensures Valid()
      ensures requests == old(requests) +
                [Request(POST, ExtractUrl(base, ref), Some(PostPayload(data, isJson)), VerbOptions(None))]
      ensures notifications == old(notifications) + Notices(parse, POST, reply)
      ensures r == Settle(parse, POST, reply)
    {
      var url := ExtractUrl(base, ref);
      Send(POST, url, Some(PostPayload(data, isJson)), VerbOptions(None));
      match reply
      case Failure(e) =>
        var thrown := ShowError(e, POST);
        r := Failed(Rethrown(thrown));
      case Success(_, body) =>
        r := ParseUnlessEmpty(parse, body);
    }

    method Put(ref: Reference, data: Data, isJson: bool, reply: Reply) returns (r: Outcome)
      requires Valid()
      modifies this
      ensures Valid()
      ensures requests == old(requests) +
                [Request(PUT, ExtractUrl(base, ref), Some(PutPayload(data, isJson)), VerbOptions(None))]
      ensures notifications == old(notifications) + Notices(parse, PUT, reply)
      ensures r == Settle(parse, PUT, reply)
    {
      var url := ExtractUrl(base, ref);
      Send(PUT, url, Some(PutPayload(data, isJson)), VerbOptions(None));
      match reply
      case Failure(e) =>
        var thrown := ShowError(e, PUT);
        r := Failed(Rethrown(thrown));
      case Success(_, body) =>
        r := ParseBody(parse, body);
    }

    /** `delete`: on success the confirmation comes first, then the body is normalised. */
    method Delete(ref: Reference, reply: Reply) returns (r: Outcome)
      requires Valid()
      modifies this
      ensures Valid()
      ensures requests == old(requests) + [Request(DELETE, ExtractUrl(base, ref), None, VerbOptions(None))]
      ensures notifications == old(notifications) + Notices(parse, DELETE, reply)
      ensures reply.Success? ==> notifications == old(notifications) + [DeletedNotice]
      ensures r == Settle(parse, DELETE, reply)
    {
      var url := ExtractUrl(base, ref);
      Send(DELETE, url, None, VerbOptions(None));
      match reply
      case Failure(e) =>
        var thrown := ShowError(e, DELETE);
        r := Failed(Rethrown(thrown));
      case Success(_, body) =>
        notifications := notifications + [DeletedNotice];
        r := ParseUnlessEmpty(parse, body);
    }

    /** `patch`: the body goes out as given, without stringification. */
    method Patch(ref: Reference, body: Data, params: Option<Params>, reply: Reply) returns (r: Outcome)
      requires Valid()
      modifies this
      ensures Valid()
      ensures requests == old(requests) + [Request(PATCH, ExtractUrl(base, ref), Some(Raw(body)), VerbOptions(params))]
      ensures notifications == old(notifications) + Notices(parse, PATCH, reply)
      ensures r == Settle(parse, PATCH, reply)
    {
      var url := ExtractUrl(base, ref);
      var options := VerbOptions(params);
      Send(PATCH, url, Some(Raw(body)), options);
      match reply
      case Failure(e) =>
        var thrown := ShowError(e, PATCH);
        r := Failed(Rethrown(thrown));
      case Success(_, replyBody) =>
        r := ParseBody(parse, replyBody);
    }
  }
}
