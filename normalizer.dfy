/**
 * Response and error normalisation of the API access layer, as pure
 * functions of the backend's reply: what each verb returns and which
 * notifications a call produces. `parse` stands for `JSON.parse`, an opaque
 * partial function (`None` when it throws).
 */
module Normalizer {
  import opened Wrappers
  import opened Js

  datatype Verb = GET | POST | PUT | DELETE | PATCH {
    /** The verb label the service passes to its error handler. */
    function Name(): string {
      match this
      case GET => "GET"
      case POST => "POST"
      case PUT => "PUT"
      case DELETE => "DELETE"
      case PATCH => "PATCH"
    }
  }

  /** The `_body` of a response or error: no own property, `null`, or a string. */
  datatype Body = Missing | Null | Text(text: string)

  datatype HttpError = HttpError(status: int, body: Body)

  /** What the transport answers to one request. */
  datatype Reply = Success(status: int, body: Body) | Failure(error: HttpError)

  /** Why a call rejects: the original HTTP error, re-thrown, or a body `JSON.parse` refused. */
  datatype CallError = Rethrown(error: HttpError) | ParseError(text: string)

  /** What a verb call yields: a parsed body, no content (`undefined`), or a rejection. */
  datatype Outcome = Parsed(value: Json) | NoContent | Failed(error: CallError)

  /** A snack-bar notification: message, dismiss label and auto-dismiss duration (0: persists). */
  datatype Notification = Notification(message: string, action: string, duration: nat)

  const DeletedNotice := Notification("Element deleted successfully.", "Ok", 5000)

  /** The string `JSON.parse` sees for a body: `null` and `undefined` are converted to text. */
  function BodyText(b: Body): string {
    match b
    case Missing => "undefined"
    case Null => "null"
    case Text(s) => s
  }

  /** `res.json()` as GET, PUT and PATCH use it: always parse. */
  function ParseBody(parse: string -> Option<Json>, b: Body): (r: Outcome)
    ensures r != NoContent
    ensures r.Parsed? <==> parse(BodyText(b)).Some?
    ensures r.Parsed? ==> r.value == parse(BodyText(b)).value
    ensures r.Failed? ==> r.error == ParseError(BodyText(b))
  {
    match parse(BodyText(b))
    case Some(v) => Parsed(v)
    case None => Failed(ParseError(BodyText(b)))
  }

  /** The empty-body test of POST and DELETE: an own `_body` that is `null` or shorter than 1. */
  predicate IsEmptyBody(b: Body) {
    match b
    case Missing => false
    case Null => true
    case Text(s) => |s| < 1
  }

  /** POST and DELETE: an empty body is no content and is not parsed; anything else is parsed. */
  function ParseUnlessEmpty(parse: string -> Option<Json>, b: Body): (r: Outcome)
    ensures r == NoContent <==> b == Null || b == Text("")
    ensures r != NoContent ==> r == ParseBody(parse, b)
  {
    if b.Missing? then ParseBody(parse, b)
    else if b.Null? || |b.text| < 1 then NoContent
    else ParseBody(parse, b)
  }

  /**
   * The `(path, message)` texts of a structured error body, or `None` when
   * reading them throws: the body does not parse, parses to `null`, or a field
   * holds an object whose text conversion throws.
   */
  function ErrorDetails(parse: string -> Option<Json>, b: Body): (d: Option<(string, string)>)
    ensures parse(BodyText(b)).None? || parse(BodyText(b)) == Some(JNull) ==> d.None?
    ensures parse(BodyText(b)).Some? && !parse(BodyText(b)).value.JNull? && !parse(BodyText(b)).value.JObject? ==>
              d == Some(("undefined", "undefined"))
    ensures forall fields: map<string, Json> :: parse(BodyText(b)) == Some(JObject(fields)) ==>
              (d.None? <==> (("path" in fields && HasOwnToString(fields["path"])) ||
                             ("message" in fields && HasOwnToString(fields["message"]))))
    ensures forall fields: map<string, Json> :: parse(BodyText(b)) == Some(JObject(fields)) && d.Some? ==>
              && ("path" !in fields ==> d.value.0 == "undefined")
              && ("message" !in fields ==> d.value.1 == "undefined")
              && ("path" in fields && fields["path"].JString? ==> d.value.0 == fields["path"].s)
              && ("message" in fields && fields["message"].JString? ==> d.value.1 == fields["message"].s)
  {
    match parse(BodyText(b))
    case None => None
    case Some(v) =>
      match Member(v, "message")
      case TypeError => None
      case Value(message) =>
        match Member(v, "path")
        case TypeError => None
        case Value(path) =>
          var pathText, messageText := AsText(path), AsText(message);
          if pathText.Some? && messageText.Some? then Some((pathText.value, messageText.value)) else None
  }

  function SpecificErrorText(verb: Verb, path: string, message: string): string {
    "An error occured in " + verb.Name() + " " + path + ": " + message
  }

  function GenericErrorText(verb: Verb): string {
    "An error occured in a " + verb.Name() + " Method. The error could not be handled correctly. " +
    "See the console for details."
  }

  /** `showError`: nothing without an own `_body`, otherwise one persistent notification. */
  function ErrorNotices(parse: string -> Option<Json>, error: HttpError, verb: Verb): (ns: seq<Notification>)
    ensures |ns| <= 1
    ensures ns == [] <==> error.body.Missing?
    ensures forall n :: n in ns ==> n.duration == 0 && n.action == "Ok"
    ensures |ns| == 1 && ErrorDetails(parse, error.body).Some? ==>
              ns[0].message == SpecificErrorText(verb, ErrorDetails(parse, error.body).value.0,
                                                 ErrorDetails(parse, error.body).value.1)
    ensures |ns| == 1 && ErrorDetails(parse, error.body).None? ==> ns[0].message == GenericErrorText(verb)
  {
    if error.body.Missing? then []
    else match ErrorDetails(parse, error.body)
      case Some((path, message)) => [Notification(SpecificErrorText(verb, path, message), "Ok", 0)]
      case None => [Notification(GenericErrorText(verb), "Ok", 0)]
  }

  /** What a call of `verb` returns for a reply. */
  function Settle(parse: string -> Option<Json>, verb: Verb, reply: Reply): (r: Outcome)
    ensures reply.Failure? <==> r.Failed? && r.error.Rethrown?
    ensures reply.Failure? ==> r.error.error == reply.error
    ensures r == NoContent <==> reply.Success? && (verb == POST || verb == DELETE) && IsEmptyBody(reply.body)
    ensures reply.Success? && !(r == NoContent) ==> r == ParseBody(parse, reply.body)
  {
    match reply
    case Failure(e) => Failed(Rethrown(e))
    case Success(_, body) =>
      if verb == POST || verb == DELETE then ParseUnlessEmpty(parse, body) else ParseBody(parse, body)
  }

  /** The notifications a call of `verb` adds for a reply. */
  function Notices(parse: string -> Option<Json>, verb: Verb, reply: Reply): (ns: seq<Notification>)
    ensures |ns| <= 1
    ensures reply.Success? ==> ns == (if verb == DELETE then [DeletedNotice] else [])
    ensures reply.Failure? ==> ns == ErrorNotices(parse, reply.error, verb)
  {
    match reply
    case Success(_, _) => if verb == DELETE then [DeletedNotice] else []
    case Failure(e) => ErrorNotices(parse, e, verb)
  }

  /** Every notification is a persistent error notice or the deletion confirmation. */
  predicate WellFormedNotice(n: Notification) {
    n.action == "Ok" && (n.duration == 0 || n == DeletedNotice)
  }

  // ---------------------------------------------------------------------------
  // Properties

  /** A well-formed `{message, path}` error body yields a notice naming verb, path and message. */
  lemma StructuredErrorNotice(parse: string -> Option<Json>, error: HttpError, verb: Verb,
                              fields: map<string, Json>, path: string, message: string)
    requires error.body.Text? && parse(error.body.text) == Some(JObject(fields))
    requires "path" in fields && fields["path"] == JString(path)
    requires "message" in fields && fields["message"] == JString(message)
    ensures ErrorNotices(parse, error, verb) ==
              [Notification("An error occured in " + verb.Name() + " " + path + ": " + message, "Ok", 0)]
  {
  }

  /** An error body that `JSON.parse` refuses, or that parses to `null`, yields the generic notice. */
  lemma MalformedErrorNotice(parse: string -> Option<Json>, error: HttpError, verb: Verb)
    requires !error.body.Missing?
    requires parse(BodyText(error.body)).None? || parse(BodyText(error.body)) == Some(JNull)
    ensures ErrorNotices(parse, error, verb) == [Notification(GenericErrorText(verb), "Ok", 0)]
    ensures Settle(parse, verb, Failure(error)) == Failed(Rethrown(error))
  {
  }

  /** An object error body without `path` names the path `undefined`. */
  lemma MissingPathNotice(parse: string -> Option<Json>, error: HttpError, verb: Verb,
                          fields: map<string, Json>, message: string)
    requires error.body.Text? && parse(error.body.text) == Some(JObject(fields))
    requires "path" !in fields
    requires "message" in fields && fields["message"] == JString(message)
    ensures ErrorNotices(parse, error, verb) ==
              [Notification("An error occured in " + verb.Name() + " undefined: " + message, "Ok", 0)]
  {
    assert ErrorDetails(parse, error.body) == Some(("undefined", message));
    var head := "An error occured in " + verb.Name();
    assert " " + "undefined" + ": " == " undefined: ";
    assert head + " " + "undefined" + ": " + message == head + " undefined: " + message;
  }

  /** A field whose text conversion throws sends the handler to its generic notice. */
  lemma UnprintableFieldNotice(parse: string -> Option<Json>, error: HttpError, verb: Verb,
                               fields: map<string, Json>, inner: map<string, Json>)
    requires error.body.Text? && parse(error.body.text) == Some(JObject(fields))
    requires "message" in fields && fields["message"] == JObject(inner) && "toString" in inner
    ensures ErrorNotices(parse, error, verb) == [Notification(GenericErrorText(verb), "Ok", 0)]
  {
  }

  /** A call produces at most one notification, and one exactly on a deletion or an error with a body. */
  lemma AtMostOneNotice(parse: string -> Option<Json>, verb: Verb, reply: Reply)
    ensures |Notices(parse, verb, reply)| == 1 <==>
              (reply.Success? && verb == DELETE) || (reply.Failure? && !reply.error.body.Missing?)
    ensures forall n :: n in Notices(parse, verb, reply) ==> WellFormedNotice(n)
  {
  }
}
