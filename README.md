# API access layer of the PizzaCalculator UI, in Dafny

This project models `ApiBaseFunctionService`, the generic HTTP client the
PizzaCalculator browser client uses for every call to its backend. It is
made of four parts:

- **URL resolution** (`extractUrl`, `prepareRelativeUrl`). A path or a
  resource object becomes an absolute URL against the configured API base.
  Inputs starting with `http` pass through unchanged. One trailing `/` is
  removed from the base. The relative part gets a trailing `/` unless it
  already has one, ends with `api-docs`, or has a `.` in its last segment.
  One `/` is added between the two parts, unless the relative part
  already starts with `/`.
- **Request building** (`headers`). Content-Type is added when the JSON flag
  is set, and a bearer authorization header when a token is given. GET and
  PATCH also attach query parameters. POST and PUT decide whether the
  payload is stringified.
- **Error normalisation** (`showError`). At most one persistent
  notification is produced. It carries either the backend's path and
  message or a generic text. The original error is always re-thrown.
- **Body normalisation in the verbs**. POST and DELETE turn an empty body
  into "no content". GET, PUT and PATCH always parse. DELETE first confirms
  the deletion with a 5-second notification.

Layout: `wrappers.dfy` (Option), `js.dfy` (JSON values, property access,
JavaScript's value-to-text conversion), `url_resolver.dfy`,
`request_builder.dfy`, `normalizer.dfy` (the reply semantics as pure
functions) and `api_service.dfy`. The last file holds the service as a
class with two append-only logs: the notifications shown to the user, and
the requests handed to the transport. Each verb method is specified by the
pure functions of `normalizer.dfy`, and the class invariant `Valid()` says
two things. Every notification is a persistent error notice or the
deletion confirmation. Every request carries only the JSON content type and
goes to a resolved URL.

`JSON.parse` is a constructor parameter of the service: an opaque total
function to `Option<Json>`, where `None` means it throws. The backend's
reply to a request is a parameter of each verb. The API base is a
constructor parameter.

Three behaviours of the code are worth stating outright:
- The code has no check of its own on resource objects. An object without
  an own `url` property is handed to `prepareRelativeUrl` as if it were a
  string (line 28). At run time it then reaches `startsWith` (line 37) and
  throws. The model resolves the object's `asText` instead (see "Left out").
- The base loses exactly one trailing `/`, not all of them
  (`UrlResolver.OnlyOneBaseSlashStripped`).
- Only POST and DELETE have the empty-body handling. PUT and PATCH always
  parse.

## Model

| member | source | states |
|---|---|---|
| UrlResolver.LastIndexOf | src/app/api/api-base-function.service.ts:52 | the result is -1 exactly when the character is absent, otherwise an index holding it with no later occurrence |
| UrlResolver.StripTrailingSlash | src/app/api/api-base-function.service.ts:44-47 | a base ending in `/` loses exactly that one `/`; any other base is unchanged |
| UrlResolver.PrepareRelativeUrl | src/app/api/api-base-function.service.ts:36-63 | inputs starting with `http` are returned unchanged; any other result starts with the stripped base plus `/` and ends with the relative part after the trailing-slash rule |
| UrlResolver.ExtractUrl | src/app/api/api-base-function.service.ts:21-29 | a path is resolved directly; an object with an own `url` property is resolved through its `_links` value; an object without one is resolved as the string it stands for (the code has no check of its own; at run time the object reaches `startsWith` and throws) |
| UrlResolver.DotRule | src/app/api/api-base-function.service.ts:52 | the `lastIndexOf` test (no `.`, or last `/` after last `.`) holds exactly when every `.` is followed later by a `/` |
| UrlResolver.TrailingSlashRule | src/app/api/api-base-function.service.ts:50-55 | a `/` is appended exactly when the part does not end with `/`, does not end with `api-docs`, and every `.` is followed by a `/`; otherwise the part is unchanged |
| UrlResolver.AbsolutePassThrough | src/app/api/api-base-function.service.ts:37-39 | an input starting with `http` resolves to itself whatever the base |
| UrlResolver.JoinShape | src/app/api/api-base-function.service.ts:57-62 | a relative result is the stripped base, then `/`, then the relative part without one leading `/` if it had one: a `/` is added unless the part starts with `/` |
| UrlResolver.Idempotent | src/app/api/api-base-function.service.ts:36-62 | with a base starting with `http`, resolving a resolved URL again changes nothing |
| UrlResolver.BaseSlashInsensitive | src/app/api/api-base-function.service.ts:44-47 | bases `b` and `b + "/"` resolve every input alike when `b` has no trailing `/` |
| UrlResolver.OnlyOneBaseSlashStripped | src/app/api/api-base-function.service.ts:44-47 | with a base ending in `//` only one `/` is removed, so the result keeps `b + "//"` and is one character longer than with base `b + "/"` |
| UrlResolver.ResolvedEndsWithSlash | src/app/api/api-base-function.service.ts:50-62 | a relative input resolves to a URL ending in `/` exactly when the input needed a `/` or already ended with one |
| UrlResolver.ExampleTeams | src/app/api/api-base-function.service.ts:36-62 | `teams` against `http://api.example.com/` gives `http://api.example.com/teams/` |
| UrlResolver.ExampleApiDocs | src/app/api/api-base-function.service.ts:36-62 | `api-docs` against `http://api.example.com` gives `http://api.example.com/api-docs` |
| RequestBuilder.BuildHeaders | src/app/api/api-base-function.service.ts:71-81 | Content-Type JSON is present exactly when the flag is set and comes first; `Authorization: Bearer <token>` is present exactly when a token is given; no other header |
| RequestBuilder.VerbOptions | src/app/api/api-base-function.service.ts:121-124 | the verbs send only the JSON content type (no token is ever passed) and attach exactly the given parameters |
| RequestBuilder.PostPayload | src/app/api/api-base-function.service.ts:144-149 | POST stringifies the data exactly when `isJson` holds and the data is neither `null` nor `undefined` |
| RequestBuilder.PutPayload | src/app/api/api-base-function.service.ts:174-177 | PUT stringifies the data exactly when `isJson` holds |
| RequestBuilder.PostPutDiffer | src/app/api/api-base-function.service.ts:144-177 | POST and PUT apply `JSON.stringify` differently exactly for `null`/`undefined` data with `isJson` |
| Js.Member | src/app/api/api-base-function.service.ts:94-95 | for `message` and `path`, which no prototype defines: reading them on `null` throws; a value is found only for an object having that own key; otherwise `undefined` |
| Js.JsonText | src/app/api/api-base-function.service.ts:97 | converting a value to text throws exactly when it holds, itself or inside an array, an object with an own `toString`; a string is its own text; any other object is `[object Object]` |
| Normalizer.ParseBody | src/app/api/api-base-function.service.ts:128-130 | GET, PUT and PATCH never report no content: the result is the parsed body, or a parse failure carrying the body's text |
| Normalizer.ParseUnlessEmpty | src/app/api/api-base-function.service.ts:153-161 | no content exactly for a `null` or empty `_body`; every other body, a missing one included, is parsed |
| Normalizer.ErrorDetails | src/app/api/api-base-function.service.ts:92-95 | no details when the body does not parse or parses to `null`; `undefined` for both fields of a non-object; for an object, none exactly when a field's text conversion throws, otherwise a string field's own text and `undefined` for a missing field |
| Normalizer.ErrorNotices | src/app/api/api-base-function.service.ts:90-110 | at most one notification, none exactly when the error has no own `_body`, always duration 0 and label `Ok`; the specific text when path and message could be read and converted to text, the generic text otherwise |
| Normalizer.Settle | src/app/api/api-base-function.service.ts:118-233 | a failed reply is re-thrown unchanged; no content exactly for POST or DELETE with an empty body; otherwise the body is parsed |
| Normalizer.Notices | src/app/api/api-base-function.service.ts:191-212 | a successful DELETE adds exactly the confirmation with duration 5000, other successes add nothing, failures add the error notices |
| Normalizer.StructuredErrorNotice | src/app/api/api-base-function.service.ts:93-99 | an error body parsing to an object with string `path` and `message` gives one notice naming verb, path and message, with duration 0 |
| Normalizer.MalformedErrorNotice | src/app/api/api-base-function.service.ts:100-109 | an error body that does not parse, or parses to `null`, gives the generic notice and the call still rejects with the original error |
| Normalizer.MissingPathNotice | src/app/api/api-base-function.service.ts:94-99 | an object error body without `path` and with a string `message` gives the notice `An error occured in <VERB> undefined: <message>` |
| Normalizer.UnprintableFieldNotice | src/app/api/api-base-function.service.ts:97-106 | a `message` object with an own `toString` makes the text conversion throw, so the handler shows the generic notice |
| Normalizer.AtMostOneNotice | src/app/api/api-base-function.service.ts:90-110 | a call adds one notification exactly on a successful DELETE or an error with a body, and every notification is well formed |
| ApiService.ApiBaseFunctionService.constructor | src/app/api/api-base-function.service.ts:14 | a new service has empty logs and satisfies the invariant |
| ApiService.ApiBaseFunctionService.ShowError | src/app/api/api-base-function.service.ts:90-110 | returns the same error and appends exactly the error notices; the invariant is kept |
| ApiService.ApiBaseFunctionService.Get | src/app/api/api-base-function.service.ts:118-133 | sends one GET to the resolved URL with the parameters, appends the reply's notices, returns the parsed body or the re-thrown error |
| ApiService.ApiBaseFunctionService.Post | src/app/api/api-base-function.service.ts:142-163 | sends one POST with the POST payload, appends the reply's notices, returns no content for an empty body |
| ApiService.ApiBaseFunctionService.Put | src/app/api/api-base-function.service.ts:172-184 | sends one PUT with the PUT payload, appends the reply's notices, always parses |
| ApiService.ApiBaseFunctionService.Delete | src/app/api/api-base-function.service.ts:191-212 | sends one DELETE; on success appends exactly the confirmation before normalising the body |
| ApiService.ApiBaseFunctionService.Patch | src/app/api/api-base-function.service.ts:219-233 | sends one PATCH with the body as given and the parameters, appends the reply's notices, always parses |

## Left out

- The Angular `Http` transport and the rxjs plumbing (`Observable`, `pipe`, `catchError`, `map`, subscription and cancellation) are asynchronous framework code. A call is one synchronous step: the request is appended to a log, and the backend's reply is a parameter.
- `MatSnackBar` rendering and `console.error` are foreign UI calls. Notifications are an append-only log; console output is not modelled.
- `JSON.parse` is an opaque parameter. `JSON.stringify` is not computed: the payload records whether the data was stringified.
- `Response.json()` is modelled as `JSON.parse` of the body's string form (`null` as `"null"`, a missing body as `"undefined"`). Angular's return of a non-string `_body` unchanged is not modelled.
- A `_body` is a string, `null` or absent. An own `_body` holding `undefined`, an `ArrayBuffer` or a `Blob` is not modelled, and string length counts characters rather than UTF-16 code units.
- UrlResolver.ExtractUrl: an object without an own `url` property reaches `startsWith` at run time and throws a TypeError before any request is sent. The model follows the declared type and resolves the string the object stands for (`asText`), so it does not capture that failure. The same holds for an `_links` value that is not a string.
- JSON numbers are integers. JavaScript's text for fractional and very large numbers is not modelled.
- The generic result type `T` of the verbs is the JSON value type.
- `environment.settings.api` is ambient configuration; the base is a constructor parameter.
- src/app/admin-page/admin-page.component.ts and src/app/team-page/team-page.component.ts are UI glue (route parameters, form binding, dialogs, clipboard) and are not part of this model.
