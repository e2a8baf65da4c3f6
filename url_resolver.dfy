/**
 * URL resolution of the API access layer: a resource reference (a path or a
 * resource object) becomes an absolute URL against the configured API base.
 * Models `extractUrl` and `prepareRelativeUrl` of
 * src/app/api/api-base-function.service.ts.
 */
module UrlResolver {

  /** JavaScript's `String.prototype.startsWith`. */
  predicate StartsWith(s: string, prefix: string) {
    prefix <= s
  }

  /** JavaScript's `String.prototype.endsWith`. */
  predicate EndsWith(s: string, suffix: string) {
    |suffix| <= |s| && s[|s| - |suffix|..] == suffix
  }

  /** JavaScript's `String.prototype.lastIndexOf` for a one-character needle. */
  function LastIndexOf(s: string, c: char): (r: int)
    ensures -1 <= r < |s|
    ensures r == -1 <==> c !in s
    ensures 0 <= r ==> s[r] == c
    ensures forall j :: r < j < |s| ==> s[j] != c
    decreases |s|
  {
    if |s| == 0 then -1
    else if s[|s| - 1] == c then |s| - 1
    else LastIndexOf(s[..|s| - 1], c)
  }

  /** The dot test of the trailing-slash rule: no '.' at all, or the last '/' after the last '.'. */
  predicate LastSegmentHasNoDot(url: string) {
    LastIndexOf(url, '.') < 0 || LastIndexOf(url, '/') > LastIndexOf(url, '.')
  }

  /** Reference reading of the dot test: every '.' is followed, later on, by a '/'. */
  ghost predicate EveryDotFollowedBySlash(url: string) {
    forall i :: 0 <= i < |url| && url[i] == '.' ==> exists j :: i < j < |url| && url[j] == '/'
  }

  /** The relative part gets a trailing '/' (the `api-docs` exception is the swagger endpoint). */
  predicate NeedsTrailingSlash(url: string) {
    !EndsWith(url, "/") && !EndsWith(url, "api-docs") && LastSegmentHasNoDot(url)
  }

  /** The configured base with one trailing '/' removed. */
  function StripTrailingSlash(base: string): (b: string)
    ensures EndsWith(base, "/") ==> b + "/" == base
    ensures !EndsWith(base, "/") ==> b == base
  {
    if EndsWith(base, "/") then base[..|base| - 1] else base
  }

  /** The relative part after the trailing-slash rule. */
  function WithTrailingSlash(url: string): (rel: string)
    ensures rel == url || rel == url + "/"
  {
    if NeedsTrailingSlash(url) then url + "/" else url
  }

  /** The relative part with at most one leading '/' removed. */
  function DropLeadingSlash(rel: string): string {
    if StartsWith(rel, "/") then rel[1..] else rel
  }

  /** Base and relative part combined, with a '/' between them unless the part starts with one. */
  function Join(b: string, rel: string): string {
    if StartsWith(rel, "/") then b + rel else b + "/" + rel
  }

  /** `prepareRelativeUrl`: absolute inputs pass through, relative ones are joined to the base. */
  function PrepareRelativeUrl(base: string, url: string): (r: string)
    ensures StartsWith(url, "http") ==> r == url
    ensures !StartsWith(url, "http") ==> StartsWith(r, StripTrailingSlash(base) + "/")
    ensures !StartsWith(url, "http") ==> EndsWith(r, WithTrailingSlash(url))
  {
    if StartsWith(url, "http") then url
    else
      Join(StripTrailingSlash(base), WithTrailingSlash(url))
  }

  /**
   * A resource reference: a plain string path, or a resource object. Of an
   * object only three things matter: whether it has an own `url` property, the
   * value of its `_links` property, and the string it is taken for when it is
   * handed on unchanged.
   */
  datatype Reference =
    | Path(path: string)
    | Resource(hasUrlField: bool, links: string, asText: string)

  /** `extractUrl`: the presence test is on `url`, the value read is `_links`, no object is refused. */
  function ExtractUrl(base: string, ref: Reference): (r: string)
    ensures ref.Path? ==> r == PrepareRelativeUrl(base, ref.path)
    ensures ref.Resource? && ref.hasUrlField ==> r == PrepareRelativeUrl(base, ref.links)
    ensures ref.Resource? && !ref.hasUrlField ==> r == PrepareRelativeUrl(base, ref.asText)
  {
    match ref
    case Path(p) => PrepareRelativeUrl(base, p)
    case Resource(hasUrl, links, text) =>
      var u := if hasUrl then links else text;
      PrepareRelativeUrl(base, u)
  }

  // ---------------------------------------------------------------------------
  // Properties

  /** The dot test agrees with its reference reading. */
  lemma DotRule(url: string)
    ensures LastSegmentHasNoDot(url) <==> EveryDotFollowedBySlash(url)
  {
  }

  /** A '/' is appended to the relative part exactly when all three conditions hold. */
  lemma TrailingSlashRule(url: string)
    ensures WithTrailingSlash(url) == url + "/" <==>
              !EndsWith(url, "/") && !EndsWith(url, "api-docs") && EveryDotFollowedBySlash(url)
    ensures WithTrailingSlash(url) != url + "/" ==> WithTrailingSlash(url) == url
  {
  }

  /** Absolute inputs do not consult the base at all. */
  lemma AbsolutePassThrough(base1: string, base2: string, url: string)
    requires StartsWith(url, "http")
    ensures PrepareRelativeUrl(base1, url) == PrepareRelativeUrl(base2, url) == url
  {
  }

  /** One '/' is added between base and relative part, unless the part starts with '/'. */
  lemma JoinShape(base: string, url: string)
    requires !StartsWith(url, "http")
    ensures var b, r := StripTrailingSlash(base), PrepareRelativeUrl(base, url);
      |r| > |b| && r[..|b|] == b && r[|b|] == '/' &&
      r[|b| + 1..] == DropLeadingSlash(WithTrailingSlash(url))
  {
  }

  /** With an absolute base, resolution is idempotent. */
  lemma Idempotent(base: string, url: string)
    requires StartsWith(base, "http")
    ensures PrepareRelativeUrl(base, PrepareRelativeUrl(base, url)) == PrepareRelativeUrl(base, url)
  {
  }

  /** A base `b` and `b + "/"` resolve every reference alike, when `b` has no trailing '/'. */
  lemma BaseSlashInsensitive(base: string, url: string)
    requires !EndsWith(base, "/")
    ensures PrepareRelativeUrl(base + "/", url) == PrepareRelativeUrl(base, url)
  {
  }

  /** Only one trailing '/' of the base is removed: a doubled slash survives into the result. */
  lemma OnlyOneBaseSlashStripped(b: string, url: string)
    requires !StartsWith(url, "http")
    ensures StartsWith(PrepareRelativeUrl(b + "//", url), b + "//")
    ensures |PrepareRelativeUrl(b + "//", url)| == |PrepareRelativeUrl(b + "/", url)| + 1
  {
    assert StripTrailingSlash(b + "//") == b + "/";
    assert StripTrailingSlash(b + "/") == b;
    assert b + "/" + "/" == b + "//";
  }

  /** A relative reference resolves to a URL ending in '/' exactly when it needed one or had one. */
  lemma ResolvedEndsWithSlash(base: string, url: string)
    requires !StartsWith(url, "http")
    ensures EndsWith(PrepareRelativeUrl(base, url), "/") <==> NeedsTrailingSlash(url) || EndsWith(url, "/")
  {
  }

  /** Example: a plain segment gets a trailing '/' and the base's '/' is not doubled. */
  lemma ExampleTeams()
    ensures PrepareRelativeUrl("http://api.example.com/", "teams") == "http://api.example.com/teams/"
  {
    assert "teams"[0] != "http"[0];
    assert LastIndexOf("teams", '.') == -1;
    assert !EndsWith("teams", "api-docs");
    assert NeedsTrailingSlash("teams");
    assert StripTrailingSlash("http://api.example.com/") == "http://api.example.com";
  }

  /** Example: the swagger endpoint gets no trailing '/'. */
  lemma ExampleApiDocs()
    ensures PrepareRelativeUrl("http://api.example.com", "api-docs") == "http://api.example.com/api-docs"
  {
    assert "api-docs"[0] != "http"[0];
    assert EndsWith("api-docs", "api-docs");
    assert !EndsWith("http://api.example.com", "/");
  }
}
