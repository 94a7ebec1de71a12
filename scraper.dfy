/**
 * `scrape_content` of the backend: choose the platform from the URL's host,
 * answer with a fixed record in mock mode, otherwise try the platform's
 * endpoints in order until one answers, classify each failure into a
 * message, and map the answer's JSON into the result record through a chain
 * of fallbacks.
 */
module Scraper {
  import opened Wrappers
  import opened Text

  // ---------------------------------------------------------------------
  // The host of a URL, as `urllib.parse.urlparse(...).netloc` finds it
  // ---------------------------------------------------------------------

  predicate IsAsciiLetter(c: char) {
    'a' <= c <= 'z' || 'A' <= c <= 'Z'
  }

  /** The characters `urlsplit` accepts in a scheme. */
  predicate IsSchemeChar(c: char) {
    IsAsciiLetter(c) || '0' <= c <= '9' || c == '+' || c == '-' || c == '.'
  }

  predicate IsColon(c: char) {
    c == ':'
  }

  /** The characters that end the network location. */
  predicate IsNetlocEnd(c: char) {
    c == '/' || c == '?' || c == '#'
  }

  /** The index of the first character at or after `from` that satisfies `stop`, or `|s|`. */
  function FirstOf(s: string, from: nat, stop: char -> bool): (k: nat)
    requires from <= |s|
    ensures from <= k <= |s|
    ensures forall i :: from <= i < k ==> !stop(s[i])
    ensures k < |s| ==> stop(s[k])
    decreases |s| - from
  {
    if from == |s| || stop(s[from]) then from else FirstOf(s, from + 1, stop)
  }

  lemma {:induction false} FirstOfIs(s: string, from: nat, stop: char -> bool, k: nat)
    requires from <= k <= |s|
    requires forall i :: from <= i < k ==> !stop(s[i])
    requires k == |s| || stop(s[k])
    ensures FirstOf(s, from, stop) == k
    decreases k - from
  {
    if from < k {
      FirstOfIs(s, from + 1, stop, k);
    }
  }

  /**
   * Where the scheme ends: `url.find(':')`, accepted only when it is
   * positive, the first character is an ASCII letter, and every character
   * before it is a scheme character.
   */
  function SchemeEnd(url: string): (r: Option<nat>)
    ensures r.Some? ==> 0 < r.value < |url| && url[r.value] == ':'
  {
    var i := FirstOf(url, 0, IsColon);
    if 0 < i < |url| && IsAsciiLetter(url[0]) && forall k :: 0 <= k < i ==> IsSchemeChar(url[k]) then Some(i) else None
  }

  /** The network location: after an optional scheme, the text between "//" and the first '/', '?' or '#'. */
  function Netloc(url: string): (host: string)
    ensures forall i :: 0 <= i < |host| ==> !IsNetlocEnd(host[i])
  {
    var rest := if SchemeEnd(url).Some? then url[SchemeEnd(url).value + 1..] else url;
    if StartsWith(rest, "//") then rest[2..FirstOf(rest, 2, IsNetlocEnd)] else ""
  }

  predicate IsScheme(scheme: string) {
    scheme != [] && IsAsciiLetter(scheme[0]) && forall k :: 0 <= k < |scheme| ==> IsSchemeChar(scheme[k])
  }

  /** A plain host: no character that ends the network location, and no IPv6 bracket. */
  predicate IsHost(host: string) {
    forall k :: 0 <= k < |host| ==> !IsNetlocEnd(host[k]) && host[k] != '[' && host[k] != ']'
  }

  /** `urlsplit` raises `ValueError("Invalid IPv6 URL")` when the network location has one bracket without the other. */
  predicate UnbalancedBrackets(netloc: string) {
    ('[' in netloc) != (']' in netloc)
  }

  /** For `scheme://host` followed by a path, query or fragment, the network location is exactly `host`. */
  lemma NetlocOfUrl(scheme: string, host: string, tail: string)
    requires IsScheme(scheme) && IsHost(host)
    requires tail == [] || IsNetlocEnd(tail[0])
    ensures Netloc(scheme + "://" + host + tail) == host
  {
    NetlocOfHost(scheme, host, tail);
  }

  /** The same for any text without a '/', '?' or '#' in the host position, brackets included. */
  lemma NetlocOfHost(scheme: string, host: string, tail: string)
    requires IsScheme(scheme)
    requires forall k :: 0 <= k < |host| ==> !IsNetlocEnd(host[k])
    requires tail == [] || IsNetlocEnd(tail[0])
    ensures Netloc(scheme + "://" + host + tail) == host
  {
    var url := scheme + "://" + host + tail;
    assert url[|scheme|] == ':';
    FirstOfIs(url, 0, IsColon, |scheme|);
    assert SchemeEnd(url) == Some(|scheme|);
    var rest := url[|scheme| + 1..];
    assert rest == "//" + host + tail;
    FirstOfIs(rest, 2, IsNetlocEnd, 2 + |host|);
    assert rest[2..2 + |host|] == host;
  }

  // ---------------------------------------------------------------------
  // detect_platform
  // ---------------------------------------------------------------------

  datatype Platform = Instagram | TikTok | YouTube | LinkedIn | Unknown

  function PlatformName(p: Platform): string {
    match p
    case Instagram => "instagram"
    case TikTok => "tiktok"
    case YouTube => "youtube"
    case LinkedIn => "linkedin"
    case Unknown => "unknown"
  }

  predicate InstagramHost(domain: string) {
    Contains(domain, "instagram.com") || Contains(domain, "instagr.am")
  }

  predicate YouTubeHost(domain: string) {
    Contains(domain, "youtube.com") || Contains(domain, "youtu.be")
  }

  /** The ordered substring tests over the host: the first that matches decides. */
  function Classify(domain: string): (p: Platform)
    ensures p == Instagram <==> InstagramHost(domain)
    ensures p == TikTok <==> !InstagramHost(domain) && Contains(domain, "tiktok.com")
    ensures p == YouTube <==> !InstagramHost(domain) && !Contains(domain, "tiktok.com") && YouTubeHost(domain)
    ensures p == LinkedIn <==> !InstagramHost(domain) && !Contains(domain, "tiktok.com") && !YouTubeHost(domain)
                               && Contains(domain, "linkedin.com")
    ensures p == Unknown <==> !InstagramHost(domain) && !Contains(domain, "tiktok.com") && !YouTubeHost(domain)
                              && !Contains(domain, "linkedin.com")
  {
    if InstagramHost(domain) then Instagram
    else if Contains(domain, "tiktok.com") then TikTok
    else if YouTubeHost(domain) then YouTube
    else if Contains(domain, "linkedin.com") then LinkedIn
    else Unknown
  }

  /** `detect_platform`: lower-case the URL and classify its host; `None` where `urlsplit` raises. */
  function DetectPlatform(url: string): (p: Option<Platform>)
    ensures var host := Netloc(Lower(url));
            && (p.None? <==> UnbalancedBrackets(host))
            && (p == Some(Instagram) <==> !UnbalancedBrackets(host) && InstagramHost(host))
            && (p == Some(Unknown) <==> !UnbalancedBrackets(host) && !InstagramHost(host) && !Contains(host, "tiktok.com")
                                        && !YouTubeHost(host) && !Contains(host, "linkedin.com"))
  {
    var host := Netloc(Lower(url));
    if UnbalancedBrackets(host) then None else Some(Classify(host))
  }

  /** An opening bracket without a closing one in the host makes `detect_platform` raise. */
  lemma OpenBracketRaises(scheme: string, host: string, tail: string)
    requires IsScheme(scheme) && IsHost(host)
    requires tail == [] || IsNetlocEnd(tail[0])
    ensures DetectPlatform(scheme + "://[" + host + tail).None?
  {
    var h := "[" + host;
    assert scheme + "://[" + host + tail == scheme + "://" + h + tail;
    assert forall k :: 0 <= k < |h| ==> !IsNetlocEnd(h[k]) by {
      forall k | 0 <= k < |h| ensures !IsNetlocEnd(h[k]) {
        if k > 0 { assert h[k] == host[k - 1]; }
      }
    }
    LowerUrl(scheme, h, tail);
    assert Lower(h)[0] == '[';
    assert ']' !in Lower(h) by {
      forall k | 0 <= k < |h| ensures Lower(h)[k] != ']' {
        if k > 0 { assert h[k] == host[k - 1]; }
      }
    }
  }

  /** The letter case of the URL does not matter. */
  lemma DetectPlatformIgnoresCase(url: string)
    ensures DetectPlatform(Lower(url)) == DetectPlatform(url)
  {
    LowerIdempotent(url);
  }

  lemma LowerAppend(a: string, b: string)
    ensures Lower(a + b) == Lower(a) + Lower(b)
  {
    assert forall i :: 0 <= i < |a + b| ==> Lower(a + b)[i] == (Lower(a) + Lower(b))[i];
  }

  /**
   * Only the host decides the platform: the path, query and fragment of the
   * URL are never inspected, and the host is compared in lower case.
   */
  lemma OnlyTheHostDecides(scheme: string, host: string, tail: string)
    requires IsScheme(scheme) && IsHost(host)
    requires tail == [] || IsNetlocEnd(tail[0])
    ensures DetectPlatform(scheme + "://" + host + tail) == Some(Classify(Lower(host)))
  {
    LowerUrl(scheme, host, tail);
    assert IsHost(Lower(host));
    NetlocOfUrl(Lower(scheme), Lower(host), Lower(tail));
  }

  /** Lower-casing `scheme://host…` lower-cases each part and keeps the separators. */
  lemma LowerUrl(scheme: string, host: string, tail: string)
    requires IsScheme(scheme)
    requires forall k :: 0 <= k < |host| ==> !IsNetlocEnd(host[k])
    requires tail == [] || IsNetlocEnd(tail[0])
    ensures Lower(scheme + "://" + host + tail) == Lower(scheme) + "://" + Lower(host) + Lower(tail)
    ensures Netloc(Lower(scheme + "://" + host + tail)) == Lower(host)
  {
    LowerAppend(scheme + "://" + host, tail);
    LowerAppend(scheme + "://", host);
    LowerAppend(scheme, "://");
    assert Lower("://") == "://";
    assert IsScheme(Lower(scheme));
    assert Lower(tail) == [] || IsNetlocEnd(Lower(tail)[0]);
    NetlocOfHost(Lower(scheme), Lower(host), Lower(tail));
  }

  /** A host that names Instagram is Instagram whatever else it names: the first test wins. */
  lemma InstagramCheckedFirst(domain: string)
    requires Contains(domain, "instagr.am")
    ensures Classify(domain) == Instagram
  {
  }

  // ---------------------------------------------------------------------
  // Configuration: API base, mock mode, endpoint table
  // ---------------------------------------------------------------------

  /** The environment variables `scrape_content` reads; `None` is an unset variable. */
  datatype Env = Env(apiKey: Option<string>, apiBase: Option<string>, mockFlag: Option<string>)

  const DefaultApiBase: string := "https://api.scrapecreators.com"

  /** Strip every trailing '/', then one trailing "/v1". */
  function NormalizeBase(base: string): (r: string)
    ensures var s := RStrip(base, '/'); if EndsWith(s, "/v1") then r + "/v1" == s else r == s
  {
    var s := RStrip(base, '/');
    if EndsWith(s, "/v1") then s[..|s| - 3] else s
  }

  lemma RStripKeeps(s: string, c: char)
    requires s != [] && s[|s| - 1] != c
    ensures RStrip(s, c) == s
  {
  }

  /** A base given with its version, with or without a trailing slash, is cut back to the host part. */
  lemma NormalizeBaseDropsVersion(h: string)
    ensures NormalizeBase(h + "/v1") == h
    ensures NormalizeBase(h + "/v1/") == h
  {
    RStripKeeps(h + "/v1", '/');
    assert RStrip(h + "/v1/", '/') == h + "/v1";
  }

  /** Only one "/v1" is removed, so normalising is not idempotent. */
  lemma NormalizeBaseNotIdempotent(h: string)
    ensures NormalizeBase(h + "/v1/v1") == h + "/v1"
    ensures NormalizeBase(NormalizeBase(h + "/v1/v1")) == h
  {
    assert h + "/v1/v1" == (h + "/v1") + "/v1";
    NormalizeBaseDropsVersion(h + "/v1");
    NormalizeBaseDropsVersion(h);
  }

  function ApiBase(env: Env): string {
    NormalizeBase(env.apiBase.GetOr(DefaultApiBase))
  }

  /** Unset, the base is the public host; set with its version, the version is cut off. */
  lemma ApiBaseChoice(key: Option<string>, flag: Option<string>, host: string)
    ensures ApiBase(Env(key, None, flag)) == DefaultApiBase
    ensures ApiBase(Env(key, Some(host + "/v1/"), flag)) == host
  {
    RStripKeeps(DefaultApiBase, '/');
    assert DefaultApiBase[|DefaultApiBase| - 3..] != "/v1" by {
      assert DefaultApiBase[|DefaultApiBase| - 1] == 'm';
    }
    NormalizeBaseDropsVersion(host);
  }

  /** Mock mode: no (or an empty) API key, or the mock flag equal to "true" in any letter case. */
  predicate UseMock(env: Env) {
    !(env.apiKey.Some? && env.apiKey.value != "") || Lower(env.mockFlag.GetOr("false")) == "true"
  }

  /**
   * Without a key the mock is used whatever the flag says; with a key, only
   * the flag spelled "true" (in any letter case) switches it on, so an
   * unset flag or "1" keeps the real API.
   */
  lemma MockModeSwitches(key: string, base: Option<string>, flag: Option<string>)
    ensures UseMock(Env(None, base, flag)) && UseMock(Env(Some(""), base, flag))
    ensures UseMock(Env(Some(key), base, Some("TRUE"))) && UseMock(Env(Some(key), base, Some("True")))
    ensures key != "" ==> !UseMock(Env(Some(key), base, None)) && !UseMock(Env(Some(key), base, Some("1")))
  {
    assert Lower("TRUE") == "true";
    assert Lower("True") == "true";
    assert |Lower("false")| == 5 && |Lower("1")| == 1;
  }

  /** The endpoints tried for each platform, in order. */
  function Endpoints(base: string, p: Platform): (r: seq<string>)
    ensures p == Unknown <==> r == []
    ensures p == Instagram ==> |r| == 2
    ensures p != Instagram && p != Unknown ==> |r| == 1
    ensures forall i :: 0 <= i < |r| ==> StartsWith(r[i], base)
  {
    match p
    case Instagram => [base + "/v1/instagram/reel", base + "/v1/instagram/post"]
    case TikTok => [base + "/v2/tiktok/video"]
    case YouTube => [base + "/v1/youtube/video"]
    case LinkedIn => [base + "/v1/linkedin/post"]
    case Unknown => []
  }

  // ---------------------------------------------------------------------
  // JSON values with Python's dictionary access and truthiness
  // ---------------------------------------------------------------------

  /** A decoded JSON value; `Null` is also Python's `None`. */
  datatype Json = Null | Bool(b: bool) | Int(i: int) | Float(r: real) | Str(s: string) | Arr(items: seq<Json>) | Obj(fields: map<string, Json>)

  const EmptyObj: Json := Obj(map[])

  predicate Truthy(j: Json) {
    match j
    case Null => false
    case Bool(b) => b
    case Int(i) => i != 0
    case Float(r) => r != 0.0
    case Str(s) => s != ""
    case Arr(items) => items != []
    case Obj(fields) => fields != map[]
  }

  /** Python's `a or b`. */
  function Or(a: Json, b: Json): Json {
    if Truthy(a) then a else b
  }

  /** `d.get(key, default)` on a dict. */
  function Field(fields: map<string, Json>, key: string, default: Json): Json {
    if key in fields then fields[key] else default
  }

  /** `j.get(key, default)`; `None` when `j` is not a dict, where Python raises. */
  function Get(j: Json, key: string, default: Json): (r: Option<Json>)
    ensures r.Some? <==> j.Obj?
  {
    if j.Obj? then Some(Field(j.fields, key, default)) else None
  }

  predicate IsNumber(j: Json) {
    j.Int? || j.Float? || j.Bool?
  }

  function NumberValue(j: Json): real
    requires IsNumber(j)
  {
    match j
    case Int(i) => i as real
    case Float(r) => r
    case Bool(b) => if b then 1.0 else 0.0
  }

  /** Python's `j == 0`: the numbers equal to zero, `False` included. */
  predicate EqualsZero(j: Json) {
    IsNumber(j) && NumberValue(j) == 0.0
  }

  // ---------------------------------------------------------------------
  // The endpoint loop
  // ---------------------------------------------------------------------

  datatype HttpResponse = HttpResponse(status: int, text: string)

  /** `raise_for_status` raises `HTTPError` exactly for the client and server error statuses. */
  predicate RaisesForStatus(status: int) {
    400 <= status < 600
  }

  /** The statuses an `HTTPError` from `raise_for_status` can carry. */
  type ErrorStatus = s: int | RaisesForStatus(s) witness 400

  /**
   * What one `session.get` ends in. `HttpFailed` is the `HTTPError` raised
   * by `raise_for_status`, with the status and text of its response.
   */
  datatype Attempt = Answered(body: Json) | TimedOut | HttpFailed(status: ErrorStatus, text: string) | NetworkFailed(message: string)

  /** A requests `Response` is truthy exactly when it is `ok`, that is when `raise_for_status` would not raise. */
  predicate ResponseTruthy(r: HttpResponse) {
    !RaisesForStatus(r.status)
  }

  const AllEndpointsFailed: string := "Все эндпоинты не сработали"

  const NotFoundPrefix: string := "Контент" + " не найден или недоступен (" + "404" + ") — "
  const ForbiddenPrefix: string := "Доступ" + " запрещён - возможно приватный аккаунт (" + "403" + ") — "
  const RateLimitedPrefix: string := "Превышен" + " лимит запросов к API (" + "429" + ") — "
  const ApiErrorPrefix: string := "Ошибка API: "

  /** The status as the generic message prints it: the number, or `None` without a response. */
  function StatusText(response: Option<HttpResponse>): string {
    if response.Some? then IntToString(response.value.status) else "None"
  }

  /** The three status-specific messages and the generic one start differently, so each is recognised by its start. */
  predicate Classified(m: string, notFound: bool, forbidden: bool, rateLimited: bool, generic: bool) {
    && (StartsWith(m, NotFoundPrefix) <==> notFound)
    && (StartsWith(m, ForbiddenPrefix) <==> forbidden)
    && (StartsWith(m, RateLimitedPrefix) <==> rateLimited)
    && (StartsWith(m, ApiErrorPrefix) <==> generic)
  }

  lemma NotFoundMessage(text: string)
    ensures var m := NotFoundPrefix + text;
            Classified(m, true, false, false, false) && Contains(m, IntToString(404))
  {
    var m := NotFoundPrefix + text;
    assert m[..|NotFoundPrefix|] == NotFoundPrefix;
    assert m[0] == NotFoundPrefix[0];
    FirstCharDecidesPrefix(m, ForbiddenPrefix);
    FirstCharDecidesPrefix(m, RateLimitedPrefix);
    FirstCharDecidesPrefix(m, ApiErrorPrefix);
    assert m == "Контент" + " не найден или недоступен (" + "404" + (") — " + text);
    ContainsInfix("Контент" + " не найден или недоступен (", "404", ") — " + text);
    assert IntToString(404) == "404";
  }

  lemma ForbiddenMessage(text: string)
    ensures var m := ForbiddenPrefix + text;
            Classified(m, false, true, false, false) && Contains(m, IntToString(403))
  {
    var m := ForbiddenPrefix + text;
    assert m[..|ForbiddenPrefix|] == ForbiddenPrefix;
    assert m[0] == ForbiddenPrefix[0];
    FirstCharDecidesPrefix(m, NotFoundPrefix);
    FirstCharDecidesPrefix(m, RateLimitedPrefix);
    FirstCharDecidesPrefix(m, ApiErrorPrefix);
    assert m == "Доступ" + " запрещён - возможно приватный аккаунт (" + "403" + (") — " + text);
    ContainsInfix("Доступ" + " запрещён - возможно приватный аккаунт (", "403", ") — " + text);
    assert IntToString(403) == "403";
  }

  lemma RateLimitedMessage(text: string)
    ensures var m := RateLimitedPrefix + text;
            Classified(m, false, false, true, false) && Contains(m, IntToString(429))
  {
    var m := RateLimitedPrefix + text;
    assert m[..|RateLimitedPrefix|] == RateLimitedPrefix;
    assert m[0] == RateLimitedPrefix[0];
    FirstCharDecidesPrefix(m, NotFoundPrefix);
    FirstCharDecidesPrefix(m, ForbiddenPrefix);
    FirstCharDecidesPrefix(m, ApiErrorPrefix);
    assert m == "Превышен" + " лимит запросов к API (" + "429" + (") — " + text);
    ContainsInfix("Превышен" + " лимит запросов к API (", "429", ") — " + text);
    assert IntToString(429) == "429";
  }

  lemma GenericMessage(status: string, text: string)
    ensures var m := ApiErrorPrefix + status + " - " + text;
            Classified(m, false, false, false, true) && Contains(m, status)
            && StartsWith(m, ApiErrorPrefix + status + " - ")
  {
    var head := ApiErrorPrefix + status + " - ";
    var m := head + text;
    assert m[..|head|] == head;
    assert m[..|ApiErrorPrefix|] == head[..|ApiErrorPrefix|] == ApiErrorPrefix;
    assert m[0] == ApiErrorPrefix[0];
    FirstCharDecidesPrefix(m, NotFoundPrefix);
    FirstCharDecidesPrefix(m, ForbiddenPrefix);
    FirstCharDecidesPrefix(m, RateLimitedPrefix);
    assert m == ApiErrorPrefix + status + (" - " + text);
    ContainsInfix(ApiErrorPrefix, status, " - " + text);
  }

  /**
   * The message for an `HTTPError` once the status and text have been read
   * off its response (`None` and '' without one). 404, 403 and 429 each
   * get their own message, and exactly those statuses do; every other
   * status, and a missing response, gets the generic message naming the
   * status. The message ends with the response text.
   */
  function HttpErrorMessage(response: Option<HttpResponse>): (m: string)
    ensures StartsWith(m, NotFoundPrefix) <==> response.Some? && response.value.status == 404
    ensures StartsWith(m, ForbiddenPrefix) <==> response.Some? && response.value.status == 403
    ensures StartsWith(m, RateLimitedPrefix) <==> response.Some? && response.value.status == 429
    ensures StartsWith(m, ApiErrorPrefix) <==> !(response.Some? && response.value.status in {404, 403, 429})
    ensures !(response.Some? && response.value.status in {404, 403, 429}) ==> StartsWith(m, ApiErrorPrefix + StatusText(response) + " - ")
    ensures response.Some? ==> Contains(m, IntToString(response.value.status)) && EndsWith(m, response.value.text)
    ensures response.None? ==> m == "Ошибка API: None - "
  {
    var text := if response.Some? then response.value.text else "";
    if response.Some? && response.value.status == 404 then
      NotFoundMessage(text);
      NotFoundPrefix + text
    else if response.Some? && response.value.status == 403 then
      ForbiddenMessage(text);
      ForbiddenPrefix + text
    else if response.Some? && response.value.status == 429 then
      RateLimitedMessage(text);
      RateLimitedPrefix + text
    else
      GenericMessage(StatusText(response), text);
      ApiErrorPrefix + StatusText(response) + " - " + text
  }

  /**
   * The message recorded for a failed attempt, as written: the `HTTPError`
   * branch reads the status and text only when `e.response` is truthy,
   * which a response that made `raise_for_status` raise never is. So every
   * HTTP failure is recorded as the generic message with status `None`.
   */
  function AttemptErrorAsWritten(platform: string, a: Attempt): (m: string)
    requires !a.Answered?
    ensures a.HttpFailed? ==> m == "Ошибка API: None - "
    ensures a.TimedOut? ==> EndsWith(m, platform)
    ensures a.NetworkFailed? ==> EndsWith(m, a.message)
  {
    match a
    case TimedOut => "Превышено время ожидания ответа от " + platform
    case NetworkFailed(message) => "Ошибка сети: " + message
    case HttpFailed(status, text) =>
      var response := HttpResponse(status, text);
      HttpErrorMessage(if ResponseTruthy(response) then Some(response) else None)
  }

  /** A 404 is never reported as "not found" by the code as written, and its response text is lost. */
  lemma NotFoundNeverReported()
    ensures var m := AttemptErrorAsWritten("instagram", HttpFailed(404, "gone"));
            !StartsWith(m, NotFoundPrefix) && m == "Ошибка API: None - "
  {
    var m := AttemptErrorAsWritten("instagram", HttpFailed(404, "gone"));
    assert m[0] == 'О' && NotFoundPrefix[0] == 'К';
    FirstCharDecidesPrefix(m, NotFoundPrefix);
  }

  /**
   * The message recorded for a failed attempt, as the classification is
   * evidently meant to work: an HTTP failure is classified by its response's
   * status, 404, 403 and 429 each by its own message and every other status
   * by the generic message naming it, and the message ends with the
   * response text. Timeouts name the platform, network errors the error.
   */
  function AttemptError(platform: string, a: Attempt): (m: string)
    requires !a.Answered?
    ensures a.HttpFailed? ==> (StartsWith(m, NotFoundPrefix) <==> a.status == 404)
    ensures a.HttpFailed? ==> (StartsWith(m, ForbiddenPrefix) <==> a.status == 403)
    ensures a.HttpFailed? ==> (StartsWith(m, RateLimitedPrefix) <==> a.status == 429)
    ensures a.HttpFailed? ==> (StartsWith(m, ApiErrorPrefix) <==> a.status !in {404, 403, 429})
    ensures a.HttpFailed? && a.status !in {404, 403, 429} ==> StartsWith(m, ApiErrorPrefix + IntToString(a.status) + " - ")
    ensures a.HttpFailed? ==> Contains(m, IntToString(a.status)) && EndsWith(m, a.text)
    ensures a.TimedOut? ==> EndsWith(m, platform)
    ensures a.NetworkFailed? ==> EndsWith(m, a.message)
  {
    match a
    case TimedOut => "Превышено время ожидания ответа от " + platform
    case NetworkFailed(message) => "Ошибка сети: " + message
    case HttpFailed(status, text) => HttpErrorMessage(Some(HttpResponse(status, text)))
  }

  /** The loop's outcome: the data of the answer that stopped it (`Null` if none), the last error, and how many endpoints it contacted. */
  datatype Fallback = Fallback(data: Json, lastError: Option<string>, contacted: nat)

  /** The endpoint loop from a given last error on: the first answer stops it, each failure replaces the last error. */
  function FallbackFrom(platform: string, endpoints: seq<string>, respond: string -> Attempt, lastError: Option<string>): (f: Fallback)
    ensures f.contacted <= |endpoints|
    decreases |endpoints|
  {
    if endpoints == [] then Fallback(Null, lastError, 0)
    else
      var a := respond(endpoints[0]);
      if a.Answered? then Fallback(a.body, lastError, 1)
      else
        var f := FallbackFrom(platform, endpoints[1..], respond, Some(AttemptError(platform, a)));
        f.(contacted := f.contacted + 1)
  }

  /**
   * The first endpoint that answers stops the loop: it and the ones before
   * it are contacted, no later one is, and the last error is that of the
   * endpoint just before it.
   */
  lemma {:induction false} FirstAnswerStops(platform: string, endpoints: seq<string>, respond: string -> Attempt, lastError: Option<string>, k: nat)
    requires k < |endpoints| && respond(endpoints[k]).Answered?
    requires forall i :: 0 <= i < k ==> !respond(endpoints[i]).Answered?
    ensures FallbackFrom(platform, endpoints, respond, lastError)
            == Fallback(respond(endpoints[k]).body,
                        if k == 0 then lastError else Some(AttemptError(platform, respond(endpoints[k - 1]))), k + 1)
    decreases k
  {
    if k > 0 {
      var a := respond(endpoints[0]);
      assert !a.Answered?;
      assert forall i :: 0 <= i < k - 1 ==> endpoints[1..][i] == endpoints[i + 1];
      FirstAnswerStops(platform, endpoints[1..], respond, Some(AttemptError(platform, a)), k - 1);
    }
  }

  /** When no endpoint answers, all are contacted and the last one's error is the last error. */
  lemma {:induction false} NoAnswerKeepsLastError(platform: string, endpoints: seq<string>, respond: string -> Attempt, lastError: Option<string>)
    requires forall i :: 0 <= i < |endpoints| ==> !respond(endpoints[i]).Answered?
    ensures var f := FallbackFrom(platform, endpoints, respond, lastError);
            && f.data == Null && f.contacted == |endpoints|
            && f.lastError == if endpoints == [] then lastError else Some(AttemptError(platform, respond(endpoints[|endpoints| - 1])))
    decreases |endpoints|
  {
    if endpoints != [] {
      var a := respond(endpoints[0]);
      assert forall i :: 0 <= i < |endpoints| - 1 ==> endpoints[1..][i] == endpoints[i + 1];
      NoAnswerKeepsLastError(platform, endpoints[1..], respond, Some(AttemptError(platform, a)));
    }
  }

  /** The `for endpoint in endpoints` loop with its `break` and `continue`s. */
  method TryEndpoints(platform: string, endpoints: seq<string>, respond: string -> Attempt)
    returns (data: Json, lastError: Option<string>, contacted: seq<string>)
    ensures var f := FallbackFrom(platform, endpoints, respond, None);
            && data == f.data && lastError == f.lastError && contacted == endpoints[..f.contacted]
  {
    data, lastError, contacted := Null, None, [];
    var i := 0;
    while i < |endpoints|
      invariant 0 <= i <= |endpoints|
      invariant contacted == endpoints[..i]
      invariant var f := FallbackFrom(platform, endpoints[i..], respond, lastError);
                var g := FallbackFrom(platform, endpoints, respond, None);
                f.data == g.data && f.lastError == g.lastError && i + f.contacted == g.contacted
      invariant data == Null
    {
      var a := respond(endpoints[i]);
      contacted := contacted + [endpoints[i]];
      if a.Answered? {
        data := a.body;
        break;
      }
      assert endpoints[i..][1..] == endpoints[i + 1..];
      lastError := Some(AttemptError(platform, a));
      i := i + 1;
    }
    assert endpoints[..|contacted|] == contacted;
  }

  // ---------------------------------------------------------------------
  // The result record
  // ---------------------------------------------------------------------

  /**
   * How `engagement_rate` came about: not computed, a fixed value, or
   * computed from the summed engagement and the views (as the percentage
   * `total / views * 100` rounded to two places).
   */
  datatype Engagement = NotComputed | Given(rate: real) | FromCounts(total: real, views: real)

  datatype Record = Record(
    caption: Json, transcript: Json, mediaUrl: Json, author: Json, platform: string,
    viewsCount: Json, likesCount: Json, commentsCount: Json, sharesCount: Json,
    engagementRate: Engagement, videoDuration: Json,
    /** The timestamp `datetime.fromtimestamp` is applied to, if any. */
    publishedAt: Option<Json>,
    playCount: Json, savesCount: Json, authorFollowers: Json, hasAudio: Json, isVideo: Json)

  /** Python's `s[:n]`. */
  function Take(s: string, n: nat): (r: string)
    ensures |r| <= |s| && |r| <= n && r == s[..|r|]
    ensures |s| <= n ==> r == s
  {
    if |s| <= n then s else s[..n]
  }

  /** The fixed record of mock mode, for the platform detected from the URL. */
  function MockRecord(url: string, platform: Platform): (r: Record)
    ensures r.platform == PlatformName(platform) && r.mediaUrl == Str(url)
    ensures r.author == Str("test_user_" + PlatformName(platform))
    ensures r.publishedAt.None? && r.engagementRate == Given(9.6)
  {
    var name := PlatformName(platform);
    Record(Str("Тестовый контент с " + name + " | URL: " + Take(url, 50) + "..."),
           Str("Тестовая расшифровка видео для демонстрации функционала"),
           Str(url), Str("test_user_" + name), name,
           Int(125000), Int(8500), Int(320), Int(1200), Given(9.6), Int(45), None,
           Int(145000), Int(2100), Int(45000), Bool(true), Bool(true))
  }

  /** `caption_edges[0].get('node', {}).get('text', '')` when the edges are truthy, '' otherwise. */
  function CaptionText(edges: Json): (r: Option<Json>)
    ensures !Truthy(edges) ==> r == Some(Str(""))
    ensures Truthy(edges) && !edges.Arr? ==> r.None?
  {
    if !Truthy(edges) then Some(Str(""))
    else if !edges.Arr? then None
    else
      var node :- Get(edges.items[0], "node", EmptyObj);
      Get(node, "text", Str(""))
  }

  /**
   * `comments_count`: the edge count; only when that equals 0, a truthy
   * `comment_count` / `comments_count` replaces it, and a truthy preview
   * count replaces either.
   */
  function CommentsCount(media: Json): (r: Option<Json>)
    ensures r.Some? ==> media.Obj?
  {
    if !media.Obj? then None
    else
      var count :- Get(Field(media.fields, "edge_media_to_comment", EmptyObj), "count", Int(0));
      if !EqualsZero(count) then Some(count)
      else
        var alternative := Or(Field(media.fields, "comment_count", Null), Field(media.fields, "comments_count", Null));
        var previewCount :- Get(Field(media.fields, "edge_media_preview_comment", EmptyObj), "count", Null);
        Some(if Truthy(previewCount) then previewCount else if Truthy(alternative) then alternative else count)
  }

  /** A media object whose comment edge carries `count`. */
  function WithCommentCount(fields: map<string, Json>, count: Json): Json {
    Obj(fields["edge_media_to_comment" := Obj(map["count" := count])])
  }

  /** A non-zero edge count is the answer; no other field is consulted. */
  lemma EdgeCountWins(fields: map<string, Json>, count: Json)
    requires !EqualsZero(count)
    ensures CommentsCount(WithCommentCount(fields, count)) == Some(count)
  {
  }

  /** With a zero edge count, a truthy preview count overrides a truthy alternative field. */
  lemma PreviewOverridesAlternative(fields: map<string, Json>, alternative: Json, preview: Json)
    requires Truthy(alternative) && Truthy(preview)
    requires "edge_media_to_comment" !in fields
    ensures var media := WithCommentCount(fields["comment_count" := alternative]
                                                ["edge_media_preview_comment" := Obj(map["count" := preview])], Int(0));
            CommentsCount(media) == Some(preview)
  {
  }

  /** With a zero edge count and no preview count, the first truthy alternative field is taken. */
  lemma AlternativeReplacesZero(fields: map<string, Json>, alternative: Json)
    requires Truthy(alternative)
    requires "edge_media_to_comment" !in fields && "edge_media_preview_comment" !in fields
    ensures CommentsCount(WithCommentCount(fields["comments_count" := alternative]["comment_count" := Null], Int(0)))
            == Some(alternative)
  {
  }

  /** A count `count or 0` can add: a number, or anything falsy (which counts as 0). */
  predicate Summable(count: Json) {
    IsNumber(count) || !Truthy(count)
  }

  /** The value a count contributes to the engagement sum. */
  function CountValue(count: Json): real {
    if IsNumber(count) then NumberValue(count) else 0.0
  }

  /**
   * `engagement_rate`: computed only when the views are truthy and above 0,
   * from the sum of likes, comments and shares with a falsy count taken as
   * 0; a comparison or sum over a non-number raises (`None` here).
   */
  function EngagementOf(views: Json, likes: Json, comments: Json, shares: Json): (r: Option<Engagement>)
    ensures r.Some? && r.value.FromCounts? ==> IsNumber(views) && NumberValue(views) > 0.0 && r.value.views == NumberValue(views)
    ensures !Truthy(views) ==> r == Some(NotComputed)
    ensures IsNumber(views) && NumberValue(views) <= 0.0 ==> r == Some(NotComputed)
    ensures IsNumber(views) && NumberValue(views) > 0.0 ==>
              (r.Some? <==> Summable(likes) && Summable(comments) && Summable(shares))
              && (r.Some? ==> r.value.FromCounts?)
    ensures r.Some? && r.value.FromCounts? ==> r.value.total == CountValue(likes) + CountValue(comments) + CountValue(shares)
    ensures r.Some? ==> !r.value.Given?
  {
    if !Truthy(views) then Some(NotComputed)
    else if !IsNumber(views) then None
    else if NumberValue(views) <= 0.0 then Some(NotComputed)
    else
      var l, c, s := Or(likes, Int(0)), Or(comments, Int(0)), Or(shares, Int(0));
      if IsNumber(l) && IsNumber(c) && IsNumber(s) then
        Some(FromCounts(NumberValue(l) + NumberValue(c) + NumberValue(s), NumberValue(views)))
      else None
  }

  /** Integer counts over positive integer views: the rate is computed from their sum, a missing count adding 0. */
  lemma EngagementFromIntCounts(views: int, likes: int, comments: int, shares: int)
    requires views > 0
    ensures EngagementOf(Int(views), Int(likes), Int(comments), Int(shares))
            == Some(FromCounts((likes + comments + shares) as real, views as real))
    ensures EngagementOf(Int(views), Int(likes), Null, Null) == Some(FromCounts(likes as real, views as real))
  {
  }

  /** `saves_count`: the saved edge's count when that edge is truthy, `None` otherwise. */
  function SavesCount(savedEdge: Json): (r: Option<Json>)
    ensures !Truthy(savedEdge) ==> r == Some(Null)
  {
    if Truthy(savedEdge) then Get(savedEdge, "count", Null) else Some(Null)
  }

  /** The record built from an answer, or `None` where Python would raise on an unexpected shape. */
  function Extract(data: Json, url: string, platform: Platform): (r: Option<Record>)
    ensures r.Some? ==> data.Obj? && r.value.platform == PlatformName(platform)
    ensures r.Some? && r.value.engagementRate.FromCounts? ==> r.value.engagementRate.views > 0.0
  {
    var wrapper :- Get(data, "data", EmptyObj);
    var media :- Get(wrapper, "xdt_shortcode_media", EmptyObj);
    if !media.Obj? then None
    else
    var edges :- Get(Field(media.fields, "edge_media_to_caption", EmptyObj), "edges", Arr([]));
    var captionText :- CaptionText(edges);
    var owner := Field(media.fields, "owner", EmptyObj);
    var author :- Get(owner, "username", Str("unknown"));
    var views := Field(media.fields, "video_view_count", Null);
    var likes :- Get(Field(media.fields, "edge_media_preview_like", EmptyObj), "count", Int(0));
    var comments :- CommentsCount(media);
    var shares := Field(media.fields, "share_count", Null);
    var takenAt := Field(media.fields, "taken_at_timestamp", Null);
    if Truthy(takenAt) && !IsNumber(takenAt) then None
    else
    var saves :- SavesCount(Field(media.fields, "edge_media_saved", EmptyObj));
    var followers :- Get(Field(owner.fields, "edge_followed_by", EmptyObj), "count", Null);
    var engagement :- EngagementOf(views, likes, comments, shares);
    var caption := Or(Or(Or(captionText, Field(data.fields, "caption", Null)), Field(data.fields, "description", Null)),
                      Field(data.fields, "text", Str("")));
    var mediaUrl := Or(Or(Field(media.fields, "video_url", Null), Field(media.fields, "display_url", Null)), Str(url));
    Some(Record(caption, Field(data.fields, "transcript", Str("")), mediaUrl, author, PlatformName(platform),
                views, likes, comments, shares, engagement, Field(media.fields, "video_duration", Null),
                if Truthy(takenAt) then Some(takenAt) else None,
                Field(media.fields, "video_play_count", Null), saves, followers,
                Field(media.fields, "has_audio", Null), Field(media.fields, "is_video", Null)))
  }

  /** `media_url` falls back to the post's own URL when neither video nor display URL is truthy. */
  lemma MediaUrlFallsBackToPostUrl(fields: map<string, Json>, url: string, platform: Platform)
    requires var r := Extract(Obj(map["data" := Obj(map["xdt_shortcode_media" := Obj(fields)])]), url, platform);
             r.Some?
    requires "video_url" !in fields && "display_url" !in fields
    ensures Extract(Obj(map["data" := Obj(map["xdt_shortcode_media" := Obj(fields)])]), url, platform).value.mediaUrl == Str(url)
  {
  }

  /**
   * Without a caption edge in the media, `caption` falls back to the
   * answer's own top-level `caption`, then `description`, then `text`
   * (empty when that is missing too).
   */
  lemma CaptionFallsBackToTopLevel(top: map<string, Json>, media: map<string, Json>, url: string, platform: Platform)
    requires "data" in top && top["data"] == Obj(map["xdt_shortcode_media" := Obj(media)])
    requires "edge_media_to_caption" !in media
    requires Extract(Obj(top), url, platform).Some?
    ensures var caption := Extract(Obj(top), url, platform).value.caption;
            && (Truthy(Field(top, "caption", Null)) ==> caption == top["caption"])
            && (!Truthy(Field(top, "caption", Null)) && Truthy(Field(top, "description", Null)) ==> caption == top["description"])
            && (!Truthy(Field(top, "caption", Null)) && !Truthy(Field(top, "description", Null)) ==>
                  caption == Field(top, "text", Str("")))
  {
    assert CaptionText(Arr([])) == Some(Str(""));
  }

  /** A non-empty text on the first caption edge's node wins over every top-level fallback. */
  lemma CaptionPrefersMediaText(top: map<string, Json>, media: map<string, Json>, text: string, url: string, platform: Platform)
    requires "data" in top && top["data"] == Obj(map["xdt_shortcode_media" := Obj(media)])
    requires "edge_media_to_caption" in media
    requires media["edge_media_to_caption"] == Obj(map["edges" := Arr([Obj(map["node" := Obj(map["text" := Str(text)])])])])
    requires text != ""
    requires Extract(Obj(top), url, platform).Some?
    ensures Extract(Obj(top), url, platform).value.caption == Str(text)
  {
    var edges := Arr([Obj(map["node" := Obj(map["text" := Str(text)])])]);
    assert Get(media["edge_media_to_caption"], "edges", Arr([])) == Some(edges);
    assert CaptionText(edges) == Some(Str(text));
  }

  /** A truthy `taken_at_timestamp` that is not a number makes `datetime.fromtimestamp` raise. */
  lemma NonNumericTimestampRaises(top: map<string, Json>, media: map<string, Json>, url: string, platform: Platform)
    requires "data" in top && top["data"] == Obj(map["xdt_shortcode_media" := Obj(media)])
    requires "taken_at_timestamp" in media && Truthy(media["taken_at_timestamp"]) && !IsNumber(media["taken_at_timestamp"])
    ensures Extract(Obj(top), url, platform).None?
  {
  }

  /** An answer that is not a JSON object cannot be mapped: Python's `.get` raises on it. */
  lemma NonObjectAnswerRaises(data: Json, url: string, platform: Platform)
    requires !data.Obj?
    ensures Extract(data, url, platform).None?
  {
  }

  // ---------------------------------------------------------------------
  // scrape_content
  // ---------------------------------------------------------------------

  /**
   * How `scrape_content` ends: a record, a `RuntimeError` with its message,
   * or another exception, from a malformed URL or an unexpected answer shape.
   */
  datatype Outcome = Scraped(record: Record) | Raised(message: string) | Crashed

  function Unsupported(p: Platform): string {
    "Платформа " + PlatformName(p) + " не поддерживается"
  }

  /** `scrape_content(url)` in the given environment, with `respond` answering each endpoint; `contacted` lists the requests made. */
  method ScrapeContent(url: string, env: Env, respond: string -> Attempt) returns (outcome: Outcome, contacted: seq<string>)
    // A URL `urlsplit` rejects raises before anything else, mock mode included.
    ensures DetectPlatform(url).None? ==> outcome == Crashed && contacted == []
    // Mock mode answers the fixed record without a request.
    ensures DetectPlatform(url).Some? && UseMock(env) ==> outcome == Scraped(MockRecord(url, DetectPlatform(url).value)) && contacted == []
    // An unknown platform is refused before any request.
    ensures !UseMock(env) && DetectPlatform(url) == Some(Unknown) ==> outcome == Raised(Unsupported(Unknown)) && contacted == []
    ensures !UseMock(env) && DetectPlatform(url).Some? && DetectPlatform(url) != Some(Unknown) ==>
              var p := DetectPlatform(url).value;
              var endpoints := Endpoints(ApiBase(env), p);
              var f := FallbackFrom(PlatformName(p), endpoints, respond, None);
              && contacted == endpoints[..f.contacted] && contacted != []
              && (f.data == Null ==> outcome == Raised(f.lastError.GetOr(AllEndpointsFailed)))
              && (f.data != Null && Extract(f.data, url, p).Some? ==> outcome == Scraped(Extract(f.data, url, p).value))
              && (f.data != Null && Extract(f.data, url, p).None? ==> outcome == Crashed)
  {
    var detected := DetectPlatform(url);
    if detected.None? {
      return Crashed, [];
    }
    var platform := detected.value;
    if UseMock(env) {
      return Scraped(MockRecord(url, platform)), [];
    }
    var endpoints := Endpoints(ApiBase(env), platform);
    if endpoints == [] {
      return Raised(Unsupported(platform)), [];
    }
    var data, lastError;
    data, lastError, contacted := TryEndpoints(PlatformName(platform), endpoints, respond);
    if data == Null {
      return Raised(lastError.GetOr(AllEndpointsFailed)), contacted;
    }
    var record := Extract(data, url, platform);
    outcome := if record.Some? then Scraped(record.value) else Crashed;
  }

  /** For Instagram, the post endpoint is contacted only after the reel endpoint failed. */
  lemma InstagramReelBeforePost(base: string, respond: string -> Attempt)
    ensures var endpoints := Endpoints(base, Instagram);
            var f := FallbackFrom("instagram", endpoints, respond, None);
            respond(endpoints[0]).Answered? ==> f.contacted == 1 && f.data == respond(endpoints[0]).body
  {
  }

  /** When every endpoint fails, the error raised is the classification of the last endpoint's failure. */
  lemma AllFailRaisesLastError(platform: Platform, base: string, respond: string -> Attempt)
    requires platform != Unknown
    requires forall e :: e in Endpoints(base, platform) ==> !respond(e).Answered?
    ensures var endpoints := Endpoints(base, platform);
            var f := FallbackFrom(PlatformName(platform), endpoints, respond, None);
            f.data == Null && f.contacted == |endpoints|
            && f.lastError == Some(AttemptError(PlatformName(platform), respond(endpoints[|endpoints| - 1])))
  {
    var endpoints := Endpoints(base, platform);
    assert forall i :: 0 <= i < |endpoints| ==> endpoints[i] in endpoints;
    NoAnswerKeepsLastError(PlatformName(platform), endpoints, respond, None);
  }
}
