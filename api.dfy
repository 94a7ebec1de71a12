/**
 * The REST client of the front end. With `fetch` abstracted into an answer
 * (`FetchResult`), every exported wrapper is a decision on the status code:
 * 401 becomes the error "Unauthorized" (for the wrappers that test it), any
 * other non-2xx status becomes "Failed to <action>: <status> <body text>",
 * and a 2xx status yields the parsed body or nothing.
 */
module Api {
  import opened Wrappers
  import opened Text

  /** `process.env.NEXT_PUBLIC_API_URL ?? "http://127.0.0.1:8000"`: only an unset variable falls back. */
  function ApiUrl(env: Option<string>): (url: string)
    ensures env.Some? ==> url == env.value
    ensures env.None? ==> url == "http://127.0.0.1:8000"
  {
    env.GetOr("http://127.0.0.1:8000")
  }

  /**
   * What `fetch` delivered: a response (status, body text, parsed JSON body)
   * or a rejected promise carrying a transport error (its `name` and `message`).
   */
  datatype FetchResult<T> =
    | Responded(status: int, text: string, json: T)
    | NetworkError(name: string, message: string)

  /** `res.ok`. */
  predicate IsOk(status: int) {
    200 <= status <= 299
  }

  /** A wrapper's successful value: the parsed body, or nothing for `Promise<void>` wrappers. */
  datatype Reply<T> = Value(v: T) | NoContent

  /** The exported wrappers of the client. */
  datatype Wrapper =
    | Login | RefreshToken
    | GetWorkspaces | CreateWorkspace | UpdateWorkspace | DeleteWorkspace
    | GetPosts | ProcessPost | CreatePost | DeletePost
    | GetPrompts | UpdatePrompt | CreatePrompt
    | GetSubscriptionPlans | GetUserSubscriptions | CreateUserSubscription
    | GetCompetitorAccounts | CreateCompetitorAccount | UpdateCompetitorAccount
    | DeleteCompetitorAccount | ScrapeCompetitorAccount | ScrapeAllCompetitors
    | GetSystemSettings | UpdateSystemSettings
    | GetActivities | CreateActivity | DeleteActivity
    | GetCurrentUser | GetAdminStats

  /**
   * The words after "Failed to " in a wrapper's generic failure message,
   * written word by word.
   */
  function Action(w: Wrapper): (a: string)
    ensures 'U' !in a
  {
    match w
    case Login => "log " + "in"
    case RefreshToken => "refresh " + "token"
    case GetWorkspaces => "load " + "workspaces"
    case CreateWorkspace => "create " + "workspace"
    case UpdateWorkspace => "update " + "workspace"
    case DeleteWorkspace => "delete " + "workspace"
    case GetPosts => "load " + "posts"
    case ProcessPost => "process " + "post"
    case CreatePost => "create " + "post"
    case DeletePost => "delete " + "post"
    case GetPrompts => "load " + "prompts"
    case UpdatePrompt => "update " + "prompt"
    case CreatePrompt => "create " + "prompt"
    case GetSubscriptionPlans => "load " + "subscription " + "plans"
    case GetUserSubscriptions => "load " + "user " + "subscriptions"
    case CreateUserSubscription => "create " + "user " + "subscription"
    case GetCompetitorAccounts => "load " + "competitor " + "accounts"
    case CreateCompetitorAccount => "create " + "competitor " + "account"
    case UpdateCompetitorAccount => "update " + "competitor " + "account"
    case DeleteCompetitorAccount => "delete " + "competitor " + "account"
    case ScrapeCompetitorAccount => "scrape " + "competitor " + "account"
    case ScrapeAllCompetitors => "scrape " + "all " + "competitors"
    case GetSystemSettings => "get " + "system " + "settings"
    case UpdateSystemSettings => "update " + "system " + "settings"
    case GetActivities => "load " + "activities"
    case CreateActivity => "create " + "activity"
    case DeleteActivity => "delete " + "activity"
    case GetCurrentUser => "get " + "current " + "user"
    case GetAdminStats => "get " + "admin " + "stats"
  }

  /** Whether the wrapper tests `res.status === 401` before the generic failure branch. */
  predicate HasUnauthorizedBranch(w: Wrapper) {
    !(w.Login? || w.RefreshToken? || w.ProcessPost?)
  }

  /** Whether the wrapper returns `res.json()` on success (the others return `Promise<void>`). */
  predicate ReturnsBody(w: Wrapper) {
    !(w.ProcessPost? || w.DeleteWorkspace? || w.DeletePost?
      || w.DeleteCompetitorAccount? || w.DeleteActivity?)
  }

  /** The extra status a `Promise<void>` wrapper exempts from failure next to `res.ok` (202 or 204). */
  predicate Exempt(w: Wrapper, status: int) {
    (w.ProcessPost? && status == 202) || (!ReturnsBody(w) && !w.ProcessPost? && status == 204)
  }

  const Unauthorized: string := "Unauthorized"
  const RefreshExpired: string := "REFRESH_TOKEN_EXPIRED"

  /** The message thrown for a non-2xx status that the 401 branch did not catch. */
  function FailureMessage(w: Wrapper, status: int, text: string): (m: string)
    ensures m != [] && m[0] != 'U'
  {
    match w
    case RefreshToken => RefreshExpired
    case Login => "Login failed: " + IntToString(status) + " " + text
    case _ => "Failed to " + Action(w) + ": " + IntToString(status) + " " + text
  }

  /** The outcome of one wrapper call, given what `fetch` delivered. */
  function Call<T>(w: Wrapper, f: FetchResult<T>): (r: Result<Reply<T>, string>)
    // A rejected fetch propagates its error unchanged.
    ensures f.NetworkError? ==> r == Failure(f.message)
    // Every 2xx status succeeds, so the explicit 202 and 204 exemptions add nothing.
    ensures f.Responded? && IsOk(f.status) ==> r.Success?
    ensures f.Responded? ==> (r.Success? <==> IsOk(f.status))
    ensures r.Success? ==> (r.value == if ReturnsBody(w) then Value(f.json) else NoContent)
    // "Unauthorized" exactly for a 401 on a wrapper that tests for it.
    ensures f.Responded? ==> (r == Failure(Unauthorized) <==> HasUnauthorizedBranch(w) && f.status == 401)
    // Any other non-2xx status: the wrapper's own failure message, carrying status and body text.
    ensures f.Responded? && !IsOk(f.status) && !(HasUnauthorizedBranch(w) && f.status == 401)
            ==> r == Failure(FailureMessage(w, f.status, f.text))
  {
    match f
    case NetworkError(_, m) => Failure(m)
    case Responded(status, text, json) =>
      if HasUnauthorizedBranch(w) && status == 401 then Failure(Unauthorized)
      else if !IsOk(status) && !Exempt(w, status) then Failure(FailureMessage(w, status, text))
      else if ReturnsBody(w) then Success(Value(json))
      else Success(NoContent)
  }

  /**
   * `String(err)` for what a failed call threw: the error's name ("Error"
   * for the wrappers' own errors), then ": " and the message when it is not
   * empty.
   */
  function ErrorString<T>(f: FetchResult<T>, message: string): (s: string)
    ensures message != [] ==> EndsWith(s, ": " + message)
    ensures f.Responded? && message != [] ==> s == "Error: " + message
  {
    var name := if f.NetworkError? then f.name else "Error";
    if message == "" then name else name + ": " + message
  }

  /**
   * The failure prefix of every wrapper is free of the letter 'U', so the
   * only way a generic failure message can contain "Unauthorized" is through
   * the response body text.
   */
  lemma FailurePrefixHasNoLetterU(w: Wrapper, status: int)
    ensures 'U' !in "Failed to " + Action(w) + ": " + IntToString(status) + " "
    ensures 'U' !in "Login failed: " + IntToString(status) + " "
  {
    IntToStringHasNoLetterU(status);
    var a, d := Action(w), IntToString(status);
    assert "Failed to " + a + ": " + d + " " == "Failed to " + (a + (": " + (d + " ")));
    assert 'U' !in d + " ";
    assert 'U' !in ": " + (d + " ");
    assert 'U' !in a + (": " + (d + " "));
  }

  /**
   * A failure message contains "Unauthorized" only for the 401 branch or
   * when the body text itself contains it.
   */
  lemma {:induction false} UnauthorizedInMessageComesFromBody<T>(w: Wrapper, f: FetchResult<T>)
    requires f.Responded?
    requires Call(w, f).Failure? && Contains(Call(w, f).error, Unauthorized)
    ensures (HasUnauthorizedBranch(w) && f.status == 401) || Contains(f.text, Unauthorized)
  {
    var m := Call(w, f).error;
    if !(HasUnauthorizedBranch(w) && f.status == 401) {
      FailurePrefixHasNoLetterU(w, f.status);
      if w.Login? {
        assert m == ("Login failed: " + IntToString(f.status) + " ") + f.text;
        ContainsOnlyInSuffix("Login failed: " + IntToString(f.status) + " ", f.text, Unauthorized);
      } else if !w.RefreshToken? {
        assert m == ("Failed to " + Action(w) + ": " + IntToString(f.status) + " ") + f.text;
        ContainsOnlyInSuffix("Failed to " + Action(w) + ": " + IntToString(f.status) + " ", f.text, Unauthorized);
      } else {
        ContainsNeedsFirstChar(RefreshExpired);
      }
    }
  }

  lemma ContainsNeedsFirstChar(s: string)
    requires 'U' !in s
    ensures !Contains(s, Unauthorized)
  {
    forall i ensures !OccursAt(Unauthorized, s, i) {
      if 0 <= i && i + |Unauthorized| <= |s| {
        assert s[i..i + |Unauthorized|][0] == s[i];
      }
    }
  }

  /**
   * Conversely, a failure whose body text mentions "Unauthorized" is reported
   * with a message that contains it, whatever the status.
   */
  lemma {:induction false} BodyTextUnauthorizedReachesMessage<T>(w: Wrapper, f: FetchResult<T>)
    requires f.Responded? && !IsOk(f.status) && !w.RefreshToken?
    requires Contains(f.text, Unauthorized)
    ensures Call(w, f).Failure? && Contains(Call(w, f).error, Unauthorized)
  {
    if !(HasUnauthorizedBranch(w) && f.status == 401) {
      if w.Login? {
        ContainsInSuffix("Login failed: " + IntToString(f.status) + " ", f.text, Unauthorized);
        assert Call(w, f).error == ("Login failed: " + IntToString(f.status) + " ") + f.text;
      } else {
        ContainsInSuffix("Failed to " + Action(w) + ": " + IntToString(f.status) + " ", f.text, Unauthorized);
        assert Call(w, f).error == ("Failed to " + Action(w) + ": " + IntToString(f.status) + " ") + f.text;
      }
    } else {
      assert OccursAt(Unauthorized, Unauthorized, 0);
    }
  }

  /** `processPost` has no 401 branch: a 401 is a generic failure, and 202 is a plain success. */
  lemma ProcessPostStatuses<T>(text: string, json: T)
    ensures Call(ProcessPost, Responded(401, text, json)) == Failure(FailureMessage(ProcessPost, 401, text))
    ensures Call(ProcessPost, Responded(401, text, json)) != Failure(Unauthorized)
    ensures Call(ProcessPost, Responded(202, text, json)) == Success(NoContent)
  {
  }

  /** `refreshToken` reports every non-2xx status, 401 included, as REFRESH_TOKEN_EXPIRED. */
  lemma RefreshTokenFailures<T>(status: int, text: string, json: T)
    requires !IsOk(status)
    ensures Call(RefreshToken, Responded(status, text, json)) == Failure(RefreshExpired)
  {
  }

  /** A JavaScript `number | undefined` used as a condition: 0 and undefined are falsy (NaN is not modelled). */
  predicate Truthy(id: Option<int>) {
    id.Some? && id.value != 0
  }

  /** `getPosts` URL: the workspace query is appended only for a truthy id. */
  function PostsUrl(base: string, workspaceId: Option<int>): (url: string)
    ensures StartsWith(url, base + "/api/posts/")
    ensures url == base + "/api/posts/" <==> !Truthy(workspaceId)
    ensures Truthy(workspaceId) ==>
              url[|base + "/api/posts/"|..] == "?workspace=" + IntToString(workspaceId.value)
  {
    var bare := base + "/api/posts/";
    var url := if Truthy(workspaceId) then bare + "?workspace=" + IntToString(workspaceId.value) else bare;
    assert url[..|bare|] == bare;
    url
  }

  /** `getActivities` URL, built by appending to a variable under the same truthiness test. */
  function ActivitiesUrl(base: string, workspaceId: Option<int>): (url: string)
    ensures StartsWith(url, base + "/api/activities/")
    ensures url == base + "/api/activities/" <==> !Truthy(workspaceId)
    ensures Truthy(workspaceId) ==>
              url[|base + "/api/activities/"|..] == "?workspace=" + IntToString(workspaceId.value)
  {
    var url := base + "/api/activities/";
    var appended := if Truthy(workspaceId) then "?workspace=" + IntToString(workspaceId.value) else "";
    assert (url + appended)[..|url|] == url && (url + appended)[|url|..] == appended;
    url + appended
  }

  /** The bearer credential of section 2.1 of RFC 6750: the scheme "Bearer", one space, the token. */
  function AuthorizationHeader(accessToken: string): (h: string)
    ensures StartsWith(h, "Bearer ") && h[|"Bearer "|..] == accessToken
  {
    "Bearer " + accessToken
  }

  /** A JSON request body before serialisation; `Undefined` is a property present with value `undefined`. */
  datatype Field = Undefined | Str(s: string) | Num(n: int) | Bool(b: bool)

  type Body = map<string, Field>

  /** `{ ...defaults, ...payload }`: later properties override earlier ones. */
  function Spread(defaults: Body, payload: Body): (r: Body)
    ensures r.Keys == defaults.Keys + payload.Keys
    ensures forall k :: k in payload ==> r[k] == payload[k]
    ensures forall k :: k in defaults && k !in payload ==> r[k] == defaults[k]
  {
    defaults + payload
  }

  /** `JSON.stringify` drops the properties whose value is `undefined`. */
  function Serialize(b: Body): (r: Body)
    ensures forall k :: k in r <==> k in b && b[k] != Undefined
    ensures forall k :: k in r ==> r[k] == b[k]
  {
    map k | k in b && b[k] != Undefined :: b[k]
  }

  /** The body `createPost` sends: platform "instagram" unless the payload sets it. */
  function CreatePostBody(payload: Body): (r: Body)
    ensures "platform" !in payload ==> "platform" in r && r["platform"] == Str("instagram")
    ensures "platform" in payload && payload["platform"] != Undefined ==> "platform" in r && r["platform"] == payload["platform"]
    // An explicit `platform: undefined` overrides the default and is then dropped.
    ensures "platform" in payload && payload["platform"] == Undefined ==> "platform" !in r
    ensures forall k :: k != "platform" ==> (k in r <==> k in payload && payload[k] != Undefined)
    ensures forall k :: k in r && k in payload ==> r[k] == payload[k]
  {
    Serialize(Spread(map["platform" := Str("instagram")], payload))
  }

  /** The body `createPrompt` sends: type "caption" and is_active true unless `data` sets them. */
  function CreatePromptBody(data: Body): (r: Body)
    ensures "type" !in data ==> "type" in r && r["type"] == Str("caption")
    ensures "is_active" !in data ==> "is_active" in r && r["is_active"] == Bool(true)
    ensures forall k :: k in data && data[k] != Undefined ==> k in r && r[k] == data[k]
    ensures forall k :: k != "type" && k != "is_active" ==> (k in r <==> k in data && data[k] != Undefined)
  {
    Serialize(Spread(map["type" := Str("caption"), "is_active" := Bool(true)], data))
  }
}
