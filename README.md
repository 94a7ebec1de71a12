# samma: verified model of the content workspace's client logic and scraper

samma is a content workspace. Users collect social-media posts into
workspaces, have them processed, keep a list of competitor accounts and
edit the prompts used for processing. A Python backend scrapes a post's
text and metrics from an external scraping API.

This project models in Dafny the parts of samma that decide something:

- **`Api`**: the decision table of the REST client
  (`frontend/src/lib/api.ts`). Once `fetch` is an oracle (`FetchResult`:
  a response with status, body text and parsed body, or a rejected
  request), each wrapper maps the outcome as follows:
  - a 401 becomes `"Unauthorized"`, except in `login`, `refreshToken` and
    `processPost`;
  - any other non-2xx status becomes `"Failed to …: <status> <text>"`;
  - a 2xx status returns the body, or nothing for the wrappers that return
    no value.

  The module also builds the URLs with an optional `?workspace=` query, the
  `Bearer` header (section 2.1 of RFC 6750), and the
  "defaults, then override" bodies of `createPost` and `createPrompt`.
  `JSON.stringify` drops keys whose value is `undefined`.
- **`AuthRetry`**: `handleApiCall`, the retry-once state machine of the
  posts page, as the function `Retry`. Its result records the returned
  value or thrown error, the new storage, the effects, and the access
  token that was refreshed.
- **`PostsLogic`** and **`PostsPage`**: the posts page
  (`frontend/src/app/app/page.tsx`):
  - its pure list logic: filters, the new-posts count, selection toggles,
    column toggles and the sync of the selected post by id;
  - the class `AppPage`, whose fields are the page's state and whose
    methods are its handlers: loading, one polling tick, process, delete,
    their bulk versions, "process all new", create and logout.
- **`Competitors`**: the competitors page
  (`frontend/src/app/app/competitors/page.tsx`). It filters accounts by
  workspace, prepends a created account, replaces by id, removes by id,
  and chooses the default workspace on load.
- **`Prompts`**: the prompts page (`frontend/src/app/prompts/page.tsx`). It
  covers the save validation, the choice between create and update, the
  re-selection by id after a save, and the selection rule when prompts
  load.
- **`Scraper`**: `backend/saas/scraper.py`. It covers:
  - `detect_platform`, the ordered substring tests over the URL's host;
  - the normalisation of the API base URL and the mock-mode short-circuit;
  - the endpoint table, and the fallback loop over it with its error
    classification (as written, and as evidently intended: see
    "## Findings");
  - the fallback chains that fill the result record.
- **`Text`**, **`Lists`**, **`Wrappers`** and **`Browser`**: supporting
  definitions:
  - JavaScript's `includes`, ASCII case folding, decimal rendering, and
    Python's `rstrip`;
  - order-preserving filtering, search and replacement on sequences;
  - `Option` and `Result`;
  - the browser effects: a request, a request with a body, a navigation,
    an alert and a console error.

**How the environment is modelled.**
- **Network.** Every network answer is a parameter of the operation that
  awaits it.
- **Local storage.** `localStorage` is a `map<string, string>` field.
- **Effects.** The outward effects of a handler are appended, in order, to
  an `effects: seq<Effect>` field: requests sent, navigations to
  `/login`, alerts and console errors.
  - A `Send` effect carries the data argument the page passes to the
    wrapper. The wrapper merges its defaults into that argument and
    serialises it; lemmas state the body that results (`CreateSubmit*`,
    `Prompts.CreateSendsFormAsIs`).
- **`window.confirm`.** Its answer is a `bool` parameter.
- **Scraper environment.** The environment variables are an `Env` value.
- **Scraping API.** Each endpoint's answer is given by a `respond`
  function.

**Where the model follows the code.** Some of what the code does is easy
to miss. The model follows the code in each of these cases:

- **The retry reuses the old token.** `handleApiCall` re-invokes the same
  closure after a refresh. That closure captured the old access token, so
  the retried request carries the old token, not the refreshed one
  (`AuthRetry.ClosureKeepsCapturedToken`).
- **A failed retry logs out.** When the retried call fails, the
  `catch (refreshErr)` block catches that failure too. Both tokens are then
  removed and the page goes to `/login`
  (`AuthRetry.RefreshSuccessRetriesOnce`).
- **The refresh decision is a substring test.** A refresh happens when the
  error message *contains* "Unauthorized":
  - a failure whose response text mentions "Unauthorized" triggers a
    refresh (`Api.BodyTextUnauthorizedReachesMessage`);
  - an expired token on `processPost` does not, because that wrapper has no
    401 branch (`AuthRetry.ProcessPostExpiredTokenNotRefreshed`).
- **A failed poll keeps polling.** A failed polling tick is only logged,
  and the interval stays armed (`PostsPage.AppPage.PollTick`).
- **Some handlers bypass `handleApiCall`.** The bulk handlers and the create
  form call the wrappers directly, so they never refresh.
- **Two failed competitor loads.** When both loads fail, `Promise.all`
  reports the rejection that happens first in time. That order is a
  parameter of `Competitors.LoadFailure` and `Competitors.CompetitorsPage.Load`.

## Model

| member | source | states |
|---|---|---|
| Api.ApiUrl | frontend/src/lib/api.ts:1-2 | the base URL is the configured one when set, and `http://127.0.0.1:8000` otherwise |
| Api.Call | frontend/src/lib/api.ts:98-117 | a wrapper's outcome from its response. A rejected fetch propagates its error. It succeeds exactly on a 2xx status, so the 202/204 exemptions add nothing. The error is exactly "Unauthorized" iff the wrapper has a 401 branch and the status is 401; every other failure is the wrapper's own message with status and text. On success it returns the body, or nothing for the `Promise<void>` wrappers |
| Api.FailureMessage | frontend/src/lib/api.ts:111-116 | a non-401 failure message is never empty and never begins with "U", so it can contain "Unauthorized" only through the response text |
| Api.Action | frontend/src/lib/api.ts:111-116 | the action words in "Failed to …" messages contain no "U" |
| Api.ErrorString | frontend/src/app/app/competitors/page.tsx:99-101 | `String(err)` ends with ": " + message, and is "Error: " + message for an error the wrapper threw |
| Api.FailurePrefixHasNoLetterU | frontend/src/lib/api.ts:111-116 | the fixed prefix of a failure message, up to the response text, contains no "U" |
| Api.UnauthorizedInMessageComesFromBody | frontend/src/app/app/page.tsx:80 | if a failure message contains "Unauthorized", the status was a 401 caught by the wrapper, or the response text itself contains "Unauthorized" |
| Api.ContainsNeedsFirstChar | frontend/src/app/app/page.tsx:80 | a string without "U" never contains "Unauthorized" |
| Api.BodyTextUnauthorizedReachesMessage | frontend/src/app/app/page.tsx:80 | conversely, any failing non-refresh wrapper whose response text contains "Unauthorized" throws a message containing it, which triggers a refresh |
| Api.ProcessPostStatuses | frontend/src/lib/api.ts:311-326 | `processPost` turns a 401 into "Failed to process post: 401 …", never "Unauthorized", and succeeds with no value on 202 |
| Api.RefreshTokenFailures | frontend/src/lib/api.ts:43-57 | every non-2xx status of `refreshToken` throws "REFRESH_TOKEN_EXPIRED" |
| Api.PostsUrl | frontend/src/lib/api.ts:288 | the posts URL is the bare collection URL iff the workspace id is falsy (absent or 0); otherwise exactly `?workspace=<id>` is appended |
| Api.ActivitiesUrl | frontend/src/lib/api.ts:849-852 | the same rule for the activities URL |
| Api.AuthorizationHeader | frontend/src/lib/api.ts:103 | the header is "Bearer " followed by exactly the access token |
| Api.Spread | frontend/src/lib/api.ts:350-353 | an object spread has the keys of both sides; a payload value wins over a default |
| Api.Serialize | frontend/src/lib/api.ts:350 | `JSON.stringify` keeps exactly the keys whose value is not `undefined`, with their values |
| Api.CreatePostBody | frontend/src/lib/api.ts:350-353 | `platform` defaults to "instagram" and any given platform overrides it (an explicit `undefined` removes it); every other payload field is copied through unchanged |
| Api.CreatePromptBody | frontend/src/lib/api.ts:469-473 | `type` defaults to "caption" and `is_active` to true; every defined field of the data overrides them and is copied through |
| AuthRetry.Retry | frontend/src/app/app/page.tsx:76-103 | a wrapper that returns a body delivers a value whenever the retried call succeeds |
| AuthRetry.Recover | frontend/src/app/app/page.tsx:80-99 | the same guarantee for the refresh-and-retry branch |
| AuthRetry.FirstSuccessReturned | frontend/src/app/app/page.tsx:77-78 | a first call that resolves is returned with one request, no refresh and storage unchanged |
| AuthRetry.OtherErrorRethrown | frontend/src/app/app/page.tsx:101 | an error without "Unauthorized" is rethrown unchanged, without a refresh and with storage unchanged |
| AuthRetry.NoRefreshTokenGoesToLogin | frontend/src/app/app/page.tsx:96-99 | with no stored refresh token, the page goes to /login, the original error is rethrown and storage is untouched |
| AuthRetry.RefreshFailureLogsOut | frontend/src/app/app/page.tsx:88-95 | a failed refresh removes both tokens, goes to /login, throws the refresh error and does not re-invoke the call |
| AuthRetry.RefreshSuccessRetriesOnce | frontend/src/app/app/page.tsx:80-95 | a successful refresh makes exactly one refresh request and invokes the call exactly once more. The second result is returned; on success only the new access token is stored, and on failure both tokens are removed and the page goes to /login |
| AuthRetry.PersistentUnauthorizedStopsAfterOneRetry | frontend/src/app/app/page.tsx:87 | a server that keeps answering 401 costs exactly two invocations and one refresh, then "Unauthorized" is thrown |
| AuthRetry.ClosureKeepsCapturedToken | frontend/src/app/app/page.tsx:87 | every run makes at most four effects and starts with the call. Any repeated request is the same closure (position 0 or 2) and carries the token captured before the refresh |
| AuthRetry.SecondRunNeedsRefresh | frontend/src/app/app/page.tsx:80-87 | the call is invoked a second time only after an "Unauthorized" error and a successful refresh |
| AuthRetry.RefreshOnlyAfterUnauthorized | frontend/src/app/app/page.tsx:80-86 | a new access token exists only after an "Unauthorized" error, a stored refresh token and a refresh request carrying it; the new token is what the refresh returned |
| AuthRetry.ResultComesFromARun | frontend/src/app/app/page.tsx:76-103 | the outcome is that of the first call, of the second call, or the refresh error; a navigation to /login only ever accompanies a failure |
| AuthRetry.OnlyCredentialsChange | frontend/src/app/app/page.tsx:85-91 | storage changes only in the two token keys, and a successful run keeps the refresh token |
| AuthRetry.ProcessPostExpiredTokenNotRefreshed | frontend/src/lib/api.ts:322-325 | through `handleApiCall`, a 401 on `processPost` whose text lacks "Unauthorized" is rethrown as a plain failure after a single request, with no refresh |
| PostsLogic.FilteredPosts | frontend/src/app/app/page.tsx:254-259 | the result is the order-preserving sublist of exactly the posts that pass the status, platform and case-insensitive search checks, each with its original multiplicity |
| PostsLogic.SearchIgnoresQueryCase | frontend/src/app/app/page.tsx:257 | searching for a query and for its lower-cased form match the same posts |
| PostsLogic.PollingFollowsProcessing | frontend/src/app/app/page.tsx:154-157 | with a token and a workspace id, one post in progress arms the interval; with no post in progress it is never armed |
| PostsLogic.FilterAllKeepsEverything | frontend/src/app/app/page.tsx:254-259 | "all", "all" and an empty query keep every post |
| PostsLogic.NewPosts | frontend/src/app/app/page.tsx:288 | the sublist of exactly the posts with status "new" |
| PostsLogic.Ids | frontend/src/app/app/page.tsx:267 | the ids of the posts, position by position |
| PostsLogic.FindById | frontend/src/app/app/page.tsx:163 | `find` by id gives the first post with that id, or nothing iff no post has it |
| PostsLogic.SyncSelected | frontend/src/app/app/page.tsx:162-165 | after a tick the selected post changes only to the first fetched post with its id and a different status; it is kept when its id disappeared or its status is unchanged |
| PostsLogic.ToggleSelection | frontend/src/app/app/page.tsx:248-252 | toggling flips the membership of exactly the given id and keeps the selection free of duplicates |
| PostsLogic.ToggleAbsentTwice | frontend/src/app/app/page.tsx:248-252 | toggling an absent id twice restores the selection |
| PostsLogic.ToggleTwiceSameMembers | frontend/src/app/app/page.tsx:248-252 | toggling any id twice restores the set of selected ids |
| PostsLogic.SelectAll | frontend/src/app/app/page.tsx:261-263 | select-all clears when the selection's size equals the filtered length, and otherwise selects exactly the filtered ids, without duplicates |
| PostsLogic.SelectAllComparesSizesOnly | frontend/src/app/app/page.tsx:262 | the test compares sizes only: one hidden selected post against one other shown post clears the selection |
| PostsLogic.ToggleColumn | frontend/src/app/app/page.tsx:70-74 | toggling a column negates its visibility (a missing column becomes visible) and leaves every other column as it was |
| PostsLogic.ToggleColumnTwice | frontend/src/app/app/page.tsx:70-74 | toggling a known column twice restores the settings |
| PostsLogic.RequestsFor | frontend/src/app/app/page.tsx:194-198 | the requests of a bulk loop, one per id, in order |
| PostsLogic.FirstFailure | frontend/src/app/app/page.tsx:194-198 | the index of the first id whose call fails; every call before it succeeds |
| PostsLogic.SentBefore | frontend/src/app/app/page.tsx:194-198 | the ids a bulk loop reaches form a prefix of the selection |
| PostsLogic.SendEach | frontend/src/app/app/page.tsx:194-198 | the sequential loop sends the ids up to and including the first failure, and reports that failure's error, or none iff every call succeeded |
| PostsLogic.FirstFailureIsFirst | frontend/src/app/app/page.tsx:194-198 | a failure preceded only by successes is the one the loop stops at |
| PostsPage.ProcessEach | frontend/src/app/app/page.tsx:274-277 | "process all new" starts with the first id; every processing request carries the captured token and one of the ids; storage changes only in the token keys |
| PostsPage.ProcessEachStops | frontend/src/app/app/page.tsx:274-277 | once an id fails, the later ids are never processed |
| PostsPage.CreateSubmitKeys | frontend/src/app/app/page.tsx:307-312 | the created post's body has no key beyond workspace, platform, title, source_url and original_text |
| PostsPage.CreateSubmitWorkspaceAndPlatform | frontend/src/app/app/page.tsx:307-312 | the body carries the active workspace and the default platform "instagram" |
| PostsPage.CreateSubmitTextFields | frontend/src/app/app/page.tsx:307-312 | an empty text field is left out of the body, and a non-empty title is sent as typed |
| PostsPage.AppPage.constructor | frontend/src/app/app/page.tsx:105-113 | mounting reads the access token, or goes to /login without one; saved column settings replace the defaults; nothing is polling |
| PostsPage.AppPage.HandleApiCall | frontend/src/app/app/page.tsx:76-103 | the method's result, storage, effects and access token are exactly those of `Retry` |
| PostsPage.AppPage.RefreshAndRerun | frontend/src/app/app/page.tsx:80-99 | the refresh branch's state is exactly that of `Recover` |
| PostsPage.AppPage.Report | frontend/src/app/app/page.tsx:134-136 | a caught error is logged and shown |
| PostsPage.AppPage.LoadWorkspaces | frontend/src/app/app/page.tsx:115-139 | without a token nothing happens. Otherwise the workspaces are replaced by the fetched list. The first one becomes active only if none is active yet (`id ?? ws[0].id`). A failure leaves both unchanged and is logged and shown |
| PostsPage.AppPage.LoadPosts | frontend/src/app/app/page.tsx:141-152 | without a token or a truthy workspace id nothing happens. Otherwise the posts are replaced by the fetched list, or left unchanged with the error shown |
| PostsPage.AppPage.PollTick | frontend/src/app/app/page.tsx:154-171 | a tick replaces the posts wholesale and syncs the selected post by id. A failed tick is only logged and leaves everything else unchanged, so polling stays armed |
| PostsPage.AppPage.HandleProcess | frontend/src/app/app/page.tsx:173-188 | processes one post, then reloads the list when a workspace is active and re-selects the post by id; the first failure is logged and shown, and nothing after it runs |
| PostsPage.AppPage.HandleBulkProcess | frontend/src/app/app/page.tsx:190-208 | the selected ids are processed in order until the first failure. A failure keeps the selection and the posts; full success reloads the posts and clears the selection |
| PostsPage.AppPage.HandleDelete | frontend/src/app/app/page.tsx:210-225 | after confirmation, deletes one post, reloads the list and clears the selected post iff it was the deleted one |
| PostsPage.AppPage.HandleBulkDelete | frontend/src/app/app/page.tsx:227-246 | after confirmation, deletes the selected ids in order until the first failure. Full success reloads, clears the selection, and clears the selected post iff it was among the deleted |
| PostsPage.AppPage.TogglePostSelection | frontend/src/app/app/page.tsx:248-252 | the id is selected afterwards iff it was not selected before |
| PostsPage.AppPage.ToggleSelectAll | frontend/src/app/app/page.tsx:261-263 | the selection becomes `SelectAll` of the currently filtered posts |
| PostsPage.AppPage.ToggleColumnSetting | frontend/src/app/app/page.tsx:70-74 | the visible columns are toggled and the saved settings are the new ones |
| PostsPage.AppPage.ProcessBatch | frontend/src/app/app/page.tsx:274-277 | the loop's state is exactly that of `ProcessEach` |
| PostsPage.AppPage.ProcessThenReload | frontend/src/app/app/page.tsx:271-285 | after the loop, either the first failure is shown, or the list is reloaded when a workspace is active |
| PostsPage.AppPage.HandleProcessAll | frontend/src/app/app/page.tsx:265-286 | with new posts and confirmation, their ids are processed in order through `handleApiCall` until the first failure, then the list is reloaded; otherwise nothing happens |
| PostsPage.AppPage.NewPostsCount | frontend/src/app/app/page.tsx:288 | the header count is the number of posts with status "new" |
| PostsPage.AppPage.HandleLogout | frontend/src/app/app/page.tsx:290-296 | logout removes both tokens and goes to /login |
| PostsPage.AppPage.HandleCreateSubmit | frontend/src/app/app/page.tsx:298-321 | without a token or workspace only an error is set. Otherwise the form is sent. Success reloads the list, selects the created post and closes and clears the form; any failure leaves the list, selection and form as they were |
| PostsPage.AppPage.CreateThenReload | frontend/src/app/app/page.tsx:307-319 | create, then reload; it reports success iff both calls succeed |
| Competitors.FilteredAccounts | frontend/src/app/app/competitors/page.tsx:152-154 | with a truthy workspace, the order-preserving sublist of exactly that workspace's accounts; otherwise every account |
| Competitors.WorkspaceZeroShowsAll | frontend/src/app/app/competitors/page.tsx:152 | workspace 0 is falsy and shows every account |
| Competitors.ReplaceById | frontend/src/app/app/competitors/page.tsx:111 | every account with the id is replaced by the server's account, and the others and the length are unchanged |
| Competitors.ReplaceKeepsIds | frontend/src/app/app/competitors/page.tsx:111 | replacing with an account of the same id keeps every position's id |
| Competitors.RemoveById | frontend/src/app/app/competitors/page.tsx:123 | exactly the accounts with the id are removed, and the rest keep their order and multiplicity |
| Competitors.RemoveAbsentId | frontend/src/app/app/competitors/page.tsx:123 | removing an id no account has changes nothing |
| Competitors.LoadFailure | frontend/src/app/app/competitors/page.tsx:50-53 | the joint load fails iff either call fails. A single failure is the one reported; when both fail, the one that rejected first is reported |
| Competitors.CompetitorsPage.constructor | frontend/src/app/app/competitors/page.tsx:38-45 | mounting reads the access token, or goes to /login without one; the form starts with its defaults |
| Competitors.CompetitorsPage.Load | frontend/src/app/app/competitors/page.tsx:47-76 | without a token nothing happens. Otherwise both lists are stored, and the first workspace becomes the default only when workspaces exist and none is selected. An "Unauthorized" failure removes only the access token and goes to /login; any other failure is shown |
| Competitors.CompetitorsPage.HandleWorkspaceChange | frontend/src/app/app/competitors/page.tsx:78-81 | the selected workspace and the form's workspace become the same value |
| Competitors.CompetitorsPage.HandleCreate | frontend/src/app/app/competitors/page.tsx:83-102 | the created account is prepended, the form closes and resets with the selected workspace or 0; a failure only alerts and leaves the list and form unchanged |
| Competitors.CompetitorsPage.HandleToggleActive | frontend/src/app/app/competitors/page.tsx:104-115 | sends the negated `is_active`, then replaces the account by id; a failure only alerts |
| Competitors.CompetitorsPage.HandleDelete | frontend/src/app/app/competitors/page.tsx:117-127 | after confirmation, deletes and removes the account by id; a failure only alerts |
| Competitors.CompetitorsPage.HandleScrape | frontend/src/app/app/competitors/page.tsx:129-138 | starts scraping one account and alerts with the server's message, or with the error |
| Competitors.CompetitorsPage.HandleScrapeAll | frontend/src/app/app/competitors/page.tsx:140-150 | after confirmation, starts scraping all accounts and alerts with the server's message, or with the error |
| Prompts.CreateSendsFormAsIs | frontend/src/app/prompts/page.tsx:155-161 | the page always sets `type` and `is_active`, so the `createPrompt` defaults never reach the server |
| Prompts.Reselected | frontend/src/app/prompts/page.tsx:165-168 | the re-selected prompt has the saved id: the first reloaded prompt with that id, or the saved prompt itself when none has it |
| Prompts.ReloadedCopyWins | frontend/src/app/prompts/page.tsx:165-168 | when the reloaded list holds the saved id, its copy is selected, not the saved object |
| Prompts.SaveResult | frontend/src/lib/api.ts:424-448 | a save succeeds exactly on a 2xx status and then returns the saved prompt; a 401 is "Unauthorized"; a rejected fetch propagates its error |
| Prompts.PromptsPage.constructor | frontend/src/app/prompts/page.tsx:36-45 | mounting reads the access token, or goes to /login without one; the form starts blank |
| Prompts.PromptsPage.ClearForm | frontend/src/app/prompts/page.tsx:109-114 | the form becomes name "", type "caption", content "" and active |
| Prompts.PromptsPage.SelectPrompt | frontend/src/app/prompts/page.tsx:116-127 | the prompt is selected and the form mirrors its fields |
| Prompts.PromptsPage.HandleNewPrompt | frontend/src/app/prompts/page.tsx:180-183 | the selection is cleared and the form is blank |
| Prompts.PromptsPage.LoadWorkspaces | frontend/src/app/prompts/page.tsx:47-72 | without a token nothing happens. Loaded workspaces always make the first one active, whatever was active before. A failure is shown, and "Unauthorized" also goes to /login |
| Prompts.PromptsPage.LoadPrompts | frontend/src/app/prompts/page.tsx:74-107 | with a token and workspace, the list is replaced. The first prompt is selected and mirrored into the form, or, for an empty list, the selection and form are cleared. A failure leaves them unchanged and is shown |
| Prompts.PromptsPage.SendSave | frontend/src/app/prompts/page.tsx:147-162 | an update of the selected prompt when one exists, otherwise a create in the active workspace |
| Prompts.PromptsPage.Reload | frontend/src/app/prompts/page.tsx:165-169 | the list is refetched and the selection is re-chosen by the saved id, with the form mirroring it |
| Prompts.PromptsPage.SaveAndReload | frontend/src/app/prompts/page.tsx:145-174 | save, then reload and re-select by id; a failure at either step is logged and shown and leaves list, selection and form unchanged |
| Prompts.PromptsPage.HandleSave | frontend/src/app/prompts/page.tsx:129-178 | a missing token or workspace, or a blank name or content, sets the matching error with no request. Otherwise it saves by update or create, reloads, re-selects by id, and always ends with `saving` false |
| Prompts.PromptsPage.HandleLogout | frontend/src/app/prompts/page.tsx:185-192 | logout removes both tokens and goes to /login |
| Scraper.NetlocOfUrl | backend/saas/scraper.py:35-36 | for `scheme://host` with a plain host (no '/', '?', '#' or bracket) followed by a path, query or fragment, the network location is exactly the host |
| Scraper.DetectPlatform | backend/saas/scraper.py:33-47 | `detect_platform` raises iff the lower-cased host has one bracket without the other (`urlsplit`'s "Invalid IPv6 URL"). Otherwise a URL is instagram iff its host contains "instagram.com" or "instagr.am", and unknown iff its host matches none of the platform tests |
| Scraper.OpenBracketRaises | backend/saas/scraper.py:35 | a host opened with "[" and never closed makes `detect_platform` raise |
| Scraper.DetectPlatformIgnoresCase | backend/saas/scraper.py:35 | the letter case of the URL does not change the platform |
| Scraper.Classify | backend/saas/scraper.py:38-47 | the platform is the first of instagram, tiktok, youtube, linkedin whose substring test matches, and unknown iff none does |
| Scraper.OnlyTheHostDecides | backend/saas/scraper.py:33-47 | for a plain host, `detect_platform` depends only on the lower-cased host, not on the path or query |
| Scraper.InstagramCheckedFirst | backend/saas/scraper.py:38 | an "instagr.am" host is instagram whatever else it contains |
| Scraper.NormalizeBase | backend/saas/scraper.py:71-73 | all trailing "/" are stripped, then exactly one trailing "/v1" is removed |
| Scraper.NormalizeBaseDropsVersion | backend/saas/scraper.py:71-73 | ".../v1" and ".../v1/" both normalise to the bare host |
| Scraper.NormalizeBaseNotIdempotent | backend/saas/scraper.py:71-73 | ".../v1/v1" loses only one "/v1", so normalising again changes it |
| Scraper.ApiBaseChoice | backend/saas/scraper.py:69-73 | an unset base is the public ScrapeCreators host, and a base given as `host/v1/` is cut back to `host` |
| Scraper.MockModeSwitches | backend/saas/scraper.py:68-81 | without a key, or with an empty one, the mock is used whatever the flag says. With a key, "TRUE" and "True" switch the mock on, while an unset flag or "1" keep the real API |
| Scraper.Endpoints | backend/saas/scraper.py:107-116 | instagram has two endpoints, tiktok, youtube and linkedin one each, unknown none; all start with the base |
| Scraper.InstagramReelBeforePost | backend/saas/scraper.py:108 | when the reel endpoint answers, the post endpoint is never contacted |
| Scraper.HttpErrorMessage | backend/saas/scraper.py:141-150 | once status and text are read, 404, 403 and 429 get their own message exactly for that status, and every other status or a missing one (printed as None) gets the generic message naming it. The message ends with the response text |
| Scraper.AttemptErrorAsWritten | backend/saas/scraper.py:134-156 | as written, every HTTP failure is recorded as "Ошибка API: None - ", because the guard at line 139 never sees a truthy response after `raise_for_status`; timeouts and network errors name the platform and the error |
| Scraper.NotFoundNeverReported | backend/saas/scraper.py:139-144 | as written, a 404 with text "gone" is not reported as "not found", and its text is lost |
| Scraper.AttemptError | backend/saas/scraper.py:134-156 | the intended classification: an HTTP failure gets the 404, 403 or 429 message exactly for that status and the generic message naming the status otherwise; it names the status and ends with the response text; timeouts and network errors name the platform and the error |
| Scraper.FallbackFrom | backend/saas/scraper.py:125-156 | the loop never contacts more endpoints than it has |
| Scraper.FirstAnswerStops | backend/saas/scraper.py:125-133 | the first endpoint that answers stops the loop: it and the ones before it are contacted, no later one is, and the last error is the previous endpoint's |
| Scraper.NoAnswerKeepsLastError | backend/saas/scraper.py:134-156 | when no endpoint answers, every endpoint is contacted and the last error is that of the last endpoint |
| Scraper.TryEndpoints | backend/saas/scraper.py:122-156 | the loop with `break` computes exactly the data, last error and contacted endpoints of `FallbackFrom` |
| Scraper.AllFailRaisesLastError | backend/saas/scraper.py:158-160 | for a supported platform whose endpoints all fail, the error raised is the last endpoint's |
| Scraper.MockRecord | backend/saas/scraper.py:83-101 | the mock record carries the detected platform's name as platform and in the author, the URL as media URL, no publication date and the fixed rate 9.6 |
| Scraper.Take | backend/saas/scraper.py:84 | `url[:50]` is a prefix of at most 50 characters, the whole URL when it is shorter |
| Scraper.Get | backend/saas/scraper.py:164 | `.get` succeeds exactly on a dict |
| Scraper.CaptionText | backend/saas/scraper.py:167-170 | without caption edges the caption text is ''; truthy edges that are not a list raise |
| Scraper.CommentsCount | backend/saas/scraper.py:184-202 | the comment count can be computed only from a dict |
| Scraper.EdgeCountWins | backend/saas/scraper.py:184-191 | a non-zero edge count is the comment count, and no other field is consulted |
| Scraper.AlternativeReplacesZero | backend/saas/scraper.py:191-196 | a zero edge count is replaced by a truthy `comments_count` when `comment_count` is falsy |
| Scraper.PreviewOverridesAlternative | backend/saas/scraper.py:198-202 | a truthy preview count overrides both the zero edge count and a truthy alternative |
| Scraper.EngagementOf | backend/saas/scraper.py:231-235 | the rate stays None for falsy or non-positive views. For positive numeric views it is computed from the sum of likes, comments and shares, each a falsy count adding 0, and raises iff a count is a truthy non-number |
| Scraper.EngagementFromIntCounts | backend/saas/scraper.py:232-235 | integer counts over positive views sum as integers, and missing comments and shares add 0 |
| Scraper.SavesCount | backend/saas/scraper.py:221-222 | a falsy saved edge gives None |
| Scraper.Extract | backend/saas/scraper.py:164-257 | a record exists only for a dict answer, carries the detected platform, and any computed engagement rate has positive views |
| Scraper.NonNumericTimestampRaises | backend/saas/scraper.py:213-215 | a truthy `taken_at_timestamp` that is not a number makes `datetime.fromtimestamp` raise, so no record is built |
| Scraper.MediaUrlFallsBackToPostUrl | backend/saas/scraper.py:240 | without video and display URLs, the media URL is the post URL |
| Scraper.CaptionFallsBackToTopLevel | backend/saas/scraper.py:238 | without a caption edge the caption is the answer's top-level truthy `caption`, else its truthy `description`, else its `text` (empty when missing) |
| Scraper.CaptionPrefersMediaText | backend/saas/scraper.py:238 | a non-empty text on the first caption edge is the caption, whatever the top-level fields say |
| Scraper.NonObjectAnswerRaises | backend/saas/scraper.py:164 | an answer that is not a dict raises |
| Scraper.ScrapeContent | backend/saas/scraper.py:50-261 | a URL whose host has one bracket without the other raises before anything else, mock mode included. Mock mode returns the fixed record without a request, and an unknown platform raises before any request. Otherwise the endpoints are tried in order: no answer raises the last error (or the generic one), a dict answer yields its record, anything else crashes |
| Text.Contains | frontend/src/app/app/page.tsx:80 | `includes` holds iff the needle occurs at some index |
| Text.Lower | frontend/src/app/app/page.tsx:257 | lower-casing keeps the length and folds each character |
| Text.TrimStart | frontend/src/app/prompts/page.tsx:136 | the result is the suffix of the string that starts at its first non-whitespace character; everything dropped is whitespace |
| Text.TrimEnd | frontend/src/app/prompts/page.tsx:136 | the result is the prefix of the string that ends at its last non-whitespace character; everything dropped is whitespace |
| Text.BlankIffTrimEmpty | frontend/src/app/prompts/page.tsx:136 | `!s.trim()` holds exactly when the string is made only of whitespace (`Text.IsBlank`) |
| Text.RStrip | backend/saas/scraper.py:71 | `rstrip('/')` removes exactly the trailing run of that character |
| Text.IntToString | frontend/src/lib/api.ts:114 | a number renders as its digits, with a leading "-" when negative |
| Text.ParseNatToString | frontend/src/lib/api.ts:114 | reading back the rendered digits gives the number |
| Text.IntToStringHasNoLetterU | frontend/src/lib/api.ts:114 | a rendered status contains no "U" |
| Lists.Keep | frontend/src/app/app/page.tsx:254-259 | `filter` keeps, in order, exactly the elements the test accepts, each with its original multiplicity |
| Lists.Find | frontend/src/app/app/page.tsx:163 | `find` gives nothing iff no element passes, and otherwise an element that passes with none before it passing |
| Lists.ReplaceWhere | frontend/src/app/app/competitors/page.tsx:111 | the mapped list has the same length, the replacement at every matching position and the old element everywhere else |
| Lists.Dedup | frontend/src/app/app/page.tsx:262 | `new Set` of the ids holds each id once, the same ids as the list, in their order in the list |

## Left out

- `fetch`, `localStorage`, `router.push`, `confirm`, `alert` and `console` are not executed. Their answers are parameters and their effects an ordered log.
- `requests`, the global session of `get_session`, logging and the environment reads of `scrape_content` are left out for the same reason. The environment is an input value.
- Timer mechanics are left out: the 3-second `setInterval`, its cleanup, React effect scheduling, and interleavings of ticks with handlers. One tick is one method call. Whether polling is armed is the predicate `PostsPage.AppPage.Polling`.
- Re-running the competitors load when the selected workspace changes is left out. The environment calls `Load` again.
- The loading and saving spinners are left out: `loadingPosts`, `createLoading`, the workspaces and prompts spinners, and the competitors page's `loading` on paths other than load. Exception: `saving` on the prompts page is modelled.
- The `isStaff` flag, loaded from the current user, is left out.
- All rendering is left out.
- `JSON.parse` of the saved column settings is left out. The constructor receives the parsed settings.
- `PostsLogic.FilteredPosts`: `toLowerCase` and Python's `lower` are modelled on ASCII letters only (`Text.Lower`). Other letters are not folded.
- `Scraper.NetlocOfUrl`: `urlsplit` is modelled only for `scheme://host…` URLs. Stripping of surrounding whitespace and other URL shapes are not modelled.
- `Scraper.DetectPlatform`: of `urlsplit`'s checks on brackets, only the unbalanced-bracket `ValueError` is modelled. Recent Python versions also validate a balanced bracketed host as an IPv6 address and may raise; the model classifies such a host.
- `Scraper.EngagementOf`: the engagement rate records the summed engagement and the views, not `round(total / views * 100, 2)`, because floating-point division and rounding are not modelled.
- `Scraper.Extract`: `published_at` records the timestamp, not `datetime.fromtimestamp` of it, for the same reason. A numeric timestamp outside the platform's range, for which `fromtimestamp` raises `OverflowError` or `OSError`, still gives a record.
- A response body that is not valid JSON is treated as a network failure (`requests`' `JSONDecodeError` is a `RequestException`). The outer `except RequestException` of `scrape_content` can then fire only from `get_session`, which is not part of this model.
- The messages for non-`Error` values thrown in the page handlers are left out. Every modelled wrapper throws an `Error`, so those messages cannot occur. The unreachable `try`/`catch` around `selectPrompt` is left out too.
- `Api.ErrorString`: `String(err)` is modelled from the error's name and message. The console prints an error object as text in the same way.
- The workspace CRUD, subscription, settings, activities, user and admin wrappers are left out as operations. Their status handling is the shared rule of `Api.Call`, and the activities URL is `Api.ActivitiesUrl`.
- A 2xx response whose body is not JSON is left out. In the frontend wrappers `res.json()` would then reject, but a `Responded` answer always carries a parsed body, so `Api.Call` never sees that case.
- `Send` effects record the data argument the page passes. The body on the wire is related to it by lemmas, not by the effect itself.

## Findings

| source | as written | input that shows it | evidently intended | confidence | as-written member | corrected member |
|---|---|---|---|---|---|---|
| backend/saas/scraper.py:139-147 | the status and text are read only `if hasattr(e, 'response') and e.response`, but a requests `Response` is truthy only when `ok`, and `raise_for_status` raised because it is not; so every HTTP failure is recorded as "Ошибка API: None - " and the 404, 403 and 429 branches never run | an endpoint answering 404 with text "gone" | classify by the response's status (`e.response is not None`): the 404, 403 and 429 messages for those statuses, the generic one naming the status otherwise, each ending with the response text | high; not executed | Scraper.AttemptErrorAsWritten, Scraper.NotFoundNeverReported | Scraper.AttemptError |

The endpoint loop (`Scraper.FallbackFrom`, `Scraper.TryEndpoints`) and
`Scraper.ScrapeContent` use the corrected `Scraper.AttemptError`. With the
code as written, each HTTP failure they record reads "Ошибка API: None - ".
