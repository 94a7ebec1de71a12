/**
 * `handleApiCall` of the posts page: run a wrapper call; when its error
 * message contains "Unauthorized", exchange the stored refresh token for a
 * new access token, store it, and run the same closure once more; when the
 * refresh (or that second run) fails, forget both tokens and go to /login.
 *
 * The closure passed in captured the access token of the render that built
 * it, so the second run sends the same, old, token.
 */
module AuthRetry {
  import opened Wrappers
  import opened Text
  import opened Api
  import opened Browser

  /**
   * What the network answers during one wrapped call: the closure's first
   * run, the refresh request, and the closure's second run.
   */
  datatype Exchange<T> = Exchange(first: FetchResult<T>, refresh: FetchResult<string>, again: FetchResult<T>)

  /** The outcome of one wrapped call: its result, the new storage, the effects in order, and the access token handed to `setAccessToken`, if any. */
  datatype RetryRun<T> = RetryRun(result: Result<Reply<T>, string>, storage: map<string, string>,
                                  effects: seq<Effect>, newAccess: Option<string>)

  /** The closure `() => w(token, ...)` run against `ex`, with `storage` as `localStorage`. */
  function Retry<T>(w: Wrapper, token: string, target: Option<int>, storage: map<string, string>, ex: Exchange<T>): (run: RetryRun<T>)
    // A wrapper that returns a body delivers it on success.
    ensures run.result.Success? && ReturnsBody(w) ==> run.result.value.Value?
  {
    var first := Call(w, ex.first);
    if first.Success? || !Contains(first.error, Unauthorized) then
      RetryRun(first, storage, [Request(w, token, target)], None)
    else
      var rest := Recover(w, token, target, storage, ex, first.error);
      RetryRun(rest.result, rest.storage, [Request(w, token, target)] + rest.effects, rest.newAccess)
  }

  /**
   * The catch block after a first run whose error `message` contains
   * "Unauthorized": the refresh and the second run, with the effects that
   * follow the first run.
   */
  function Recover<T>(w: Wrapper, token: string, target: Option<int>, storage: map<string, string>, ex: Exchange<T>,
                      message: string): (run: RetryRun<T>)
    ensures run.result.Success? && ReturnsBody(w) ==> run.result.value.Value?
  {
    if !StoredTruthy(storage, RefreshTokenKey) then
      RetryRun(Failure(message), storage, [Navigate(LoginPath)], None)
    else
      var refreshTok := storage[RefreshTokenKey];
      var refreshed := Call(RefreshToken, ex.refresh);
      if refreshed.Failure? then
        RetryRun(Failure(refreshed.error), storage - {AccessTokenKey, RefreshTokenKey},
                 [Request(RefreshToken, refreshTok, None), Navigate(LoginPath)], None)
      else
        var access := refreshed.value.v;
        var again := Call(w, ex.again);
        if again.Success? then
          RetryRun(again, storage[AccessTokenKey := access], [Request(RefreshToken, refreshTok, None), Request(w, token, target)], Some(access))
        else
          // The catch around the refresh also catches the second run's error.
          RetryRun(again, storage[AccessTokenKey := access] - {AccessTokenKey, RefreshTokenKey},
                   [Request(RefreshToken, refreshTok, None), Request(w, token, target), Navigate(LoginPath)], Some(access))
  }

  /**
   * The closure always runs first, with the token it captured; it runs at
   * most twice, at positions 0 and 2 of the effects, both times with that
   * same token.
   */
  lemma ClosureKeepsCapturedToken<T>(w: Wrapper, token: string, target: Option<int>, storage: map<string, string>, ex: Exchange<T>)
    ensures var run := Retry(w, token, target, storage, ex);
            && run.effects != [] && run.effects[0] == Request(w, token, target)
            && |run.effects| <= 4
            && (!w.RefreshToken? ==>
                  forall i :: 0 <= i < |run.effects| && run.effects[i].Request? && run.effects[i].wrapper == w
                    ==> (i == 0 || i == 2) && run.effects[i] == Request(w, token, target))
  {
  }

  /** A second run happens only after an "Unauthorized" failure and a successful refresh. */
  lemma SecondRunNeedsRefresh<T>(w: Wrapper, token: string, target: Option<int>, storage: map<string, string>, ex: Exchange<T>)
    ensures var run := Retry(w, token, target, storage, ex);
            |run.effects| > 2 && run.effects[2] == Request(w, token, target) ==>
              Call(w, ex.first).Failure? && Contains(Call(w, ex.first).error, Unauthorized)
              && Call(RefreshToken, ex.refresh).Success? && run.newAccess.Some?
  {
  }

  /** A new access token comes only from a refresh requested after an "Unauthorized" failure. */
  lemma RefreshOnlyAfterUnauthorized<T>(w: Wrapper, token: string, target: Option<int>, storage: map<string, string>, ex: Exchange<T>)
    ensures var run := Retry(w, token, target, storage, ex);
            run.newAccess.Some? ==>
              Call(w, ex.first).Failure? && Contains(Call(w, ex.first).error, Unauthorized) && StoredTruthy(storage, RefreshTokenKey)
              && |run.effects| >= 3 && run.effects[1] == Request(RefreshToken, storage[RefreshTokenKey], None)
              && Call(RefreshToken, ex.refresh) == Success(Value(run.newAccess.value))
  {
  }

  /** The result is the first run's, the second run's, or the refresh failure; going to /login always comes with a failure. */
  lemma ResultComesFromARun<T>(w: Wrapper, token: string, target: Option<int>, storage: map<string, string>, ex: Exchange<T>)
    ensures var run := Retry(w, token, target, storage, ex);
            && (run.result == Call(w, ex.first) || run.result == Call(w, ex.again)
                || (Call(RefreshToken, ex.refresh).Failure? && run.result == Failure(Call(RefreshToken, ex.refresh).error)))
            && (Navigate(LoginPath) in run.effects ==> run.result.Failure?)
  {
  }

  /** Only the two credential keys of storage can change, and a success leaves the refresh token where it was. */
  lemma OnlyCredentialsChange<T>(w: Wrapper, token: string, target: Option<int>, storage: map<string, string>, ex: Exchange<T>)
    ensures var run := Retry(w, token, target, storage, ex);
            && SameOutsideCredentials(storage, run.storage)
            && (run.result.Success? ==> (RefreshTokenKey in run.storage <==> RefreshTokenKey in storage))
  {
  }

  /** A first run that resolves is returned as it is: no refresh, no storage change. */
  lemma FirstSuccessReturned<T>(w: Wrapper, token: string, target: Option<int>, storage: map<string, string>, ex: Exchange<T>)
    requires Call(w, ex.first).Success?
    ensures Retry(w, token, target, storage, ex) == RetryRun(Call(w, ex.first), storage, [Request(w, token, target)], None)
  {
  }

  /** An error without "Unauthorized" in its message is rethrown unchanged, without a refresh. */
  lemma OtherErrorRethrown<T>(w: Wrapper, token: string, target: Option<int>, storage: map<string, string>, ex: Exchange<T>)
    requires Call(w, ex.first).Failure? && !Contains(Call(w, ex.first).error, Unauthorized)
    ensures Retry(w, token, target, storage, ex) == RetryRun(Call(w, ex.first), storage, [Request(w, token, target)], None)
  {
  }

  /** With no refresh token stored: go to /login, rethrow the original error, leave storage alone. */
  lemma NoRefreshTokenGoesToLogin<T>(w: Wrapper, token: string, target: Option<int>, storage: map<string, string>, ex: Exchange<T>)
    requires Call(w, ex.first).Failure? && Contains(Call(w, ex.first).error, Unauthorized)
    requires !StoredTruthy(storage, RefreshTokenKey)
    ensures Retry(w, token, target, storage, ex)
            == RetryRun(Call(w, ex.first), storage, [Request(w, token, target), Navigate(LoginPath)], None)
  {
  }

  /**
   * A failed refresh removes both tokens, goes to /login, throws the refresh
   * error, and does not run the closure again.
   */
  lemma RefreshFailureLogsOut<T>(w: Wrapper, token: string, target: Option<int>, storage: map<string, string>, ex: Exchange<T>)
    requires Call(w, ex.first).Failure? && Contains(Call(w, ex.first).error, Unauthorized)
    requires StoredTruthy(storage, RefreshTokenKey)
    requires Call(RefreshToken, ex.refresh).Failure?
    ensures var run := Retry(w, token, target, storage, ex);
            && run.result == Failure(Call(RefreshToken, ex.refresh).error)
            && run.storage == storage - {AccessTokenKey, RefreshTokenKey}
            && run.effects == [Request(w, token, target), Request(RefreshToken, storage[RefreshTokenKey], None), Navigate(LoginPath)]
  {
  }

  /**
   * After a successful refresh the new access token is stored and the same
   * closure runs exactly once more; its result is the result. If that second
   * run fails, the tokens are forgotten and the page goes to /login as well.
   */
  lemma RefreshSuccessRetriesOnce<T>(w: Wrapper, token: string, target: Option<int>, storage: map<string, string>, ex: Exchange<T>)
    requires Call(w, ex.first).Failure? && Contains(Call(w, ex.first).error, Unauthorized)
    requires StoredTruthy(storage, RefreshTokenKey)
    requires Call(RefreshToken, ex.refresh).Success?
    ensures var run := Retry(w, token, target, storage, ex);
            var access := Call(RefreshToken, ex.refresh).value.v;
            && run.result == Call(w, ex.again)
            && run.newAccess == Some(access)
            && run.effects[..3] == [Request(w, token, target), Request(RefreshToken, storage[RefreshTokenKey], None), Request(w, token, target)]
            && (run.result.Success? ==> run.storage == storage[AccessTokenKey := access] && |run.effects| == 3)
            && (run.result.Failure? ==>
                  (run.storage == storage - {AccessTokenKey, RefreshTokenKey} && run.effects[3..] == [Navigate(LoginPath)]))
  {
  }

  /**
   * A backend that keeps answering 401 is not retried in a loop: two runs of
   * the closure, one refresh, then the error "Unauthorized".
   */
  lemma PersistentUnauthorizedStopsAfterOneRetry<T>(w: Wrapper, token: string, target: Option<int>, storage: map<string, string>,
                                                   text: string, json: T, access: string)
    requires HasUnauthorizedBranch(w) && StoredTruthy(storage, RefreshTokenKey)
    ensures var ex := Exchange(Responded(401, text, json), Responded(200, "", access), Responded(401, text, json));
            var run := Retry(w, token, target, storage, ex);
            && run.result == Failure(Unauthorized)
            && run.effects[0] == run.effects[2] == Request(w, token, target)
            && |run.effects| == 4
  {
    assert OccursAt(Unauthorized, Unauthorized, 0);
  }

  /**
   * `processPost` has no 401 branch, so an expired token on a process call is
   * refreshed only if the 401 body text happens to contain "Unauthorized".
   */
  lemma {:induction false} ProcessPostExpiredTokenNotRefreshed<T>(token: string, target: Option<int>, storage: map<string, string>,
                                                                  text: string, ex: Exchange<T>)
    requires ex.first.Responded? && ex.first.status == 401 && ex.first.text == text
    requires !Contains(text, Unauthorized)
    ensures Retry(ProcessPost, token, target, storage, ex).effects == [Request(ProcessPost, token, target)]
    ensures Retry(ProcessPost, token, target, storage, ex).result == Failure(FailureMessage(ProcessPost, 401, text))
  {
    var first := Call(ProcessPost, ex.first);
    if Contains(first.error, Unauthorized) {
      UnauthorizedInMessageComesFromBody(ProcessPost, ex.first);
    }
  }
}
