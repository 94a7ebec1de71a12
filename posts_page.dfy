/**
 * The posts page (`AppPage`) as a state machine: its React state becomes the
 * fields of a class, `localStorage` and the outward effects are fields too,
 * and each handler or effect body is a method that runs to completion
 * against the network answers it is given.
 */
module PostsPage {
  import opened Wrappers
  import opened Text
  import opened Lists
  import opened Api
  import opened Browser
  import opened AuthRetry
  import opened PostsLogic

  /** The columns shown before any saved setting is read. */
  const DefaultColumns: map<string, bool> :=
    map["source" := true, "original" := true, "result" := true, "views" := true, "likes" := true,
        "comments" := true, "plays" := false, "saves" := false, "followers" := false, "platform" := true]

  const NoWorkspaceForCreate: string := "Выбери воркспейс перед созданием поста."
  const AutoRefreshLabel: string := "Ошибка автообновления:"

  /** The access token state after a wrapped call that may have stored a new one. */
  function After(token: Option<string>, newAccess: Option<string>): Option<string> {
    if newAccess.Some? then newAccess else token
  }

  /** What a run of `handleApiCall(() => processPost(token, id))` over several ids leaves behind. */
  datatype Batch = Batch(storage: map<string, string>, effects: seq<Effect>, newAccess: Option<string>, failure: Option<string>)

  /**
   * The loop of `handleProcessAll`: one wrapped `processPost` per id, in
   * order, each against its own exchange, stopping at the first failure.
   * Every request carries the token captured when the handler started, even
   * after a refresh stored a newer one.
   */
  function ProcessEach(token: string, ids: seq<int>, storage: map<string, string>, exchanges: nat -> Exchange<()>): (b: Batch)
    ensures ids == [] ==> b == Batch(storage, [], None, None)
    ensures ids != [] ==> b.effects != [] && b.effects[0] == Request(ProcessPost, token, Some(ids[0]))
    ensures forall i :: 0 <= i < |b.effects| && b.effects[i].Request? && b.effects[i].wrapper == ProcessPost
              ==> b.effects[i].credential == token && b.effects[i].target.Some? && b.effects[i].target.value in ids
    ensures SameOutsideCredentials(storage, b.storage)
    decreases |ids|
  {
    if ids == [] then Batch(storage, [], None, None)
    else
      var b := ProcessEach(token, ids[..|ids| - 1], storage, exchanges);
      if b.failure.Some? then b
      else
        var run := Retry(ProcessPost, token, Some(ids[|ids| - 1]), b.storage, exchanges(|ids| - 1));
        ClosureKeepsCapturedToken(ProcessPost, token, Some(ids[|ids| - 1]), b.storage, exchanges(|ids| - 1));
        OnlyCredentialsChange(ProcessPost, token, Some(ids[|ids| - 1]), b.storage, exchanges(|ids| - 1));
        Batch(run.storage, b.effects + run.effects, After(b.newAccess, run.newAccess),
              if run.result.Failure? then Some(run.result.error) else None)
  }

  /** Once a prefix of the ids has failed, the rest of the ids change nothing. */
  lemma {:induction false} ProcessEachStops(token: string, ids: seq<int>, storage: map<string, string>, exchanges: nat -> Exchange<()>, k: nat)
    requires k <= |ids|
    requires ProcessEach(token, ids[..k], storage, exchanges).failure.Some?
    ensures ProcessEach(token, ids, storage, exchanges) == ProcessEach(token, ids[..k], storage, exchanges)
    decreases |ids| - k
  {
    if k == |ids| {
      assert ids[..k] == ids;
    } else {
      assert ids[..k + 1][..k] == ids[..k];
      assert ProcessEach(token, ids[..k + 1], storage, exchanges) == ProcessEach(token, ids[..k], storage, exchanges);
      ProcessEachStops(token, ids, storage, exchanges, k + 1);
    }
  }

  lemma AppendAssociative<T>(a: seq<T>, b: seq<T>, c: seq<T>)
    ensures a + b + c == a + (b + c)
  {
  }

  /** One more id: the batch over `ids[..i + 1]` is the batch over `ids[..i]` followed by one wrapped call, unless that batch already failed. */
  lemma ProcessEachStep(token: string, ids: seq<int>, storage: map<string, string>, exchanges: nat -> Exchange<()>, i: nat)
    requires i < |ids|
    ensures var b := ProcessEach(token, ids[..i], storage, exchanges);
            var run := Retry(ProcessPost, token, Some(ids[i]), b.storage, exchanges(i));
            ProcessEach(token, ids[..i + 1], storage, exchanges)
              == if b.failure.Some? then b
                 else Batch(run.storage, b.effects + run.effects, After(b.newAccess, run.newAccess),
                            if run.result.Failure? then Some(run.result.error) else None)
  {
    assert ids[..i + 1][..i] == ids[..i];
  }

  /** The body of `createPost` in `handleCreateSubmit`: empty form fields are sent as `undefined`. */
  function CreatePayload(workspace: int, title: string, sourceUrl: string, originalText: string): Body {
    map["workspace" := Num(workspace),
        "title" := if title != "" then Str(title) else Undefined,
        "source_url" := if sourceUrl != "" then Str(sourceUrl) else Undefined,
        "original_text" := if originalText != "" then Str(originalText) else Undefined]
  }

  /** What `handleCreateSubmit` sends carries no key beyond the workspace, the platform and the three text fields. */
  lemma CreateSubmitKeys(workspace: int, title: string, sourceUrl: string, originalText: string)
    ensures CreatePostBody(CreatePayload(workspace, title, sourceUrl, originalText)).Keys
            <= {"workspace", "platform", "title", "source_url", "original_text"}
  {
    var payload := CreatePayload(workspace, title, sourceUrl, originalText);
    forall k | k in CreatePostBody(payload)
      ensures k in {"workspace", "platform", "title", "source_url", "original_text"}
    {
      if k != "platform" {
        assert k in payload;
      }
    }
  }

  /** It always carries the workspace and the default platform "instagram". */
  lemma CreateSubmitWorkspaceAndPlatform(workspace: int, title: string, sourceUrl: string, originalText: string)
    ensures var body := CreatePostBody(CreatePayload(workspace, title, sourceUrl, originalText));
            && "workspace" in body && body["workspace"] == Num(workspace)
            && "platform" in body && body["platform"] == Str("instagram")
  {
    var payload := CreatePayload(workspace, title, sourceUrl, originalText);
    assert "platform" !in payload && payload["workspace"] == Num(workspace);
  }

  /** It carries each text field exactly when the field is non-empty. */
  lemma CreateSubmitTextFields(workspace: int, title: string, sourceUrl: string, originalText: string)
    ensures var body := CreatePostBody(CreatePayload(workspace, title, sourceUrl, originalText));
            && ("title" in body <==> title != "") && ("title" in body ==> body["title"] == Str(title))
            && ("source_url" in body <==> sourceUrl != "")
            && ("original_text" in body <==> originalText != "")
  {
    var payload := CreatePayload(workspace, title, sourceUrl, originalText);
    assert payload["title"] == if title != "" then Str(title) else Undefined;
    assert payload["source_url"] == if sourceUrl != "" then Str(sourceUrl) else Undefined;
    assert payload["original_text"] == if originalText != "" then Str(originalText) else Undefined;
  }

  class AppPage {
    var storage: map<string, string>
    var effects: seq<Effect>
    var accessToken: Option<string>
    var workspaces: seq<Workspace>
    var activeWorkspaceId: Option<int>
    var posts: seq<Post>
    var selectedPost: Option<Post>
    var error: Option<string>
    /** The JavaScript `Set` of selected ids, in insertion order. */
    var selectedPosts: seq<int>
    var filters: Filters
    var visibleColumns: map<string, bool>
    /** The parsed value stored under `tableColumns`, if any. */
    var savedColumns: Option<map<string, bool>>
    var createOpen: bool
    var createTitle: string
    var createSourceUrl: string
    var createOriginalText: string

    predicate Valid()
      reads this`selectedPosts
    {
      NoDuplicates(selectedPosts)
    }

    /** The polling effect has an interval armed exactly when this holds. */
    predicate Polling()
      reads this`accessToken, this`activeWorkspaceId, this`posts
    {
      ShouldPoll(accessToken, activeWorkspaceId, posts)
    }

    function Filtered(): seq<Post>
      reads this`posts, this`filters
    {
      FilteredPosts(posts, filters)
    }

    /** Mounting: read the saved columns, then the access token or go to /login. */
    constructor(initialStorage: map<string, string>, saved: Option<map<string, bool>>)
      ensures Valid() && !Polling()
      ensures storage == initialStorage && savedColumns == saved
      ensures visibleColumns == if saved.Some? then saved.value else DefaultColumns
      ensures StoredTruthy(initialStorage, AccessTokenKey) ==> accessToken == Some(initialStorage[AccessTokenKey]) && effects == []
      ensures !StoredTruthy(initialStorage, AccessTokenKey) ==> accessToken == None && effects == [Navigate(LoginPath)]
      ensures workspaces == [] && activeWorkspaceId == None && posts == [] && selectedPost == None && error == None
      ensures selectedPosts == [] && filters == Filters(All, All, "")
      ensures !createOpen && createTitle == "" && createSourceUrl == "" && createOriginalText == ""
    {
      storage := initialStorage;
      savedColumns := saved;
      visibleColumns := if saved.Some? then saved.value else DefaultColumns;
      workspaces, activeWorkspaceId, posts, selectedPost, error := [], None, [], None, None;
      selectedPosts, filters := [], Filters(All, All, "");
      createOpen, createTitle, createSourceUrl, createOriginalText := false, "", "", "";
      if StoredTruthy(initialStorage, AccessTokenKey) {
        accessToken, effects := Some(initialStorage[AccessTokenKey]), [];
      } else {
        accessToken, effects := None, [Navigate(LoginPath)];
      }
    }

    /** `handleApiCall(() => w(token, target))`, step by step. */
    method HandleApiCall<T>(token: string, w: Wrapper, target: Option<int>, ex: Exchange<T>) returns (r: Result<Reply<T>, string>)
      modifies this`storage, this`effects, this`accessToken
      ensures var run := Retry(w, token, target, old(storage), ex);
              && r == run.result && storage == run.storage && effects == old(effects) + run.effects
              && accessToken == After(old(accessToken), run.newAccess)
    {
      effects := effects + [Request(w, token, target)];
      r := Call(w, ex.first);
      if r.Success? || !Contains(r.error, Unauthorized) {
        return;
      }
      r := RefreshAndRerun(w, token, target, ex, r.error);
      AppendAssociative(old(effects), [Request(w, token, target)], Recover(w, token, target, old(storage), ex, Call(w, ex.first).error).effects);
    }

    /** The catch block of `handleApiCall`: refresh the access token and run the closure once more. */
    method RefreshAndRerun<T>(w: Wrapper, token: string, target: Option<int>, ex: Exchange<T>, message: string) returns (r: Result<Reply<T>, string>)
      modifies this`storage, this`effects, this`accessToken
      ensures var run := Recover(w, token, target, old(storage), ex, message);
              && r == run.result && storage == run.storage && effects == old(effects) + run.effects
              && accessToken == After(old(accessToken), run.newAccess)
    {
      if !StoredTruthy(storage, RefreshTokenKey) {
        effects := effects + [Navigate(LoginPath)];
        return Failure(message);
      }
      var refreshTok := storage[RefreshTokenKey];
      effects := effects + [Request(RefreshToken, refreshTok, None)];
      var refreshed := Call(RefreshToken, ex.refresh);
      if refreshed.Failure? {
        storage := storage - {AccessTokenKey, RefreshTokenKey};
        effects := effects + [Navigate(LoginPath)];
        return Failure(refreshed.error);
      }
      var access := refreshed.value.v;
      storage := storage[AccessTokenKey := access];
      accessToken := Some(access);
      effects := effects + [Request(w, token, target)];
      r := Call(w, ex.again);
      if r.Failure? {
        storage := storage - {AccessTokenKey, RefreshTokenKey};
        effects := effects + [Navigate(LoginPath)];
      }
    }

    /** The catch blocks of the handlers: log the error and show its message. */
    method Report(message: string)
      modifies this`effects, this`error
      ensures effects == old(effects) + [ConsoleError(message)] && error == Some(message)
    {
      effects := effects + [ConsoleError(message)];
      error := Some(message);
    }

    /**
     * The workspace effect: without a token it does nothing; otherwise fetch
     * the workspaces, and the first one becomes active only when none is
     * active yet (`id ?? ws[0].id`).
     */
    method LoadWorkspaces(ex: Exchange<seq<Workspace>>)
      modifies this`storage, this`effects, this`accessToken, this`workspaces, this`activeWorkspaceId, this`error
      ensures !TokenTruthy(old(accessToken)) ==>
                && storage == old(storage) && effects == old(effects) && accessToken == old(accessToken)
                && workspaces == old(workspaces) && activeWorkspaceId == old(activeWorkspaceId) && error == old(error)
      ensures TokenTruthy(old(accessToken)) ==>
              var run := Retry(GetWorkspaces, old(accessToken).value, None, old(storage), ex);
              && storage == run.storage && accessToken == After(old(accessToken), run.newAccess)
              && (run.result.Success? ==>
                    && workspaces == run.result.value.v && error == None && effects == old(effects) + run.effects
                    && activeWorkspaceId == if workspaces != [] && old(activeWorkspaceId).None? then Some(workspaces[0].id)
                                            else old(activeWorkspaceId))
              && (run.result.Failure? ==>
                    && workspaces == old(workspaces) && activeWorkspaceId == old(activeWorkspaceId)
                    && error == Some(run.result.error) && effects == old(effects) + run.effects + [ConsoleError(run.result.error)])
    {
      if !TokenTruthy(accessToken) {
        return;
      }
      error := None;
      var r := HandleApiCall(accessToken.value, GetWorkspaces, None, ex);
      if r.Failure? {
        Report(r.error);
        return;
      }
      workspaces := r.value.v;
      if workspaces != [] && activeWorkspaceId.None? {
        activeWorkspaceId := Some(workspaces[0].id);
      }
    }

    /** The posts effect: without a token or a truthy workspace it does nothing; otherwise fetch the workspace's posts. */
    method LoadPosts(ex: Exchange<seq<Post>>)
      modifies this`storage, this`effects, this`accessToken, this`posts, this`error
      ensures !TokenTruthy(old(accessToken)) || !Truthy(activeWorkspaceId) ==>
                && storage == old(storage) && effects == old(effects) && accessToken == old(accessToken)
                && posts == old(posts) && error == old(error)
      ensures TokenTruthy(old(accessToken)) && Truthy(activeWorkspaceId) ==>
              var run := Retry(GetPosts, old(accessToken).value, activeWorkspaceId, old(storage), ex);
              && storage == run.storage && accessToken == After(old(accessToken), run.newAccess)
              && (run.result.Success? ==> posts == run.result.value.v && error == None && effects == old(effects) + run.effects)
              && (run.result.Failure? ==>
                    && posts == old(posts) && error == Some(run.result.error)
                    && effects == old(effects) + run.effects + [ConsoleError(run.result.error)])
    {
      if !TokenTruthy(accessToken) || !Truthy(activeWorkspaceId) {
        return;
      }
      error := None;
      var r := HandleApiCall(accessToken.value, GetPosts, activeWorkspaceId, ex);
      if r.Failure? {
        Report(r.error);
        return;
      }
      posts := r.value.v;
    }

    /**
     * One tick of the polling interval: on success the list is replaced and
     * the selected post re-synced; a failure is only logged, so the interval
     * stays armed.
     */
    method PollTick(ex: Exchange<seq<Post>>)
      requires Polling()
      modifies this`storage, this`effects, this`accessToken, this`posts, this`selectedPost
      ensures var run := Retry(GetPosts, old(accessToken).value, activeWorkspaceId, old(storage), ex);
              && storage == run.storage && accessToken == After(old(accessToken), run.newAccess)
              && (run.result.Success? ==>
                    && posts == run.result.value.v && effects == old(effects) + run.effects
                    && selectedPost == SyncSelected(old(selectedPost), posts))
              && (run.result.Failure? ==>
                    && posts == old(posts) && selectedPost == old(selectedPost)
                    && effects == old(effects) + run.effects + [ConsoleError(AutoRefreshLabel + " " + run.result.error)])
      ensures (old(posts) == posts && TokenTruthy(accessToken)) ==> Polling()
    {
      var r := HandleApiCall(accessToken.value, GetPosts, activeWorkspaceId, ex);
      if r.Failure? {
        effects := effects + [ConsoleError(AutoRefreshLabel + " " + r.error)];
        return;
      }
      posts := r.value.v;
      selectedPost := SyncSelected(selectedPost, posts);
    }

    /** `handleProcess`: start processing one post, then reload and show it. */
    method HandleProcess(postId: int, exProcess: Exchange<()>, exPosts: Exchange<seq<Post>>)
      modifies this`storage, this`effects, this`accessToken, this`posts, this`selectedPost, this`error
      ensures !TokenTruthy(old(accessToken)) ==>
                storage == old(storage) && effects == old(effects) && accessToken == old(accessToken)
                && posts == old(posts) && selectedPost == old(selectedPost) && error == old(error)
      ensures TokenTruthy(old(accessToken)) ==>
                var token := old(accessToken).value;
                var first := Retry(ProcessPost, token, Some(postId), old(storage), exProcess);
                var listed := Retry(GetPosts, token, activeWorkspaceId, first.storage, exPosts);
                if first.result.Failure? then
                  && storage == first.storage && accessToken == After(old(accessToken), first.newAccess)
                  && effects == old(effects) + first.effects + [ConsoleError(first.result.error)]
                  && error == Some(first.result.error) && posts == old(posts) && selectedPost == old(selectedPost)
                else if !Truthy(activeWorkspaceId) then
                  && storage == first.storage && accessToken == After(old(accessToken), first.newAccess)
                  && effects == old(effects) + first.effects
                  && error == None && posts == old(posts) && selectedPost == old(selectedPost)
                else
                  && storage == listed.storage
                  && accessToken == After(After(old(accessToken), first.newAccess), listed.newAccess)
                  && (listed.result.Failure? ==>
                        && effects == old(effects) + first.effects + listed.effects + [ConsoleError(listed.result.error)]
                        && error == Some(listed.result.error) && posts == old(posts) && selectedPost == old(selectedPost))
                  && (listed.result.Success? ==>
                        && effects == old(effects) + first.effects + listed.effects && error == None
                        && posts == listed.result.value.v
                        && selectedPost == if FindById(posts, postId).Some? then FindById(posts, postId) else old(selectedPost))
    {
      if !TokenTruthy(accessToken) {
        return;
      }
      var token := accessToken.value;
      error := None;
      var started := HandleApiCall(token, ProcessPost, Some(postId), exProcess);
      if started.Failure? {
        Report(started.error);
        return;
      }
      if Truthy(activeWorkspaceId) {
        var listed := HandleApiCall(token, GetPosts, activeWorkspaceId, exPosts);
        if listed.Failure? {
          Report(listed.error);
          return;
        }
        posts := listed.value.v;
        var updated := FindById(posts, postId);
        if updated.Some? {
          selectedPost := updated;
        }
      }
    }

    /**
     * `handleBulkProcess`: `processPost` for each selected id in order, without
     * the refresh wrapper, then reload; the selection is cleared only when
     * everything succeeded.
     */
    method HandleBulkProcess(respond: int -> FetchResult<()>, fetched: FetchResult<seq<Post>>)
      requires Valid()
      modifies this`effects, this`posts, this`error, this`selectedPosts
      ensures Valid()
      ensures !TokenTruthy(accessToken) || old(selectedPosts) == [] ==>
                effects == old(effects) && posts == old(posts) && error == old(error) && selectedPosts == old(selectedPosts)
      ensures TokenTruthy(accessToken) && old(selectedPosts) != [] ==>
                var ids := old(selectedPosts);
                var sent := RequestsFor(ProcessPost, accessToken.value, SentBefore(ProcessPost, ids, respond));
                var k := FirstFailure(ProcessPost, ids, respond);
                var listed := Call(GetPosts, fetched);
                var reload := [Request(GetPosts, accessToken.value, activeWorkspaceId)];
                if k < |ids| then
                  var message := Call(ProcessPost, respond(ids[k])).error;
                  && effects == old(effects) + sent + [ConsoleError(message)] && error == Some(message)
                  && posts == old(posts) && selectedPosts == ids
                else if !Truthy(activeWorkspaceId) then
                  effects == old(effects) + sent && error == None && posts == old(posts) && selectedPosts == []
                else if listed.Failure? then
                  && effects == old(effects) + sent + reload + [ConsoleError(listed.error)] && error == Some(listed.error)
                  && posts == old(posts) && selectedPosts == ids
                else
                  && effects == old(effects) + sent + reload && error == None
                  && posts == listed.value.v && selectedPosts == []
    {
      if !TokenTruthy(accessToken) || selectedPosts == [] {
        return;
      }
      var token := accessToken.value;
      error := None;
      var sent, failure := SendEach(ProcessPost, selectedPosts, respond);
      effects := effects + RequestsFor(ProcessPost, token, sent);
      if failure.Some? {
        Report(failure.value);
        return;
      }
      if Truthy(activeWorkspaceId) {
        effects := effects + [Request(GetPosts, token, activeWorkspaceId)];
        var listed := Call(GetPosts, fetched);
        if listed.Failure? {
          Report(listed.error);
          return;
        }
        posts := listed.value.v;
      }
      selectedPosts := [];
    }

    /** `handleDelete`: after confirmation delete one post, reload, and drop it from the detail view. */
    method HandleDelete(postId: int, confirmed: bool, exDelete: Exchange<()>, exPosts: Exchange<seq<Post>>)
      modifies this`storage, this`effects, this`accessToken, this`posts, this`selectedPost, this`error
      ensures !TokenTruthy(old(accessToken)) || !confirmed ==>
                storage == old(storage) && effects == old(effects) && accessToken == old(accessToken)
                && posts == old(posts) && selectedPost == old(selectedPost) && error == old(error)
      ensures TokenTruthy(old(accessToken)) && confirmed ==>
                var token := old(accessToken).value;
                var first := Retry(DeletePost, token, Some(postId), old(storage), exDelete);
                var listed := Retry(GetPosts, token, activeWorkspaceId, first.storage, exPosts);
                if first.result.Failure? then
                  && storage == first.storage && accessToken == After(old(accessToken), first.newAccess)
                  && effects == old(effects) + first.effects + [ConsoleError(first.result.error)]
                  && error == Some(first.result.error) && posts == old(posts) && selectedPost == old(selectedPost)
                else if !Truthy(activeWorkspaceId) then
                  && storage == first.storage && accessToken == After(old(accessToken), first.newAccess)
                  && effects == old(effects) + first.effects
                  && error == None && posts == old(posts) && selectedPost == old(selectedPost)
                else
                  && storage == listed.storage
                  && accessToken == After(After(old(accessToken), first.newAccess), listed.newAccess)
                  && (listed.result.Failure? ==>
                        && effects == old(effects) + first.effects + listed.effects + [ConsoleError(listed.result.error)]
                        && error == Some(listed.result.error) && posts == old(posts) && selectedPost == old(selectedPost))
                  && (listed.result.Success? ==>
                        && effects == old(effects) + first.effects + listed.effects && error == None
                        && posts == listed.result.value.v
                        && selectedPost == if old(selectedPost).Some? && old(selectedPost).value.id == postId then None
                                           else old(selectedPost))
    {
      if !TokenTruthy(accessToken) || !confirmed {
        return;
      }
      var token := accessToken.value;
      error := None;
      var deleted := HandleApiCall(token, DeletePost, Some(postId), exDelete);
      if deleted.Failure? {
        Report(deleted.error);
        return;
      }
      if Truthy(activeWorkspaceId) {
        var listed := HandleApiCall(token, GetPosts, activeWorkspaceId, exPosts);
        if listed.Failure? {
          Report(listed.error);
          return;
        }
        posts := listed.value.v;
        if selectedPost.Some? && selectedPost.value.id == postId {
          selectedPost := None;
        }
      }
    }

    /**
     * `handleBulkDelete`: after confirmation `deletePost` each selected id in
     * order, without the refresh wrapper, reload, and drop the detail view when
     * its post was among them.
     */
    method HandleBulkDelete(confirmed: bool, respond: int -> FetchResult<()>, fetched: FetchResult<seq<Post>>)
      requires Valid()
      modifies this`effects, this`posts, this`selectedPost, this`error, this`selectedPosts
      ensures Valid()
      ensures !TokenTruthy(accessToken) || old(selectedPosts) == [] || !confirmed ==>
                && effects == old(effects) && posts == old(posts) && selectedPost == old(selectedPost)
                && error == old(error) && selectedPosts == old(selectedPosts)
      ensures TokenTruthy(accessToken) && old(selectedPosts) != [] && confirmed ==>
                var ids := old(selectedPosts);
                var sent := RequestsFor(DeletePost, accessToken.value, SentBefore(DeletePost, ids, respond));
                var k := FirstFailure(DeletePost, ids, respond);
                var listed := Call(GetPosts, fetched);
                var reload := [Request(GetPosts, accessToken.value, activeWorkspaceId)];
                if k < |ids| then
                  var message := Call(DeletePost, respond(ids[k])).error;
                  && effects == old(effects) + sent + [ConsoleError(message)] && error == Some(message)
                  && posts == old(posts) && selectedPost == old(selectedPost) && selectedPosts == ids
                else if !Truthy(activeWorkspaceId) then
                  && effects == old(effects) + sent && error == None
                  && posts == old(posts) && selectedPost == old(selectedPost) && selectedPosts == []
                else if listed.Failure? then
                  && effects == old(effects) + sent + reload + [ConsoleError(listed.error)] && error == Some(listed.error)
                  && posts == old(posts) && selectedPost == old(selectedPost) && selectedPosts == ids
                else
                  && effects == old(effects) + sent + reload && error == None
                  && posts == listed.value.v && selectedPosts == []
                  && selectedPost == if old(selectedPost).Some? && old(selectedPost).value.id in ids then None
                                     else old(selectedPost)
    {
      if !TokenTruthy(accessToken) || selectedPosts == [] || !confirmed {
        return;
      }
      var token := accessToken.value;
      error := None;
      var sent, failure := SendEach(DeletePost, selectedPosts, respond);
      effects := effects + RequestsFor(DeletePost, token, sent);
      if failure.Some? {
        Report(failure.value);
        return;
      }
      if Truthy(activeWorkspaceId) {
        effects := effects + [Request(GetPosts, token, activeWorkspaceId)];
        var listed := Call(GetPosts, fetched);
        if listed.Failure? {
          Report(listed.error);
          return;
        }
        posts := listed.value.v;
        if selectedPost.Some? && selectedPost.value.id in selectedPosts {
          selectedPost := None;
        }
      }
      selectedPosts := [];
    }

    /** `togglePostSelection`. */
    method TogglePostSelection(postId: int)
      requires Valid()
      modifies this`selectedPosts
      ensures Valid()
      ensures selectedPosts == ToggleSelection(old(selectedPosts), postId)
      ensures postId in selectedPosts <==> postId !in old(selectedPosts)
    {
      selectedPosts := ToggleSelection(selectedPosts, postId);
    }

    /** `toggleSelectAll`, against the list the filters currently show. */
    method ToggleSelectAll()
      modifies this`selectedPosts
      ensures Valid()
      ensures selectedPosts == SelectAll(old(selectedPosts), Filtered())
    {
      selectedPosts := SelectAll(selectedPosts, Filtered());
    }

    /** `toggleColumn`: flip one column and save the whole setting. */
    method ToggleColumnSetting(column: string)
      modifies this`visibleColumns, this`savedColumns
      ensures visibleColumns == ToggleColumn(old(visibleColumns), column)
      ensures savedColumns == Some(visibleColumns)
    {
      visibleColumns := ToggleColumn(visibleColumns, column);
      savedColumns := Some(visibleColumns);
    }

    /**
     * The loop of `handleProcessAll`: a wrapped `processPost` for each id in
     * order, stopping at the first failure, whose message is returned.
     */
    method ProcessBatch(token: string, ids: seq<int>, exchanges: nat -> Exchange<()>) returns (failure: Option<string>)
      modifies this`storage, this`effects, this`accessToken
      ensures var batch := ProcessEach(token, ids, old(storage), exchanges);
              && failure == batch.failure && storage == batch.storage
              && effects == old(effects) + batch.effects && accessToken == After(old(accessToken), batch.newAccess)
    {
      ghost var storage0, effects0, access0 := storage, effects, accessToken;
      ghost var batch := ProcessEach(token, ids[..0], storage0, exchanges);
      var i := 0;
      while i < |ids|
        invariant 0 <= i <= |ids|
        invariant batch == ProcessEach(token, ids[..i], storage0, exchanges)
        invariant batch.failure.None? && storage == batch.storage
        invariant effects == effects0 + batch.effects && accessToken == After(access0, batch.newAccess)
      {
        ProcessEachStep(token, ids, storage0, exchanges, i);
        ghost var run := Retry(ProcessPost, token, Some(ids[i]), batch.storage, exchanges(i));
        var r := HandleApiCall(token, ProcessPost, Some(ids[i]), exchanges(i));
        AppendAssociative(effects0, batch.effects, run.effects);
        batch := ProcessEach(token, ids[..i + 1], storage0, exchanges);
        if r.Failure? {
          ProcessEachStops(token, ids, storage0, exchanges, i + 1);
          return Some(r.error);
        }
        i := i + 1;
      }
      assert ids[..i] == ids;
      return None;
    }

    /**
     * The part of `handleProcessAll` after its guards: process `ids` in
     * order, then reload the list when a workspace is active.
     */
    method ProcessThenReload(token: string, ids: seq<int>, exchanges: nat -> Exchange<()>, exPosts: Exchange<seq<Post>>)
      modifies this`storage, this`effects, this`accessToken, this`posts, this`error
      ensures var batch := ProcessEach(token, ids, old(storage), exchanges);
              var listed := Retry(GetPosts, token, activeWorkspaceId, batch.storage, exPosts);
              if batch.failure.Some? then
                && storage == batch.storage && accessToken == After(old(accessToken), batch.newAccess)
                && effects == old(effects) + batch.effects + [ConsoleError(batch.failure.value)]
                && error == batch.failure && posts == old(posts)
              else if !Truthy(activeWorkspaceId) then
                && storage == batch.storage && accessToken == After(old(accessToken), batch.newAccess)
                && effects == old(effects) + batch.effects && error == None && posts == old(posts)
              else
                && storage == listed.storage
                && accessToken == After(After(old(accessToken), batch.newAccess), listed.newAccess)
                && (listed.result.Failure? ==>
                      && effects == old(effects) + batch.effects + listed.effects + [ConsoleError(listed.result.error)]
                      && error == Some(listed.result.error) && posts == old(posts))
                && (listed.result.Success? ==>
                      effects == old(effects) + batch.effects + listed.effects && error == None && posts == listed.result.value.v)
    {
      error := None;
      var failure := ProcessBatch(token, ids, exchanges);
      if failure.Some? {
        Report(failure.value);
        return;
      }
      if Truthy(activeWorkspaceId) {
        var listed := HandleApiCall(token, GetPosts, activeWorkspaceId, exPosts);
        if listed.Failure? {
          Report(listed.error);
          return;
        }
        posts := listed.value.v;
      }
    }

    /**
     * `handleProcessAll`: after confirmation, a wrapped `processPost` for each
     * "new" post in list order, stopping at the first failure, then reload.
     * Every request carries the token the handler started with.
     */
    method HandleProcessAll(confirmed: bool, exchanges: nat -> Exchange<()>, exPosts: Exchange<seq<Post>>)
      modifies this`storage, this`effects, this`accessToken, this`posts, this`error
      ensures !TokenTruthy(old(accessToken)) || NewPosts(old(posts)) == [] || !confirmed ==>
                && storage == old(storage) && effects == old(effects) && accessToken == old(accessToken)
                && posts == old(posts) && error == old(error)
      ensures TokenTruthy(old(accessToken)) && NewPosts(old(posts)) != [] && confirmed ==>
                var token := old(accessToken).value;
                var batch := ProcessEach(token, Ids(NewPosts(old(posts))), old(storage), exchanges);
                var listed := Retry(GetPosts, token, activeWorkspaceId, batch.storage, exPosts);
                if batch.failure.Some? then
                  && storage == batch.storage && accessToken == After(old(accessToken), batch.newAccess)
                  && effects == old(effects) + batch.effects + [ConsoleError(batch.failure.value)]
                  && error == batch.failure && posts == old(posts)
                else if !Truthy(activeWorkspaceId) then
                  && storage == batch.storage && accessToken == After(old(accessToken), batch.newAccess)
                  && effects == old(effects) + batch.effects && error == None && posts == old(posts)
                else
                  && storage == listed.storage
                  && accessToken == After(After(old(accessToken), batch.newAccess), listed.newAccess)
                  && (listed.result.Failure? ==>
                        && effects == old(effects) + batch.effects + listed.effects + [ConsoleError(listed.result.error)]
                        && error == Some(listed.result.error) && posts == old(posts))
                  && (listed.result.Success? ==>
                        effects == old(effects) + batch.effects + listed.effects && error == None && posts == listed.result.value.v)
    {
      if !TokenTruthy(accessToken) {
        return;
      }
      var targets := NewPosts(posts);
      if targets == [] || !confirmed {
        return;
      }
      ProcessThenReload(accessToken.value, Ids(targets), exchanges, exPosts);
    }

    /** The count of "new" posts shown in the header. */
    function NewPostsCount(): (n: nat)
      reads this`posts
      ensures n <= |posts|
      ensures n == |NewPosts(posts)|
    {
      |NewPosts(posts)|
    }

    /** `handleLogout`: forget both tokens and go to /login; the access token state is left as it is. */
    method HandleLogout()
      modifies this`storage, this`effects
      ensures storage == old(storage) - {AccessTokenKey, RefreshTokenKey}
      ensures effects == old(effects) + [Navigate(LoginPath)]
    {
      storage := storage - {AccessTokenKey, RefreshTokenKey};
      effects := effects + [Navigate(LoginPath)];
    }

    /**
     * `handleCreateSubmit`: create a post in the active workspace from the
     * form, reload, show the new post, and reset and close the form.
     */
    method HandleCreateSubmit(created: FetchResult<Post>, fetched: FetchResult<seq<Post>>)
      modifies this`effects, this`posts, this`selectedPost, this`error, this`createOpen,
               this`createTitle, this`createSourceUrl, this`createOriginalText
      ensures !TokenTruthy(accessToken) || !Truthy(activeWorkspaceId) ==>
                && error == Some(NoWorkspaceForCreate) && effects == old(effects) && posts == old(posts)
                && selectedPost == old(selectedPost) && createOpen == old(createOpen)
                && createTitle == old(createTitle) && createSourceUrl == old(createSourceUrl)
                && createOriginalText == old(createOriginalText)
      ensures TokenTruthy(accessToken) && Truthy(activeWorkspaceId) ==>
                var send := [Send(CreatePost, accessToken.value, None, CreatePayload(activeWorkspaceId.value, old(createTitle), old(createSourceUrl), old(createOriginalText)))];
                var made := Call(CreatePost, created);
                var listed := Call(GetPosts, fetched);
                var reload := [Request(GetPosts, accessToken.value, activeWorkspaceId)];
                && (made.Failure? ==> effects == old(effects) + send + [ConsoleError(made.error)] && error == Some(made.error))
                && (made.Success? && listed.Failure? ==>
                      effects == old(effects) + send + reload + [ConsoleError(listed.error)] && error == Some(listed.error))
                && (made.Failure? || listed.Failure? ==>
                      && posts == old(posts) && selectedPost == old(selectedPost)
                      && createOpen == old(createOpen) && createTitle == old(createTitle)
                      && createSourceUrl == old(createSourceUrl) && createOriginalText == old(createOriginalText))
                && (made.Success? && listed.Success? ==>
                      && effects == old(effects) + send + reload && error == None
                      && posts == listed.value.v && selectedPost == Some(made.value.v)
                      && !createOpen && createTitle == "" && createSourceUrl == "" && createOriginalText == "")
    {
      if !TokenTruthy(accessToken) || !Truthy(activeWorkspaceId) {
        error := Some(NoWorkspaceForCreate);
        return;
      }
      var ok := CreateThenReload(accessToken.value, CreatePayload(activeWorkspaceId.value, createTitle, createSourceUrl, createOriginalText), created, fetched);
      if ok {
        createTitle, createSourceUrl, createOriginalText, createOpen := "", "", "", false;
      }
    }

    /** The network part of `handleCreateSubmit`: create, reload, and show the new post. */
    method CreateThenReload(token: string, body: Body, created: FetchResult<Post>, fetched: FetchResult<seq<Post>>) returns (ok: bool)
      modifies this`effects, this`posts, this`selectedPost, this`error
      ensures var made := Call(CreatePost, created);
              var listed := Call(GetPosts, fetched);
              var send := [Send(CreatePost, token, None, body)];
              var reload := [Request(GetPosts, token, activeWorkspaceId)];
              && ok == (made.Success? && listed.Success?)
              && (made.Failure? ==> effects == old(effects) + send + [ConsoleError(made.error)] && error == Some(made.error))
              && (made.Success? && listed.Failure? ==>
                    effects == old(effects) + send + reload + [ConsoleError(listed.error)] && error == Some(listed.error))
              && (!ok ==> posts == old(posts) && selectedPost == old(selectedPost))
              && (ok ==> && effects == old(effects) + send + reload && error == None
                         && posts == listed.value.v && selectedPost == Some(made.value.v))
    {
      error := None;
      effects := effects + [Send(CreatePost, token, None, body)];
      var made := Call(CreatePost, created);
      if made.Failure? {
        Report(made.error);
        return false;
      }
      effects := effects + [Request(GetPosts, token, activeWorkspaceId)];
      var listed := Call(GetPosts, fetched);
      if listed.Failure? {
        Report(listed.error);
        return false;
      }
      posts := listed.value.v;
      selectedPost := Some(made.value.v);
      return true;
    }
  }
}
