/**
 * The prompts page: the prompts of the first workspace, an edit form bound
 * to the selected prompt, and saving, which updates the selected prompt or
 * creates a new one, reloads the list and selects the saved prompt again.
 */
module Prompts {
  import opened Wrappers
  import opened Text
  import opened Lists
  import opened Api
  import opened Browser
  import PostsLogic

  datatype Prompt = Prompt(id: int, workspace: int, name: string, kind: string, content: string, isActive: bool)

  /** The local form state: name, type, text and the active flag. */
  datatype Form = Form(name: string, kind: string, content: string, isActive: bool)

  const BlankForm: Form := Form("", "caption", "", true)

  const NoTokenOrWorkspace: string := "Нет токена или workspace не выбран"
  const NameAndContentRequired: string := "Название и текст промпта обязательны"
  const SaveErrorLabel: string := "Save error:"

  function FormOf(p: Prompt): Form {
    Form(p.name, p.kind, p.content, p.isActive)
  }

  /** The `updatePrompt` data: every form field. */
  function UpdateBody(f: Form): Body {
    map["name" := Str(f.name), "type" := Str(f.kind), "content" := Str(f.content), "is_active" := Bool(f.isActive)]
  }

  /** The `createPrompt` data: the workspace and every form field. */
  function CreateData(workspace: int, f: Form): Body {
    map["workspace" := Num(workspace), "name" := Str(f.name), "type" := Str(f.kind),
        "content" := Str(f.content), "is_active" := Bool(f.isActive)]
  }

  /** The page always sets type and is_active, so `createPrompt`'s defaults never reach the server. */
  lemma CreateSendsFormAsIs(workspace: int, f: Form)
    ensures CreatePromptBody(CreateData(workspace, f)) == CreateData(workspace, f)
  {
    var r := CreatePromptBody(CreateData(workspace, f));
    assert r.Keys == CreateData(workspace, f).Keys;
  }

  /** `list.find(p => p.id === saved.id) ?? saved`. */
  function Reselected(list: seq<Prompt>, saved: Prompt): (r: Prompt)
    ensures r.id == saved.id
    ensures (exists i :: 0 <= i < |list| && list[i].id == saved.id) ==>
              exists i :: 0 <= i < |list| && list[i] == r && forall j :: 0 <= j < i ==> list[j].id != saved.id
    ensures (forall i :: 0 <= i < |list| ==> list[i].id != saved.id) ==> r == saved
  {
    Find(list, (p: Prompt) => p.id == saved.id).GetOr(saved)
  }

  /** The request a save sends: an update of the selected prompt, or a create in the workspace. */
  function SaveRequest(token: string, workspace: int, selected: Option<Prompt>, form: Form): Effect {
    if selected.Some? then Send(UpdatePrompt, token, Some(selected.value.id), UpdateBody(form))
    else Send(CreatePrompt, token, None, CreateData(workspace, form))
  }

  /** The saved prompt, or the message the update or create threw. */
  function SaveResult(update: bool, saved: FetchResult<Prompt>): (r: Result<Prompt, string>)
    ensures saved.NetworkError? ==> r == Failure(saved.message)
    ensures saved.Responded? ==> (r.Success? <==> IsOk(saved.status))
    ensures r.Success? ==> r.value == saved.json
    ensures saved.Responded? && saved.status == 401 ==> r == Failure(Unauthorized)
  {
    var c := Call(if update then UpdatePrompt else CreatePrompt, saved);
    if c.Success? then Success(c.value.v) else Failure(c.error)
  }

  /** What the server returns for the saved id wins over the save's own answer. */
  lemma ReloadedCopyWins(list: seq<Prompt>, saved: Prompt, reloaded: Prompt)
    requires reloaded.id == saved.id && reloaded in list
    requires forall p :: p in list && p.id == saved.id ==> p == reloaded
    ensures Reselected(list, saved) == reloaded
  {
  }

  class PromptsPage {
    var storage: map<string, string>
    var effects: seq<Effect>
    var accessToken: Option<string>
    var workspaces: seq<PostsLogic.Workspace>
    var activeWorkspaceId: Option<int>
    var prompts: seq<Prompt>
    var selectedPrompt: Option<Prompt>
    var saving: bool
    var error: Option<string>
    var form: Form

    /** Mounting: read the access token or go to /login. */
    constructor(initialStorage: map<string, string>)
      ensures storage == initialStorage
      ensures StoredTruthy(initialStorage, AccessTokenKey) ==> accessToken == Some(initialStorage[AccessTokenKey]) && effects == []
      ensures !StoredTruthy(initialStorage, AccessTokenKey) ==> accessToken == None && effects == [Navigate(LoginPath)]
      ensures workspaces == [] && activeWorkspaceId == None && prompts == [] && selectedPrompt == None
      ensures !saving && error == None && form == BlankForm
    {
      storage := initialStorage;
      workspaces, activeWorkspaceId, prompts, selectedPrompt := [], None, [], None;
      saving, error, form := false, None, BlankForm;
      if StoredTruthy(initialStorage, AccessTokenKey) {
        accessToken, effects := Some(initialStorage[AccessTokenKey]), [];
      } else {
        accessToken, effects := None, [Navigate(LoginPath)];
      }
    }

    /** `clearForm`. */
    method ClearForm()
      modifies this`form
      ensures form == BlankForm
    {
      form := BlankForm;
    }

    /** `selectPrompt`: the form shows the selected prompt. */
    method SelectPrompt(p: Prompt)
      modifies this`selectedPrompt, this`form
      ensures selectedPrompt == Some(p) && form == FormOf(p)
    {
      selectedPrompt := Some(p);
      form := FormOf(p);
    }

    /** `handleNewPrompt`: no selection and a blank form, so the next save creates. */
    method HandleNewPrompt()
      modifies this`selectedPrompt, this`form
      ensures selectedPrompt == None && form == BlankForm
    {
      selectedPrompt := None;
      ClearForm();
    }

    /**
     * The workspaces effect: the first workspace always becomes the active
     * one; an "Unauthorized" failure goes to /login without touching the
     * stored tokens.
     */
    method LoadWorkspaces(fetched: FetchResult<seq<PostsLogic.Workspace>>)
      modifies this`effects, this`workspaces, this`activeWorkspaceId, this`error
      ensures !TokenTruthy(accessToken) ==>
                effects == old(effects) && workspaces == old(workspaces) && activeWorkspaceId == old(activeWorkspaceId) && error == old(error)
      ensures TokenTruthy(accessToken) ==>
                var r := Call(GetWorkspaces, fetched);
                var sent := old(effects) + [Request(GetWorkspaces, accessToken.value, None)];
                && (r.Success? ==>
                      && workspaces == r.value.v && error == None && effects == sent
                      && activeWorkspaceId == if workspaces == [] then old(activeWorkspaceId) else Some(workspaces[0].id))
                && (r.Failure? ==>
                      && workspaces == old(workspaces) && activeWorkspaceId == old(activeWorkspaceId) && error == Some(r.error)
                      && effects == sent + [ConsoleError(ErrorString(fetched, r.error))]
                                         + (if r.error == Unauthorized then [Navigate(LoginPath)] else []))
    {
      if !TokenTruthy(accessToken) {
        return;
      }
      error := None;
      effects := effects + [Request(GetWorkspaces, accessToken.value, None)];
      var r := Call(GetWorkspaces, fetched);
      if r.Failure? {
        effects := effects + [ConsoleError(ErrorString(fetched, r.error))];
        error := Some(r.error);
        if r.error == Unauthorized {
          effects := effects + [Navigate(LoginPath)];
        }
        return;
      }
      workspaces := r.value.v;
      if workspaces != [] {
        activeWorkspaceId := Some(workspaces[0].id);
      }
    }

    /**
     * The prompts effect for the active workspace: the first prompt is
     * selected into the form, or, with no prompts, the form is cleared and
     * nothing is selected.
     */
    method LoadPrompts(fetched: FetchResult<seq<Prompt>>)
      modifies this`effects, this`prompts, this`selectedPrompt, this`form, this`error
      ensures !TokenTruthy(accessToken) || !Truthy(activeWorkspaceId) ==>
                effects == old(effects) && prompts == old(prompts) && selectedPrompt == old(selectedPrompt)
                && form == old(form) && error == old(error)
      ensures TokenTruthy(accessToken) && Truthy(activeWorkspaceId) ==>
                var r := Call(GetPrompts, fetched);
                var sent := old(effects) + [Request(GetPrompts, accessToken.value, activeWorkspaceId)];
                && (r.Success? ==>
                      && prompts == r.value.v && error == None && effects == sent
                      && (prompts != [] ==> selectedPrompt == Some(prompts[0]) && form == FormOf(prompts[0]))
                      && (prompts == [] ==> selectedPrompt == None && form == BlankForm))
                && (r.Failure? ==>
                      && prompts == old(prompts) && selectedPrompt == old(selectedPrompt) && form == old(form)
                      && error == Some(r.error) && effects == sent + [ConsoleError(ErrorString(fetched, r.error))])
    {
      if !TokenTruthy(accessToken) || !Truthy(activeWorkspaceId) {
        return;
      }
      error := None;
      effects := effects + [Request(GetPrompts, accessToken.value, activeWorkspaceId)];
      var r := Call(GetPrompts, fetched);
      if r.Failure? {
        effects := effects + [ConsoleError(ErrorString(fetched, r.error))];
        error := Some(r.error);
        return;
      }
      prompts := r.value.v;
      if prompts != [] {
        SelectPrompt(prompts[0]);
      } else {
        ClearForm();
        selectedPrompt := None;
      }
    }

    /** Send the update or the create for the current form. */
    method SendSave(token: string, workspace: int, saved: FetchResult<Prompt>) returns (r: Result<Prompt, string>)
      modifies this`effects
      ensures effects == old(effects) + [SaveRequest(token, workspace, selectedPrompt, form)]
      ensures r == SaveResult(selectedPrompt.Some?, saved)
    {
      effects := effects + [SaveRequest(token, workspace, selectedPrompt, form)];
      var c := Call(if selectedPrompt.Some? then UpdatePrompt else CreatePrompt, saved);
      if c.Failure? {
        return Failure(c.error);
      }
      r := Success(c.value.v);
    }

    /**
     * The body of `handleSave`'s `try` after the checks: save, reload the
     * workspace's prompts and select the saved prompt's reloaded copy (or
     * the saved prompt itself when the list lacks its id). Whatever fails
     * is logged and shown, and leaves list, selection and form alone.
     */
    method SaveAndReload(token: string, workspace: int, saved: FetchResult<Prompt>, reloaded: FetchResult<seq<Prompt>>)
      modifies this`effects, this`prompts, this`selectedPrompt, this`form, this`error
      ensures var s := SaveResult(old(selectedPrompt).Some?, saved);
              var l := Call(GetPrompts, reloaded);
              var request := SaveRequest(token, workspace, old(selectedPrompt), old(form));
              && (s.Failure? ==>
                    && error == Some(s.error) && prompts == old(prompts) && selectedPrompt == old(selectedPrompt) && form == old(form)
                    && effects == old(effects) + [request, ConsoleError(SaveErrorLabel + " " + ErrorString(saved, s.error))])
              && (s.Success? && l.Failure? ==>
                    && error == Some(l.error) && prompts == old(prompts) && selectedPrompt == old(selectedPrompt) && form == old(form)
                    && effects == old(effects) + [request, Request(GetPrompts, token, Some(workspace)),
                                                  ConsoleError(SaveErrorLabel + " " + ErrorString(reloaded, l.error))])
              && (s.Success? && l.Success? ==>
                    && error == old(error) && prompts == l.value.v
                    && selectedPrompt == Some(Reselected(prompts, s.value)) && form == FormOf(selectedPrompt.value)
                    && selectedPrompt.value.id == s.value.id
                    && effects == old(effects) + [request, Request(GetPrompts, token, Some(workspace))])
    {
      var s := SendSave(token, workspace, saved);
      if s.Failure? {
        effects := effects + [ConsoleError(SaveErrorLabel + " " + ErrorString(saved, s.error))];
        error := Some(s.error);
        return;
      }
      Reload(token, workspace, s.value, reloaded);
    }

    /** After a save: reload the workspace's prompts and select the saved prompt's copy. */
    method Reload(token: string, workspace: int, savedPrompt: Prompt, reloaded: FetchResult<seq<Prompt>>)
      modifies this`effects, this`prompts, this`selectedPrompt, this`form, this`error
      ensures var l := Call(GetPrompts, reloaded);
              && (l.Failure? ==>
                    && error == Some(l.error) && prompts == old(prompts) && selectedPrompt == old(selectedPrompt) && form == old(form)
                    && effects == old(effects) + [Request(GetPrompts, token, Some(workspace)),
                                                  ConsoleError(SaveErrorLabel + " " + ErrorString(reloaded, l.error))])
              && (l.Success? ==>
                    && error == old(error) && prompts == l.value.v
                    && selectedPrompt == Some(Reselected(prompts, savedPrompt)) && form == FormOf(selectedPrompt.value)
                    && effects == old(effects) + [Request(GetPrompts, token, Some(workspace))])
    {
      effects := effects + [Request(GetPrompts, token, Some(workspace))];
      var l := Call(GetPrompts, reloaded);
      if l.Failure? {
        effects := effects + [ConsoleError(SaveErrorLabel + " " + ErrorString(reloaded, l.error))];
        error := Some(l.error);
        return;
      }
      prompts := l.value.v;
      SelectPrompt(Reselected(prompts, savedPrompt));
    }

    /**
     * `handleSave`: refuse without a token and a truthy workspace, then
     * without a non-blank name and text; otherwise clear the error, save
     * and reload with `saving` raised, and lower it again.
     */
    method HandleSave(saved: FetchResult<Prompt>, reloaded: FetchResult<seq<Prompt>>)
      modifies this`effects, this`prompts, this`selectedPrompt, this`form, this`saving, this`error
      ensures !TokenTruthy(accessToken) || !Truthy(activeWorkspaceId) ==>
                && error == Some(NoTokenOrWorkspace) && effects == old(effects) && prompts == old(prompts)
                && selectedPrompt == old(selectedPrompt) && form == old(form) && saving == old(saving)
      ensures TokenTruthy(accessToken) && Truthy(activeWorkspaceId) && (IsBlank(old(form).name) || IsBlank(old(form).content)) ==>
                && error == Some(NameAndContentRequired) && effects == old(effects) && prompts == old(prompts)
                && selectedPrompt == old(selectedPrompt) && form == old(form) && saving == old(saving)
      ensures TokenTruthy(accessToken) && Truthy(activeWorkspaceId) && !IsBlank(old(form).name) && !IsBlank(old(form).content) ==>
                var s := SaveResult(old(selectedPrompt).Some?, saved);
                var l := Call(GetPrompts, reloaded);
                var request := SaveRequest(accessToken.value, activeWorkspaceId.value, old(selectedPrompt), old(form));
                && !saving
                && (s.Failure? ==>
                      && error == Some(s.error) && prompts == old(prompts) && selectedPrompt == old(selectedPrompt) && form == old(form)
                      && effects == old(effects) + [request, ConsoleError(SaveErrorLabel + " " + ErrorString(saved, s.error))])
                && (s.Success? && l.Failure? ==>
                      && error == Some(l.error) && prompts == old(prompts) && selectedPrompt == old(selectedPrompt) && form == old(form)
                      && effects == old(effects) + [request, Request(GetPrompts, accessToken.value, activeWorkspaceId),
                                                    ConsoleError(SaveErrorLabel + " " + ErrorString(reloaded, l.error))])
                && (s.Success? && l.Success? ==>
                      && error == None && prompts == l.value.v
                      && selectedPrompt == Some(Reselected(prompts, s.value)) && form == FormOf(selectedPrompt.value)
                      && selectedPrompt.value.id == s.value.id
                      && effects == old(effects) + [request, Request(GetPrompts, accessToken.value, activeWorkspaceId)])
    {
      if !TokenTruthy(accessToken) || !Truthy(activeWorkspaceId) {
        error := Some(NoTokenOrWorkspace);
        return;
      }
      if IsBlank(form.name) || IsBlank(form.content) {
        error := Some(NameAndContentRequired);
        return;
      }
      saving := true;
      error := None;
      SaveAndReload(accessToken.value, activeWorkspaceId.value, saved, reloaded);
      saving := false;
    }

    /** `handleLogout`: both tokens go and the page goes to /login. */
    method HandleLogout()
      modifies this`storage, this`effects
      ensures storage == old(storage) - {AccessTokenKey, RefreshTokenKey}
      ensures effects == old(effects) + [Navigate(LoginPath)]
    {
      storage := storage - {AccessTokenKey, RefreshTokenKey};
      effects := effects + [Navigate(LoginPath)];
    }
  }
}
