/**
 * The competitors page: the accounts list of the selected workspace, and the
 * handlers that prepend a created account, replace a toggled one by id and
 * remove a deleted one by id. Every handler failure only raises an alert.
 */
module Competitors {
  import opened Wrappers
  import opened Lists
  import opened Api
  import opened Browser
  import PostsLogic

  datatype Account = Account(id: int, workspace: int, platform: string, username: string, url: string,
                             isActive: bool, notes: string)

  /** The add-account form (`CreateCompetitorAccount`). */
  datatype AccountForm = AccountForm(workspace: int, platform: string, username: string, url: string,
                                     isActive: bool, notes: string)

  /** The form's initial and reset value, for the given workspace. */
  function BlankForm(workspace: int): AccountForm {
    AccountForm(workspace, "instagram", "", "", true, "")
  }

  /** `JSON.stringify(formData)`. */
  function FormBody(f: AccountForm): Body {
    map["workspace" := Num(f.workspace), "platform" := Str(f.platform), "username" := Str(f.username),
        "url" := Str(f.url), "is_active" := Bool(f.isActive), "notes" := Str(f.notes)]
  }

  /** The reply of both scrape endpoints: a message and the background task's id. */
  datatype ScrapeStarted = ScrapeStarted(message: string, taskId: string)

  const ErrorPrefix: string := "Ошибка: "
  const StartedMark: string := "✅ "
  const RunsInBackground: string := "\nПарсинг запущен в фоне"
  const LoadErrorLabel: string := "Error loading data:"

  /**
   * `filteredAccounts`: with a truthy selected workspace, the accounts of
   * that workspace in their order; otherwise every account.
   */
  function FilteredAccounts(accounts: seq<Account>, selected: Option<int>): (r: seq<Account>)
    ensures !Truthy(selected) ==> r == accounts
    ensures Truthy(selected) ==> IsSubsequence(r, accounts)
    ensures Truthy(selected) ==> forall a :: a in r ==> a.workspace == selected.value
    ensures Truthy(selected) ==> forall a: Account :: a.workspace == selected.value ==> multiset(r)[a] == multiset(accounts)[a]
  {
    if Truthy(selected) then Keep(accounts, (a: Account) => a.workspace == selected.value) else accounts
  }

  /** Workspace 0 is falsy, so selecting it shows every account. */
  lemma WorkspaceZeroShowsAll(accounts: seq<Account>)
    ensures FilteredAccounts(accounts, Some(0)) == accounts
  {
  }

  /** `accounts.map(a => a.id === id ? updated : a)`. */
  function ReplaceById(accounts: seq<Account>, id: int, updated: Account): (r: seq<Account>)
    ensures |r| == |accounts|
    ensures forall i :: 0 <= i < |r| ==> r[i] == if accounts[i].id == id then updated else accounts[i]
  {
    ReplaceWhere(accounts, (a: Account) => a.id == id, updated)
  }

  /** `accounts.filter(a => a.id !== id)`. */
  function RemoveById(accounts: seq<Account>, id: int): (r: seq<Account>)
    ensures IsSubsequence(r, accounts)
    ensures forall a :: a in r ==> a.id != id
    ensures forall a: Account :: a.id != id ==> multiset(r)[a] == multiset(accounts)[a]
  {
    Keep(accounts, (a: Account) => a.id != id)
  }

  /** Removing an id that no account has leaves the list as it is. */
  lemma RemoveAbsentId(accounts: seq<Account>, id: int)
    requires forall i :: 0 <= i < |accounts| ==> accounts[i].id != id
    ensures RemoveById(accounts, id) == accounts
  {
    KeepAll(accounts, (a: Account) => a.id != id);
  }

  /** Replacing by an id whose account the server returned with that same id keeps the ids of the list. */
  lemma ReplaceKeepsIds(accounts: seq<Account>, id: int, updated: Account)
    requires updated.id == id
    ensures forall i :: 0 <= i < |accounts| ==> ReplaceById(accounts, id, updated)[i].id == accounts[i].id
  {
  }

  /**
   * How `Promise.all` of the two loads rejects: the rejection message and
   * the text `console.error` shows for it, or None when both succeed.
   * `Promise.all` settles with whichever rejection happens first in time,
   * so when both calls fail the environment decides: `workspacesFirst`
   * says whether the workspaces request rejected before the accounts one.
   */
  function LoadFailure(fetchedWorkspaces: FetchResult<seq<PostsLogic.Workspace>>, fetchedAccounts: FetchResult<seq<Account>>,
                       workspacesFirst: bool): (r: Option<(string, string)>)
    ensures r.None? <==> Call(GetWorkspaces, fetchedWorkspaces).Success? && Call(GetCompetitorAccounts, fetchedAccounts).Success?
    ensures Call(GetWorkspaces, fetchedWorkspaces).Failure? && (workspacesFirst || Call(GetCompetitorAccounts, fetchedAccounts).Success?) ==>
              r == Some((Call(GetWorkspaces, fetchedWorkspaces).error, ErrorString(fetchedWorkspaces, Call(GetWorkspaces, fetchedWorkspaces).error)))
    ensures Call(GetCompetitorAccounts, fetchedAccounts).Failure? && (!workspacesFirst || Call(GetWorkspaces, fetchedWorkspaces).Success?) ==>
              r == Some((Call(GetCompetitorAccounts, fetchedAccounts).error,
                         ErrorString(fetchedAccounts, Call(GetCompetitorAccounts, fetchedAccounts).error)))
  {
    var ws := Call(GetWorkspaces, fetchedWorkspaces);
    var accs := Call(GetCompetitorAccounts, fetchedAccounts);
    if ws.Failure? && (workspacesFirst || accs.Success?) then Some((ws.error, ErrorString(fetchedWorkspaces, ws.error)))
    else if accs.Failure? then Some((accs.error, ErrorString(fetchedAccounts, accs.error)))
    else None
  }

  class CompetitorsPage {
    var storage: map<string, string>
    var effects: seq<Effect>
    var accessToken: Option<string>
    var workspaces: seq<PostsLogic.Workspace>
    var selectedWorkspaceId: Option<int>
    var accounts: seq<Account>
    var loading: bool
    var error: Option<string>
    var showForm: bool
    var formData: AccountForm

    function Filtered(): seq<Account>
      reads this`accounts, this`selectedWorkspaceId
    {
      FilteredAccounts(accounts, selectedWorkspaceId)
    }

    /** Mounting: read the access token or go to /login. */
    constructor(initialStorage: map<string, string>)
      ensures storage == initialStorage
      ensures StoredTruthy(initialStorage, AccessTokenKey) ==> accessToken == Some(initialStorage[AccessTokenKey]) && effects == []
      ensures !StoredTruthy(initialStorage, AccessTokenKey) ==> accessToken == None && effects == [Navigate(LoginPath)]
      ensures workspaces == [] && selectedWorkspaceId == None && accounts == [] && loading && error == None
      ensures !showForm && formData == BlankForm(0)
    {
      storage := initialStorage;
      workspaces, selectedWorkspaceId, accounts, loading, error := [], None, [], true, None;
      showForm, formData := false, BlankForm(0);
      if StoredTruthy(initialStorage, AccessTokenKey) {
        accessToken, effects := Some(initialStorage[AccessTokenKey]), [];
      } else {
        accessToken, effects := None, [Navigate(LoginPath)];
      }
    }

    /**
     * The load effect: workspaces and accounts together. When both arrive,
     * the first workspace becomes the default only if none is selected; an
     * "Unauthorized" failure removes only the access token and goes to
     * /login; any other failure is shown. When both calls fail, the
     * rejection that came first (`workspacesFirst`) is the one taken.
     * Without an access token the effect does nothing.
     */
    method Load(fetchedWorkspaces: FetchResult<seq<PostsLogic.Workspace>>, fetchedAccounts: FetchResult<seq<Account>>,
                workspacesFirst: bool)
      modifies this`storage, this`effects, this`workspaces, this`selectedWorkspaceId, this`accounts,
               this`loading, this`error, this`formData
      ensures !TokenTruthy(accessToken) ==>
                && storage == old(storage) && effects == old(effects) && workspaces == old(workspaces)
                && selectedWorkspaceId == old(selectedWorkspaceId) && accounts == old(accounts)
                && loading == old(loading) && error == old(error) && formData == old(formData)
      ensures TokenTruthy(accessToken) ==>
              var sent := old(effects) + [Request(GetWorkspaces, accessToken.value, None),
                                          Request(GetCompetitorAccounts, accessToken.value, None)];
              var failure := LoadFailure(fetchedWorkspaces, fetchedAccounts, workspacesFirst);
              && (failure.None? ==>
                    var fetched := Call(GetWorkspaces, fetchedWorkspaces).value.v;
                    && workspaces == fetched && accounts == Call(GetCompetitorAccounts, fetchedAccounts).value.v
                    && !loading && error == old(error) && storage == old(storage) && effects == sent
                    && (fetched != [] && !Truthy(old(selectedWorkspaceId)) ==>
                          selectedWorkspaceId == Some(fetched[0].id) && formData == old(formData).(workspace := fetched[0].id))
                    && (fetched == [] || Truthy(old(selectedWorkspaceId)) ==>
                          selectedWorkspaceId == old(selectedWorkspaceId) && formData == old(formData)))
              && (failure.Some? ==>
                    var (message, thrown) := failure.value;
                    && workspaces == old(workspaces) && accounts == old(accounts)
                    && selectedWorkspaceId == old(selectedWorkspaceId) && formData == old(formData)
                    && (message == Unauthorized ==>
                          && storage == old(storage) - {AccessTokenKey} && loading == old(loading) && error == old(error)
                          && effects == sent + [ConsoleError(LoadErrorLabel + " " + thrown), Navigate(LoginPath)])
                    && (message != Unauthorized ==>
                          && storage == old(storage) && !loading && error == Some(message)
                          && effects == sent + [ConsoleError(LoadErrorLabel + " " + thrown)]))
    {
      if !TokenTruthy(accessToken) {
        return;
      }
      var token := accessToken.value;
      effects := effects + [Request(GetWorkspaces, token, None), Request(GetCompetitorAccounts, token, None)];
      var failure := LoadFailure(fetchedWorkspaces, fetchedAccounts, workspacesFirst);
      if failure.Some? {
        var (message, thrown) := failure.value;
        effects := effects + [ConsoleError(LoadErrorLabel + " " + thrown)];
        if message == Unauthorized {
          storage := storage - {AccessTokenKey};
          effects := effects + [Navigate(LoginPath)];
        } else {
          error := Some(message);
          loading := false;
        }
        return;
      }
      workspaces := Call(GetWorkspaces, fetchedWorkspaces).value.v;
      accounts := Call(GetCompetitorAccounts, fetchedAccounts).value.v;
      if workspaces != [] && !Truthy(selectedWorkspaceId) {
        selectedWorkspaceId := Some(workspaces[0].id);
        formData := formData.(workspace := workspaces[0].id);
      }
      loading := false;
    }

    /** `handleWorkspaceChange`: the selection and the form's workspace move together. */
    method HandleWorkspaceChange(workspaceId: int)
      modifies this`selectedWorkspaceId, this`formData
      ensures selectedWorkspaceId == Some(workspaceId)
      ensures formData == old(formData).(workspace := workspaceId)
    {
      selectedWorkspaceId := Some(workspaceId);
      formData := formData.(workspace := workspaceId);
    }

    /**
     * `handleCreate`: send the form; the new account goes to the front, the
     * form closes and resets to the selected workspace (or 0). A failure
     * only raises an alert.
     */
    method HandleCreate(created: FetchResult<Account>)
      modifies this`effects, this`accounts, this`showForm, this`formData
      ensures !TokenTruthy(accessToken) ==>
                effects == old(effects) && accounts == old(accounts) && showForm == old(showForm) && formData == old(formData)
      ensures TokenTruthy(accessToken) ==>
                var r := Call(CreateCompetitorAccount, created);
                var sent := old(effects) + [Send(CreateCompetitorAccount, accessToken.value, None, FormBody(old(formData)))];
                && (r.Success? ==>
                      && accounts == [r.value.v] + old(accounts) && effects == sent && !showForm
                      && formData == BlankForm(if Truthy(selectedWorkspaceId) then selectedWorkspaceId.value else 0))
                && (r.Failure? ==>
                      && accounts == old(accounts) && showForm == old(showForm) && formData == old(formData)
                      && effects == sent + [Alert(ErrorPrefix + ErrorString(created, r.error))])
    {
      if !TokenTruthy(accessToken) {
        return;
      }
      effects := effects + [Send(CreateCompetitorAccount, accessToken.value, None, FormBody(formData))];
      var r := Call(CreateCompetitorAccount, created);
      if r.Failure? {
        effects := effects + [Alert(ErrorPrefix + ErrorString(created, r.error))];
        return;
      }
      accounts := [r.value.v] + accounts;
      showForm := false;
      formData := BlankForm(if Truthy(selectedWorkspaceId) then selectedWorkspaceId.value else 0);
    }

    /**
     * `handleToggleActive`: send the negated flag; on success every account
     * with that id is replaced by the server's account.
     */
    method HandleToggleActive(account: Account, updated: FetchResult<Account>)
      modifies this`effects, this`accounts
      ensures !TokenTruthy(accessToken) ==> effects == old(effects) && accounts == old(accounts)
      ensures TokenTruthy(accessToken) ==>
                var r := Call(UpdateCompetitorAccount, updated);
                var sent := old(effects) + [Send(UpdateCompetitorAccount, accessToken.value, Some(account.id),
                                                 map["is_active" := Bool(!account.isActive)])];
                && (r.Success? ==> accounts == ReplaceById(old(accounts), account.id, r.value.v) && effects == sent)
                && (r.Failure? ==> accounts == old(accounts) && effects == sent + [Alert(ErrorPrefix + ErrorString(updated, r.error))])
    {
      if !TokenTruthy(accessToken) {
        return;
      }
      effects := effects + [Send(UpdateCompetitorAccount, accessToken.value, Some(account.id), map["is_active" := Bool(!account.isActive)])];
      var r := Call(UpdateCompetitorAccount, updated);
      if r.Failure? {
        effects := effects + [Alert(ErrorPrefix + ErrorString(updated, r.error))];
        return;
      }
      accounts := ReplaceById(accounts, account.id, r.value.v);
    }

    /** `handleDelete`: after confirmation delete the account, then drop every account with that id. */
    method HandleDelete(id: int, confirmed: bool, deleted: FetchResult<()>)
      modifies this`effects, this`accounts
      ensures !TokenTruthy(accessToken) || !confirmed ==> effects == old(effects) && accounts == old(accounts)
      ensures TokenTruthy(accessToken) && confirmed ==>
                var r := Call(DeleteCompetitorAccount, deleted);
                var sent := old(effects) + [Request(DeleteCompetitorAccount, accessToken.value, Some(id))];
                && (r.Success? ==> accounts == RemoveById(old(accounts), id) && effects == sent)
                && (r.Failure? ==> accounts == old(accounts) && effects == sent + [Alert(ErrorPrefix + ErrorString(deleted, r.error))])
    {
      if !TokenTruthy(accessToken) || !confirmed {
        return;
      }
      effects := effects + [Request(DeleteCompetitorAccount, accessToken.value, Some(id))];
      var r := Call(DeleteCompetitorAccount, deleted);
      if r.Failure? {
        effects := effects + [Alert(ErrorPrefix + ErrorString(deleted, r.error))];
        return;
      }
      accounts := RemoveById(accounts, id);
    }

    /** `handleScrape`: start scraping one account; the outcome is only an alert. */
    method HandleScrape(id: int, fetched: FetchResult<ScrapeStarted>)
      modifies this`effects
      ensures !TokenTruthy(accessToken) ==> effects == old(effects)
      ensures TokenTruthy(accessToken) ==>
                var r := Call(ScrapeCompetitorAccount, fetched);
                var sent := old(effects) + [Request(ScrapeCompetitorAccount, accessToken.value, Some(id))];
                && (r.Success? ==> effects == sent + [Alert(StartedMark + fetched.json.message + RunsInBackground)])
                && (r.Failure? ==> effects == sent + [Alert(ErrorPrefix + ErrorString(fetched, r.error))])
    {
      if !TokenTruthy(accessToken) {
        return;
      }
      effects := effects + [Request(ScrapeCompetitorAccount, accessToken.value, Some(id))];
      var r := Call(ScrapeCompetitorAccount, fetched);
      if r.Failure? {
        effects := effects + [Alert(ErrorPrefix + ErrorString(fetched, r.error))];
      } else {
        effects := effects + [Alert(StartedMark + r.value.v.message + RunsInBackground)];
      }
    }

    /** `handleScrapeAll`: after confirmation start scraping every active account; the outcome is only an alert. */
    method HandleScrapeAll(confirmed: bool, fetched: FetchResult<ScrapeStarted>)
      modifies this`effects
      ensures !TokenTruthy(accessToken) || !confirmed ==> effects == old(effects)
      ensures TokenTruthy(accessToken) && confirmed ==>
                var r := Call(ScrapeAllCompetitors, fetched);
                var sent := old(effects) + [Request(ScrapeAllCompetitors, accessToken.value, None)];
                && (r.Success? ==> effects == sent + [Alert(StartedMark + fetched.json.message + RunsInBackground)])
                && (r.Failure? ==> effects == sent + [Alert(ErrorPrefix + ErrorString(fetched, r.error))])
    {
      if !TokenTruthy(accessToken) || !confirmed {
        return;
      }
      effects := effects + [Request(ScrapeAllCompetitors, accessToken.value, None)];
      var r := Call(ScrapeAllCompetitors, fetched);
      if r.Failure? {
        effects := effects + [Alert(ErrorPrefix + ErrorString(fetched, r.error))];
      } else {
        effects := effects + [Alert(StartedMark + r.value.v.message + RunsInBackground)];
      }
    }
  }
}
