/**
 * The pure list logic of the posts page: the status/platform/search filter,
 * the "in_progress" test that drives polling, the "new" posts, the id
 * selection kept as an insertion-ordered `Set`, the select-all toggle, the
 * column toggle, and the re-sync of the selected post after a poll.
 */
module PostsLogic {
  import opened Wrappers
  import opened Text
  import opened Lists
  import opened Browser
  import Api

  /** The fields of a post that the page's logic reads. */
  datatype Post = Post(id: int, title: string, platform: string, status: string, originalText: string)

  datatype Workspace = Workspace(id: int, name: string)

  /** The filter bar: status and platform ("all" passes everything) and the search text. */
  datatype Filters = Filters(status: string, platform: string, query: string)

  const All: string := "all"
  const InProgress: string := "in_progress"
  const New: string := "new"

  /** Case-insensitive search over title or original text; an empty query matches everything. */
  predicate MatchesSearch(p: Post, query: string) {
    query == []
    || Contains(Lower(p.title), Lower(query))
    || Contains(Lower(p.originalText), Lower(query))
  }

  /** Searching ignores the letter case of the query. */
  lemma SearchIgnoresQueryCase(p: Post, query: string)
    ensures MatchesSearch(p, Lower(query)) == MatchesSearch(p, query)
  {
    LowerIdempotent(query);
  }

  predicate Passes(p: Post, f: Filters) {
    && (f.status == All || p.status == f.status)
    && (f.platform == All || p.platform == f.platform)
    && MatchesSearch(p, f.query)
  }

  /** `filteredPosts`: the posts that pass the three checks, in their order. */
  function FilteredPosts(posts: seq<Post>, f: Filters): (r: seq<Post>)
    ensures IsSubsequence(r, posts)
    ensures forall p :: p in r ==> Passes(p, f)
    ensures forall p :: Passes(p, f) ==> multiset(r)[p] == multiset(posts)[p]
    ensures forall p :: p in posts && Passes(p, f) ==> p in r
  {
    var r := Keep(posts, p => Passes(p, f));
    assert forall p :: p in posts && Passes(p, f) ==> multiset(r)[p] > 0;
    r
  }

  /** With "all", "all" and an empty query, the filtered list is the list itself. */
  lemma FilterAllKeepsEverything(posts: seq<Post>)
    ensures FilteredPosts(posts, Filters(All, All, "")) == posts
  {
    KeepAll(posts, p => Passes(p, Filters(All, All, "")));
  }

  /** `posts.some(p => p.status === "in_progress")`. */
  predicate HasProcessing(posts: seq<Post>) {
    exists i :: 0 <= i < |posts| && posts[i].status == InProgress
  }

  /** `posts.filter(p => p.status === "new")`; its length is the header's count. */
  function NewPosts(posts: seq<Post>): (r: seq<Post>)
    ensures IsSubsequence(r, posts)
    ensures forall p :: p in r ==> p.status == New
    ensures forall p: Post :: p.status == New ==> multiset(r)[p] == multiset(posts)[p]
  {
    Keep(posts, (p: Post) => p.status == New)
  }

  function Ids(posts: seq<Post>): (r: seq<int>)
    ensures |r| == |posts| && forall i :: 0 <= i < |posts| ==> r[i] == posts[i].id
  {
    seq(|posts|, i requires 0 <= i < |posts| => posts[i].id)
  }

  /** `data.find(p => p.id === id)`. */
  function FindById(data: seq<Post>, id: int): (r: Option<Post>)
    ensures r.None? <==> forall i :: 0 <= i < |data| ==> data[i].id != id
    ensures r.Some? ==> exists i :: 0 <= i < |data| && data[i] == r.value && r.value.id == id
                                  && forall j :: 0 <= j < i ==> data[j].id != id
  {
    Find(data, (p: Post) => p.id == id)
  }

  /**
   * After a poll: the selected post is replaced by the fetched post with its
   * id only when that post's status differs; otherwise, and also when the id
   * is gone from the list, the selection stays as it was.
   */
  function SyncSelected(selected: Option<Post>, data: seq<Post>): (r: Option<Post>)
    ensures selected.None? ==> r.None?
    ensures r != selected ==>
              selected.Some? && r.Some? && r.value.id == selected.value.id
              && r.value.status != selected.value.status && r == FindById(data, selected.value.id)
    ensures selected.Some? && (forall i :: 0 <= i < |data| ==> data[i].id != selected.value.id) ==> r == selected
    ensures selected.Some? && FindById(data, selected.value.id).Some?
            && FindById(data, selected.value.id).value.status != selected.value.status
            ==> r == FindById(data, selected.value.id)
  {
    if selected.None? then None
    else
      var updated := FindById(data, selected.value.id);
      if updated.Some? && updated.value.status != selected.value.status then updated else selected
  }

  /** `togglePostSelection`: delete the id if present, otherwise add it at the end. */
  function ToggleSelection(selected: seq<int>, id: int): (r: seq<int>)
    requires NoDuplicates(selected)
    ensures NoDuplicates(r)
    ensures forall x :: x in r <==> (if x == id then id !in selected else x in selected)
  {
    if id in selected then
      NoDuplicatesKeep(selected, x => x != id);
      Keep(selected, x => x != id)
    else
      selected + [id]
  }

  /** Toggling an absent id twice gives back the very same selection, order included. */
  lemma ToggleAbsentTwice(selected: seq<int>, id: int)
    requires NoDuplicates(selected) && id !in selected
    ensures ToggleSelection(ToggleSelection(selected, id), id) == selected
  {
    KeepAppend(selected, [id], x => x != id);
    KeepAll(selected, x => x != id);
  }

  /** Toggling any id twice restores the set of selected ids. */
  lemma ToggleTwiceSameMembers(selected: seq<int>, id: int)
    requires NoDuplicates(selected)
    ensures forall x :: x in ToggleSelection(ToggleSelection(selected, id), id) <==> x in selected
  {
  }

  /**
   * `toggleSelectAll`: clear when the selection's size equals the filtered
   * list's length, otherwise select exactly the filtered ids.
   */
  function SelectAll(selected: seq<int>, filtered: seq<Post>): (r: seq<int>)
    ensures NoDuplicates(r)
    ensures |selected| == |filtered| ==> r == []
    ensures |selected| != |filtered| ==> forall x :: x in r <==> exists i :: 0 <= i < |filtered| && filtered[i].id == x
  {
    if |selected| == |filtered| then []
    else
      var r := Dedup(Ids(filtered));
      assert forall x :: x in Ids(filtered) <==> exists i :: 0 <= i < |filtered| && filtered[i].id == x by {
        forall x ensures x in Ids(filtered) ==> exists i :: 0 <= i < |filtered| && filtered[i].id == x {
          if x in Ids(filtered) {
            var i :| 0 <= i < |Ids(filtered)| && Ids(filtered)[i] == x;
            assert filtered[i].id == x;
          }
        }
      }
      r
  }

  /**
   * The size test compares counts only: a selection of one post hidden by the
   * filters, against a filtered list of one other post, is cleared rather
   * than replaced.
   */
  lemma SelectAllComparesSizesOnly(hidden: int, shown: Post)
    requires hidden != shown.id
    ensures SelectAll([hidden], [shown]) == []
  {
  }

  /** `toggleColumn`: flip one column; a column never set before becomes visible. */
  function ToggleColumn(columns: map<string, bool>, column: string): (r: map<string, bool>)
    ensures r.Keys == columns.Keys + {column}
    ensures r[column] == !(column in columns && columns[column])
    ensures forall c :: c in columns && c != column ==> r[c] == columns[c]
  {
    columns[column := !(column in columns && columns[column])]
  }

  lemma ToggleColumnTwice(columns: map<string, bool>, column: string)
    requires column in columns
    ensures ToggleColumn(ToggleColumn(columns, column), column) == columns
  {
  }

  /** The polling effect arms its interval exactly when this holds. */
  predicate ShouldPoll(accessToken: Option<string>, workspaceId: Option<int>, posts: seq<Post>) {
    TokenTruthy(accessToken) && Api.Truthy(workspaceId) && HasProcessing(posts)
  }

  /**
   * With a token and a workspace, one post in progress is enough to arm
   * the interval; when no post is in progress nothing is armed.
   */
  lemma PollingFollowsProcessing(accessToken: Option<string>, workspaceId: Option<int>, posts: seq<Post>, p: Post)
    ensures p in posts && p.status == InProgress && TokenTruthy(accessToken) && Api.Truthy(workspaceId) ==>
              ShouldPoll(accessToken, workspaceId, posts)
    ensures (forall q :: q in posts ==> q.status != InProgress) ==> !ShouldPoll(accessToken, workspaceId, posts)
  {
    if p in posts {
      var i :| 0 <= i < |posts| && posts[i] == p;
    }
  }

  function RequestsFor(w: Api.Wrapper, token: string, ids: seq<int>): (r: seq<Effect>)
    ensures |r| == |ids| && forall i :: 0 <= i < |ids| ==> r[i] == Request(w, token, Some(ids[i]))
  {
    seq(|ids|, i requires 0 <= i < |ids| => Request(w, token, Some(ids[i])))
  }

  /** The index of the first id whose call fails, or `|ids|` when every call succeeds. */
  function FirstFailure(w: Api.Wrapper, ids: seq<int>, respond: int -> Api.FetchResult<()>): (k: nat)
    ensures k <= |ids|
    ensures forall i :: 0 <= i < k ==> Api.Call(w, respond(ids[i])).Success?
    ensures k < |ids| ==> Api.Call(w, respond(ids[k])).Failure?
  {
    if ids == [] then 0
    else if Api.Call(w, respond(ids[0])).Failure? then 0
    else 1 + FirstFailure(w, ids[1..], respond)
  }

  /** The ids a sequential loop over `ids` sends before it stops: up to and including the first failure. */
  function SentBefore(w: Api.Wrapper, ids: seq<int>, respond: int -> Api.FetchResult<()>): (sent: seq<int>)
    ensures |sent| <= |ids| && sent == ids[..|sent|]
  {
    var k := FirstFailure(w, ids, respond);
    if k < |ids| then ids[..k + 1] else ids
  }

  /**
   * The sequential loop of the bulk handlers: send `w` for each id in order,
   * stopping at the first failure, whose message is returned.
   */
  method SendEach(w: Api.Wrapper, ids: seq<int>, respond: int -> Api.FetchResult<()>) returns (sent: seq<int>, failure: Option<string>)
    ensures sent == SentBefore(w, ids, respond)
    ensures failure.None? <==> FirstFailure(w, ids, respond) == |ids|
    ensures failure.Some? ==> failure.value == Api.Call(w, respond(ids[FirstFailure(w, ids, respond)])).error
  {
    sent, failure := [], None;
    var i := 0;
    while i < |ids|
      invariant 0 <= i <= |ids|
      invariant sent == ids[..i]
      invariant forall k :: 0 <= k < i ==> Api.Call(w, respond(ids[k])).Success?
      invariant FirstFailure(w, ids, respond) >= i
    {
      var r := Api.Call(w, respond(ids[i]));
      sent := sent + [ids[i]];
      if r.Failure? {
        FirstFailureIsFirst(w, ids, respond, i);
        failure := Some(r.error);
        return;
      }
      i := i + 1;
    }
  }

  /** When every call before `i` succeeds and the one at `i` fails, the first failure is at `i`. */
  lemma {:induction false} FirstFailureIsFirst(w: Api.Wrapper, ids: seq<int>, respond: int -> Api.FetchResult<()>, i: nat)
    requires i < |ids|
    requires forall k :: 0 <= k < i ==> Api.Call(w, respond(ids[k])).Success?
    requires Api.Call(w, respond(ids[i])).Failure?
    ensures FirstFailure(w, ids, respond) == i
  {
    if i > 0 {
      assert Api.Call(w, respond(ids[0])).Success?;
      FirstFailureIsFirst(w, ids[1..], respond, i - 1);
    }
  }
}
