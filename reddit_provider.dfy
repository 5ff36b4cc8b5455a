/** The state of `RedditProvider` and its transitions: the fetch decision,
    issuing a fetch, the two completion handlers, the two user actions and
    the derived read surface. */
module RedditContext {
  import opened Feeds

  /** The categories the provider is created with. */
  const KnownSubreddits: set<string> := {"frontend", "reactjs"}

  /** The feed map the provider is created with: every known category `{}`. */
  function InitialPosts<P>(): (m: FeedMap<P>)
    ensures m.Keys == KnownSubreddits
    ensures forall k :: k in m ==> m[k] == EmptyFeed()
  {
    map["frontend" := EmptyFeed(), "reactjs" := EmptyFeed()]
  }

  /** An issued request whose promise has not settled yet. Its handlers were
      created in the render that issued it, so they hold that render's
      selected category and feed map. */
  datatype PendingFetch<P> = PendingFetch(subreddit: string, snapshot: FeedMap<P>)

  /** Removes the settled request at index `k`; the others keep their order. */
  function Settle<P>(pending: seq<PendingFetch<P>>, k: nat): (r: seq<PendingFetch<P>>)
    requires k < |pending|
    ensures |r| == |pending| - 1
    ensures forall i :: 0 <= i < k ==> r[i] == pending[i]
    ensures forall i :: k <= i < |r| ==> r[i] == pending[i + 1]
  {
    pending[..k] + pending[k + 1..]
  }

  class RedditProvider<P> {
    var postsBySubreddit: FeedMap<P>
    var selectedSubreddit: string
    var shouldRefreshSubreddit: bool
    var isFetching: bool
    /** Requests issued and not yet settled, in issue order. */
    var pending: seq<PendingFetch<P>>

    /** Entries of the feed map are replaced, never added or removed; every
        outstanding request was issued for a known category and holds a map
        with the known keys; `isFetching` is only set while a request is
        outstanding. */
    ghost predicate Valid()
      reads this
    {
      && postsBySubreddit.Keys == KnownSubreddits
      && (forall i :: 0 <= i < |pending| ==>
            pending[i].subreddit in KnownSubreddits && pending[i].snapshot.Keys == KnownSubreddits)
      && (isFetching ==> pending != [])
    }

    constructor ()
      ensures Valid()
      ensures postsBySubreddit == InitialPosts() && selectedSubreddit == "reactjs"
      ensures !shouldRefreshSubreddit && !isFetching && pending == []
    {
      postsBySubreddit := InitialPosts();
      selectedSubreddit := "reactjs";
      shouldRefreshSubreddit := false;
      isFetching := false;
      pending := [];
    }

    /** `shouldFetchPosts`: a never-populated feed is fetched whatever the
        flags say; that test comes before the `isFetching` guard. */
    function ShouldFetchPosts(): (r: bool)
      reads this
      requires selectedSubreddit in postsBySubreddit
      ensures !HasItems(postsBySubreddit[selectedSubreddit]) ==> r
      ensures HasItems(postsBySubreddit[selectedSubreddit]) && isFetching ==> !r
      ensures HasItems(postsBySubreddit[selectedSubreddit]) && !isFetching ==> r == shouldRefreshSubreddit
    {
      var posts := postsBySubreddit[selectedSubreddit];
      if !HasItems(posts) then true
      else if isFetching then false
      else shouldRefreshSubreddit
    }

    /** `fetchPosts`: when the decision says so, consume the refresh request,
        raise `isFetching` and issue one request for the selected category;
        otherwise do nothing at all. */
    method FetchPosts()
      requires Valid() && selectedSubreddit in postsBySubreddit
      modifies this
      ensures Valid()
      ensures postsBySubreddit == old(postsBySubreddit) && selectedSubreddit == old(selectedSubreddit)
      ensures old(ShouldFetchPosts()) ==>
                && !shouldRefreshSubreddit && isFetching
                && pending == old(pending) + [PendingFetch(old(selectedSubreddit), old(postsBySubreddit))]
      ensures !old(ShouldFetchPosts()) ==>
                && shouldRefreshSubreddit == old(shouldRefreshSubreddit) && isFetching == old(isFetching)
                && pending == old(pending)
    {
      if !ShouldFetchPosts() {
        return;
      }
      shouldRefreshSubreddit := false;
      isFetching := true;
      pending := pending + [PendingFetch(selectedSubreddit, postsBySubreddit)];
    }

    /** `handleFetchSuccess` for the outstanding request at index `k`: the
        feed map becomes that request's snapshot with its category's feed
        replaced by `{items, lastUpdated}`; both flags drop. */
    method HandleFetchSuccess(k: nat, children: seq<Child<P>>, now: int)
      requires Valid() && k < |pending|
      modifies this
      ensures Valid()
      ensures postsBySubreddit == WithFeed(old(pending[k].snapshot), old(pending[k].subreddit), SuccessFeed(children, now))
      ensures selectedSubreddit == old(selectedSubreddit)
      ensures !shouldRefreshSubreddit && !isFetching
      ensures pending == Settle(old(pending), k)
    {
      var request := pending[k];
      pending := Settle(pending, k);
      shouldRefreshSubreddit := false;
      isFetching := false;
      postsBySubreddit := WithFeed(request.snapshot, request.subreddit, SuccessFeed(children, now));
    }

    /** `handleFetchError` for the outstanding request at index `k`: the feed
        map becomes that request's snapshot with its category's feed replaced
        by `{error: message, items: []}`; both flags drop. */
    method HandleFetchError(k: nat, message: string)
      requires Valid() && k < |pending|
      modifies this
      ensures Valid()
      ensures postsBySubreddit == WithFeed(old(pending[k].snapshot), old(pending[k].subreddit), ErrorFeed(message))
      ensures selectedSubreddit == old(selectedSubreddit)
      ensures !shouldRefreshSubreddit && !isFetching
      ensures pending == Settle(old(pending), k)
    {
      var request := pending[k];
      pending := Settle(pending, k);
      shouldRefreshSubreddit := false;
      isFetching := false;
      postsBySubreddit := WithFeed(request.snapshot, request.subreddit, ErrorFeed(message));
    }

    /** `handleSubredditChange`: changes the selected category and nothing
        else. Any name is accepted. */
    method HandleSubredditChange(name: string)
      requires Valid()
      modifies this
      ensures Valid()
      ensures selectedSubreddit == name
      ensures postsBySubreddit == old(postsBySubreddit) && pending == old(pending)
      ensures shouldRefreshSubreddit == old(shouldRefreshSubreddit) && isFetching == old(isFetching)
    {
      selectedSubreddit := name;
    }

    /** `handleRefreshSubreddit`: raises the refresh flag and nothing else;
        it issues no request. */
    method HandleRefreshSubreddit()
      requires Valid()
      modifies this
      ensures Valid()
      ensures shouldRefreshSubreddit
      ensures postsBySubreddit == old(postsBySubreddit) && selectedSubreddit == old(selectedSubreddit)
      ensures isFetching == old(isFetching) && pending == old(pending)
    {
      shouldRefreshSubreddit := true;
    }

    /** `availableSubreddits`: the keys of the feed map, which the invariant
        pins to the categories the provider was created with. */
    function AvailableSubreddits(): (r: set<string>)
      reads this
      ensures Valid() ==> r == KnownSubreddits
    {
      postsBySubreddit.Keys
    }

    /** `posts`: the selected feed's items; while they are absent the fetch
        decision says to fetch. */
    function Posts(): (r: Option<seq<P>>)
      reads this
      requires selectedSubreddit in postsBySubreddit
      ensures r == postsBySubreddit[selectedSubreddit].items
      ensures r.None? ==> ShouldFetchPosts()
    {
      postsBySubreddit[selectedSubreddit].items
    }
  }
}
