/** Clients of `RedditProvider` that drive it through event sequences and
    state what follows from the method contracts alone. */
module RedditScenarios {
  import opened Feeds
  import opened RedditContext

  /** The initial fetch of the default category succeeds; a refresh then
      re-issues the request, which fails. */
  method RefreshAfterSuccess<P(==)>(a: P, t: int)
    returns (issuedFor: string, afterSuccess: Feed<P>, idle: bool, afterFailure: Feed<P>)
    ensures issuedFor == "reactjs"
    ensures afterSuccess == Feed(Some([a]), None, Some(t)) && idle
    ensures afterFailure == Feed(Some([]), Some("timeout"), None)
  {
    var p := new RedditProvider<P>();
    p.HandleSubredditChange("reactjs");
    p.FetchPosts();
    issuedFor := p.pending[0].subreddit;
    p.HandleFetchSuccess(0, [Child(a)], t);
    assert SuccessFeed([Child(a)], t).items.value == [a];
    afterSuccess := p.postsBySubreddit["reactjs"];
    idle := !p.isFetching;
    p.HandleRefreshSubreddit();
    p.FetchPosts();
    assert |p.pending| == 1;
    p.HandleFetchError(0, "timeout");
    afterFailure := p.postsBySubreddit["reactjs"];
  }

  /** Re-selecting the populated selected category without a refresh
      request issues nothing. */
  method ReselectPopulated<P>(a: P, t: int) returns (outstanding: nat)
    ensures outstanding == 0
  {
    var p := new RedditProvider<P>();
    p.FetchPosts();
    p.HandleFetchSuccess(0, [Child(a)], t);
    p.HandleSubredditChange("reactjs");
    p.FetchPosts();
    outstanding := |p.pending|;
  }

  /** The fetch guard does not give single flight: a never-populated
      category is fetched while another request is still outstanding. */
  method UnpopulatedBypassesGuard<P>() returns (outstanding: nat, fetching: bool)
    ensures outstanding == 2 && fetching
  {
    var p := new RedditProvider<P>();
    p.FetchPosts();
    p.HandleSubredditChange("frontend");
    p.FetchPosts();
    outstanding := |p.pending|;
    fetching := p.isFetching;
  }

  /** Completions go to the category and the feed map captured at issue,
      not to the state at completion: with two requests in flight, the one
      that settles last writes its stale snapshot back, so the feed the
      other one stored is lost. */
  method StaleCompletion<P(==)>(a: P, b: P, t: int, u: int)
    returns (selected: string, frontend: Feed<P>, reactjs: Feed<P>)
    ensures selected == "frontend"
    ensures frontend == EmptyFeed()
    ensures reactjs == Feed(Some([b]), None, Some(u))
  {
    var p := new RedditProvider<P>();
    p.FetchPosts();
    p.HandleSubredditChange("frontend");
    p.FetchPosts();
    assert p.pending[1].subreddit == "frontend";
    p.HandleFetchSuccess(1, [Child(a)], t);
    assert SuccessFeed([Child(a)], t).items.value == [a];
    assert p.postsBySubreddit["frontend"] == Feed(Some([a]), None, Some(t));
    p.HandleFetchSuccess(0, [Child(b)], u);
    assert SuccessFeed([Child(b)], u).items.value == [b];
    selected := p.selectedSubreddit;
    frontend := p.postsBySubreddit["frontend"];
    reactjs := p.postsBySubreddit["reactjs"];
  }

  /** A failed category is not retried when it is selected again: its
      `items: []` counts as populated, so only a refresh request re-fetches. */
  method FailedNotRetried<P>() returns (afterReselect: nat, afterRefresh: nat)
    ensures afterReselect == 0 && afterRefresh == 1
  {
    var p := new RedditProvider<P>();
    p.FetchPosts();
    p.HandleFetchError(0, "timeout");
    p.HandleSubredditChange("frontend");
    p.HandleSubredditChange("reactjs");
    p.FetchPosts();
    afterReselect := |p.pending|;
    p.HandleRefreshSubreddit();
    p.FetchPosts();
    afterRefresh := |p.pending|;
  }

  /** A completion clears the refresh flag even when the refresh was
      requested after its request was issued: the request raised while a
      fetch was in flight is dropped, and nothing is outstanding. */
  method CompletionDropsLaterRefresh<P>(a: P, b: P, t: int, u: int)
    returns (refreshRequested: bool, outstanding: nat)
    ensures !refreshRequested && outstanding == 0
  {
    var p := new RedditProvider<P>();
    p.FetchPosts();
    p.HandleFetchSuccess(0, [Child(a)], t);
    p.HandleRefreshSubreddit();
    p.FetchPosts();
    p.HandleRefreshSubreddit();
    p.FetchPosts();
    assert |p.pending| == 1;
    p.HandleFetchSuccess(0, [Child(b)], u);
    refreshRequested := p.shouldRefreshSubreddit;
    outstanding := |p.pending|;
  }

  /** A completion clears `isFetching` although another request is still
      outstanding. */
  method CompletionClearsFetchingEarly<P>(a: P, t: int) returns (fetching: bool, outstanding: nat)
    ensures !fetching && outstanding == 1
  {
    var p := new RedditProvider<P>();
    p.FetchPosts();
    p.HandleSubredditChange("frontend");
    p.FetchPosts();
    p.HandleFetchSuccess(1, [Child(a)], t);
    fetching := p.isFetching;
    outstanding := |p.pending|;
  }
}
