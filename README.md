# Reddit feed cache: a Dafny model

This project models the state machine inside `RedditProvider`, the React
context provider of a small Reddit reader. The provider keeps one cached
feed per subreddit (`frontend` and `reactjs`), the selected subreddit, a
sticky "refresh requested" flag and an `isFetching` flag. It decides when to
fetch the selected subreddit's posts, and writes each fetch's outcome back
into the feed map.

Layout:

- `feed.dfy`, module `Feeds`: the feed value and the pure pieces the handlers
  use. These are the `children.map(child => child.data)` unwrapping, the
  success and failure feed shapes, and the object-spread update of the feed
  map.
- `reddit_provider.dfy`, module `RedditContext`: class `RedditProvider`.
  It has the four state cells as fields, plus `pending`, the requests issued
  and not yet settled. It has one method per handler, the decision function,
  and the two derived reads. `Valid()` is the invariant that every method
  keeps: the feed map's keys are always `{frontend, reactjs}`, every
  outstanding request was issued for one of them and captured a map with
  those keys, and `isFetching` implies a request is outstanding.
- `scenarios.dfy`, module `RedditScenarios`: client methods that drive a
  fresh provider through event sequences. They state the outcomes that
  follow from the method contracts alone.

How the model treats the source:

- Calling `fetchPosts` is an explicit operation, `FetchPosts`. React's effect
  scheduling decides when the source calls it; the model leaves that to the
  caller.
- An issued request is a `PendingFetch` record holding the subreddit and the
  feed map of the render that issued it. The `.then` handlers close over
  exactly those values. A completion names the outstanding request it
  settles by index, so requests may settle in any order. The feed map then
  becomes that snapshot with one entry replaced.
- The decision tests "no `items`" before the `isFetching` guard. An empty
  `items: []` array is truthy in JavaScript, so a feed that failed counts as
  populated.

Behaviour of the code worth knowing:

- A completion writes into the subreddit that was selected when its request
  was issued, not the one selected when it completes. It also writes back
  that moment's whole feed map, so a result stored in between for another
  subreddit is lost (`RedditScenarios.StaleCompletion`).
- The `isFetching` guard does not give single flight. A never-populated
  subreddit is fetched even while another request is outstanding
  (`RedditScenarios.UnpopulatedBypassesGuard`). A completion then clears
  `isFetching` although the other request is still outstanding
  (`RedditScenarios.CompletionClearsFetchingEarly`).
- A failed subreddit is not fetched again just because it is selected again.
  Its `items: []` counts as populated, so only a refresh request fetches it
  (`RedditScenarios.FailedNotRetried`).
- A completion clears the refresh flag even when the refresh was requested
  after its request was issued (`RedditScenarios.CompletionDropsLaterRefresh`).
- If the selected name is neither a key of the map nor a property every
  plain object inherits, the code throws when it reads that name's feed
  (lines 44 and 82). For an inherited name such as
  `toString` or `constructor`, the lookup yields no `items`. So the code
  fetches that name, and the completion adds it as a new key. The decision,
  the fetch and the `posts` read therefore require the selected subreddit to
  be a key of the map. That excludes both kinds of name.

## Model

| member | source | states |
|---|---|---|
| `Feeds.EmptyFeed` | src/components/RedditContext.js:10 | the initial feed `{}` has no items, no error and no timestamp |
| `Feeds.ItemsOfPreservesOrder` | src/components/RedditContext.js:29 | unwrapping `child.data` keeps the number and the order of the children: item i is child i's data |
| `Feeds.HasItems` | src/components/RedditContext.js:44 | the truthiness test on `posts.items`: only an absent `items` is falsy; any array, `[]` included, counts as present |
| `Feeds.ItemsOf` | src/components/RedditContext.js:29 | `children.map(child => child.data)` yields one item per child (order and contents: `Feeds.ItemsOfPreservesOrder`) |
| `Feeds.SuccessFeed` | src/components/RedditContext.js:27-38 | the success feed has items (the children's data, same length and order), no error, and `lastUpdated` equal to the supplied time |
| `Feeds.ErrorFeed` | src/components/RedditContext.js:15-24 | the failure feed carries the message as its error, has an empty but present items list (so it counts as populated), and no timestamp |
| `Feeds.WithFeed` | src/components/RedditContext.js:18-24 | the spread update gives the named key the new feed, keeps every other entry, and adds no other key |
| `RedditContext.InitialPosts` | src/components/RedditContext.js:10 | the initial map has exactly the keys frontend and reactjs, each mapped to `{}` |
| `RedditContext.Settle` | src/components/RedditContext.js:56-57 | settling one outstanding request removes exactly that one and keeps the rest in order |
| `RedditContext.RedditProvider.constructor` | src/components/RedditContext.js:10-13 | the initial state: both feeds `{}`, reactjs selected, both flags false, nothing outstanding; the invariant holds |
| `RedditContext.RedditProvider.ShouldFetchPosts` | src/components/RedditContext.js:41-47 | fetch whenever the selected feed has no items, whatever the flags; with items, never while fetching, else exactly when a refresh was requested |
| `RedditContext.RedditProvider.FetchPosts` | src/components/RedditContext.js:50-58 | if the decision is false nothing changes; if true, the refresh flag drops, `isFetching` rises and exactly one request is added, capturing the selected subreddit and the current map; the map and the selection are unchanged |
| `RedditContext.RedditProvider.HandleFetchSuccess` | src/components/RedditContext.js:27-39 | the map becomes the settled request's snapshot with its subreddit's feed replaced by the success feed; both flags false; the selection unchanged; that request no longer outstanding; the invariant kept |
| `RedditContext.RedditProvider.HandleFetchError` | src/components/RedditContext.js:15-25 | the map becomes the settled request's snapshot with its subreddit's feed replaced by `{error, items: []}`; both flags false; the selection unchanged; that request no longer outstanding; the invariant kept |
| `RedditContext.RedditProvider.HandleSubredditChange` | src/components/RedditContext.js:64-66 | only the selection changes, to any given name; the invariant kept |
| `RedditContext.RedditProvider.HandleRefreshSubreddit` | src/components/RedditContext.js:68-70 | only the refresh flag changes, to true; no request is issued |
| `RedditContext.RedditProvider.AvailableSubreddits` | src/components/RedditContext.js:81 | under the invariant the available subreddits are exactly frontend and reactjs |
| `RedditContext.RedditProvider.Posts` | src/components/RedditContext.js:82 | the posts are the selected feed's items; while they are absent the decision says to fetch |
| `RedditScenarios.RefreshAfterSuccess` | src/components/RedditContext.js:27-58 | from the initial state the first fetch is issued for reactjs; success stores `{items: [a], lastUpdated: t}` and clears `isFetching`; a refresh re-issues it, and failure stores `{items: [], error: "timeout"}` |
| `RedditScenarios.ReselectPopulated` | src/components/RedditContext.js:44-46 | re-selecting the populated selected subreddit without a refresh request issues nothing |
| `RedditScenarios.UnpopulatedBypassesGuard` | src/components/RedditContext.js:44-45 | selecting the never-populated frontend while reactjs is in flight issues a second request: two are outstanding |
| `RedditScenarios.StaleCompletion` | src/components/RedditContext.js:27-39 | the request that settles last writes its issue-time map back: frontend's stored feed is lost and reactjs gets the result although frontend is selected |
| `RedditScenarios.FailedNotRetried` | src/components/RedditContext.js:15-46 | after a failure, selecting the subreddit again issues nothing; a refresh request then issues one |
| `RedditScenarios.CompletionDropsLaterRefresh` | src/components/RedditContext.js:27-46 | a refresh requested while a fetch is in flight issues nothing, and the completion then clears it: no refresh pending, nothing outstanding |
| `RedditScenarios.CompletionClearsFetchingEarly` | src/components/RedditContext.js:27-39 | with two requests in flight, the first completion clears `isFetching` while one request is still outstanding |

## Left out

- React rendering, `createContext`, `Provider`/`Consumer` and `PropTypes`: UI plumbing with no state logic.
- The `useEffect` re-run and the `useCallback` identities: framework reactivity. `FetchPosts` is an operation the caller invokes instead.
- `getPostsBySubreddit` and its HTTP transport: a foreign module not part of this model. Its outcome is a later `HandleFetchSuccess` or `HandleFetchError` call naming the request it settles.
- The response envelope `json.data`: `HandleFetchSuccess` takes `json.data.children` directly.
- The error object: `HandleFetchError` takes its `message` string.
- `Date.now()`: a clock, taken as the `now` parameter.
- Promise asynchrony: each completion is one sequential event. A request that never settles just stays in `pending`.
- Post contents: posts are an opaque type parameter.
- A selected name that is not a key of the feed map: the model accepts the selection, but the decision, the fetch and the `posts` read require the selected name to be a key. For most such names the code throws there. For a name every plain object inherits (`toString`, `constructor`, `valueOf`, `__proto__`), the code instead fetches it and the completion adds it as a third key. The model does not capture that.
- `RedditContext.RedditProvider.AvailableSubreddits`: returns a set, so it does not model the order of `Object.keys`.
