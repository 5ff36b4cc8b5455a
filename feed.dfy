/** The per-category feed cached by the Reddit provider, and the pure
    value-building steps its handlers use: the `.map` that unwraps a
    listing's children, the two feed shapes a completed fetch writes, and
    the object-spread update of the feed map. */
module Feeds {

  datatype Option<+T> = None | Some(value: T)

  /** One entry of a listing's `children`: the post is its `data` field.
      Posts are opaque pass-through values. */
  datatype Child<P> = Child(data: P)

  /** A category feed. Each field may be absent, as in the JavaScript object:
      `{}` is a feed never fetched; `items` absent means "never populated". */
  datatype Feed<P> = Feed(items: Option<seq<P>>, error: Option<string>, lastUpdated: Option<int>)

  /** The feed map: category name to feed. */
  type FeedMap<P> = map<string, Feed<P>>

  /** The empty object `{}` every category starts with. */
  function EmptyFeed<P>(): (f: Feed<P>)
    ensures !HasItems(f) && f.error.None? && f.lastUpdated.None?
  {
    Feed(None, None, None)
  }

  /** JavaScript truthiness of `posts.items`: only an absent `items` is
      falsy; any array, even `[]`, counts as present. */
  function HasItems<P>(f: Feed<P>): (r: bool)
    ensures r <==> f.items.Some?
    ensures f.items == Some([]) ==> r
  {
    f.items.Some?
  }

  /** `children.map((child) => child.data)`. */
  function ItemsOf<P>(children: seq<Child<P>>): (r: seq<P>)
    ensures |r| == |children|
  {
    if children == [] then [] else [children[0].data] + ItemsOf(children[1..])
  }

  /** The unwrapping keeps the length and the order of the children. */
  lemma {:induction false} ItemsOfPreservesOrder<P>(children: seq<Child<P>>)
    ensures |ItemsOf(children)| == |children|
    ensures forall i :: 0 <= i < |children| ==> ItemsOf(children)[i] == children[i].data
  {
    if children != [] {
      ItemsOfPreservesOrder(children[1..]);
      assert forall i :: 1 <= i < |children| ==> children[1..][i - 1] == children[i];
    }
  }

  /** The feed written on success: exactly `{items, lastUpdated}`, no `error`. */
  function SuccessFeed<P>(children: seq<Child<P>>, now: int): (f: Feed<P>)
    ensures HasItems(f) && |f.items.value| == |children|
    ensures forall i :: 0 <= i < |children| ==> f.items.value[i] == children[i].data
    ensures f.error.None? && f.lastUpdated == Some(now)
  {
    ItemsOfPreservesOrder(children);
    Feed(Some(ItemsOf(children)), None, Some(now))
  }

  /** The feed written on failure: exactly `{error: message, items: []}`.
      Its empty `items` array still counts as populated. */
  function ErrorFeed<P>(message: string): (f: Feed<P>)
    ensures HasItems(f) && f.items.value == []
    ensures f.error == Some(message) && f.lastUpdated.None?
  {
    Feed(Some([]), Some(message), None)
  }

  /** `{...m, [key]: feed}`: the entry for `key` replaced (or added), every
      other entry kept. */
  function WithFeed<P>(m: FeedMap<P>, key: string, feed: Feed<P>): (r: FeedMap<P>)
    ensures r.Keys == m.Keys + {key}
    ensures key in r && r[key] == feed
    ensures forall k :: k in m && k != key ==> k in r && r[k] == m[k]
  {
    m[key := feed]
  }
}
