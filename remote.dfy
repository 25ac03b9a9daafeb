/** The remote API as the bot sees it: what its listing and search endpoints answer,
    and the calls the bot issues. The client library and its transport are not
    modelled; their answers are inputs of the model and the issued calls its log. */
module Remote {
  import opened Basics

  /** One answer of a cursor-paginated id listing (`followers.ids`, `friends.ids`,
      `mutes.users.ids`), or the TwitterHTTPError it raised. */
  datatype Reply = Page(ids: seq<int>, nextCursor: int) | Failed(message: string)

  /** The fields of a search result the bot looks at. */
  datatype Tweet = Tweet(id: int, authorId: int, authorName: string)

  datatype SearchReply = Statuses(tweets: seq<Tweet>) | SearchFailed(message: string)

  datatype Endpoint = FollowersIds | FriendsIds | MutedIds

  /** `friendships.create`, `friendships.destroy`, `mutes.users.create`,
      `mutes.users.destroy`. */
  datatype Action = Follow | Unfollow | Mute | Unmute

  /** A remote call as issued: a listing (`cursor` None when the source passes no
      cursor argument), a search, or a mutation of the relationship with one user. */
  datatype Call =
    | Listing(endpoint: Endpoint, screenName: string, cursor: Option<int>)
    | Search(query: string, count: int, resultType: string)
    | Mutation(action: Action, userId: int)

  /** A listing is given as the answers to its successive calls; a call beyond the
      last answer given fails with this message. */
  const NoMoreReplies := "no reply"

  function ReplyAt(replies: seq<Reply>, i: nat): Reply {
    if i < |replies| then replies[i] else Failed(NoMoreReplies)
  }

  /** One `action` call per id, in order. */
  function Mutations(action: Action, ids: seq<int>): seq<Call> {
    if ids == [] then []
    else Mutations(action, ids[..|ids| - 1]) + [Mutation(action, ids[|ids| - 1])]
  }

  lemma MutationsSnoc(action: Action, ids: seq<int>, id: int)
    ensures Mutations(action, ids + [id]) == Mutations(action, ids) + [Mutation(action, id)]
  {
    assert (ids + [id])[..|ids|] == ids;
  }

  /** One listing call per cursor, in order. */
  function Listings(endpoint: Endpoint, screenName: string, cursors: seq<Option<int>>): seq<Call> {
    if cursors == [] then []
    else Listings(endpoint, screenName, cursors[..|cursors| - 1])
         + [Listing(endpoint, screenName, cursors[|cursors| - 1])]
  }

  lemma ListingsSnoc(endpoint: Endpoint, screenName: string, cursors: seq<Option<int>>, c: Option<int>)
    ensures Listings(endpoint, screenName, cursors + [c])
            == Listings(endpoint, screenName, cursors) + [Listing(endpoint, screenName, c)]
  {
    assert (cursors + [c])[..|cursors|] == cursors;
  }

  /** A first call put in front of the ones after it. */
  lemma {:induction false} ListingsCons(endpoint: Endpoint, screenName: string, c: Option<int>, cursors: seq<Option<int>>)
    ensures Listings(endpoint, screenName, [c] + cursors)
            == [Listing(endpoint, screenName, c)] + Listings(endpoint, screenName, cursors)
    decreases |cursors|
  {
    if cursors == [] {
      assert [c] + cursors == [c];
      assert Listings(endpoint, screenName, [c][..0]) == [];
    } else {
      var init := cursors[..|cursors| - 1];
      var last := cursors[|cursors| - 1];
      assert [c] + cursors == ([c] + init) + [last];
      ListingsSnoc(endpoint, screenName, [c] + init, last);
      ListingsCons(endpoint, screenName, c, init);
    }
  }
}
