/** The `TwitterBot` class: its configuration dictionary, the snapshot files it reads
    and writes, and the remote calls it issues. Every public operation does nothing
    but report while the configuration is empty (the Unconfigured state). */
module Bot {
  import opened Basics
  import opened Text
  import opened Remote
  import opened Config
  import opened Snapshot
  import opened Paging
  import opened Reconcile

  /** How a public operation ends: it reported that the bot is not set up, returned
      normally (with a value for the readers), stopped the process (`quit()`), or let
      an exception escape. */
  datatype Outcome<+T> = NotSetUp | Done(value: T) | Aborted | Raised(error: Error)

  /** Reading the snapshot file that configuration key `key` names, as the
      `get_*_list` readers do once the bot is set up. */
  function LoadSnapshot(config: map<string, string>, files: map<string, string>, key: string): Result<set<int>, Error> {
    if key !in config then Failure(MissingKey(key))
    else if config[key] !in files then Failure(NoSuchFile(config[key]))
    else AsSet(ParseIds(files[config[key]]))
  }

  /** A reader's answer: None (NotSetUp) before setup, else the snapshot or the error. */
  function Gated(config: map<string, string>, r: Result<set<int>, Error>): Outcome<set<int>> {
    if config == map[] then NotSetUp
    else match r
      case Success(ids) => Done(ids)
      case Failure(e) => Raised(e)
  }

  /** How a loop without a handler ends: normally, or with the error that stopped it. */
  function Stopped(err: Option<string>): Outcome<()> {
    match err
    case None => Done(())
    case Some(m) => Raised(RemoteError(m))
  }

  /** The own handle, where the configuration has one. */
  function HandleOf(config: map<string, string>): string {
    if HandleKey in config then config[HandleKey] else ""
  }

  /** One half of `sync_follows`: list `endpoint` for the bot's own handle, cursor by
      cursor, writing the first page over the file under `pathKey` and appending each
      later page. A failing call stops it with the pages so far in the file; the
      file then reads back as exactly the union of the pages fetched, whatever it
      held before. Without a connection the first call raises before anything. */
  ghost predicate SyncedListing(config: map<string, string>, connected: bool, endpoint: Endpoint, pathKey: string,
                                replies: seq<Reply>, files0: map<string, string>, calls0: seq<Call>,
                                files1: map<string, string>, calls1: seq<Call>, st: Outcome<()>)
  {
    if !connected then
      st == Raised(NoConnection) && files1 == files0 && calls1 == calls0
    else if HandleKey !in config then
      st == Raised(MissingKey(HandleKey)) && files1 == files0 && calls1 == calls0
    else if pathKey !in config then
      var first := ReplyAt(replies, 0);
      calls1 == calls0 + [Listing(endpoint, config[HandleKey], None)] && files1 == files0
      && st == (if first.Failed? then Raised(RemoteError(first.message)) else Raised(MissingKey(pathKey)))
    else
      var f := Fetch(replies, None);
      calls1 == calls0 + Listings(endpoint, config[HandleKey], f.cursors)
      && st == (if f.failure.Some? then Raised(RemoteError(f.failure.value)) else Done(()))
      && HoldsPages(config, pathKey, files0, files1, f.pages)
  }

  /** The file under `pathKey` after pages were written to it: untouched if there were
      none, otherwise the only file changed, and it reads back as their union. */
  ghost predicate HoldsPages(config: map<string, string>, pathKey: string,
                             files0: map<string, string>, files1: map<string, string>, pages: seq<seq<int>>)
  {
    && (pages == [] ==> files1 == files0)
    && (pages != [] ==> pathKey in config && config[pathKey] in files1
                        && files1 == files0[config[pathKey] := files1[config[pathKey]]]
                        && LoadSnapshot(config, files1, pathKey) == Success(AllIds(pages)))
  }

  /** `files0` with the snapshot at `path` holding the ids of `order`. */
  ghost function WithSnapshot(files0: map<string, string>, path: string, order: seq<int>): map<string, string> {
    files0[path := Serialize(order)]
  }

  /** The file written with the pages reads back as their union. */
  lemma WrittenHolds(config: map<string, string>, pathKey: string, files0: map<string, string>,
                     pages: seq<seq<int>>, written: seq<int>)
    requires pathKey in config && pages != [] && Elems(written) == AllIds(pages)
    ensures HoldsPages(config, pathKey, files0, WithSnapshot(files0, config[pathKey], written), pages)
  {
    RenderReadsBack(written);
  }

  /** A snapshot file written with the ids of `order` loads as those ids. */
  lemma RenderedLoads(config: map<string, string>, key: string, files0: map<string, string>, order: seq<int>)
    requires key in config
    ensures LoadSnapshot(config, WithSnapshot(files0, config[key], order), key) == Success(Elems(order))
  {
    RenderReadsBack(order);
  }

  /** Appending a rendering of one more page keeps the text covering every page. */
  lemma WrittenCoversPage(written: seq<int>, order: seq<int>, pages: seq<seq<int>>, ids: seq<int>, more: seq<int>)
    requires Elems(written) == Elems(order) + AllIds(pages) && Elems(more) == Elems(ids)
    ensures Elems(written + more) == Elems(order) + AllIds(pages + [ids])
  {
    AllIdsSnoc(pages, ids);
    ElemsAppend(written, more);
  }

  /** A whole listing of `sync_follows` whose first call returns a page: that page
      written over the file, then the cursor loop. */
  method WalkListing(endpoint: Endpoint, handle: string, replies: seq<Reply>)
    returns (failure: Option<string>, text: string, issued: seq<Call>,
             ghost pages: seq<seq<int>>, ghost cursors: seq<Option<int>>, ghost written: seq<int>)
    requires replies != [] && replies[0].Page?
    ensures Fetch(replies, None) == Fetched(pages, cursors, failure)
    ensures issued == Listings(endpoint, handle, cursors)
    ensures pages != [] && text == Serialize(written) && Elems(written) == AllIds(pages)
  {
    var first := replies[0];
    ghost var order;
    text, order := Render(Elems(first.ids));
    assert Listings(endpoint, handle, [None]) == [Listing(endpoint, handle, None)];
    if first.nextCursor == 0 {
      AllIdsSnoc([], first.ids);
      assert [] + [first.ids] == [first.ids];
      return None, text, [Listing(endpoint, handle, None)], [first.ids], [None], order;
    }
    var restIssued;
    failure, text, restIssued, pages, cursors, written := WalkCursors(endpoint, handle, replies[1..], first.nextCursor, text, order);
    FetchFirst(replies, None);
    ListingsCons(endpoint, handle, None, cursors);
    AllIdsCons(first.ids, pages);
    issued, pages, cursors := [Listing(endpoint, handle, None)] + restIssued, [first.ids] + pages, [None] + cursors;
  }

  /** The `while next_cursor != 0` loop of `sync_follows`: one call per cursor, each
      page's ids appended to the file's text (which starts as `text0`, the rendering
      of `order`), until a page returns cursor 0 or a call fails. It returns the
      calls issued and the text the file then holds. */
  method WalkCursors(endpoint: Endpoint, handle: string, replies: seq<Reply>, cursor: int,
                     text0: string, ghost order: seq<int>)
    returns (failure: Option<string>, text: string, issued: seq<Call>,
             ghost pages: seq<seq<int>>, ghost cursors: seq<Option<int>>, ghost written: seq<int>)
    requires cursor != 0 && text0 == Serialize(order)
    ensures Fetch(replies, Some(cursor)) == Fetched(pages, cursors, failure)
    ensures issued == Listings(endpoint, handle, cursors)
    ensures text == Serialize(written)
    ensures Elems(written) == Elems(order) + AllIds(pages)
  {
    text, issued := text0, [];
    pages, cursors, written := [], [], order;
    var next := cursor;
    var i := 0;
    assert replies[0..] == replies;
    assert After([], [], Fetch(replies, Some(cursor))) == Fetch(replies, Some(cursor));
    while true
      invariant 0 <= i <= |replies|
      invariant next != 0
      invariant Fetch(replies, Some(cursor)) == After(pages, cursors, Fetch(replies[i..], Some(next)))
      invariant issued == Listings(endpoint, handle, cursors)
      invariant text == Serialize(written)
      invariant Elems(written) == Elems(order) + AllIds(pages)
      decreases |replies| - i
    {
      PagingTurn(replies, Some(cursor), i, next, pages, cursors);
      var page := ReplyAt(replies, i);
      ListingsSnoc(endpoint, handle, cursors, Some(next));
      issued := issued + [Listing(endpoint, handle, Some(next))];
      cursors := cursors + [Some(next)];
      if page.Failed? {
        failure := Some(page.message);
        break;
      }
      var more, moreOrder := Render(Elems(page.ids));
      SerializeAppend(written, moreOrder);
      WrittenCoversPage(written, order, pages, page.ids, moreOrder);
      text := text + more;
      pages, written := pages + [page.ids], written + moreOrder;
      if page.nextCursor == 0 {
        failure := None;
        break;
      }
      next := page.nextCursor;
      i := i + 1;
    }
  }

  /** The loop of `auto_follow` over the search results: a `friendships.create` for
      each author that FollowRun picks, a successful one joining `following`, until a
      failure that does not say "blocked". */
  method FollowAuthors(tweets: seq<Tweet>, handle: string, following: set<int>, doNotFollow: set<int>,
                       failures: map<int, string>)
    returns (issued: seq<Call>, aborted: bool, ghost attempted: seq<int>)
    ensures Run(attempted, aborted) == FollowRun(tweets, handle, following, doNotFollow, failures)
    ensures issued == Mutations(Follow, attempted)
  {
    ghost var spec := FollowRun(tweets, handle, following, doNotFollow, failures);
    var followed := following;
    issued, aborted, attempted := [], false, [];
    assert tweets[0..] == tweets;
    assert attempted + spec.attempted == spec.attempted;
    var i := 0;
    while i < |tweets|
      invariant 0 <= i <= |tweets|
      invariant issued == Mutations(Follow, attempted)
      invariant spec == Behind(attempted, FollowRun(tweets[i..], handle, followed, doNotFollow, failures))
    {
      assert tweets[i..][0] == tweets[i] && tweets[i..][1..] == tweets[i + 1..];
      var author := tweets[i].authorId;
      if tweets[i].authorName != handle && author !in followed && author !in doNotFollow {
        MutationsSnoc(Follow, attempted, author);
        issued := issued + [Mutation(Follow, author)];
        var rest := FollowRun(tweets[i + 1..], handle,
                              if author in failures then followed else followed + {author},
                              doNotFollow, failures);
        assert attempted + ([author] + rest.attempted) == (attempted + [author]) + rest.attempted;
        attempted := attempted + [author];
        if author in failures {
          if !Blocked(failures[author]) {
            assert attempted + [] == attempted;
            return issued, true, attempted;
          }
        } else {
          followed := followed + {author};
        }
      }
      i := i + 1;
    }
    assert tweets[i..] == [] && attempted + [] == attempted;
  }

  class TwitterBot {
    /** BOT_CONFIG: empty while the bot is not set up. */
    var config: map<string, string>
    /** The files the bot reads and writes, by path. */
    var files: map<string, string>
    /** The remote calls issued so far, in order. */
    var calls: seq<Call>
    /** Whether TWITTER_CONNECTION is set: only a `bot_setup` that gets through the
        required-parameter check creates it, and nothing ever clears it. */
    var connected: bool

    /** The Ready state: the gate `BOT_CONFIG == {}` lets operations run. A
        dictionary left by a `bot_setup` that stopped at a bad line is Ready
        without being Configured. */
    predicate Ready()
      reads this
    {
      config != map[]
    }

    /** The bot before `bot_setup` runs: nothing configured, nothing issued. */
    constructor (fs: map<string, string>)
      ensures config == map[] && files == fs && calls == [] && !connected
    {
      config := map[];
      files := fs;
      calls := [];
      connected := false;
    }

    /** `bot_setup`: read `key:value` lines into the existing dictionary; if a
        required parameter is missing or empty, empty the dictionary; otherwise
        create the missing snapshot files empty and then the connection. An early
        end leaves the connection as it was. */
    method BotSetup(configFile: string) returns (st: Outcome<()>)
      modifies this`config, this`files, this`connected
      ensures configFile !in old(files) ==>
                st == Raised(NoSuchFile(configFile)) && config == old(config) && files == old(files)
                && connected == old(connected)
      ensures configFile in old(files) ==>
                var parsed := ApplyLines(old(config), Lines(old(files)[configFile]));
                if parsed.badLine.Some? then
                  st == Raised(MalformedConfigLine(parsed.badLine.value))
                  && config == parsed.config && files == old(files) && connected == old(connected)
                else if !Configured(parsed.config) then
                  st == Done(()) && config == map[] && files == old(files) && connected == old(connected)
                else
                  st == Done(()) && config == parsed.config
                  && files == Touch(old(files), SyncFiles(parsed.config)) && connected
      ensures st.Done? ==> (Ready() <==> Configured(config)) && (Ready() ==> connected)
    {
      if configFile !in files {
        return Raised(NoSuchFile(configFile));
      }
      var bad := ReadLines(Lines(files[configFile]));
      if bad.Some? {
        return Raised(MalformedConfigLine(bad.value));
      }
      var missing := AnyMissing(config);
      if missing {
        config := map[];
        return Done(());
      }
      assert Required[0] in config;
      TouchAll(SyncFiles(config));
      connected := true;
      return Done(());
    }

    /** The reading loop of `bot_setup`: each line's key and value go into the
        dictionary in turn, and a line without a ':' raises, keeping what came before. */
    method ReadLines(lines: seq<string>) returns (bad: Option<string>)
      modifies this`config
      ensures Parsed(config, bad) == ApplyLines(old(config), lines)
    {
      var i := 0;
      assert lines[i..] == lines;
      while i < |lines|
        invariant 0 <= i <= |lines|
        invariant ApplyLines(old(config), lines) == ApplyLines(config, lines[i..])
      {
        assert lines[i..][0] == lines[i] && lines[i..][1..] == lines[i + 1..];
        var kv := ParseLine(lines[i]);
        if kv.None? {
          return Some(lines[i]);
        }
        config := config[kv.value.0 := kv.value.1];
        i := i + 1;
      }
      assert lines[i..] == [];
      return None;
    }

    /** The sync-file loop of `bot_setup`: each path that is not a file yet is
        created empty, in turn. */
    method TouchAll(paths: seq<string>)
      modifies this`files
      ensures files == Touch(old(files), paths)
    {
      for j := 0 to |paths|
        invariant files == Touch(old(files), paths[..j])
      {
        assert paths[..j + 1][..j] == paths[..j];
        if paths[j] !in files {
          files := files[paths[j] := ""];
        }
      }
      assert paths[..|paths|] == paths;
    }

    /** Reading the snapshot under `key`: the key, the file, then `int(line)` per line. */
    method Load(key: string) returns (r: Result<set<int>, Error>)
      ensures r == LoadSnapshot(config, files, key)
    {
      if key !in config {
        return Failure(MissingKey(key));
      }
      var path := config[key];
      if path !in files {
        return Failure(NoSuchFile(path));
      }
      r := ReadIds(files[path]);
    }

    /** `get_do_not_follow_list`: the already-followed ledger. */
    method GetDoNotFollowList() returns (r: Outcome<set<int>>)
      ensures r == Gated(config, LoadSnapshot(config, files, AlreadyFollowedKey))
    {
      if config == map[] {
        return NotSetUp;
      }
      var ids := Load(AlreadyFollowedKey);
      r := if ids.Success? then Done(ids.value) else Raised(ids.error);
    }

    /** `get_followers_list`: the accounts following the bot, at the last sync. */
    method GetFollowersList() returns (r: Outcome<set<int>>)
      ensures r == Gated(config, LoadSnapshot(config, files, FollowersKey))
    {
      if config == map[] {
        return NotSetUp;
      }
      var ids := Load(FollowersKey);
      r := if ids.Success? then Done(ids.value) else Raised(ids.error);
    }

    /** `get_follows_list`: the accounts the bot follows, at the last sync. */
    method GetFollowsList() returns (r: Outcome<set<int>>)
      ensures r == Gated(config, LoadSnapshot(config, files, FollowsKey))
    {
      if config == map[] {
        return NotSetUp;
      }
      var ids := Load(FollowsKey);
      r := if ids.Success? then Done(ids.value) else Raised(ids.error);
    }

    /** One listing of `sync_follows`, for the bot's own handle. The calls issued
        and the file's final text are computed first and then stored, which leaves
        the state the source leaves by writing page after page. */
    method SyncListing(endpoint: Endpoint, pathKey: string, replies: seq<Reply>) returns (st: Outcome<()>)
      modifies this`files, this`calls
      ensures SyncedListing(config, connected, endpoint, pathKey, replies, old(files), old(calls), files, calls, st)
    {
      if !connected {
        return Raised(NoConnection);
      }
      if HandleKey !in config {
        return Raised(MissingKey(HandleKey));
      }
      var handle := config[HandleKey];
      var reply := ReplyAt(replies, 0);
      if reply.Failed? {
        assert Fetch(replies, None) == Fetched([], [None], Some(reply.message));
        assert Listings(endpoint, handle, [None]) == [Listing(endpoint, handle, None)];
        calls := calls + [Listing(endpoint, handle, None)];
        return Raised(RemoteError(reply.message));
      }
      if pathKey !in config {
        calls := calls + [Listing(endpoint, handle, None)];
        return Raised(MissingKey(pathKey));
      }
      var failure, text, issued, pages, cursors, written := WalkListing(endpoint, handle, replies);
      WrittenHolds(config, pathKey, files, pages, written);
      files := files[config[pathKey] := text];
      calls := calls + issued;
      st := if failure.Some? then Raised(RemoteError(failure.value)) else Done(());
    }

    /** `sync_follows`: the followers listing into FOLLOWERS_FILE, then, unless that
        raised, the followed listing into FOLLOWS_FILE. */
    method SyncFollows(followerReplies: seq<Reply>, friendReplies: seq<Reply>)
      returns (st: Outcome<()>, first: Outcome<()>, ghost midFiles: map<string, string>, ghost midCalls: seq<Call>)
      modifies this`files, this`calls
      ensures config == map[] ==> st == NotSetUp && files == old(files) && calls == old(calls)
      ensures config != map[] ==>
                SyncedListing(config, connected, FollowersIds, FollowersKey, followerReplies,
                              old(files), old(calls), midFiles, midCalls, first)
                && (first.Done? ==> SyncedListing(config, connected, FriendsIds, FollowsKey, friendReplies,
                                                  midFiles, midCalls, files, calls, st))
                && (!first.Done? ==> st == first && files == midFiles && calls == midCalls)
    {
      first, midFiles, midCalls := NotSetUp, files, calls;
      if config == map[] {
        return NotSetUp, first, midFiles, midCalls;
      }
      first := SyncListing(FollowersIds, FollowersKey, followerReplies);
      midFiles, midCalls := files, calls;
      if !first.Done? {
        return first, first, midFiles, midCalls;
      }
      st := SyncListing(FriendsIds, FollowsKey, friendReplies);
    }

    /** `for user_id in targets:` with the call inside a handler that catches and only
        prints its errors: every target gets the call once, whatever the answers. */
    method IssueEach(action: Action, targets: set<int>) returns (ghost acted: seq<int>)
      modifies this`calls
      ensures calls == old(calls) + Mutations(action, acted)
      ensures EachOnce(acted, targets)
    {
      acted := [];
      var rest := targets;
      while rest != {}
        invariant calls == old(calls) + Mutations(action, acted)
        invariant Distinct(acted) && Elems(acted) !! rest && Elems(acted) + rest == targets
        decreases rest
      {
        var id := Choose(rest);
        MutationsSnoc(action, acted, id);
        calls := calls + [Mutation(action, id)];
        acted := acted + [id];
        rest := rest - {id};
      }
    }

    /** `for user_id in targets:` with no handler: the first failing call raises out
        of the loop, leaving the remaining targets untouched. */
    method IssueUntilError(action: Action, targets: set<int>, failures: map<int, string>)
      returns (err: Option<string>, ghost acted: seq<int>)
      modifies this`calls
      ensures calls == old(calls) + Mutations(action, acted)
      ensures UntilFirstError(acted, targets, failures, err)
    {
      acted := [];
      var rest := targets;
      while rest != {}
        invariant calls == old(calls) + Mutations(action, acted)
        invariant Distinct(acted) && Elems(acted) !! rest && Elems(acted) + rest == targets
        invariant forall k :: 0 <= k < |acted| ==> acted[k] !in failures
        decreases rest
      {
        var id := Choose(rest);
        MutationsSnoc(action, acted, id);
        calls := calls + [Mutation(action, id)];
        acted := acted + [id];
        if id in failures {
          return Some(failures[id]), acted;
        }
        rest := rest - {id};
      }
      return None, acted;
    }

    /** `auto_follow`: search, then follow the authors of the results under the rules
        of FollowRun; a non-"blocked" error ends the process. */
    method AutoFollow(query: string, count: int, resultType: string, search: SearchReply, failures: map<int, string>)
      returns (st: Outcome<()>)
      modifies this`calls
      ensures config == map[] ==> st == NotSetUp && calls == old(calls)
      ensures config != map[] && !connected ==> st == Raised(NoConnection) && calls == old(calls)
      ensures config != map[] && connected ==>
                var searched := old(calls) + [Search(query, count, resultType)];
                var following := LoadSnapshot(config, files, FollowsKey);
                var doNotFollow := LoadSnapshot(config, files, AlreadyFollowedKey);
                if search.SearchFailed? then st == Raised(RemoteError(search.message)) && calls == searched
                else if following.Failure? then st == Raised(following.error) && calls == searched
                else if doNotFollow.Failure? then st == Raised(doNotFollow.error) && calls == searched
                else if search.tweets != [] && HandleKey !in config then
                  st == Raised(MissingKey(HandleKey)) && calls == searched
                else
                  var run := FollowRun(search.tweets, HandleOf(config), following.value, doNotFollow.value, failures);
                  calls == searched + Mutations(Follow, run.attempted)
                  && st == (if run.aborted then Aborted else Done(()))
    {
      if config == map[] {
        return NotSetUp;
      }
      if !connected {
        return Raised(NoConnection);
      }
      calls := calls + [Search(query, count, resultType)];
      ghost var searched := calls;
      if search.SearchFailed? {
        return Raised(RemoteError(search.message));
      }
      var followingR := Load(FollowsKey);
      if followingR.Failure? {
        return Raised(followingR.error);
      }
      var doNotFollowR := Load(AlreadyFollowedKey);
      if doNotFollowR.Failure? {
        return Raised(doNotFollowR.error);
      }
      var tweets := search.tweets;
      if tweets != [] && HandleKey !in config {
        return Raised(MissingKey(HandleKey));
      }
      var issued, aborted, attempted := FollowAuthors(tweets, HandleOf(config), followingR.value, doNotFollowR.value, failures);
      calls := calls + issued;
      st := if aborted then Aborted else Done(());
    }

    /** `auto_follow_followers`: follow back every follower not followed; each
        failure is caught, so one failing id does not stop the others. */
    method AutoFollowFollowers() returns (st: Outcome<()>, ghost acted: seq<int>)
      modifies this`calls
      ensures config == map[] ==> st == NotSetUp && calls == old(calls)
      ensures config != map[] ==>
                var following := LoadSnapshot(config, files, FollowsKey);
                var followers := LoadSnapshot(config, files, FollowersKey);
                if following.Failure? then st == Raised(following.error) && calls == old(calls)
                else if followers.Failure? then st == Raised(followers.error) && calls == old(calls)
                else if !connected then st == Done(()) && calls == old(calls)
                else st == Done(()) && calls == old(calls) + Mutations(Follow, acted)
                     && EachOnce(acted, FollowBackTargets(followers.value, following.value))
    {
      acted := [];
      if config == map[] {
        return NotSetUp, acted;
      }
      var following := Load(FollowsKey);
      if following.Failure? {
        return Raised(following.error), acted;
      }
      var followers := Load(FollowersKey);
      if followers.Failure? {
        return Raised(followers.error), acted;
      }
      if !connected {
        return Done(()), acted;
      }
      acted := IssueEach(Follow, FollowBackTargets(followers.value, following.value));
      return Done(()), acted;
    }

    /** `auto_follow_followers_of_user`: the first `count` ids of the first page of
        `screenName`'s followers, less those followed or in the ledger, are followed;
        each failure is caught. */
    method AutoFollowFollowersOfUser(screenName: string, count: int, reply: Reply)
      returns (st: Outcome<()>, ghost acted: seq<int>)
      modifies this`calls
      ensures config == map[] ==> st == NotSetUp && calls == old(calls)
      ensures config != map[] ==>
                var following := LoadSnapshot(config, files, FollowsKey);
                var doNotFollow := LoadSnapshot(config, files, AlreadyFollowedKey);
                var listed := old(calls) + [Listing(FollowersIds, screenName, None)];
                if following.Failure? then st == Raised(following.error) && calls == old(calls)
                else if !connected then st == Raised(NoConnection) && calls == old(calls)
                else if reply.Failed? then st == Raised(RemoteError(reply.message)) && calls == listed
                else if doNotFollow.Failure? then st == Raised(doNotFollow.error) && calls == listed
                else st == Done(()) && calls == listed + Mutations(Follow, acted)
                     && EachOnce(acted, FollowersOfUserTargets(reply.ids, count, following.value, doNotFollow.value))
    {
      acted := [];
      if config == map[] {
        return NotSetUp, acted;
      }
      var following := Load(FollowsKey);
      if following.Failure? {
        return Raised(following.error), acted;
      }
      if !connected {
        return Raised(NoConnection), acted;
      }
      calls := calls + [Listing(FollowersIds, screenName, None)];
      if reply.Failed? {
        return Raised(RemoteError(reply.message)), acted;
      }
      var doNotFollow := Load(AlreadyFollowedKey);
      if doNotFollow.Failure? {
        return Raised(doNotFollow.error), acted;
      }
      acted := IssueEach(Follow, FollowersOfUserTargets(reply.ids, count, following.value, doNotFollow.value));
      return Done(()), acted;
    }

    /** `auto_unfollow_nonfollowers`: first rewrite the already-followed ledger as its
        old contents together with everyone followed who does not follow back (kept
        ones included), then unfollow those not kept, stopping at the first error. */
    method AutoUnfollowNonfollowers(keep: set<int>, failures: map<int, string>)
      returns (st: Outcome<()>, ghost acted: seq<int>, err: Option<string>)
      modifies this`files, this`calls
      ensures config == map[] ==> st == NotSetUp && files == old(files) && calls == old(calls)
      ensures config != map[] ==>
                var following := LoadSnapshot(config, old(files), FollowsKey);
                var followers := LoadSnapshot(config, old(files), FollowersKey);
                var ledger := LoadSnapshot(config, old(files), AlreadyFollowedKey);
                if following.Failure? then st == Raised(following.error) && files == old(files) && calls == old(calls)
                else if followers.Failure? then st == Raised(followers.error) && files == old(files) && calls == old(calls)
                else if ledger.Failure? then st == Raised(ledger.error) && files == old(files) && calls == old(calls)
                else
                  var path := config[AlreadyFollowedKey];
                  path in files && files == old(files)[path := files[path]]
                  && LoadSnapshot(config, files, AlreadyFollowedKey)
                     == Success(NotFollowingBack(following.value, followers.value) + ledger.value)
                  && var targets := UnfollowTargets(following.value, followers.value, keep);
                  if connected then
                    calls == old(calls) + Mutations(Unfollow, acted)
                    && UntilFirstError(acted, targets, failures, err) && st == Stopped(err)
                  else
                    calls == old(calls) && st == (if targets == {} then Done(()) else Raised(NoConnection))
    {
      acted, err := [], None;
      if config == map[] {
        return NotSetUp, acted, err;
      }
      var following := Load(FollowsKey);
      if following.Failure? {
        return Raised(following.error), acted, err;
      }
      var followers := Load(FollowersKey);
      if followers.Failure? {
        return Raised(followers.error), acted, err;
      }
      var notFollowingBack := NotFollowingBack(following.value, followers.value);
      var ledger := Load(AlreadyFollowedKey);
      if ledger.Failure? {
        return Raised(ledger.error), acted, err;
      }
      var path := config[AlreadyFollowedKey];
      var text, order := Render(notFollowingBack + ledger.value);
      RenderedLoads(config, AlreadyFollowedKey, files, order);
      files := files[path := text];
      var targets := UnfollowTargets(following.value, followers.value, keep);
      if !connected {
        st := if targets == {} then Done(()) else Raised(NoConnection);
        return;
      }
      err, acted := IssueUntilError(Unfollow, targets, failures);
      st := Stopped(err);
    }

    /** `auto_mute_following`: mute everyone followed who is not already muted (first
        page of the mute list only) and not kept, stopping at the first error. */
    method AutoMuteFollowing(keep: set<int>, mutedReply: Reply, failures: map<int, string>)
      returns (st: Outcome<()>, ghost acted: seq<int>, err: Option<string>)
      modifies this`calls
      ensures config == map[] ==> st == NotSetUp && calls == old(calls)
      ensures config != map[] ==>
                var following := LoadSnapshot(config, files, FollowsKey);
                if following.Failure? then st == Raised(following.error) && calls == old(calls)
                else if !connected then st == Raised(NoConnection) && calls == old(calls)
                else if HandleKey !in config then st == Raised(MissingKey(HandleKey)) && calls == old(calls)
                else
                  var listed := old(calls) + [Listing(MutedIds, config[HandleKey], None)];
                  if mutedReply.Failed? then st == Raised(RemoteError(mutedReply.message)) && calls == listed
                  else calls == listed + Mutations(Mute, acted)
                       && UntilFirstError(acted, MuteTargets(following.value, Elems(mutedReply.ids), keep), failures, err)
                       && st == Stopped(err)
    {
      acted, err := [], None;
      if config == map[] {
        return NotSetUp, acted, err;
      }
      var following := Load(FollowsKey);
      if following.Failure? {
        return Raised(following.error), acted, err;
      }
      if !connected {
        return Raised(NoConnection), acted, err;
      }
      if HandleKey !in config {
        return Raised(MissingKey(HandleKey)), acted, err;
      }
      calls := calls + [Listing(MutedIds, config[HandleKey], None)];
      if mutedReply.Failed? {
        return Raised(RemoteError(mutedReply.message)), acted, err;
      }
      err, acted := IssueUntilError(Mute, MuteTargets(following.value, Elems(mutedReply.ids), keep), failures);
      st := Stopped(err);
    }

    /** `auto_unmute`: unmute everyone on the first page of the mute list who is not
        kept muted, stopping at the first error. */
    method AutoUnmute(keep: set<int>, mutedReply: Reply, failures: map<int, string>)
      returns (st: Outcome<()>, ghost acted: seq<int>, err: Option<string>)
      modifies this`calls
      ensures config == map[] ==> st == NotSetUp && calls == old(calls)
      ensures config != map[] ==>
                if !connected then st == Raised(NoConnection) && calls == old(calls)
                else if HandleKey !in config then st == Raised(MissingKey(HandleKey)) && calls == old(calls)
                else
                  var listed := old(calls) + [Listing(MutedIds, config[HandleKey], None)];
                  if mutedReply.Failed? then st == Raised(RemoteError(mutedReply.message)) && calls == listed
                  else calls == listed + Mutations(Unmute, acted)
                       && UntilFirstError(acted, UnmuteTargets(Elems(mutedReply.ids), keep), failures, err)
                       && st == Stopped(err)
    {
      acted, err := [], None;
      if config == map[] {
        return NotSetUp, acted, err;
      }
      if !connected {
        return Raised(NoConnection), acted, err;
      }
      if HandleKey !in config {
        return Raised(MissingKey(HandleKey)), acted, err;
      }
      calls := calls + [Listing(MutedIds, config[HandleKey], None)];
      if mutedReply.Failed? {
        return Raised(RemoteError(mutedReply.message)), acted, err;
      }
      err, acted := IssueUntilError(Unmute, UnmuteTargets(Elems(mutedReply.ids), keep), failures);
      st := Stopped(err);
    }
  }
}
