/** The reconciliation rules: which ids each bulk operation acts on (pure set
    differences), what its loop issues under its error policy, and the follow-from-
    search run with its abort rule. */
module Reconcile {
  import opened Basics
  import opened Text
  import opened Remote

  /** `followers - following`: those to follow back. */
  function FollowBackTargets(followers: set<int>, following: set<int>): set<int> {
    followers - following
  }

  /** `following - followers`: those not following back, all of which the
      already-followed ledger remembers. */
  function NotFollowingBack(following: set<int>, followers: set<int>): set<int> {
    following - followers
  }

  /** Those not following back and not kept: the ones unfollowed. */
  function UnfollowTargets(following: set<int>, followers: set<int>, keep: set<int>): set<int> {
    NotFollowingBack(following, followers) - keep
  }

  /** `following - muted`, less those kept unmuted. */
  function MuteTargets(following: set<int>, muted: set<int>, keep: set<int>): set<int> {
    following - muted - keep
  }

  /** Every muted id not kept muted. */
  function UnmuteTargets(muted: set<int>, keep: set<int>): set<int> {
    muted - keep
  }

  /** Python's `ids[:count]`: a prefix, of at most `count` ids when `count` is not
      negative; a negative `count` drops that many ids from the end. */
  function SliceTo(ids: seq<int>, count: int): (r: seq<int>)
    ensures r <= ids
    ensures |r| == if count >= 0 then (if count < |ids| then count else |ids|)
                   else (if -count < |ids| then |ids| + count else 0)
  {
    if count >= 0 then (if count < |ids| then ids[..count] else ids)
    else if -count < |ids| then ids[..|ids| + count] else []
  }

  /** The followers of another user that get followed: among the first `count` ids of
      the first page, those neither followed nor in the do-not-follow ledger. */
  function FollowersOfUserTargets(ids: seq<int>, count: int, following: set<int>, doNotFollow: set<int>): set<int> {
    Elems(SliceTo(ids, count)) - following - doNotFollow
  }

  /** A loop that catches every error of its remote call issues the call once per
      target, whatever fails. */
  ghost predicate EachOnce(acted: seq<int>, targets: set<int>) {
    Distinct(acted) && Elems(acted) == targets
  }

  /** A loop with no handler issues the call for targets one at a time, each once,
      until the first one that fails; `err` is that failure, or None when every
      target was acted on. */
  ghost predicate UntilFirstError(acted: seq<int>, targets: set<int>, failures: map<int, string>, err: Option<string>) {
    Distinct(acted) && Elems(acted) <= targets
    && (forall k :: 0 <= k < |acted| - 1 ==> acted[k] !in failures)
    && match err
       case None => Elems(acted) == targets && (acted == [] || acted[|acted| - 1] !in failures)
       case Some(m) => acted != [] && acted[|acted| - 1] in failures && failures[acted[|acted| - 1]] == m
  }

  /** `"blocked" in str(e).lower()`: the one error that does not stop `auto_follow`. */
  predicate Blocked(message: string) {
    Contains(Lower(message), "blocked")
  }

  /** The test ignores case: an error text that holds "blocked" in any mix of
      capitals lets the run go on. */
  lemma BlockedIgnoresCase(message: string, word: string)
    requires Contains(message, word) && Lower(word) == "blocked"
    ensures Blocked(message)
  {
    var i :| 0 <= i <= |message| && OccursAt(message, word, i);
    LowerSlice(message, i, i + |word|);
    assert OccursAt(Lower(message), "blocked", i);
  }

  /** Lowercasing twice is lowercasing once, so the test gives the same answer on
      an error text and on its lowercase form. */
  lemma BlockedOfLower(message: string)
    ensures Blocked(Lower(message)) <==> Blocked(message)
  {
    LowerIdempotent(message);
  }

  /** The authors of the tweets, other than the account `handle`. */
  function OtherAuthors(tweets: seq<Tweet>, handle: string): set<int> {
    if tweets == [] then {}
    else (if tweets[0].authorName != handle then {tweets[0].authorId} else {})
         + OtherAuthors(tweets[1..], handle)
  }

  /** The ids `auto_follow` issues `friendships.create` for, in order, and whether a
      non-"blocked" error ended the run (the source's `quit()`). */
  datatype Run = Run(attempted: seq<int>, aborted: bool)

  /** `auto_follow` over search results: a tweet's author is followed unless it is
      the bot's own handle, already followed, or in the do-not-follow ledger; a
      successful follow joins `following`; a failure whose text says "blocked" is
      passed over, any other ends the run. */
  function FollowRun(tweets: seq<Tweet>, handle: string, following: set<int>, doNotFollow: set<int>,
                     failures: map<int, string>): Run
  {
    if tweets == [] then Run([], false)
    else
      var author := tweets[0].authorId;
      if tweets[0].authorName != handle && author !in following && author !in doNotFollow then
        if author in failures && !Blocked(failures[author]) then Run([author], true)
        else
          var rest := if author in failures then FollowRun(tweets[1..], handle, following, doNotFollow, failures)
                      else FollowRun(tweets[1..], handle, following + {author}, doNotFollow, failures);
          Run([author] + rest.attempted, rest.aborted)
      else FollowRun(tweets[1..], handle, following, doNotFollow, failures)
  }

  /** A run never attempts an id already followed or in the ledger, and every id it
      attempts is the author of some tweet not by `handle`. */
  lemma {:induction false} FollowRunAvoidsKnown(tweets: seq<Tweet>, handle: string, following: set<int>,
                                                doNotFollow: set<int>, failures: map<int, string>)
    ensures var r := FollowRun(tweets, handle, following, doNotFollow, failures);
      && (forall k :: 0 <= k < |r.attempted| ==> r.attempted[k] !in following && r.attempted[k] !in doNotFollow)
      && Elems(r.attempted) <= OtherAuthors(tweets, handle)
  {
    if tweets != [] {
      var author := tweets[0].authorId;
      if tweets[0].authorName != handle && author !in following && author !in doNotFollow {
        if author !in failures || Blocked(failures[author]) {
          var after := if author in failures then following else following + {author};
          FollowRunAvoidsKnown(tweets[1..], handle, after, doNotFollow, failures);
          var rest := FollowRun(tweets[1..], handle, after, doNotFollow, failures);
          var r := Run([author] + rest.attempted, rest.aborted);
          assert forall k :: 1 <= k < |r.attempted| ==> r.attempted[k] == rest.attempted[k - 1];
          assert Elems(r.attempted) == {author} + Elems(rest.attempted);
        }
      } else {
        FollowRunAvoidsKnown(tweets[1..], handle, following, doNotFollow, failures);
      }
    }
  }

  /** Every id that occurs twice in `attempted` has a failure. */
  predicate RepeatsOnlyFailed(attempted: seq<int>, failures: map<int, string>) {
    forall i, j :: 0 <= i < j < |attempted| && attempted[i] == attempted[j] ==> attempted[i] in failures
  }

  /** An id is attempted twice only if its follow failed: a successful follow joins
      `following`, which later tweets by the same author are checked against. */
  lemma {:induction false} FollowRunRepeatsOnlyFailed(tweets: seq<Tweet>, handle: string, following: set<int>,
                                                      doNotFollow: set<int>, failures: map<int, string>)
    ensures RepeatsOnlyFailed(FollowRun(tweets, handle, following, doNotFollow, failures).attempted, failures)
  {
    if tweets != [] {
      var author := tweets[0].authorId;
      if tweets[0].authorName != handle && author !in following && author !in doNotFollow {
        if author !in failures || Blocked(failures[author]) {
          var after := if author in failures then following else following + {author};
          FollowRunRepeatsOnlyFailed(tweets[1..], handle, after, doNotFollow, failures);
          FollowRunAvoidsKnown(tweets[1..], handle, after, doNotFollow, failures);
          var rest := FollowRun(tweets[1..], handle, after, doNotFollow, failures);
          var r := Run([author] + rest.attempted, rest.aborted);
          assert forall k :: 1 <= k < |r.attempted| ==> r.attempted[k] == rest.attempted[k - 1];
        } else {
          assert FollowRun(tweets, handle, following, doNotFollow, failures).attempted == [author];
        }
      } else {
        FollowRunRepeatsOnlyFailed(tweets[1..], handle, following, doNotFollow, failures);
      }
    }
  }

  /** The run ends early only on a failure not about being blocked, and that failure
      is its last attempt: every earlier failure was a "blocked" one. */
  lemma {:induction false} FollowRunAbortsLast(tweets: seq<Tweet>, handle: string, following: set<int>,
                                               doNotFollow: set<int>, failures: map<int, string>)
    ensures var r := FollowRun(tweets, handle, following, doNotFollow, failures);
      && (r.aborted ==> r.attempted != [] && r.attempted[|r.attempted| - 1] in failures
                        && !Blocked(failures[r.attempted[|r.attempted| - 1]]))
      && (forall k :: 0 <= k < |r.attempted| && r.attempted[k] in failures && !Blocked(failures[r.attempted[k]])
                      ==> r.aborted && k == |r.attempted| - 1)
  {
    if tweets != [] {
      var author := tweets[0].authorId;
      if tweets[0].authorName != handle && author !in following && author !in doNotFollow {
        if author !in failures || Blocked(failures[author]) {
          var after := if author in failures then following else following + {author};
          FollowRunAbortsLast(tweets[1..], handle, after, doNotFollow, failures);
          var rest := FollowRun(tweets[1..], handle, after, doNotFollow, failures);
          var r := Run([author] + rest.attempted, rest.aborted);
          assert forall k :: 1 <= k < |r.attempted| ==> r.attempted[k] == rest.attempted[k - 1];
        }
      } else {
        FollowRunAbortsLast(tweets[1..], handle, following, doNotFollow, failures);
      }
    }
  }

  /** `r` after the ids already attempted. */
  function Behind(attempted: seq<int>, r: Run): Run {
    Run(attempted + r.attempted, r.aborted)
  }

  /** Once a run aborts, tweets after it are never looked at: appending more search
      results changes nothing. */
  lemma {:induction false} AbortIgnoresRest(tweets: seq<Tweet>, more: seq<Tweet>, handle: string,
                                            following: set<int>, doNotFollow: set<int>, failures: map<int, string>)
    requires FollowRun(tweets, handle, following, doNotFollow, failures).aborted
    ensures FollowRun(tweets + more, handle, following, doNotFollow, failures)
            == FollowRun(tweets, handle, following, doNotFollow, failures)
  {
    assert tweets != [];
    assert (tweets + more)[0] == tweets[0] && (tweets + more)[1..] == tweets[1..] + more;
    var author := tweets[0].authorId;
    if tweets[0].authorName != handle && author !in following && author !in doNotFollow {
      if author in failures && !Blocked(failures[author]) {
      } else if author in failures {
        AbortIgnoresRest(tweets[1..], more, handle, following, doNotFollow, failures);
      } else {
        AbortIgnoresRest(tweets[1..], more, handle, following + {author}, doNotFollow, failures);
      }
    } else {
      AbortIgnoresRest(tweets[1..], more, handle, following, doNotFollow, failures);
    }
  }

  /** When no follow fails, the run goes to the end and follows exactly the authors not
      the bot's own handle, not followed and not in the ledger, each once. */
  lemma {:induction false} FollowRunWithoutFailures(tweets: seq<Tweet>, handle: string, following: set<int>,
                                                    doNotFollow: set<int>, failures: map<int, string>)
    requires OtherAuthors(tweets, handle) !! failures.Keys
    ensures var r := FollowRun(tweets, handle, following, doNotFollow, failures);
            !r.aborted && Distinct(r.attempted)
            && Elems(r.attempted) == OtherAuthors(tweets, handle) - following - doNotFollow
  {
    if tweets != [] {
      var author := tweets[0].authorId;
      if tweets[0].authorName != handle && author !in following && author !in doNotFollow {
        FollowRunWithoutFailures(tweets[1..], handle, following + {author}, doNotFollow, failures);
        var rest := FollowRun(tweets[1..], handle, following + {author}, doNotFollow, failures);
        assert Elems([author] + rest.attempted) == {author} + Elems(rest.attempted);
      } else {
        FollowRunWithoutFailures(tweets[1..], handle, following, doNotFollow, failures);
      }
    }
  }

  /** A run that is not aborted reaches every eligible author: each author of a
      result, other than the bot, that was neither followed nor in the ledger is
      attempted, also when some follows failed with a "blocked" error. */
  lemma {:induction false} FollowRunReachesEligible(tweets: seq<Tweet>, handle: string, following: set<int>,
                                                    doNotFollow: set<int>, failures: map<int, string>)
    ensures var r := FollowRun(tweets, handle, following, doNotFollow, failures);
            !r.aborted ==> OtherAuthors(tweets, handle) - following - doNotFollow <= Elems(r.attempted)
  {
    if tweets != [] {
      var author := tweets[0].authorId;
      if tweets[0].authorName != handle && author !in following && author !in doNotFollow {
        if author !in failures || Blocked(failures[author]) {
          var after := if author in failures then following else following + {author};
          FollowRunReachesEligible(tweets[1..], handle, after, doNotFollow, failures);
          var rest := FollowRun(tweets[1..], handle, after, doNotFollow, failures);
          assert Elems([author] + rest.attempted) == {author} + Elems(rest.attempted);
        }
      } else {
        FollowRunReachesEligible(tweets[1..], handle, following, doNotFollow, failures);
      }
    }
  }

  /** Every account `auto_unfollow_nonfollowers` unfollows is in the ledger it writes,
      so neither a later `auto_follow` nor a later `auto_follow_followers_of_user`
      that reads that ledger follows it again. */
  lemma {:induction false} UnfollowedStayUnfollowed(following: set<int>, followers: set<int>, keep: set<int>,
                                                    ledger: set<int>, tweets: seq<Tweet>, handle: string,
                                                    ids: seq<int>, count: int, later: set<int>,
                                                    failures: map<int, string>)
    ensures var written := NotFollowingBack(following, followers) + ledger;
            var r := FollowRun(tweets, handle, later, written, failures);
            && (forall k :: 0 <= k < |r.attempted| ==> r.attempted[k] !in UnfollowTargets(following, followers, keep))
            && UnfollowTargets(following, followers, keep) !! FollowersOfUserTargets(ids, count, later, written)
  {
    FollowRunAvoidsKnown(tweets, handle, later, NotFollowingBack(following, followers) + ledger, failures);
  }
}
