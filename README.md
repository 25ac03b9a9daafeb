# TwitterFollowBot core, modelled in Dafny

`TwitterBot` keeps a configuration dictionary read from a `key:value` file, caches
the ids of its followers and of the accounts it follows in local snapshot files
(one decimal id per line), and reconciles those sets against the Twitter API. It
follows back, follows the followers of another account, follows the authors of
search results, unfollows those who do not follow back, and mutes and unmutes.
This project models that core:

- **Setup gate.** `bot_setup` reads the file into the existing dictionary. Each
  line is split on ':', and the key and the piece after the first ':' are
  stripped; text after a second ':' is dropped. If any of the eight required
  parameters is missing or empty, the dictionary is emptied. Otherwise the three
  snapshot files are created if they are missing, and then the connection to the
  API. Every public operation only reports while the dictionary is empty. Because
  the file is merged into the dictionary, running `bot_setup` again on a file
  that leaves out required parameters keeps a configured bot (all eight present
  and non-empty) configured. A configured bot is reset to an empty dictionary
  only when a line gives a required parameter an empty value. A dictionary that
  is non-empty but incomplete, left by a `bot_setup` that stopped at a bad line,
  passes the gates. It is reset by the next `bot_setup` that reads its whole
  file and still leaves a required parameter missing or empty; a `bot_setup`
  whose file is missing or holds a line without ':' raises first and leaves it
  as it is.
- **Connection.** The connection exists only once a `bot_setup` has got through
  the required-parameter check, and nothing clears it. A bot whose `bot_setup`
  stopped at a bad line can hold a non-empty dictionary without a connection.
  Its remote operations then raise at their first remote call, or, in
  `auto_follow_followers`, catch that error for every id.
- **Snapshots and paging.** `sync_follows` lists followers and then followed
  accounts, cursor by cursor. The first page is written over the file and every
  later page is appended to it. The `get_*_list` readers parse one `int(line)`
  per line into a set.
- **Reconcilers.** Each one works out a set difference and issues one remote
  mutation per element, under its own error policy:
  - `auto_follow_followers` catches every exception of each follow
    (TwitterBot.py:321) and carries on;
  - `auto_follow_followers_of_user` catches only `TwitterHTTPError`
    (TwitterBot.py:347); as every remote failure in the model is one, it carries
    on after each;
  - `auto_follow` passes over errors whose text says "blocked" and stops the
    process on any other;
  - unfollow, mute and unmute have no handler, so the first error ends the loop.

Modules:

| module | what it holds |
|---|---|
| `Basics` | `Option`, `Result`, the error kinds, set iteration in an unspecified order |
| `Text` | `strip()`, `lower()`, the substring test, and splitting a file into lines |
| `Decimal` | decimal numerals, and Python 2's `int(line)` |
| `Snapshot` | writing and reading snapshot files |
| `Config` | configuration lines, the required keys, and creating the sync files |
| `Remote` | the remote API's answers and the calls issued to it |
| `Paging` | cursor pagination as a function of the answers |
| `Reconcile` | the target sets, the error policies, and the `auto_follow` run |
| `Bot` | the `TwitterBot` class: its `config`, `files`, `calls` and `connected` fields and its operations |

How the environment is modelled:

- **Files** are a map from path to text.
- **Remote API.** The API is given as parameters.
  - Listing calls are answered in order from a sequence of replies, each a page
    `(ids, next_cursor)` or a failure. Running out of replies is a failure.
  - Mutations fail for the ids in a map from id to error text.
  - A search returns tweets or fails.
- **Calls issued** are appended to the `calls` field, so contracts say exactly
  which calls each operation makes.
- **Set iteration order.** Python leaves it unspecified, so the loops pick
  elements in an unspecified order. Their contracts speak of the set of ids acted
  on and say that each id is acted on once.
- **Keep-sets.** The source hard-codes `users_keep_following`,
  `users_keep_unmuted` and `users_keep_muted` as empty sets
  (TwitterBot.py:367, 407, 429). The model takes them as parameters.
- **Outcomes.** Each operation reports one of:
  - `NotSetUp`: the gate refused to run;
  - `Done`: it returned normally;
  - `Aborted`: the `quit()` of `auto_follow`;
  - `Raised`: an exception escaped, with the error (`MissingKey` for a
    `KeyError`, `NoSuchFile`, `MalformedConfigLine` for an `IndexError`,
    `NotAnInteger` for `int()`'s `ValueError`, `RemoteError`, or
    `NoConnection` for the `AttributeError` of a remote call made without a
    connection).

## Model

| member | source | states |
|---|---|---|
| Text.Strip | TwitterBot.py:53-54 | `strip()` leaves a slice of the text that has only whitespace on either side of it and neither starts nor ends with whitespace |
| Text.StripUnpadded | TwitterBot.py:53-54 | text without whitespace at either end is unchanged by `strip()` |
| Text.StripIdempotent | TwitterBot.py:53-54 | stripping twice gives the same as stripping once |
| Text.FirstIndexOf | TwitterBot.py:52 | the split point is the first occurrence: nothing before it is the separator |
| Text.Lines | TwitterBot.py:51 | iterating a file yields lines without a newline inside them |
| Text.LinesLast | TwitterBot.py:51 | a last line without a newline is still read as a line, as for a configuration file saved without a final newline |
| Text.LinesCons | TwitterBot.py:162 | a line followed by a newline is the first line read, and the rest of the file gives the rest |
| Text.Lower | TwitterBot.py:299 | `str(e).lower()`: ASCII capitals become lowercase letters and every other character stays |
| Reconcile.Blocked | TwitterBot.py:299 | whether an error lets `auto_follow` go on: its lowercased text holds "blocked"; BlockedIgnoresCase and BlockedOfLower state what that admits |
| Reconcile.BlockedIgnoresCase | TwitterBot.py:299 | an error text holding "blocked" in any mix of capitals passes the test, because the text is lowercased before the search |
| Reconcile.BlockedOfLower | TwitterBot.py:299 | the test gives the same answer on an error text and on its lowercase form |
| Decimal.NatToString | TwitterBot.py:120 | `"%s" % id` of a non-negative id is a non-empty run of digits without a leading zero |
| Decimal.NatRoundTrip | TwitterBot.py:163 | the digits written for an id are worth that id |
| Decimal.IntToString | TwitterBot.py:120 | the text written for an id holds no newline and has no whitespace at either end |
| Decimal.ParseInt | TwitterBot.py:163 | `int(line)`: whitespace around an optional sign and at least one digit is ignored, and anything else is a `ValueError`; IntRoundTrip states that it reads back every id written |
| Decimal.IntRoundTrip | TwitterBot.py:163 | `int()` of the text written for any id, negative ones included, gives that id back |
| Snapshot.Serialize | TwitterBot.py:118-129 | the text of writing `"%s\n" % id` for each id in turn; SerializeRoundTrip and SerializeAppend state its properties |
| Snapshot.SerializeAppend | TwitterBot.py:127-129 | appending a page's lines to a file gives the text of writing both runs of ids in one go |
| Snapshot.ParseLines | TwitterBot.py:162-163 | `int(line)` for each line in turn: the ids in order, or the `ValueError` of the first line that is not a numeral |
| Snapshot.ParseIds | TwitterBot.py:160-165 | a snapshot file's text read line by line with `int(line)`; SerializeRoundTrip states that it reads back what was written |
| Snapshot.SerializeRoundTrip | TwitterBot.py:160-165 | reading back a file of written ids gives the same ids in the same order |
| Snapshot.ReadIds | TwitterBot.py:160-165 | the reading loop returns the set of ids parsed from the lines, or the first line that is not a numeral |
| Snapshot.Render | TwitterBot.py:118-120 | writing a set emits every element exactly once, in some order |
| Snapshot.RenderReadsBack | TwitterBot.py:196-201 | a file written from a set reads back as that set |
| Config.ParseLine | TwitterBot.py:52-54 | a line without ':' has no second piece (the `IndexError`); otherwise neither key nor value contains ':', because text after a second ':' is dropped |
| Config.Pieces | TwitterBot.py:52-54 | `line[0]` and `line[1]` of `line.split(":")`: none without a ':', and neither holds a ':' |
| Config.ParseKeyValue | TwitterBot.py:52-54 | a line `key:value` gives the stripped key and the stripped value |
| Config.ParseDropsThirdPiece | TwitterBot.py:52-54 | a line `key:value:more` gives the same stripped key and value: the text after the second ':' is dropped |
| Config.ApplyLines | TwitterBot.py:50-55 | reading the lines in order into the existing dictionary, stopping at the first line without ':' with the earlier lines kept; LaterLineWins and ReapplyLines state its properties |
| Config.ApplyLinesStops | TwitterBot.py:50-55 | reading stops at the first line without ':' (the `IndexError`), keeping what the lines before it merged in and never reading the lines after it |
| Config.LaterLineWins | TwitterBot.py:50-55 | after reading a file whose lines all have a ':', each key holds the value of its last line, and keys no line names keep their earlier value (the file is merged into the existing dictionary) |
| Config.ReapplyLines | TwitterBot.py:50-55 | reading the same file again into the resulting dictionary changes nothing |
| Config.Configured | TwitterBot.py:58-67 | the required-parameter condition: each of the eight required parameters is present with a non-empty value |
| Config.SyncFiles | TwitterBot.py:76-78 | the three sync-file paths of a configuration that meets the required-parameter condition, in the order the source checks them |
| Config.StaysConfigured | TwitterBot.py:50-67 | reading a file into a complete configuration keeps it complete unless a line gives a required parameter an empty value |
| Config.AnyMissing | TwitterBot.py:62-67 | `missing_parameters` is set exactly when some required key is absent or empty |
| Config.Touch | TwitterBot.py:76-81 | creating the sync files leaves existing files untouched, makes every path exist, and creates nothing but those paths, each empty |
| Paging.Fetch | TwitterBot.py:114-129 | the first call carries no cursor; paging ends at the first page whose cursor is 0 or at the first failing call; every page is an answer, and there are no more pages than answers |
| Paging.FetchCursorAt | TwitterBot.py:122-125 | each further call passes the non-zero cursor of the page before it |
| Paging.FetchPageAt | TwitterBot.py:123-124 | the i-th page kept is the ids of the i-th answer |
| Paging.PagingTurn | TwitterBot.py:122-129 | one turn of the `while next_cursor != 0` loop: a failure ends the walk, cursor 0 ends it with that page, and any other cursor goes on from the next answer |
| Paging.ThreePages | TwitterBot.py:114-129 | answers with cursors 5, 9 and 0 lead to three calls, without a cursor and then with 5 and 9, and all three pages are kept |
| Reconcile.SliceTo | TwitterBot.py:336 | `ids[:count]` is a prefix: the first `count` ids (all of them when there are fewer) for a non-negative count; a negative count drops that many ids from the end, and leaves none when it drops at least all of them |
| Reconcile.FollowBackTargets | TwitterBot.py:316 | those to follow back: followers not followed |
| Reconcile.NotFollowingBack | TwitterBot.py:369-372 | `following - followers`: the accounts not following back, all of which the rewritten ledger holds |
| Reconcile.UnfollowTargets | TwitterBot.py:367-385 | those unfollowed: followed accounts that do not follow back, less those kept |
| Reconcile.MuteTargets | TwitterBot.py:403-410 | those muted: followed accounts not muted yet, less those kept unmuted |
| Reconcile.UnmuteTargets | TwitterBot.py:429-432 | those unmuted: muted accounts not kept muted |
| Reconcile.FollowersOfUserTargets | TwitterBot.py:336-342 | those followed by `auto_follow_followers_of_user`: the first `count` ids of the page, less those followed or in the ledger |
| Reconcile.OtherAuthors | TwitterBot.py:284-286 | the authors of the search results whose screen name is not the bot's own handle |
| Reconcile.FollowRun | TwitterBot.py:284-300 | the `auto_follow` loop as a function of the search results: the ids followed in order and whether it ended in `quit()`; its properties are the FollowRun lemmas below |
| Reconcile.FollowRunAvoidsKnown | TwitterBot.py:284-291 | `auto_follow` never attempts its own handle, an id already followed, or one in the do-not-follow ledger; every id attempted is the author of a search result |
| Reconcile.FollowRunRepeatsOnlyFailed | TwitterBot.py:286-291 | an id is attempted twice only after its follow failed, because a successful follow joins the followed set |
| Reconcile.FollowRunAbortsLast | TwitterBot.py:284-300 | the run stops early only on a failure whose text does not say "blocked", and that failure is its last attempt; every earlier failure said "blocked" |
| Reconcile.AbortIgnoresRest | TwitterBot.py:298-300 | once the run stops, later search results are never looked at |
| Reconcile.FollowRunReachesEligible | TwitterBot.py:284-300 | a run that does not abort attempts every author other than the bot that was neither followed nor in the ledger, also when some follows failed with "blocked" |
| Reconcile.FollowRunWithoutFailures | TwitterBot.py:284-291 | when no follow fails, exactly the authors other than the bot, not followed and not in the ledger are followed, each once |
| Reconcile.UnfollowedStayUnfollowed | TwitterBot.py:371-387 | every account unfollowed is in the ledger written before the unfollows, so neither `auto_follow` nor `auto_follow_followers_of_user` follows it again |
| Bot.LoadSnapshot | TwitterBot.py:160-165 | reading the snapshot a configuration key names: `KeyError` without the key, `IOError` without the file, otherwise the set of `int(line)` over its lines or the first `ValueError` |
| Bot.Gated | TwitterBot.py:150-165 | a reader's answer: only a report while the dictionary is empty, otherwise the snapshot's ids or the error that escaped |
| Bot.WalkListing | TwitterBot.py:114-129 | a listing whose first call returns a page issues one call per cursor of the walk, and the file's text holds exactly the union of the pages |
| Bot.WalkCursors | TwitterBot.py:122-129 | the cursor loop makes the calls of the walk from the given cursor, and the text then covers the pages fetched as well as what it held before |
| Bot.FollowAuthors | TwitterBot.py:284-300 | the follow loop issues `friendships.create` for exactly the ids of the follow run, in order, and stops exactly when the run aborts |
| Bot.TwitterBot.Ready | TwitterBot.py:108-111 | the gate every public operation checks first: the dictionary is non-empty; unlike Configured it holds for a partial dictionary left by a `bot_setup` that stopped at a bad line |
| Bot.TwitterBot.constructor | TwitterBot.py:31-36 | a new bot has an empty configuration, no connection, and has issued no calls |
| Bot.TwitterBot.BotSetup | TwitterBot.py:41-81 | a missing file raises; a line without ':' raises with the lines before it merged in; an incomplete configuration empties the dictionary; a complete one keeps the merged dictionary, creates the missing sync files and then the connection; every other end leaves the connection as it was; after a normal return the bot is Ready exactly when it meets the required-parameter condition (Configured), and a Ready bot is connected |
| Bot.TwitterBot.ReadLines | TwitterBot.py:50-55 | the reading loop leaves the dictionary that reading the lines in order gives, and stops at the first line without ':' |
| Bot.TwitterBot.TouchAll | TwitterBot.py:76-81 | the sync-file loop leaves the files `Touch` describes |
| Bot.TwitterBot.Load | TwitterBot.py:160-165 | reading a snapshot raises on a missing key, a missing file or a bad line, and otherwise returns the set of its ids |
| Bot.TwitterBot.GetDoNotFollowList | TwitterBot.py:150-165 | before setup the reader reports only; after it, it returns the ledger's ids or the error |
| Bot.TwitterBot.GetFollowersList | TwitterBot.py:168-183 | before setup the reader reports only; after it, it returns the followers snapshot or the error |
| Bot.TwitterBot.GetFollowsList | TwitterBot.py:186-201 | before setup the reader reports only; after it, it returns the follows snapshot or the error |
| Bot.TwitterBot.SyncListing | TwitterBot.py:114-129 | without a connection the first call raises before anything happens; a missing handle raises before any call; the calls issued are exactly those of the paging walk; if any page came, only the snapshot file changes and it reads back as exactly the union of the pages, whatever it held before |
| Bot.TwitterBot.SyncFollows | TwitterBot.py:96-147 | before setup nothing happens; without a connection the first listing call raises and nothing changes; otherwise the followers listing runs into FOLLOWERS_FILE and, unless it raised, the follows listing into FOLLOWS_FILE |
| Bot.TwitterBot.IssueEach | TwitterBot.py:318-322 | a loop that catches every error issues the call once for every target, whatever fails |
| Bot.TwitterBot.IssueUntilError | TwitterBot.py:384-387 | a loop without a handler issues the call for distinct targets until the first failure, which ends it with that error; with no failure, every target is acted on |
| Bot.TwitterBot.AutoFollow | TwitterBot.py:270-300 | without a connection the search raises and nothing is issued; otherwise search, then the two snapshots, raising at the first failure; a missing handle raises only when there are tweets; otherwise the follows issued are those of the follow run, and the process stops exactly when the run aborts |
| Bot.TwitterBot.AutoFollowFollowers | TwitterBot.py:303-322 | `friendships.create` is issued exactly once for each id in followers minus followed, and a failing one does not stop the others; without a connection each attempt's error is caught, so nothing is issued and the operation returns normally |
| Bot.TwitterBot.AutoFollowFollowersOfUser | TwitterBot.py:325-348 | after the follows snapshot is read, a missing connection raises; otherwise one listing call, first page only; follows go exactly to the first `count` of its ids, less those followed or in the ledger |
| Bot.TwitterBot.AutoUnfollowNonfollowers | TwitterBot.py:351-387 | the ledger is rewritten as the old ledger together with everyone followed who does not follow back (kept ones included) before any unfollow; unfollows go to those not following back and not kept, until the first error; without a connection the ledger is still rewritten, and the first unfollow raises, so the operation raises exactly when there is someone to unfollow |
| Bot.TwitterBot.AutoMuteFollowing | TwitterBot.py:390-412 | the follows snapshot is read; without a connection the mute-list call raises; otherwise one mute-list call; mutes go to the followed accounts not muted and not kept, until the first error |
| Bot.TwitterBot.AutoUnmute | TwitterBot.py:415-434 | without a connection the mute-list call raises; otherwise one mute-list call; unmutes go to every muted account not kept muted, until the first error |

## Left out

- `auto_fav` and `auto_rt` (TwitterBot.py:217-267) are thin loops over remote calls.
- The staleness warning (TwitterBot.py:84-87) reads wall-clock time and file dates, and it only prints.
- The OAuth connection and the `twitter` library (TwitterBot.py:21, 90-93) are foreign code. The model keeps only whether the connection exists (the `connected` field). The remote API is the replies given as parameters.
- Everything printed is left out, and so is the text printed.
- `search_tweets` (TwitterBot.py:204-214) is one remote call. It appears only as the `Search` call that `auto_follow` issues, answered by a parameter.
- `quit()` is the `Aborted` outcome, not the end of a process.
- Bot.TwitterBot.constructor: `__init__` also runs `bot_setup`. Here that is the constructor followed by a call to `BotSetup`.
- Bot.TwitterBot.SyncListing: the file is written once, with the final text, rather than page by page. The state after the operation is the same. This holds for both the normal end and the end at a failing call.
- The remote API is a finite sequence of answers, so a server that keeps returning non-zero cursors is modelled as answers that run out, which is a failure.
- Python 2's `int()` also accepts whitespace between the sign and the digits. The model does not accept that, and the bot never writes it.
- Only ASCII letters are lowercased by `lower()`, as in Python 2 on byte strings.
- Every remote failure is a `TwitterHTTPError`. Other errors the client library can raise, such as a transport failure, are not modelled. The source catches those per id at TwitterBot.py:321, but at 295 and 347 they escape, in `auto_follow` without the "blocked" test.
- Mutation failures are keyed by account id, so every attempt on the same id gives the same answer. When `auto_follow` tries an author again after a "blocked" failure, that try fails again with the same text. A retry that succeeds, or fails differently, is not expressed. No property proved here depends on this.
