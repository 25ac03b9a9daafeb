/** The configuration file: `key:value` lines read into a dictionary, the eight keys
    without which the bot stays unconfigured, and the empty sync files created once
    the configuration is complete. */
module Config {
  import opened Basics
  import opened Text

  const OAuthTokenKey := "OAUTH_TOKEN"
  const OAuthSecretKey := "OAUTH_SECRET"
  const ConsumerKeyKey := "CONSUMER_KEY"
  const ConsumerSecretKey := "CONSUMER_SECRET"
  const HandleKey := "TWITTER_HANDLE"
  const AlreadyFollowedKey := "ALREADY_FOLLOWED_FILE"
  const FollowersKey := "FOLLOWERS_FILE"
  const FollowsKey := "FOLLOWS_FILE"

  /** The parameters the configuration must give, each with a non-empty value. */
  const Required: seq<string> := [OAuthTokenKey, OAuthSecretKey, ConsumerKeyKey,
                                   ConsumerSecretKey, HandleKey, AlreadyFollowedKey,
                                   FollowersKey, FollowsKey]

  /** The required-parameter condition: every required parameter is present and
      non-empty. */
  predicate Configured(cfg: map<string, string>) {
    forall j :: 0 <= j < |Required| ==> Required[j] in cfg && cfg[Required[j]] != ""
  }

  /** One configuration line: `line.split(":")`, then the stripped first and second
      pieces. Without a ':' there is no second piece (None: the source's IndexError);
      text after a second ':' is dropped, so neither key nor value contains one. */
  function ParseLine(line: string): (kv: Option<(string, string)>)
    ensures kv.None? <==> ':' !in line
    ensures kv.Some? ==> ':' !in kv.value.0 && ':' !in kv.value.1
  {
    match Pieces(line)
    case None => None
    case Some(p) =>
      StripKeepsOut(p.0, ':');
      StripKeepsOut(p.1, ':');
      Some((Strip(p.0), Strip(p.1)))
  }

  /** `line[0]` and `line[1]` of `line.split(":")`, before stripping. */
  function Pieces(line: string): (p: Option<(string, string)>)
    ensures p.None? <==> ':' !in line
    ensures p.Some? ==> ':' !in p.value.0 && ':' !in p.value.1
  {
    var i := FirstIndexOf(line, ':');
    if i == |line| then None
    else
      var rest := line[i + 1..];
      Some((line[..i], rest[..FirstIndexOf(rest, ':')]))
  }

  /** A line with one ':' gives its stripped key and stripped value. */
  lemma ParseKeyValue(k: string, v: string)
    requires ':' !in k && ':' !in v
    ensures ParseLine(k + ":" + v) == Some((Strip(k), Strip(v)))
  {
    var line := k + ":" + v;
    assert line == k + ":" + (v + "");
    PiecesOf(k, v, "");
    StrippedPieces(line, k, v);
  }

  /** A line with two ':' gives the same pair: the third piece is dropped. */
  lemma ParseDropsThirdPiece(k: string, v: string, w: string)
    requires ':' !in k && ':' !in v
    ensures ParseLine(k + ":" + v + ":" + w) == Some((Strip(k), Strip(v)))
  {
    var line := k + ":" + v + ":" + w;
    assert line == k + ":" + (v + (":" + w));
    PiecesOf(k, v, ":" + w);
    StrippedPieces(line, k, v);
  }

  lemma StrippedPieces(line: string, k: string, v: string)
    requires Pieces(line) == Some((k, v))
    ensures ParseLine(line) == Some((Strip(k), Strip(v)))
  {
  }

  lemma PiecesOf(k: string, v: string, tail: string)
    requires ':' !in k && ':' !in v && (tail == [] || tail[0] == ':')
    ensures Pieces(k + ":" + (v + tail)) == Some((k, v))
  {
    var line := k + ":" + (v + tail);
    FirstIndexOfAfter(k, ':', v + tail);
    assert line[..|k|] == k;
    var rest := line[|k| + 1..];
    assert rest == v + tail;
    if tail == [] {
      assert rest == v;
      FirstIndexOfAbsent(v, ':');
    } else {
      FirstIndexOfAfter(v, ':', tail[1..]);
      assert v + [':'] + tail[1..] == rest;
    }
    assert rest[..|v|] == v;
  }

  lemma FirstIndexOfAbsent(s: string, c: char)
    requires c !in s
    ensures FirstIndexOf(s, c) == |s|
  {
  }

  lemma FirstIndexOfAfter(a: string, c: char, b: string)
    requires c !in a
    ensures FirstIndexOf(a + [c] + b, c) == |a|
  {
    var s := a + [c] + b;
    assert s[|a|] == c;
    assert forall k :: 0 <= k < |a| ==> s[k] == a[k];
  }

  /** Stripping never brings in a character the text did not have. */
  lemma StripKeepsOut(s: string, c: char)
    requires c !in s
    ensures c !in Strip(s)
  {
    var r := Strip(s);
    var i :| 0 <= i <= |s| - |r| && s == s[..i] + r + s[i + |r|..]
             && AllSpace(s[..i]) && AllSpace(s[i + |r|..]);
  }

  /** The dictionary after reading lines in order into `cfg`, and the first line
      without a ':' if one stopped the reading (the entries before it are kept). */
  datatype Parsed = Parsed(config: map<string, string>, badLine: Option<string>)

  function ApplyLines(cfg: map<string, string>, lines: seq<string>): Parsed
    decreases |lines|
  {
    if lines == [] then Parsed(cfg, None)
    else match ParseLine(lines[0])
      case None => Parsed(cfg, Some(lines[0]))
      case Some(kv) => ApplyLines(cfg[kv.0 := kv.1], lines[1..])
  }

  /** Reading stops at the first line without a ':' and keeps what the lines before
      it merged in; the lines after it are never read. */
  lemma {:induction false} ApplyLinesStops(cfg: map<string, string>, pre: seq<string>, bad: string, post: seq<string>)
    requires forall k :: 0 <= k < |pre| ==> ':' in pre[k]
    requires ':' !in bad
    ensures ApplyLines(cfg, pre + [bad] + post) == Parsed(ApplyLines(cfg, pre).config, Some(bad))
    decreases |pre|
  {
    var lines := pre + [bad] + post;
    if pre == [] {
      assert lines[0] == bad;
    } else {
      assert lines[0] == pre[0] && lines[1..] == pre[1..] + [bad] + post;
      var kv := ParseLine(pre[0]).value;
      ApplyLinesStops(cfg[kv.0 := kv.1], pre[1..], bad, post);
    }
  }

  /** The value the last line with key `key` gives it, if any line does. */
  function LastValue(lines: seq<string>, key: string): Option<string> {
    if lines == [] then None
    else
      var later := LastValue(lines[1..], key);
      if later.Some? then later
      else match ParseLine(lines[0])
        case Some(kv) => if kv.0 == key then Some(kv.1) else None
        case None => None
  }

  /** When every line has a ':', each key ends with the value of its last line, and a
      key no line names keeps the value it had before (the file updates the existing
      dictionary rather than replacing it). */
  lemma {:induction false} LaterLineWins(cfg: map<string, string>, lines: seq<string>, key: string)
    requires ApplyLines(cfg, lines).badLine.None?
    ensures var m := ApplyLines(cfg, lines).config;
            match LastValue(lines, key)
            case Some(v) => key in m && m[key] == v
            case None => (key in m <==> key in cfg) && (key in cfg ==> m[key] == cfg[key])
    decreases |lines|
  {
    if lines != [] {
      var kv := ParseLine(lines[0]).value;
      LaterLineWins(cfg[kv.0 := kv.1], lines[1..], key);
    }
  }

  /** Reading the same file a second time, into the dictionary the first reading
      left, changes nothing: running `bot_setup` again on an unchanged file is
      harmless. */
  lemma ReapplyLines(cfg: map<string, string>, lines: seq<string>)
    requires ApplyLines(cfg, lines).badLine.None?
    ensures ApplyLines(ApplyLines(cfg, lines).config, lines) == ApplyLines(cfg, lines)
  {
    var once := ApplyLines(cfg, lines).config;
    SameLinesNoBadLine(cfg, once, lines);
    var twice := ApplyLines(once, lines).config;
    forall key | true
      ensures (key in twice <==> key in once) && (key in twice ==> twice[key] == once[key])
    {
      LaterLineWins(cfg, lines, key);
      LaterLineWins(once, lines, key);
    }
  }

  /** Whether some line lacks a ':' depends on the lines alone. */
  lemma {:induction false} SameLinesNoBadLine(cfg: map<string, string>, other: map<string, string>, lines: seq<string>)
    requires ApplyLines(cfg, lines).badLine.None?
    ensures ApplyLines(other, lines).badLine.None?
    decreases |lines|
  {
    if lines != [] {
      var kv := ParseLine(lines[0]).value;
      SameLinesNoBadLine(cfg[kv.0 := kv.1], other[kv.0 := kv.1], lines[1..]);
    }
  }

  /** The line, if it names a required parameter, gives it a non-empty value. */
  predicate KeepsRequired(line: string) {
    ParseLine(line).Some? && ParseLine(line).value.0 in Required ==> ParseLine(line).value.1 != ""
  }

  /** Reading a file into a complete configuration keeps it complete unless some line
      gives a required parameter an empty value: lines that leave out required keys
      do not undo an earlier setup, because the file is merged into the dictionary. */
  lemma {:induction false} StaysConfigured(cfg: map<string, string>, lines: seq<string>)
    requires Configured(cfg)
    requires forall k :: 0 <= k < |lines| ==> KeepsRequired(lines[k])
    ensures Configured(ApplyLines(cfg, lines).config)
    decreases |lines|
  {
    if lines != [] && ParseLine(lines[0]).Some? {
      var kv := ParseLine(lines[0]).value;
      assert KeepsRequired(lines[0]);
      assert forall k :: 0 <= k < |lines[1..]| ==> lines[1..][k] == lines[k + 1];
      StaysConfigured(cfg[kv.0 := kv.1], lines[1..]);
    }
  }

  /** The loop over the required parameters that sets `missing_parameters`. */
  method AnyMissing(cfg: map<string, string>) returns (missing: bool)
    ensures missing <==> !Configured(cfg)
  {
    missing := false;
    for i := 0 to |Required|
      invariant missing <==> exists j :: 0 <= j < i && (Required[j] !in cfg || cfg[Required[j]] == "")
    {
      if Required[i] !in cfg || cfg[Required[i]] == "" {
        missing := true;
      }
    }
  }

  /** The three snapshot files of a complete configuration, in the order the source
      makes sure they exist. */
  function SyncFiles(cfg: map<string, string>): seq<string>
    requires Configured(cfg)
  {
    assert Required[5] == AlreadyFollowedKey && Required[6] == FollowersKey && Required[7] == FollowsKey;
    [cfg[AlreadyFollowedKey], cfg[FollowsKey], cfg[FollowersKey]]
  }

  /** Creating each missing file of `paths` empty: no existing file changes, every
      path exists afterwards, and nothing else is created. */
  function Touch(files: map<string, string>, paths: seq<string>): (r: map<string, string>)
    ensures forall p :: p in files ==> p in r && r[p] == files[p]
    ensures forall p :: p in paths ==> p in r
    ensures forall p :: p in r && p !in files ==> p in paths && r[p] == ""
  {
    if paths == [] then files
    else
      var before := Touch(files, paths[..|paths| - 1]);
      var p := paths[|paths| - 1];
      assert forall q :: q in paths ==> q in paths[..|paths| - 1] || q == p;
      if p in before then before else before[p := ""]
  }
}
