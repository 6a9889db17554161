/** The `MediaChatCommand` scene script: chat lines such as `/yt <id> 30`
    from permitted users set the scene's media URL. `OnChat` is modelled as
    a decision from the sender and the message to what the script does;
    sending chat and overriding the media source are the host's business. */
module MediaChatCommand {
  import opened Options
  import opened Text
  import Decimal

  /** The parts of a chatting agent the script looks at. */
  datatype Agent = Agent(avatarUuid: nat, handle: string)

  /** The access settings: the `RestrictedAccess` property, the handles parsed
      from `AllowedAgents`, and the avatar id of the scene's creator.
      `allowedHandles` is `SplitStringIntoHashSet(AllowedAgents)`, as the
      script builds it once when it starts. */
  datatype AccessPolicy = AccessPolicy(
    restricted: bool,
    allowedHandles: set<string>,
    sceneCreator: nat)

  /** What a chat line makes the script do: nothing, reply with the usage
      text, or override the scene's media source with a URL. */
  datatype Outcome = Ignore | Help(text: string) | SetMedia(url: string)

  /** A piece of a URL template: literal text, or the place where the
      command's argument goes (`{0}` in a .NET format string). */
  datatype Piece = Lit(text: string) | Arg

  /** `string.IsNullOrWhiteSpace` on a non-null string. */
  predicate IsBlank(s: string) {
    AllIn(s, WhiteSpace)
  }

  /** A set member as `SplitStringIntoHashSet` admits it: not empty, no
      surrounding white space, no comma. */
  predicate Admissible(m: string) {
    m != "" && IsTrimmed(m, WhiteSpace) && ',' !in m
  }

  /** `m` is the trim of one of the first `n` entries. */
  predicate TrimOfEntry(parts: seq<string>, n: int, m: string) {
    exists j :: 0 <= j < n && j < |parts| && Trim(parts[j], WhiteSpace) == m
  }

  /** The trim of an entry is blank exactly when the entry is, and the trim
      of a non-blank entry is admissible. */
  lemma TrimEntry(x: string)
    requires ',' !in x
    ensures IsBlank(Trim(x, WhiteSpace)) <==> IsBlank(x)
    ensures !IsBlank(x) ==> Admissible(Trim(x, WhiteSpace))
  {
    var r := Trim(x, WhiteSpace);
    TrimEmpty(x, WhiteSpace);
    if r != [] {
      assert r[0] !in WhiteSpace;
    }
    TrimKeepsOut(x, WhiteSpace, ',');
  }

  /** Entry `j`, unless blank, has its trim in `hash`. */
  predicate Kept(parts: seq<string>, j: int, hash: set<string>)
    requires 0 <= j < |parts|
  {
    !IsBlank(parts[j]) ==> Trim(parts[j], WhiteSpace) in hash
  }

  /** The set the loop of `SplitStringIntoHashSet` has built after the
      first `n` entries. */
  function EntrySet(parts: seq<string>, n: nat): set<string>
    requires n <= |parts|
  {
    if n == 0 then {}
    else
      var part := Trim(parts[n - 1], WhiteSpace);
      EntrySet(parts, n - 1) + (if IsBlank(part) then {} else {part})
  }

  /** The members of `EntrySet` are exactly the admissible trims of the
      non-blank entries. */
  lemma {:induction false} EntrySetMembers(parts: seq<string>, n: nat)
    requires n <= |parts|
    requires forall i :: 0 <= i < |parts| ==> ',' !in parts[i]
    ensures forall m :: m in EntrySet(parts, n) ==> Admissible(m) && TrimOfEntry(parts, n, m)
    ensures forall j :: 0 <= j < n ==> Kept(parts, j, EntrySet(parts, n))
  {
    if n > 0 {
      EntrySetMembers(parts, n - 1);
      TrimEntry(parts[n - 1]);
      var before := EntrySet(parts, n - 1);
      var after := EntrySet(parts, n);
      assert before <= after;
      forall m | m in after
        ensures Admissible(m) && TrimOfEntry(parts, n, m)
      {
        if m !in before {
          assert Trim(parts[n - 1], WhiteSpace) == m;
        }
      }
      assert forall j :: 0 <= j < n - 1 && Kept(parts, j, before) ==> Kept(parts, j, after);
    }
  }

  /** `SplitStringIntoHashSet`: the comma-separated entries of `s`, trimmed,
      without the blank ones. */
  method SplitStringIntoHashSet(s: string) returns (hash: set<string>)
    ensures forall m :: m in hash ==>
      Admissible(m) && TrimOfEntry(Split(s, ','), |Split(s, ',')|, m)
    ensures forall i :: 0 <= i < |Split(s, ',')| ==> Kept(Split(s, ','), i, hash)
  {
    hash := {};
    var parts := Split(s, ',');
    for i := 0 to |parts|
      invariant hash == EntrySet(parts, i)
    {
      var part := Trim(parts[i], WhiteSpace);
      if !IsBlank(part) {
        hash := hash + {part};
      }
    }
    EntrySetMembers(parts, |parts|);
  }

  /** `IsAccessAllowed`: everyone may use the commands unless access is
      restricted; then only a present sender who created the scene or whose
      handle is allowed may. */
  function IsAccessAllowed(p: AccessPolicy, agent: Option<Agent>): (allowed: bool)
    ensures !p.restricted ==> allowed
    ensures p.restricted && agent.None? ==> !allowed
    ensures p.restricted && agent.Some? ==>
      (allowed <==> agent.value.avatarUuid == p.sceneCreator || agent.value.handle in p.allowedHandles)
  {
    if p.restricted then
      var byCreator := agent.Some? && agent.value.avatarUuid == p.sceneCreator;
      var byHandle := agent.Some? && agent.value.handle in p.allowedHandles;
      byCreator || byHandle
    else
      true
  }

  /** The command table built in `Init`: each command with its usage text,
      in declaration order. */
  const Commands: seq<(string, string)> := [
    ("/help", ""),
    ("/media", "[url]"),
    ("/yt", "[video-id] (optional start time)"),
    ("/youtube", "[video-id] (optional start time)"),
    ("/ytlive", "[channel-name]"),
    ("/ytpl", "[playlist-id]"),
    ("/twitch", "[channel-name]"),
    ("/twitchv", "[video-id]"),
    ("/vimeo", "[video-id]")
  ]

  /** `Dictionary.ContainsKey` with a lookup of the value. */
  function Lookup(table: seq<(string, string)>, key: string): (r: Option<string>)
    ensures r.Some? <==> exists i :: 0 <= i < |table| && table[i].0 == key
    ensures r.Some? ==> exists i :: 0 <= i < |table| && table[i] == (key, r.value)
  {
    if |table| == 0 then None
    else if table[0].0 == key then Some(table[0].1)
    else Lookup(table[1..], key)
  }

  predicate IsCommand(word: string) {
    Lookup(Commands, word).Some?
  }

  const HelpHeader: string := "MediaChatCommand usage:"

  /** One line of the usage text: the command, a space, its usage. */
  function UsageLine(entry: (string, string)): string {
    entry.0 + " " + entry.1
  }

  /** The usage lines of a table, in order. */
  function UsageLines(table: seq<(string, string)>): (r: seq<string>)
    ensures |r| == |table|
    ensures forall i :: 0 <= i < |table| ==> r[i] == UsageLine(table[i])
  {
    if |table| == 0 then [] else [UsageLine(table[0])] + UsageLines(table[1..])
  }

  /** The text appended for a table: a newline before each usage line. */
  function HelpLines(table: seq<(string, string)>): string {
    if |table| == 0 then ""
    else "\n" + table[0].0 + " " + table[0].1 + HelpLines(table[1..])
  }

  /** The reply to `/help` and to a known command without an argument. */
  function HelpText(): string {
    HelpHeader + HelpLines(Commands)
  }

  /** The help text is the header and the usage lines joined by newlines. */
  lemma {:induction false} HelpIsJoin(header: string, table: seq<(string, string)>)
    ensures header + HelpLines(table) == Join([header] + UsageLines(table), '\n')
    decreases |table|
  {
    if |table| > 0 {
      var line := UsageLine(table[0]);
      HelpIsJoin(line, table[1..]);
      var parts := [header] + UsageLines(table);
      assert parts[1..] == [line] + UsageLines(table[1..]);
      assert header + HelpLines(table) == header + "\n" + (line + HelpLines(table[1..]));
    } else {
      assert [header] + UsageLines(table) == [header];
    }
  }

  /** No command or usage text of `table` holds a newline. */
  predicate OneLine(table: seq<(string, string)>) {
    forall i :: 0 <= i < |table| ==> '\n' !in table[i].0 && '\n' !in table[i].1
  }

  /** Appending usage lines to a one-line header gives text whose lines are
      the header and then the usage lines. */
  lemma HelpLinesSplit(header: string, table: seq<(string, string)>)
    requires '\n' !in header && OneLine(table)
    ensures Split(header + HelpLines(table), '\n') == [header] + UsageLines(table)
  {
    HelpIsJoin(header, table);
    var parts := [header] + UsageLines(table);
    forall i | 0 <= i < |parts|
      ensures '\n' !in parts[i]
    {
      if i > 0 {
        var e := table[i - 1];
        assert parts[i] == e.0 + " " + e.1;
      }
    }
    SplitJoin(parts, '\n');
  }

  /** Read line by line, the help text is the header followed by one
      `command usage` line per table entry, in table order. */
  lemma HelpTextLines()
    ensures Split(HelpText(), '\n') == [HelpHeader] + UsageLines(Commands)
    ensures |Split(HelpText(), '\n')| == |Commands| + 1
  {
    CommandsOneLine();
    HelpLinesSplit(HelpHeader, Commands);
  }

  /** No command or usage text of the command table holds a newline. */
  lemma CommandsOneLine()
    ensures OneLine(Commands)
  {
    forall i | 0 <= i < |Commands|
      ensures '\n' !in Commands[i].0 && '\n' !in Commands[i].1
    {
      assert i in {0, 1, 2, 3, 4, 5, 6, 7, 8};
    }
  }

  /** `string.Format(template, arg)` for a template using only `{0}`. */
  function Format(tpl: seq<Piece>, arg: string): string {
    if |tpl| == 0 then ""
    else
      (match tpl[0] case Lit(t) => t case Arg => arg) + Format(tpl[1..], arg)
  }

  /** How many times a template substitutes its argument. */
  function Holes(tpl: seq<Piece>): nat {
    if |tpl| == 0 then 0 else (if tpl[0].Arg? then 1 else 0) + Holes(tpl[1..])
  }

  /** The length of a template's literal text. */
  function LiteralLength(tpl: seq<Piece>): nat {
    if |tpl| == 0 then 0
    else (match tpl[0] case Lit(t) => |t| case Arg => 0) + LiteralLength(tpl[1..])
  }

  /** A formatted URL is the literal text plus one copy of the argument per
      hole. */
  lemma {:induction false} FormatLength(tpl: seq<Piece>, arg: string)
    ensures |Format(tpl, arg)| == LiteralLength(tpl) + Holes(tpl) * |arg|
  {
    if |tpl| > 0 {
      FormatLength(tpl[1..], arg);
    }
  }

  /** A longer argument gives a longer URL when the template has a hole. */
  lemma {:induction false} FormatLonger(tpl: seq<Piece>, a: string, b: string)
    requires |a| < |b|
    ensures |Format(tpl, a)| <= |Format(tpl, b)|
    ensures Holes(tpl) > 0 ==> |Format(tpl, a)| < |Format(tpl, b)|
  {
    if |tpl| > 0 {
      FormatLonger(tpl[1..], a, b);
    }
  }

  lemma {:induction false} FormatSameLength(tpl: seq<Piece>, a: string, b: string)
    requires |a| == |b|
    requires Format(tpl, a) == Format(tpl, b)
    ensures Holes(tpl) > 0 ==> a == b
  {
    if |tpl| > 0 {
      var x := match tpl[0] case Lit(t) => t case Arg => a;
      var y := match tpl[0] case Lit(t) => t case Arg => b;
      assert |x| == |y|;
      var s := Format(tpl, a);
      assert s[..|x|] == x && s[|x|..] == Format(tpl[1..], a);
      assert s[..|y|] == y && s[|y|..] == Format(tpl[1..], b);
      FormatSameLength(tpl[1..], a, b);
    }
  }

  /** A template with a hole loses nothing: the URL determines the argument. */
  lemma FormatInjective(tpl: seq<Piece>, a: string, b: string)
    requires Holes(tpl) > 0
    requires Format(tpl, a) == Format(tpl, b)
    ensures a == b
  {
    if |a| < |b| {
      FormatLonger(tpl, a, b);
    } else if |b| < |a| {
      FormatLonger(tpl, b, a);
    } else {
      FormatSameLength(tpl, a, b);
    }
  }

  const YouTube: seq<Piece> := [
    Lit("https://www.youtube.com/embed/"), Arg,
    Lit("?autoplay=1&loop=1&playlist="), Arg,
    Lit("&controls=0")]
  const YouTubeLive: seq<Piece> := [
    Lit("https://www.youtube.com/embed/live_stream?channel="), Arg,
    Lit("&autoplay=1")]
  const YouTubePlaylist: seq<Piece> := [
    Lit("https://www.youtube.com/embed?%20listType=playlist%20&list="), Arg,
    Lit("&loop=1&autoplay=1&controls=0")]
  const Twitch: seq<Piece> := [
    Lit("http://player.twitch.tv/?channel="), Arg,
    Lit("&quality=source&volume=1")]
  const TwitchVideo: seq<Piece> := [
    Lit("http://player.twitch.tv/?video="), Arg,
    Lit("&quality=source&volume=1")]
  const Vimeo: seq<Piece> := [
    Lit("https://player.vimeo.com/video/"), Arg,
    Lit("?autoplay=1&loop=1&autopause=0")]

  /** The service template a command formats its argument into, following
      the order of the `else if` chain in `OnChat`. */
  function Template(command: string): Option<seq<Piece>> {
    if command == "/yt" || command == "/youtube" then Some(YouTube)
    else if command == "/ytlive" then Some(YouTubeLive)
    else if command == "/ytpl" then Some(YouTubePlaylist)
    else if command == "/twitch" then Some(Twitch)
    else if command == "/twitchv" then Some(TwitchVideo)
    else if command == "/vimeo" then Some(Vimeo)
    else None
  }

  predicate IsYouTube(command: string) {
    command == "/yt" || command == "/youtube"
  }

  /** The start-time suffix: `&start=` and the parsed number rendered in
      decimal when the word parses as a 32-bit integer, nothing otherwise. */
  function StartSuffix(word: string): (r: string)
    ensures Decimal.ParseInt32(word).None? ==> r == ""
    ensures Decimal.ParseInt32(word).Some? ==>
      && StartsWith(r, "&start=")
      && Decimal.ParseInt32(r[7..]) == Decimal.ParseInt32(word)
      && r == "&start=" + Decimal.IntToString(Decimal.ParseInt32(word).value)
  {
    match Decimal.ParseInt32(word)
    case None => ""
    case Some(n) =>
      Decimal.ParseRendered(n);
      var r := "&start=" + Decimal.IntToString(n);
      assert r[7..] == Decimal.IntToString(n);
      r
  }

  /** The media URL for a command with at least one argument word. */
  function MediaUrl(command: string, words: seq<string>): string
    requires |words| >= 2
  {
    if command == "/media" || StartsWith(words[1], "http") then
      words[1]
    else
      match Template(command)
      case None => ""
      case Some(tpl) =>
        var url := Format(tpl, words[1]);
        if IsYouTube(command) && |words| > 2 then url + StartSuffix(words[2]) else url
  }

  /** `OnChat`: check the sender, split the line on spaces, and act on the
      first word if it is a command. */
  function OnChat(p: AccessPolicy, sender: Option<Agent>, message: string): (out: Outcome)
    ensures !IsAccessAllowed(p, sender) ==> out == Ignore
    ensures !IsCommand(Split(message, ' ')[0]) ==> out == Ignore
    ensures out.Help? <==>
      && IsAccessAllowed(p, sender)
      && IsCommand(Split(message, ' ')[0])
      && (Split(message, ' ')[0] == "/help" || ' ' !in message)
    ensures out.Help? ==> out.text == HelpText()
    ensures out.SetMedia? ==> ' ' in message && Split(message, ' ')[0] != "/help"
    ensures
      (&& IsAccessAllowed(p, sender)
       && IsCommand(Split(message, ' ')[0])
       && Split(message, ' ')[0] != "/help"
       && ' ' in message)
      ==> out.SetMedia?
  {
    var words := Split(message, ' ');
    SplitIntoSeveral(message, ' ');
    if !IsAccessAllowed(p, sender) then Ignore
    else
      var command := words[0];
      if !IsCommand(command) then Ignore
      else if command == "/help" || |words| < 2 then Help(HelpText())
      else SetMedia(MediaUrl(command, words))
  }

  /** The words of a chat line, none holding a space. */
  predicate Words(words: seq<string>) {
    forall i :: 0 <= i < |words| ==> ' ' !in words[i]
  }

  /** Filling a one-hole template puts the argument between its texts. */
  lemma OneHole(before: string, after: string, arg: string)
    ensures Format([Lit(before), Arg, Lit(after)], arg) == before + arg + after
  {
    var tpl := [Lit(before), Arg, Lit(after)];
    assert tpl[1..] == [Arg, Lit(after)] && tpl[1..][1..] == [Lit(after)];
    assert tpl[1..][1..][1..] == [];
    calc {
      Format(tpl, arg);
      before + Format(tpl[1..], arg);
      before + (arg + Format(tpl[1..][1..], arg));
      before + (arg + (after + Format([], arg)));
      before + (arg + (after + ""));
      { assert after + "" == after; }
      before + arg + after;
    }
  }

  /** The YouTube URL spelled out: the format string of `OnChat` with the
      video id in place of both `{0}`. */
  lemma YouTubeUrl(arg: string)
    ensures Format(YouTube, arg) == "https://www.youtube.com/embed/" + arg
      + "?autoplay=1&loop=1&playlist=" + arg + "&controls=0"
  {
    TwoHoles("https://www.youtube.com/embed/", "?autoplay=1&loop=1&playlist=", "&controls=0", arg);
  }

  /** Filling a two-hole template puts the argument in both places. */
  lemma TwoHoles(first: string, middle: string, last: string, arg: string)
    ensures Format([Lit(first), Arg, Lit(middle), Arg, Lit(last)], arg)
      == first + arg + middle + arg + last
  {
    var tpl := [Lit(first), Arg, Lit(middle), Arg, Lit(last)];
    var rest := [Lit(middle), Arg, Lit(last)];
    assert tpl[1..] == [Arg] + rest;
    assert tpl[1..][1..] == rest;
    OneHole(middle, last, arg);
    assert Format(tpl[1..], arg) == arg + Format(rest, arg);
    assert first + (arg + (middle + arg + last)) == first + arg + middle + arg + last;
  }

  /** The other service URLs spelled out: the format strings of `OnChat`
      with the argument in place of `{0}`. */
  lemma ServiceUrls(arg: string)
    ensures Format(YouTubeLive, arg)
      == "https://www.youtube.com/embed/live_stream?channel=" + arg + "&autoplay=1"
    ensures Format(YouTubePlaylist, arg)
      == "https://www.youtube.com/embed?%20listType=playlist%20&list=" + arg + "&loop=1&autoplay=1&controls=0"
    ensures Format(Twitch, arg) == "http://player.twitch.tv/?channel=" + arg + "&quality=source&volume=1"
    ensures Format(TwitchVideo, arg) == "http://player.twitch.tv/?video=" + arg + "&quality=source&volume=1"
    ensures Format(Vimeo, arg) == "https://player.vimeo.com/video/" + arg + "?autoplay=1&loop=1&autopause=0"
  {
    OneHole("https://www.youtube.com/embed/live_stream?channel=", "&autoplay=1", arg);
    OneHole("https://www.youtube.com/embed?%20listType=playlist%20&list=", "&loop=1&autoplay=1&controls=0", arg);
    OneHole("http://player.twitch.tv/?channel=", "&quality=source&volume=1", arg);
    OneHole("http://player.twitch.tv/?video=", "&quality=source&volume=1", arg);
    OneHole("https://player.vimeo.com/video/", "?autoplay=1&loop=1&autopause=0", arg);
  }

  /** Every command but `/help` and `/media` has a service template, and
      only commands do; the YouTube ones substitute twice, the rest once. */
  lemma TemplatesCoverCommands(command: string)
    ensures Template(command).Some? <==> IsCommand(command) && command != "/help" && command != "/media"
    ensures Template(command).Some? ==> Holes(Template(command).value) == (if IsYouTube(command) then 2 else 1)
  {
    CommandNames(command);
    TemplateHoles();
    if Template(command).Some? {
      TemplateIsService(command);
    } else if IsCommandName(command) {
      UntemplatedNames(command);
    }
  }

  /** Only the six service commands have a template. */
  lemma TemplateIsService(command: string)
    requires Template(command).Some?
    ensures IsCommandName(command) && command != "/help" && command != "/media"
  {
    assert |"/help"| == 5 && |"/media"| == 6;
    if command == "/ytpl" {
      assert command[1] != "/help"[1];
    } else if command == "/vimeo" {
      assert command[1] != "/media"[1];
    }
  }

  /** A command without a template is `/help` or `/media`. */
  lemma UntemplatedNames(command: string)
    requires Template(command).None? && IsCommandName(command)
    ensures command == "/help" || command == "/media"
  {
  }

  /** The names of the command table, spelled out. */
  predicate IsCommandName(w: string) {
    || w == "/help" || w == "/media" || w == "/yt" || w == "/youtube" || w == "/ytlive"
    || w == "/ytpl" || w == "/twitch" || w == "/twitchv" || w == "/vimeo"
  }

  /** A word is a command exactly when it is one of the table's names. */
  lemma CommandNames(w: string)
    ensures IsCommand(w) <==> IsCommandName(w)
  {
    if IsCommand(w) {
      CommandIsName(w);
    }
    if IsCommandName(w) {
      NameIsCommand(w);
    }
  }

  /** Every key of the table is one of the names. */
  lemma CommandIsName(w: string)
    requires IsCommand(w)
    ensures IsCommandName(w)
  {
    var i :| 0 <= i < |Commands| && Commands[i].0 == w;
    assert i in {0, 1, 2, 3, 4, 5, 6, 7, 8};
  }

  /** Every name is a key of the table. */
  lemma NameIsCommand(w: string)
    requires IsCommandName(w)
    ensures IsCommand(w)
  {
    var i :=
      if w == "/help" then 0 else if w == "/media" then 1 else if w == "/yt" then 2
      else if w == "/youtube" then 3 else if w == "/ytlive" then 4 else if w == "/ytpl" then 5
      else if w == "/twitch" then 6 else if w == "/twitchv" then 7 else 8;
    assert Commands[i].0 == w;
  }

  /** The YouTube template substitutes twice, the other service templates
      once. */
  lemma TemplateHoles()
    ensures Holes(YouTube) == 2
    ensures Holes(YouTubeLive) == 1 && Holes(YouTubePlaylist) == 1
    ensures Holes(Twitch) == 1 && Holes(TwitchVideo) == 1 && Holes(Vimeo) == 1
  {
  }

  /** A line starting with a space has an empty first word, which is no
      command, so it is ignored. */
  lemma LeadingSpaceIgnored(p: AccessPolicy, sender: Option<Agent>, message: string)
    requires |message| > 0 && message[0] == ' '
    ensures OnChat(p, sender, message) == Ignore
  {
    assert Split(message, ' ')[0] == "";
    assert !IsCommand("");
  }

  /** A permitted sender's command words reach `OnChat` unchanged. */
  lemma ChatWords(words: seq<string>)
    requires |words| >= 1 && Words(words)
    ensures Split(Join(words, ' '), ' ') == words
  {
    SplitJoin(words, ' ');
  }

  /** A permitted known command other than `/help` with an argument word
      sets the URL `MediaUrl` computes from the words. */
  lemma MediaDispatch(p: AccessPolicy, sender: Option<Agent>, words: seq<string>)
    requires IsAccessAllowed(p, sender)
    requires |words| >= 2 && Words(words)
    requires IsCommand(words[0]) && words[0] != "/help"
    ensures OnChat(p, sender, Join(words, ' ')) == SetMedia(MediaUrl(words[0], words))
  {
    ChatWords(words);
    SplitIntoSeveral(Join(words, ' '), ' ');
  }

  /** `/media`, or an argument starting with "http", sets the argument itself
      as the URL, ahead of every service template. */
  lemma MediaVerbatim(p: AccessPolicy, sender: Option<Agent>, words: seq<string>)
    requires IsAccessAllowed(p, sender)
    requires |words| >= 2 && Words(words)
    requires IsCommand(words[0]) && words[0] != "/help"
    requires words[0] == "/media" || StartsWith(words[1], "http")
    ensures OnChat(p, sender, Join(words, ' ')) == SetMedia(words[1])
  {
    MediaDispatch(p, sender, words);
  }

  /** Past the verbatim case, the URL is the command's template filled in,
      with the start-time suffix for the YouTube commands. */
  lemma TemplateUrl(command: string, words: seq<string>)
    requires |words| >= 2
    requires command != "/media" && !StartsWith(words[1], "http")
    requires Template(command).Some?
    ensures !IsYouTube(command) || |words| == 2 ==>
      MediaUrl(command, words) == Format(Template(command).value, words[1])
    ensures IsYouTube(command) && |words| > 2 ==>
      MediaUrl(command, words) == Format(YouTube, words[1]) + StartSuffix(words[2])
  {
  }

  /** Past the verbatim case, each service command's URL spelled out: the
      format string of its branch in `OnChat` with the argument in place of
      `{0}`, and for `/yt` and `/youtube` the start-time suffix of a third
      word. */
  lemma CommandUrls(words: seq<string>)
    requires |words| >= 2 && !StartsWith(words[1], "http")
    ensures var url := "https://www.youtube.com/embed/" + words[1]
        + "?autoplay=1&loop=1&playlist=" + words[1] + "&controls=0";
      var suffix := if |words| > 2 then StartSuffix(words[2]) else "";
      && MediaUrl("/yt", words) == url + suffix
      && MediaUrl("/youtube", words) == url + suffix
    ensures MediaUrl("/ytlive", words)
      == "https://www.youtube.com/embed/live_stream?channel=" + words[1] + "&autoplay=1"
    ensures MediaUrl("/ytpl", words)
      == "https://www.youtube.com/embed?%20listType=playlist%20&list=" + words[1] + "&loop=1&autoplay=1&controls=0"
    ensures MediaUrl("/twitch", words)
      == "http://player.twitch.tv/?channel=" + words[1] + "&quality=source&volume=1"
    ensures MediaUrl("/twitchv", words)
      == "http://player.twitch.tv/?video=" + words[1] + "&quality=source&volume=1"
    ensures MediaUrl("/vimeo", words)
      == "https://player.vimeo.com/video/" + words[1] + "?autoplay=1&loop=1&autopause=0"
  {
    YouTubeUrl(words[1]);
    ServiceUrls(words[1]);
    if |words| == 2 {
      assert Format(YouTube, words[1]) + "" == Format(YouTube, words[1]);
    }
  }

  /** Any other service command formats its argument into its template;
      the URL determines the argument. */
  lemma ServiceUrl(p: AccessPolicy, sender: Option<Agent>, words: seq<string>)
    requires IsAccessAllowed(p, sender)
    requires |words| >= 2 && Words(words)
    requires Template(words[0]).Some? && !StartsWith(words[1], "http")
    requires IsYouTube(words[0]) ==> |words| == 2
    ensures OnChat(p, sender, Join(words, ' ')) == SetMedia(Format(Template(words[0]).value, words[1]))
    ensures forall other: string ::
      Format(Template(words[0]).value, other) == Format(Template(words[0]).value, words[1]) ==> other == words[1]
  {
    ServiceDispatch(p, sender, words);
    TemplateInjective(words[0], words[1]);
  }

  /** A service command reaches its template through `OnChat`. */
  lemma ServiceDispatch(p: AccessPolicy, sender: Option<Agent>, words: seq<string>)
    requires IsAccessAllowed(p, sender)
    requires |words| >= 2 && Words(words)
    requires Template(words[0]).Some? && !StartsWith(words[1], "http")
    requires IsYouTube(words[0]) ==> |words| == 2
    ensures OnChat(p, sender, Join(words, ' ')) == SetMedia(Format(Template(words[0]).value, words[1]))
  {
    TemplatesCoverCommands(words[0]);
    MediaDispatch(p, sender, words);
    TemplateUrl(words[0], words);
  }

  /** A service URL determines the argument it was filled with. */
  lemma TemplateInjective(command: string, arg: string)
    requires Template(command).Some?
    ensures forall other: string ::
      Format(Template(command).value, other) == Format(Template(command).value, arg) ==> other == arg
  {
    var tpl := Template(command).value;
    TemplatesCoverCommands(command);
    forall other: string | Format(tpl, other) == Format(tpl, arg)
      ensures other == arg
    {
      FormatInjective(tpl, other, arg);
    }
  }

  /** `/yt` and `/youtube` with a third word append the start-time suffix:
      `&start=` and the parsed number when the word parses as a 32-bit
      integer, nothing when it does not. */
  lemma YouTubeStart(p: AccessPolicy, sender: Option<Agent>, words: seq<string>)
    requires IsAccessAllowed(p, sender)
    requires |words| >= 3 && Words(words)
    requires IsYouTube(words[0]) && !StartsWith(words[1], "http")
    ensures OnChat(p, sender, Join(words, ' ')) == SetMedia(Format(YouTube, words[1]) + StartSuffix(words[2]))
  {
    TemplatesCoverCommands(words[0]);
    MediaDispatch(p, sender, words);
    TemplateUrl(words[0], words);
  }
}
