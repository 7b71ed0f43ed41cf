/** CommandHandler (stumblebot.js): the first-match prefix dispatch over the
    command keywords, the argument checks of .toke and .yt, and the .commands
    list. What a handler sends is returned as the messages it hands to the
    outbound queue; what handlePing sends one second later is returned
    separately. */
module Commands {
  import opened Messages
  import opened Text
  import opened Timers
  import opened Countdown

  datatype Command = YtCommand | TokeCommand | CommandsCommand | PingCommand | CheersCommand | RulesCommand

  /** The COMMANDS table. */
  function Keyword(c: Command): string
  {
    match c
    case YtCommand => ".yt"
    case TokeCommand => ".toke"
    case CommandsCommand => ".commands"
    case PingCommand => "ping"
    case CheersCommand => ".cheers"
    case RulesCommand => ".rules"
  }

  /** The order of the handler table; Object.entries keeps insertion order. */
  const DECLARED_ORDER: seq<Command> :=
    [YtCommand, TokeCommand, CommandsCommand, PingCommand, CheersCommand, RulesCommand]

  predicate Matches(text: string, c: Command)
  {
    StartsWith(text, Keyword(c))
  }

  /** The index of the first command in `order` whose keyword starts the
      text, or |order| when there is none. */
  function FirstMatchIndex(order: seq<Command>, text: string): (i: nat)
    ensures i <= |order|
    ensures forall j :: 0 <= j < i ==> !Matches(text, order[j])
    ensures i < |order| ==> Matches(text, order[i])
  {
    if order == [] then 0
    else if Matches(text, order[0]) then 0
    else 1 + FirstMatchIndex(order[1..], text)
  }

  /** The command handleCommand runs on a text, if any. */
  function Matching(text: string): (r: Option<Command>)
    ensures r.Some? ==> Matches(text, r.value)
    ensures r.None? ==> forall j :: 0 <= j < |DECLARED_ORDER| ==> !Matches(text, DECLARED_ORDER[j])
  {
    var i := FirstMatchIndex(DECLARED_ORDER, text);
    if i < |DECLARED_ORDER| then Some(DECLARED_ORDER[i]) else None
  }

  /** The search loop of handleCommand: the first keyword, in declared
      order, that starts the text. */
  method FindCommand(text: string) returns (found: Option<Command>)
    ensures found == Matching(text)
    ensures found.Some? ==> Matches(text, found.value)
    ensures found.None? ==> forall c :: !Matches(text, c)
  {
    for i := 0 to |DECLARED_ORDER|
      invariant forall j :: 0 <= j < i ==> !Matches(text, DECLARED_ORDER[j])
    {
      if StartsWith(text, Keyword(DECLARED_ORDER[i])) {
        return Some(DECLARED_ORDER[i]);
      }
    }
    forall c ensures !Matches(text, c) {
      var p := Position(c);
      assert !Matches(text, DECLARED_ORDER[p]);
    }
    return None;
  }

  /** Where a command sits in the declared order: each command has a place. */
  function Position(c: Command): (p: nat)
    ensures p < |DECLARED_ORDER| && DECLARED_ORDER[p] == c
  {
    match c
    case YtCommand => 0
    case TokeCommand => 1
    case CommandsCommand => 2
    case PingCommand => 3
    case CheersCommand => 4
    case RulesCommand => 5
  }

  /** No keyword is a prefix of another. */
  lemma KeywordsPrefixFree(a: Command, b: Command)
    requires a != b
    ensures !StartsWith(Keyword(b), Keyword(a))
  {
    var ka, kb := Keyword(a), Keyword(b);
    if |ka| <= |kb| {
      assert kb[..|ka|][0] == kb[0] && kb[..|ka|][1] == kb[1];
      assert ka[0] != kb[0] || ka[1] != kb[1] || ka[2] != kb[2];
      assert kb[..|ka|][2] == kb[2];
    }
  }

  /** Two keywords that both start one text start one another. */
  lemma CommonPrefix(text: string, a: string, b: string)
    requires StartsWith(text, a) && StartsWith(text, b) && |a| <= |b|
    ensures StartsWith(b, a)
  {
    assert b[..|a|] == text[..|b|][..|a|];
  }

  /** At most one keyword starts any text. */
  lemma AtMostOneMatch(text: string, a: Command, b: Command)
    requires Matches(text, a) && Matches(text, b)
    ensures a == b
  {
    if a != b {
      if |Keyword(a)| <= |Keyword(b)| {
        CommonPrefix(text, Keyword(a), Keyword(b));
        KeywordsPrefixFree(a, b);
      } else {
        CommonPrefix(text, Keyword(b), Keyword(a));
        KeywordsPrefixFree(b, a);
      }
    }
  }

  /** Because the keywords are prefix-free, the first match in declared
      order is the one command whose keyword starts the text, and there is
      none exactly when no keyword does. */
  lemma MatchingIsTheMatch(text: string, c: Command)
    ensures Matching(text) == Some(c) <==> Matches(text, c)
    ensures Matching(text) == None <==> forall d :: !Matches(text, d)
  {
    var i := FirstMatchIndex(DECLARED_ORDER, text);
    if Matches(text, c) {
      assert i <= Position(c);
      AtMostOneMatch(text, DECLARED_ORDER[i], c);
    }
    forall d | i == |DECLARED_ORDER| ensures !Matches(text, d) {
      var p := Position(d);
      assert !Matches(text, DECLARED_ORDER[p]);
    }
  }

  /** Every keyword starts with '.' or with the 'p' of ping, so a text
      that starts with neither matches nothing. */
  lemma NoKeywordStarts(text: string)
    requires text != [] && text[0] != '.' && text[0] != 'p'
    ensures Matching(text) == None
  {
    forall d ensures !Matches(text, d) {
      var k := Keyword(d);
      assert k[0] == '.' || k[0] == 'p';
      assert |k| <= |text| ==> text[..|k|][0] == text[0];
    }
    MatchingIsTheMatch(text, YtCommand);
  }

  /** Keywords are matched at the start only, and keep their case: "Ping",
      " .rules" and "say ping" run nothing. */
  lemma UnmatchedExamples()
    ensures Matching("Ping") == None && Matching(" .rules") == None && Matching("say ping") == None
  {
    NoKeywordStarts("Ping");
    NoKeywordStarts(" .rules");
    NoKeywordStarts("say ping");
  }

  /** Anything may follow a keyword: ".ytfoo" and "pingpong" run handlers. */
  lemma MatchedExamples()
    ensures Matching(".ytfoo") == Some(YtCommand) && Matching("pingpong") == Some(PingCommand)
  {
    assert ".ytfoo"[..3] == ".yt";
    MatchingIsTheMatch(".ytfoo", YtCommand);
    assert "pingpong"[..4] == "ping";
    MatchingIsTheMatch("pingpong", PingCommand);
  }

  /** The lowest and highest accepted .toke durations. */
  const TOKE_MIN := 60
  const TOKE_MAX := 240

  /** The argument of a command: the text after the keyword, trimmed. */
  function Argument(text: string, c: Command): (arg: string)
    ensures arg != [] ==> |Keyword(c)| + |arg| <= |text|
    ensures arg != [] ==> !IsJsSpace(arg[0]) && !IsJsSpace(arg[|arg| - 1])
  {
    Trim(Slice(text, |Keyword(c)|))
  }

  /** The argument after a keyword and white space is kept as typed. */
  lemma ArgumentAfter(c: Command, pad: string, arg: string)
    requires forall i :: 0 <= i < |pad| ==> IsJsSpace(pad[i])
    requires arg != [] && !IsJsSpace(arg[0]) && !IsJsSpace(arg[|arg| - 1])
    ensures Argument(Keyword(c) + pad + arg, c) == arg
  {
    var k := Keyword(c);
    assert (k + pad + arg)[|k|..] == pad + arg;
    TrimAround(pad, arg);
  }

  /** handleToke's check: parseInt of the argument, neither NaN nor outside
      [60, 240]. */
  function TokeDuration(text: string): (d: Option<int>)
    ensures d.Some? <==> (ParseInt(Argument(text, TokeCommand)).Some? &&
                          TOKE_MIN <= ParseInt(Argument(text, TokeCommand)).value <= TOKE_MAX)
    ensures d.Some? ==> d == ParseInt(Argument(text, TokeCommand))
  {
    var duration := ParseInt(Argument(text, TokeCommand));
    if duration.Some? && TOKE_MIN <= duration.value <= TOKE_MAX then duration else None
  }

  /** ".toke", any white space, and a numeral in range gives that number. */
  lemma TokeAcceptsNumeral(pad: string, n: nat)
    requires forall i :: 0 <= i < |pad| ==> IsJsSpace(pad[i])
    requires TOKE_MIN <= n <= TOKE_MAX
    ensures TokeDuration(".toke" + pad + Decimal(n)) == Some(n)
  {
    NumeralArgument(pad, n);
  }

  /** A numeral out of range, or none at all, is refused. */
  lemma TokeRejects(pad: string, n: nat)
    requires forall i :: 0 <= i < |pad| ==> IsJsSpace(pad[i])
    requires n < TOKE_MIN || TOKE_MAX < n
    ensures TokeDuration(".toke" + pad + Decimal(n)) == None
    ensures TokeDuration(".toke") == None
  {
    NumeralArgument(pad, n);
    assert Argument(".toke", TokeCommand) == [];
  }

  lemma NumeralArgument(pad: string, n: nat)
    requires forall i :: 0 <= i < |pad| ==> IsJsSpace(pad[i])
    ensures ParseInt(Argument(".toke" + pad + Decimal(n), TokeCommand)) == Some(n)
  {
    DecimalDigits(n);
    var d := Decimal(n);
    assert !IsJsSpace(d[0]) && !IsJsSpace(d[|d| - 1]);
    ArgumentAfter(TokeCommand, pad, d);
    ParseDecimal(n, []);
    assert d + [] == d;
  }

  /** handleYouTube: a non-empty argument is queued as a priority "add". */
  function YouTubeRequest(text: string): (out: seq<Outbound>)
    ensures out == [] <==> Argument(text, YtCommand) == []
    ensures out != [] ==> out == [Outbound(YouTubeAdd(Argument(text, YtCommand)), true)]
  {
    var query := Argument(text, YtCommand);
    if query != [] then [Outbound(YouTubeAdd(query), true)] else []
  }

  /** The request carries the query as typed, without the white space
      around it. */
  lemma YouTubeQueryKept(pad: string, query: string)
    requires forall i :: 0 <= i < |pad| ==> IsJsSpace(pad[i])
    requires query != [] && !IsJsSpace(query[0]) && !IsJsSpace(query[|query| - 1])
    ensures YouTubeRequest(".yt" + pad + query) == [Outbound(YouTubeAdd(query), true)]
  {
    ArgumentAfter(YtCommand, pad, query);
  }

  /** The lines of handleCommandsList; ping is not listed. */
  const COMMANDS_LIST: seq<string> := [
    "- " + Keyword(YtCommand) + " [query] - Play a YouTube video",
    "- " + Keyword(TokeCommand) + " [seconds] - Start a toke countdown (60-240 seconds)",
    "- " + Keyword(CheersCommand) + " - Share a friendly cheers with the room",
    "- " + Keyword(CommandsCommand) + " - List all commands",
    "- " + Keyword(RulesCommand) + " - Show the room rules"
  ]

  /** The commands each line of the list describes, in order. */
  const LISTED: seq<Command> := [YtCommand, TokeCommand, CheersCommand, CommandsCommand, RulesCommand]

  /** Every command but ping has a line, and each line names its command right
      after the leading dash. */
  lemma CommandsListNamesCommands()
    ensures |COMMANDS_LIST| == |LISTED|
    ensures forall i :: 0 <= i < |LISTED| ==> StartsWith(COMMANDS_LIST[i], "- " + Keyword(LISTED[i]))
    ensures forall c :: c in LISTED <==> c != PingCommand
  {
    forall i | 0 <= i < |LISTED| ensures StartsWith(COMMANDS_LIST[i], "- " + Keyword(LISTED[i])) {
      var k := "- " + Keyword(LISTED[i]);
      assert COMMANDS_LIST[i][..|k|] == k;
    }
  }

  /** handleCommandsList: one normal-priority message per line, in order. */
  method HandleCommandsList() returns (out: seq<Outbound>)
    ensures |out| == |COMMANDS_LIST|
    ensures forall i :: 0 <= i < |out| ==> out[i] == Say(CommandsLine(COMMANDS_LIST[i]))
  {
    out := [];
    for i := 0 to |COMMANDS_LIST|
      invariant |out| == i
      invariant forall j :: 0 <= j < i ==> out[j] == Say(CommandsLine(COMMANDS_LIST[j]))
    {
      out := out + [Say(CommandsLine(COMMANDS_LIST[i]))];
    }
  }

  /** The lines of handleCommandsList as the messages it sends. */
  function CommandsListReplies(): (out: seq<Outbound>)
  {
    seq(|COMMANDS_LIST|, i requires 0 <= i < |COMMANDS_LIST| => Say(CommandsLine(COMMANDS_LIST[i])))
  }

  /** What one inbound text makes the bot send: `immediate` at once, and
      `afterOneSecond` from a one-second timer. */
  datatype Reaction = Reaction(immediate: seq<Outbound>, afterOneSecond: seq<Outbound>)

  const SILENT := Reaction([], [])

  /** The reaction of handleCommand to a text. A message without text makes
      the source throw before any handler runs, so nothing is sent.
      handleCheers looks the sender's nickname up, but the cheers text has no
      slot for it. */
  function Respond(text: Option<string>): (r: Reaction)
    ensures text.None? || Matching(text.value).None? ==> r == SILENT
    ensures r.afterOneSecond == (if text.Some? && Matching(text.value) == Some(PingCommand) then [Say(Pong)] else [])
    ensures forall i :: 0 <= i < |r.immediate| ==>
              (r.immediate[i].isPriority <==> r.immediate[i].payload.YouTubeAdd?)
  {
    if text.None? then SILENT
    else match Matching(text.value)
      case None => SILENT
      case Some(YtCommand) => Reaction(YouTubeRequest(text.value), [])
      case Some(TokeCommand) =>
        var d := TokeDuration(text.value);
        Reaction(if d.Some? then [Say(TokeStart(d.value))] else [Say(TokeInvalidDuration)], [])
      case Some(CommandsCommand) => Reaction(CommandsListReplies(), [])
      case Some(PingCommand) => Reaction([], [Say(Pong)])
      case Some(CheersCommand) => Reaction([Say(Cheers)], [])
      case Some(RulesCommand) => Reaction([Say(RulesImage)], [])
  }

  /** The text starts a countdown: .toke with a valid duration. */
  predicate StartsCountdown(text: Option<string>)
  {
    text.Some? && Matching(text.value) == Some(TokeCommand) && TokeDuration(text.value).Some?
  }

  /** The bot stays silent on a text exactly when there is none, no keyword
      starts it, or it is .yt with nothing after the keyword. Every command
      with a reply sends exactly one message, except .commands, which sends
      the five lines. */
  lemma SilentIff(text: Option<string>)
    ensures Respond(text) == SILENT <==>
      text.None? || (forall c :: !Matches(text.value, c)) ||
      (Matches(text.value, YtCommand) && Argument(text.value, YtCommand) == [])
    ensures text.Some? && Matching(text.value).Some? && Matching(text.value) != Some(CommandsCommand) &&
            Respond(text) != SILENT ==>
      |Respond(text).immediate| + |Respond(text).afterOneSecond| == 1
  {
    if text.Some? {
      MatchingIsTheMatch(text.value, YtCommand);
      assert |CommandsListReplies()| == 5;
    }
  }

  class CommandHandler {
    /** The countdown timers, over the global TimerState record. */
    const countdown: TokeCountdown

    constructor (countdown: TokeCountdown)
      ensures this.countdown == countdown
    {
      this.countdown := countdown;
    }

    /** handleToke: start a countdown for a valid duration, otherwise reply
        with the usage text. */
    method HandleToke(text: string, now: int) returns (out: seq<Outbound>)
      requires countdown.Valid()
      modifies countdown, countdown.ts
      ensures countdown.Valid()
      ensures TokeDuration(text).Some? ==>
        && out == [Say(TokeStart(TokeDuration(text).value))]
        && countdown.Started(TokeDuration(text).value, now)
      ensures TokeDuration(text).None? ==>
        && out == [Say(TokeInvalidDuration)]
        && unchanged(countdown, countdown.ts)
      ensures countdown.ts.shouldSendMessage == old(countdown.ts.shouldSendMessage)
      ensures countdown.ts.FourTwenty() == old(countdown.ts.FourTwenty())
      ensures countdown.ts.lastRulesPost == old(countdown.ts.lastRulesPost)
    {
      var duration := ParseInt(Trim(Slice(text, |Keyword(TokeCommand)|)));
      if duration.Some? && duration.value >= TOKE_MIN && duration.value <= TOKE_MAX {
        out := countdown.Start(duration.value, now);
      } else {
        out := [Say(TokeInvalidDuration)];
      }
    }

    /** handleCommand: run the handler of the first keyword that starts the
        text. */
    method HandleCommand(text: Option<string>, now: int) returns (r: Reaction)
      requires countdown.Valid()
      modifies countdown, countdown.ts
      ensures countdown.Valid()
      ensures r == Respond(text)
      ensures StartsCountdown(text) ==> countdown.Started(TokeDuration(text.value).value, now)
      ensures !StartsCountdown(text) ==> unchanged(countdown, countdown.ts)
      ensures countdown.ts.shouldSendMessage == old(countdown.ts.shouldSendMessage)
      ensures countdown.ts.FourTwenty() == old(countdown.ts.FourTwenty())
      ensures countdown.ts.lastRulesPost == old(countdown.ts.lastRulesPost)
    {
      r := SILENT;
      if text.None? {
        return;
      }
      var command := FindCommand(text.value);
      if command.None? {
        return;
      }
      match command.value
      case YtCommand =>
        r := Reaction(YouTubeRequest(text.value), []);
      case TokeCommand =>
        var out := HandleToke(text.value, now);
        r := Reaction(out, []);
      case CommandsCommand =>
        var out := HandleCommandsList();
        assert out == CommandsListReplies();
        r := Reaction(out, []);
      case PingCommand =>
        r := Reaction([], [Say(Pong)]);
      case CheersCommand =>
        r := Reaction([Say(Cheers)], []);
      case RulesCommand =>
        r := Reaction([Say(RulesImage)], []);
    }
  }
}
