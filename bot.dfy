/** handleMessage (stumblebot.js): what the bot does with one inbound
    message, already parsed from JSON. */
module Bot {
  import opened Messages
  import opened Timers
  import opened Users
  import opened Commands

  /** The fields of an inbound message the bot reads; a missing string field
      is the empty string, which is falsy as undefined is. */
  datatype Inbound = Inbound(stumble: string, text: Option<string>, nick: string, username: string,
                             handle: string, moderator: bool)

  /** handleMessage greets a join only when nick, username and handle are
      set, so the greeted name is never empty. */
  predicate IsJoin(m: Inbound)
    ensures IsJoin(m) ==> m.stumble == "join" && ChooseNickname(m.username, m.nick) != []
  {
    m.stumble == "join" && m.nick != [] && m.username != [] && m.handle != []
  }

  /** The greeting part of the reaction to m. */
  function GreetingFor(m: Inbound, greetingIndex: nat): seq<Outbound>
  {
    if IsJoin(m) then [Say(Greeting(greetingIndex, ChooseNickname(m.username, m.nick)))] else []
  }

  /** The whole reaction to one message: the greeting, then the command's
      immediate replies; one second later the pending 4:20 message (queued
      first, at priority), then the command's delayed replies. */
  function Reacted(m: Inbound, greetingIndex: nat, fourTwentyPending: bool): (r: Reaction)
    ensures IsJoin(m) ==> r.immediate == [Say(Greeting(greetingIndex, ChooseNickname(m.username, m.nick)))]
                                         + Respond(m.text).immediate
    ensures !IsJoin(m) ==> r.immediate == Respond(m.text).immediate
    ensures fourTwentyPending ==> r.afterOneSecond != [] && r.afterOneSecond[0] == Outbound(Chat(FourTwenty), true)
    ensures fourTwentyPending ==> |r.afterOneSecond| >= 1 && r.afterOneSecond[1..] == Respond(m.text).afterOneSecond
    ensures !fourTwentyPending ==> r.afterOneSecond == Respond(m.text).afterOneSecond
  {
    var command := Respond(m.text);
    Reaction(GreetingFor(m, greetingIndex) + command.immediate,
             (if fourTwentyPending then [Outbound(Chat(FourTwenty), true)] else []) + command.afterOneSecond)
  }

  /** A join greets with the chosen nickname, and nothing else is greeted; a
      join message carries no command text, so its only other possible
      output is the pending 4:20 message. */
  lemma JoinReaction(m: Inbound, greetingIndex: nat, fourTwentyPending: bool)
    requires IsJoin(m) && m.text.None?
    ensures Reacted(m, greetingIndex, fourTwentyPending).immediate ==
              [Say(Greeting(greetingIndex, ChooseNickname(m.username, m.nick)))]
    ensures Reacted(m, greetingIndex, fourTwentyPending).afterOneSecond ==
              if fourTwentyPending then [Outbound(Chat(FourTwenty), true)] else []
  {
    assert Respond(m.text) == SILENT;
    assert [Say(Greeting(greetingIndex, ChooseNickname(m.username, m.nick)))] + [] ==
           [Say(Greeting(greetingIndex, ChooseNickname(m.username, m.nick)))];
  }

  /** The 4:20 message is posted on the first message after the trigger,
      whatever that message is, and on no later one. */
  lemma FourTwentyOnNextMessage(m: Inbound, greetingIndex: nat)
    ensures Outbound(Chat(FourTwenty), true) in Reacted(m, greetingIndex, true).afterOneSecond
    ensures Outbound(Chat(FourTwenty), true) !in Reacted(m, greetingIndex, false).afterOneSecond
  {
    var later := Respond(m.text).afterOneSecond;
    assert later == [] || later == [Say(Pong)];
  }

  class StumbleBot {
    const users: UserManager
    const timers: TimerState
    const commands: CommandHandler

    constructor (users: UserManager, commands: CommandHandler)
      ensures this.users == users && this.commands == commands && this.timers == commands.countdown.ts
    {
      this.users := users;
      this.commands := commands;
      this.timers := commands.countdown.ts;
    }

    /** The join branch of handleMessage. */
    method Greet(m: Inbound, greetingIndex: nat) returns (greeting: seq<Outbound>)
      requires greetingIndex < GREETING_COUNT
      modifies users
      ensures greeting == GreetingFor(m, greetingIndex)
      ensures users.userNicknames ==
        if IsJoin(m) then Joined(old(users.userNicknames), m.username, m.nick, m.handle, m.moderator)
        else old(users.userNicknames)
    {
      greeting := [];
      if IsJoin(m) {
        greeting := users.HandleUserJoin(m.username, m.nick, m.handle, m.moderator, greetingIndex);
      }
    }

    /** handleMessage on one parsed message; `greetingIndex` is the random
        greeting choice. */
    method HandleMessage(m: Inbound, now: int, greetingIndex: nat) returns (r: Reaction)
      requires greetingIndex < GREETING_COUNT
      requires commands.countdown.Valid() && timers == commands.countdown.ts
      modifies users, commands.countdown, timers
      ensures commands.countdown.Valid()
      ensures r == Reacted(m, greetingIndex, old(timers.shouldSendMessage))
      ensures users.userNicknames ==
        if IsJoin(m) then Joined(old(users.userNicknames), m.username, m.nick, m.handle, m.moderator)
        else old(users.userNicknames)
      ensures !timers.shouldSendMessage
      ensures timers.FourTwenty() == old(timers.FourTwenty())
      ensures StartsCountdown(m.text) ==> commands.countdown.Started(TokeDuration(m.text.value).value, now)
      ensures !StartsCountdown(m.text) ==>
        && unchanged(commands.countdown)
        && timers.tokeCountdownActive == old(timers.tokeCountdownActive)
        && timers.tokeCountdownInterval == old(timers.tokeCountdownInterval)
        && timers.lastRulesPost == old(timers.lastRulesPost)
    {
      var greeting := Greet(m, greetingIndex);
      var fourTwenty := TimerManager.TakeFourTwenty(timers);
      var command := commands.HandleCommand(m.text, now);
      r := Reaction(greeting + command.immediate, fourTwenty + command.afterOneSecond);
    }
  }
}
