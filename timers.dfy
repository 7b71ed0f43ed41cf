/** The process-wide TimerState record and the periodic triggers of
    TimerManager (stumblebot.js). The clock readings that the source takes
    from `new Date()` are inputs. */
module Timers {
  import opened Messages

  const RULES_TIME := 1000 * 60 * 13
  const SUGGESTION_TIME := 1000 * 60 * 20

  /** getHours, getMinutes, getSeconds, getDate and getTime of one reading. */
  datatype Clock = Clock(hour: int, minute: int, second: int, day: int, millis: int)

  predicate IsClock(c: Clock)
  {
    0 <= c.hour < 24 && 0 <= c.minute < 60 && 0 <= c.second < 60 && 1 <= c.day <= 31
  }

  /** The 4:20 bookkeeping: the hour that last fired and the day it belongs to. */
  datatype FourTwentyMemory = FourTwentyMemory(lastSentHour: int, lastSentDay: int)

  /** The memory after the day-change reset of check420Timer. */
  function DayAdjusted(t: FourTwentyMemory, day: int): FourTwentyMemory
  {
    if t.lastSentDay != day then FourTwentyMemory(-1, day) else t
  }

  /** check420Timer sets shouldSendMessage on this reading: on a valid
      reading, exactly in the first ten seconds of minute 20 when this hour
      of this day has not fired yet. */
  predicate FourTwentyFires(t: FourTwentyMemory, c: Clock)
    ensures IsClock(c) ==>
      (FourTwentyFires(t, c) <==>
         c.minute == 20 && c.second < 10 && !(t.lastSentDay == c.day && t.lastSentHour == c.hour))
  {
    c.minute == 20 && DayAdjusted(t, c.day).lastSentHour != c.hour && c.second < 10
  }

  /** The 4:20 bookkeeping after check420Timer has seen reading c. */
  function After420(t: FourTwentyMemory, c: Clock): (r: FourTwentyMemory)
    ensures r.lastSentDay == c.day
    ensures FourTwentyFires(t, c) ==> r.lastSentHour == c.hour
    ensures !FourTwentyFires(t, c) && t.lastSentDay != c.day ==> r.lastSentHour == -1
    ensures !FourTwentyFires(t, c) && t.lastSentDay == c.day ==> r == t
  {
    var adjusted := DayAdjusted(t, c.day);
    if FourTwentyFires(t, c) then adjusted.(lastSentHour := c.hour) else adjusted
  }

  /** Once a reading has been seen, no later reading in the same hour of the
      same day fires again. */
  lemma FourTwentyOncePerHour(t: FourTwentyMemory, c: Clock, c': Clock)
    requires FourTwentyFires(t, c)
    requires c'.hour == c.hour && c'.day == c.day
    ensures !FourTwentyFires(After420(t, c), c')
  {
  }

  /** Seeing the same reading twice never fires the second time. */
  lemma FourTwentyIdempotent(t: FourTwentyMemory, c: Clock)
    ensures !FourTwentyFires(After420(t, c), c)
    ensures After420(After420(t, c), c) == After420(t, c)
  {
  }

  /** The trigger is hourly, not daily: on a new day, 4:20 and 16:20 both fire. */
  lemma FourTwentyFiresEveryHour(t: FourTwentyMemory, day: int)
    requires t.lastSentDay != day
    ensures var morning := Clock(4, 20, 0, day, 0);
            var afternoon := Clock(16, 20, 0, day, 0);
            FourTwentyFires(t, morning) &&
            FourTwentyFires(After420(t, morning), afternoon)
  {
  }

  /** A reminder trigger is due: no countdown runs and `interval` has passed
      since lastRulesPost. */
  predicate ReminderDue(active: bool, lastRulesPost: int, now: int, interval: int)
  {
    !active && now - lastRulesPost >= interval
  }

  /** What checkRulesTimer or checkSuggestionsTimer does: the new
      lastRulesPost and the messages enqueued. */
  datatype ReminderResult = ReminderResult(lastRulesPost: int, out: seq<Outbound>)

  function Remind(active: bool, lastRulesPost: int, now: int, interval: int,
                  connected: bool, reply: Reply): (r: ReminderResult)
    ensures r.out != [] <==> ReminderDue(active, lastRulesPost, now, interval) && connected
    ensures r.out != [] ==> r.out == [Say(reply)]
    ensures ReminderDue(active, lastRulesPost, now, interval) ==> r.lastRulesPost == now
    ensures !ReminderDue(active, lastRulesPost, now, interval) ==> r.lastRulesPost == lastRulesPost
  {
    if ReminderDue(active, lastRulesPost, now, interval) then
      ReminderResult(now, if connected then [Say(reply)] else [])
    else ReminderResult(lastRulesPost, [])
  }

  /** The bookkeeping advances even when there is no connection, so the next
      attempt waits a full interval: no reading before now + interval is due,
      and the reading at now + interval is. */
  lemma ReminderAdvancesWithoutConnection(lastRulesPost: int, now: int, interval: int, reply: Reply)
    requires now - lastRulesPost >= interval
    ensures var r := Remind(false, lastRulesPost, now, interval, false, reply);
            && r.out == []
            && (forall t :: t < now + interval ==> !ReminderDue(false, r.lastRulesPost, t, interval))
            && ReminderDue(false, r.lastRulesPost, now + interval, interval)
  {
  }

  /** The rules trigger and the suggestions trigger share lastRulesPost, and
      the rules trigger runs first on every tick with the shorter interval:
      when the two readings of one tick are less than seven minutes apart,
      the suggestions trigger never posts. */
  lemma SuggestionsNeverPost(active: bool, lastRulesPost: int, rulesNow: int, suggestionsNow: int,
                             connected: bool)
    requires rulesNow <= suggestionsNow < rulesNow + (SUGGESTION_TIME - RULES_TIME)
    ensures var afterRules := Remind(active, lastRulesPost, rulesNow, RULES_TIME, connected, RulesImage);
            Remind(active, afterRules.lastRulesPost, suggestionsNow, SUGGESTION_TIME,
                   connected, SuggestionsLink).out == []
  {
  }

  /** The global TimerState record. `tokeCountdownInterval` holds the handle
      of the countdown's repeating timer, or None for null. */
  class TimerState {
    var lastSentHour: int
    var lastSentDay: int
    var shouldSendMessage: bool
    var lastRulesPost: int
    var lastSuggestionPost: int
    var tokeCountdownActive: bool
    var tokeCountdownInterval: Option<nat>

    constructor ()
      ensures lastSentHour == -1 && lastSentDay == -1 && !shouldSendMessage
      ensures lastRulesPost == 0 && lastSuggestionPost == 0
      ensures !tokeCountdownActive && tokeCountdownInterval == None
    {
      lastSentHour := -1;
      lastSentDay := -1;
      shouldSendMessage := false;
      lastRulesPost := 0;
      lastSuggestionPost := 0;
      tokeCountdownActive := false;
      tokeCountdownInterval := None;
    }

    function FourTwenty(): FourTwentyMemory
      reads this
    {
      FourTwentyMemory(lastSentHour, lastSentDay)
    }
  }

  class TimerManager {

    /** check420Timer: reset on a new day, then fire once in minute 20. */
    static method Check420Timer(ts: TimerState, c: Clock)
      modifies ts
      ensures ts.FourTwenty() == After420(old(ts.FourTwenty()), c)
      ensures ts.shouldSendMessage == (old(ts.shouldSendMessage) || FourTwentyFires(old(ts.FourTwenty()), c))
      ensures ts.lastRulesPost == old(ts.lastRulesPost)
      ensures ts.tokeCountdownActive == old(ts.tokeCountdownActive)
      ensures ts.tokeCountdownInterval == old(ts.tokeCountdownInterval)
      ensures ts.lastSuggestionPost == old(ts.lastSuggestionPost)
    {
      if ts.lastSentDay != c.day {
        ts.lastSentDay := c.day;
        ts.lastSentHour := -1;
      }
      if c.minute == 20 && ts.lastSentHour != c.hour && c.second < 10 {
        ts.lastSentHour := c.hour;
        ts.shouldSendMessage := true;
      }
    }

    /** checkRulesTimer; `connected` says whether a websocket is known. */
    static method CheckRulesTimer(ts: TimerState, now: int, connected: bool) returns (out: seq<Outbound>)
      modifies ts
      ensures var r := Remind(old(ts.tokeCountdownActive), old(ts.lastRulesPost), now, RULES_TIME,
                              connected, RulesImage);
              ts.lastRulesPost == r.lastRulesPost && out == r.out
      ensures ts.FourTwenty() == old(ts.FourTwenty()) && ts.shouldSendMessage == old(ts.shouldSendMessage)
      ensures ts.tokeCountdownActive == old(ts.tokeCountdownActive)
      ensures ts.tokeCountdownInterval == old(ts.tokeCountdownInterval)
      ensures ts.lastSuggestionPost == old(ts.lastSuggestionPost)
    {
      out := [];
      if !ts.tokeCountdownActive && now - ts.lastRulesPost >= RULES_TIME {
        ts.lastRulesPost := now;
        if connected {
          out := [Say(RulesImage)];
        }
      }
    }

    /** checkSuggestionsTimer: the same shape, on the same lastRulesPost field. */
    static method CheckSuggestionsTimer(ts: TimerState, now: int, connected: bool) returns (out: seq<Outbound>)
      modifies ts
      ensures var r := Remind(old(ts.tokeCountdownActive), old(ts.lastRulesPost), now, SUGGESTION_TIME,
                              connected, SuggestionsLink);
              ts.lastRulesPost == r.lastRulesPost && out == r.out
      ensures ts.FourTwenty() == old(ts.FourTwenty()) && ts.shouldSendMessage == old(ts.shouldSendMessage)
      ensures ts.tokeCountdownActive == old(ts.tokeCountdownActive)
      ensures ts.tokeCountdownInterval == old(ts.tokeCountdownInterval)
      ensures ts.lastSuggestionPost == old(ts.lastSuggestionPost)
    {
      out := [];
      if !ts.tokeCountdownActive && now - ts.lastRulesPost >= SUGGESTION_TIME {
        ts.lastRulesPost := now;
        if connected {
          out := [Say(SuggestionsLink)];
        }
      }
    }

    /** One run of the one-second periodic tick: the three checks in order,
        each on its own clock reading. When the suggestions check reads the
        clock less than seven minutes after the rules check, which every tick
        does, only the rules check can post. */
    static method PeriodicTick(ts: TimerState, c: Clock, rulesNow: int, suggestionsNow: int, connected: bool)
      returns (out: seq<Outbound>)
      modifies ts
      ensures ts.FourTwenty() == After420(old(ts.FourTwenty()), c)
      ensures ts.shouldSendMessage == (old(ts.shouldSendMessage) || FourTwentyFires(old(ts.FourTwenty()), c))
      ensures var rules := Remind(old(ts.tokeCountdownActive), old(ts.lastRulesPost), rulesNow, RULES_TIME,
                                  connected, RulesImage);
              var suggestions := Remind(old(ts.tokeCountdownActive), rules.lastRulesPost, suggestionsNow,
                                        SUGGESTION_TIME, connected, SuggestionsLink);
              && out == rules.out + suggestions.out
              && ts.lastRulesPost == suggestions.lastRulesPost
      ensures rulesNow <= suggestionsNow < rulesNow + (SUGGESTION_TIME - RULES_TIME) ==>
              var rules := Remind(old(ts.tokeCountdownActive), old(ts.lastRulesPost), rulesNow, RULES_TIME,
                                  connected, RulesImage);
              && out == rules.out
              && ts.lastRulesPost == rules.lastRulesPost
              && Say(SuggestionsLink) !in out
      ensures ts.tokeCountdownActive == old(ts.tokeCountdownActive)
      ensures ts.tokeCountdownInterval == old(ts.tokeCountdownInterval)
      ensures ts.lastSuggestionPost == old(ts.lastSuggestionPost)
    {
      Check420Timer(ts, c);
      var rules := CheckRulesTimer(ts, rulesNow, connected);
      var suggestions := CheckSuggestionsTimer(ts, suggestionsNow, connected);
      if rulesNow <= suggestionsNow < rulesNow + (SUGGESTION_TIME - RULES_TIME) {
        SuggestionsNeverPost(old(ts.tokeCountdownActive), old(ts.lastRulesPost), rulesNow, suggestionsNow,
                             connected);
        assert rules + suggestions == rules;
      }
      out := rules + suggestions;
    }

    /** The 4:20 part of handleMessage: a pending 4:20 flag is cleared and the
        message is enqueued at priority (one second later in the source). */
    static method TakeFourTwenty(ts: TimerState) returns (out: seq<Outbound>)
      modifies ts
      ensures out == if old(ts.shouldSendMessage) then [Outbound(Chat(FourTwenty), true)] else []
      ensures !ts.shouldSendMessage
      ensures ts.FourTwenty() == old(ts.FourTwenty()) && ts.lastRulesPost == old(ts.lastRulesPost)
      ensures ts.tokeCountdownActive == old(ts.tokeCountdownActive)
      ensures ts.tokeCountdownInterval == old(ts.tokeCountdownInterval)
      ensures ts.lastSuggestionPost == old(ts.lastSuggestionPost)
    {
      out := [];
      if ts.shouldSendMessage {
        ts.shouldSendMessage := false;
        out := [Outbound(Chat(FourTwenty), true)];
      }
    }
  }
}
