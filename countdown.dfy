/** The toke countdown of CommandHandler.startTokeCountdown (stumblebot.js).

    The per-tick decision is the pure function TickDecision. The timers the
    countdown registers are explicit state of class TokeCountdown: the
    repeating timers still live (by handle) and the one-shot finishing timers
    still armed (by the time they are due). Each timer callback is a method
    that the scheduler calls with the clock reading `now`. */
module Countdown {
  import opened Messages
  import opened Timers

  /** What the tick closure captured: the duration and the start time. */
  datatype Session = Session(totalSeconds: int, startTime: int)

  function EndTime(s: Session): int
  {
    s.startTime + s.totalSeconds * 1000
  }

  /** totalSeconds - Math.floor((currentTime - startTime) / 1000); Dafny's
      division by a positive constant rounds down, as Math.floor does. */
  function SecondsRemaining(totalSeconds: int, startTime: int, currentTime: int): (r: int)
    ensures 1000 * (totalSeconds - r) <= currentTime - startTime < 1000 * (totalSeconds - r + 1)
  {
    totalSeconds - (currentTime - startTime) / 1000
  }

  /** The checkpoint message of a tick with r seconds remaining, if any. */
  function Checkpoint(r: int): (cp: Option<Reply>)
    ensures cp == Some(TokeRemaining(r)) <==> r > 30 && r % 30 == 0
    ensures cp == Some(TokeShortRemaining(r)) <==> 10 < r <= 30 && r % 10 == 0
    ensures cp == Some(TokeCount(r)) <==> 0 < r <= 10
    ensures cp.Some? ==> cp.value.TokeRemaining? || cp.value.TokeShortRemaining? || cp.value.TokeCount?
    ensures cp.Some? ==> r > 0 && cp.value.seconds == r
  {
    if r > 30 && r % 30 == 0 then Some(TokeRemaining(r))
    else if r <= 30 && r > 10 && r % 10 == 0 then Some(TokeShortRemaining(r))
    else if r <= 10 && r > 0 then Some(TokeCount(r))
    else None
  }

  /** The outcome of one tick: the end, or an optional checkpoint and, when
      the end is close, the delay of the one-shot timer to switch to. */
  datatype TickAction =
    | Terminal
    | Continue(checkpoint: Option<Reply>, finishingDelay: Option<int>)

  /** A tick ends the countdown exactly when no whole second remains;
      otherwise it posts the checkpoint of the seconds remaining, and switches
      to a one-shot, due at the end time, exactly when at most three seconds
      remain and the end is more than one second away. */
  function TickDecision(totalSeconds: int, startTime: int, currentTime: int): (a: TickAction)
    ensures var r := SecondsRemaining(totalSeconds, startTime, currentTime);
            a.Terminal? <==> r <= 0
    ensures var r := SecondsRemaining(totalSeconds, startTime, currentTime);
            a.Continue? ==> a.checkpoint == Checkpoint(r)
    ensures var r := SecondsRemaining(totalSeconds, startTime, currentTime);
            var untilEnd := EndTime(Session(totalSeconds, startTime)) - currentTime;
            a.Continue? ==> (a.finishingDelay.Some? <==> r <= 3 && untilEnd > 1000)
    ensures var untilEnd := EndTime(Session(totalSeconds, startTime)) - currentTime;
            a.Continue? && a.finishingDelay.Some? ==> a.finishingDelay.value == untilEnd
  {
    var r := SecondsRemaining(totalSeconds, startTime, currentTime);
    if r <= 0 then Terminal
    else
      var endTime := startTime + totalSeconds * 1000;
      Continue(Checkpoint(r),
               if r <= 3 && endTime - currentTime > 1000 then Some(endTime - currentTime) else None)
  }

  /** The switch to the one-shot timer happens with 1 to 3 seconds remaining,
      after that tick's "N..." message, and the one-shot is due exactly at the
      end time, between one and three seconds later. */
  lemma {:induction false} FinishingDelayExact(totalSeconds: int, startTime: int, currentTime: int)
    requires TickDecision(totalSeconds, startTime, currentTime).Continue?
    requires TickDecision(totalSeconds, startTime, currentTime).finishingDelay.Some?
    ensures var d := TickDecision(totalSeconds, startTime, currentTime).finishingDelay.value;
            && currentTime + d == startTime + totalSeconds * 1000
            && 1000 < d <= 3000
    ensures var r := SecondsRemaining(totalSeconds, startTime, currentTime);
            && 0 < r <= 3
            && TickDecision(totalSeconds, startTime, currentTime).checkpoint == Some(TokeCount(r))
  {
    var elapsed := currentTime - startTime;
    var q := elapsed / 1000;
    assert elapsed >= 1000 * q;
    assert totalSeconds - q <= 3;
  }

  /** The seconds remaining never grow as the clock advances, and drop by at
      least one for every full second that passes. */
  lemma {:induction false} RemainingDecreases(totalSeconds: int, startTime: int, c1: int, c2: int)
    requires c1 <= c2
    ensures SecondsRemaining(totalSeconds, startTime, c2) <= SecondsRemaining(totalSeconds, startTime, c1)
    ensures c2 >= c1 + 1000 ==>
              SecondsRemaining(totalSeconds, startTime, c2) < SecondsRemaining(totalSeconds, startTime, c1)
  {
    var a, b := c1 - startTime, c2 - startTime;
    var qa, qb := a / 1000, b / 1000;
    assert a == 1000 * qa + a % 1000 && 0 <= a % 1000 < 1000;
    assert b == 1000 * qb + b % 1000 && 0 <= b % 1000 < 1000;
  }

  /** A tick k seconds (plus less than a second of lateness) after the start
      sees totalSeconds - k seconds remaining. */
  lemma {:induction false} RemainingAtTick(totalSeconds: int, startTime: int, k: int, late: int)
    requires 0 <= late < 1000
    ensures SecondsRemaining(totalSeconds, startTime, startTime + 1000 * k + late) == totalSeconds - k
  {
    var e := 1000 * k + late;
    assert e / 1000 == k by {
      assert e == 1000 * k + late;
    }
  }

  /** On a clock that ticks on time, the tick with three seconds remaining
      posts "3..." and switches to a one-shot due at the end time. */
  lemma SwitchAtThreeSeconds(totalSeconds: int, startTime: int, late: int)
    requires 0 <= late < 1000
    ensures TickDecision(totalSeconds, startTime, startTime + 1000 * (totalSeconds - 3) + late)
            == Continue(Some(TokeCount(3)), Some(3000 - late))
  {
    RemainingAtTick(totalSeconds, startTime, totalSeconds - 3, late);
  }

  /** The live repeating timers after clearInterval(handle); clearing null or
      a handle that is no longer live does nothing. */
  function Cleared(intervals: map<nat, Session>, handle: Option<nat>): (r: map<nat, Session>)
    ensures handle.None? ==> r == intervals
    ensures handle.Some? ==> r.Keys == intervals.Keys - {handle.value}
    ensures forall h :: h in r ==> h in intervals && r[h] == intervals[h]
  {
    if handle.Some? then intervals - {handle.value} else intervals
  }

  class TokeCountdown {
    /** The global TimerState record. */
    const ts: TimerState
    /** Repeating tick timers not yet cleared, by handle. */
    var intervals: map<nat, Session>
    /** One-shot finishing timers armed and not yet fired, by due time. */
    var finishers: seq<int>
    /** The next handle setInterval gives out; handles are never reused. */
    var nextHandle: nat

    ghost predicate Valid()
      reads this, ts
    {
      && 0 < nextHandle
      && (forall h :: h in intervals ==> 0 < h < nextHandle)
      && (ts.tokeCountdownInterval.Some? ==> 0 < ts.tokeCountdownInterval.value < nextHandle)
    }

    /** The state startTokeCountdown leaves behind: the countdown is active
        and names a fresh tick timer for `totalSeconds` from `now`, the timer
        the record named before is cleared, armed one-shots stay armed, and
        the reminder bookkeeping is untouched. */
    twostate predicate Started(totalSeconds: int, now: int)
      reads this, ts
    {
      && ts.tokeCountdownActive
      && ts.tokeCountdownInterval == Some(old(nextHandle))
      && old(nextHandle) !in old(intervals)
      && intervals == Cleared(old(intervals), old(ts.tokeCountdownInterval))
                        [old(nextHandle) := Session(totalSeconds, now)]
      && finishers == old(finishers)
      && nextHandle == old(nextHandle) + 1
      && ts.lastRulesPost == old(ts.lastRulesPost)
      && ts.lastSuggestionPost == old(ts.lastSuggestionPost)
    }

    constructor (ts: TimerState)
      requires ts.tokeCountdownInterval == None
      ensures Valid() && this.ts == ts
      ensures intervals == map[] && finishers == [] && nextHandle == 1
    {
      this.ts := ts;
      intervals := map[];
      finishers := [];
      nextHandle := 1;
    }

    /** startTokeCountdown: clear the interval the record names, mark the
        countdown active, post the start message and register a fresh tick
        timer. An armed one-shot is not cancelled. */
    method Start(totalSeconds: int, now: int) returns (out: seq<Outbound>)
      requires Valid()
      modifies this, ts
      ensures Valid()
      ensures out == [Say(TokeStart(totalSeconds))]
      ensures Started(totalSeconds, now)
      ensures ts.shouldSendMessage == old(ts.shouldSendMessage) && ts.FourTwenty() == old(ts.FourTwenty())
    {
      if ts.tokeCountdownInterval.Some? {
        intervals := Cleared(intervals, ts.tokeCountdownInterval);
      }
      ts.tokeCountdownActive := true;
      out := [Say(TokeStart(totalSeconds))];
      var handle := nextHandle;
      nextHandle := nextHandle + 1;
      intervals := intervals[handle := Session(totalSeconds, now)];
      ts.tokeCountdownInterval := Some(handle);
    }

    /** One run of the tick closure of the live timer `handle` at `now`. */
    method Tick(handle: nat, now: int) returns (out: seq<Outbound>)
      requires Valid() && handle in intervals
      modifies this, ts
      ensures Valid() && nextHandle == old(nextHandle)
      ensures var s := old(intervals)[handle];
        match TickDecision(s.totalSeconds, s.startTime, now)
        case Terminal =>
          && out == [Say(TokeFinal)]
          && intervals == Cleared(old(intervals), old(ts.tokeCountdownInterval))
          && finishers == old(finishers)
          && ts.tokeCountdownInterval == None && !ts.tokeCountdownActive
          && ts.lastRulesPost == now
        case Continue(checkpoint, finishing) =>
          && out == (if checkpoint.Some? then [Say(checkpoint.value)] else [])
          && intervals == (if finishing.Some? then Cleared(old(intervals), old(ts.tokeCountdownInterval))
                           else old(intervals))
          && finishers == (if finishing.Some? then old(finishers) + [now + finishing.value]
                           else old(finishers))
          && ts.tokeCountdownInterval == old(ts.tokeCountdownInterval)
          && ts.tokeCountdownActive == old(ts.tokeCountdownActive)
          && ts.lastRulesPost == old(ts.lastRulesPost)
      ensures ts.shouldSendMessage == old(ts.shouldSendMessage) && ts.FourTwenty() == old(ts.FourTwenty())
      ensures ts.lastSuggestionPost == old(ts.lastSuggestionPost)
    {
      var session := intervals[handle];
      var startTime, totalSeconds := session.startTime, session.totalSeconds;
      var endTime := startTime + totalSeconds * 1000;
      var currentTime := now;
      var elapsedSeconds := (currentTime - startTime) / 1000;
      var secondsRemaining := totalSeconds - elapsedSeconds;

      if secondsRemaining <= 0 {
        out := [Say(TokeFinal)];
        intervals := Cleared(intervals, ts.tokeCountdownInterval);
        ts.tokeCountdownInterval := None;
        ts.tokeCountdownActive := false;
        ts.lastRulesPost := now;
        return;
      }

      if secondsRemaining > 30 && secondsRemaining % 30 == 0 {
        out := [Say(TokeRemaining(secondsRemaining))];
      } else if secondsRemaining <= 30 && secondsRemaining > 10 && secondsRemaining % 10 == 0 {
        out := [Say(TokeShortRemaining(secondsRemaining))];
      } else if secondsRemaining <= 10 && secondsRemaining > 0 {
        out := [Say(TokeCount(secondsRemaining))];
      } else {
        out := [];
      }

      if secondsRemaining <= 3 && endTime - currentTime > 1000 {
        intervals := Cleared(intervals, ts.tokeCountdownInterval);
        var remainingTime := endTime - currentTime;
        finishers := finishers + [currentTime + remainingTime];
      }
    }

    /** The one-shot finishing timer number i fires: post the final message
        and reset the record. It does not clear any interval. */
    method Finish(i: nat, now: int) returns (out: seq<Outbound>)
      requires Valid() && i < |finishers|
      modifies this, ts
      ensures Valid()
      ensures out == [Say(TokeFinal)]
      ensures finishers == old(finishers)[..i] + old(finishers)[i + 1..]
      ensures intervals == old(intervals) && nextHandle == old(nextHandle)
      ensures ts.tokeCountdownInterval == None && !ts.tokeCountdownActive
      ensures ts.lastRulesPost == now
      ensures ts.shouldSendMessage == old(ts.shouldSendMessage) && ts.FourTwenty() == old(ts.FourTwenty())
      ensures ts.lastSuggestionPost == old(ts.lastSuggestionPost)
    {
      finishers := finishers[..i] + finishers[i + 1..];
      out := [Say(TokeFinal)];
      ts.tokeCountdownInterval := None;
      ts.tokeCountdownActive := false;
      ts.lastRulesPost := now;
    }
  }

  /** A 60-second countdown switches to its one-shot at 57 s; a restart at
      58 s leaves that one-shot armed. It fires at 60 s, posts the final
      message and nulls the record's handle, so the restarted countdown's
      tick timer is never cleared: once its time is up it posts the final
      message on every tick. The result is the messages posted by the
      one-shot and by two ticks of the restarted timer after its end. */
  method RestartInFinishingWindow() returns (posted: seq<seq<Outbound>>, stillTicking: bool)
    ensures posted == [[Say(TokeFinal)], [Say(TokeFinal)], [Say(TokeFinal)]]
    ensures stillTicking
  {
    var ts := new TimerState();
    var countdown := new TokeCountdown(ts);
    var out := countdown.Start(60, 0);
    var first := ts.tokeCountdownInterval.value;
    SwitchAtThreeSeconds(60, 0, 0);
    out := countdown.Tick(first, 57000);
    assert countdown.finishers == [60000];

    out := countdown.Start(60, 58000);
    var second := ts.tokeCountdownInterval.value;
    var fromOneShot := countdown.Finish(0, 60000);
    assert ts.tokeCountdownInterval == None && second in countdown.intervals;

    RemainingAtTick(60, 58000, 60, 0);
    var atEnd := countdown.Tick(second, 118000);
    RemainingAtTick(60, 58000, 61, 0);
    var afterEnd := countdown.Tick(second, 119000);
    posted := [fromOneShot, atEnd, afterEnd];
    stillTicking := second in countdown.intervals;
  }
}
