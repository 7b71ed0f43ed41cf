# stumblebot in Dafny

A model of the chat bot in `stumblebot.js`, a browser user script for
StumbleChat rooms. The bot greets people who join, answers a handful of
commands (`.yt`, `.toke`, `.commands`, `ping`, `.cheers`, `.rules`), runs a
toke countdown, posts a 4:20 message once an hour and a rules image every
thirteen minutes, and sends everything through a rate-limited outbound queue.

The model has one module per part of the bot:

- `Messages`: what the bot posts. Chat texts are symbolic (`Reply`), so a
  template such as TOKE_START is the constructor `TokeStart(seconds)`. An
  `Outbound` is one call of the queue's `addMessage`: a payload and its
  priority flag.
- `Queue`: `RATE_LIMIT` (class `RateLimit`) and `MessageQueue`. The queue is a
  `seq` of messages and the `processing` and `lastSentTime` fields.
  `processQueue` is split at its timers. `ProcessQueue(now)` pops the head and
  returns the wait before the send. `CompleteSend(now, ok)` is the body of the
  send timer: it records the send if it succeeded and returns the delay before
  the next step. The popped message that the timer closure holds is the field
  `inFlight`. The placement of `addMessage` is the function `Placed`, and the
  lemmas about it are stated on that function.
- `Timers`: the global `TimerState` record (a class) and the static methods of
  `TimerManager`. The 4:20 and reminder decisions are pure functions
  (`FourTwentyFires`, `After420`, `Remind`) that the methods are proved against.
- `Countdown`: the countdown tick as the pure decision `TickDecision`. The
  class `TokeCountdown` holds the table of live repeating timers (by handle)
  and the list of armed one-shot finishing timers. Its methods `Start`, `Tick`
  and `Finish` are `startTokeCountdown`, one run of its interval callback and
  one run of the one-shot callback.
- `Text`: the JavaScript string operations the commands use: `trim`,
  `indexOf(k) === 0`, `slice`, and `parseInt` on decimal input.
- `Users`: `UserManager`, the nickname choice and the greeting on a join.
- `Commands`: `CommandHandler`, the first-match dispatch, and the checks on
  the arguments of `.toke` and `.yt`. The pure function `Respond` gives what
  one text makes the bot send. The methods `FindCommand`, `HandleCommandsList`,
  `HandleToke` and `HandleCommand` are proved against the pure functions.
- `Bot`: `handleMessage` on one parsed inbound message.

Time is explicit. Every clock reading is a parameter. Each timer callback is a
method that the environment calls, and the messages it sends are its result.
`handlePing` and the 4:20 dispatch send one second later; a `Reaction` keeps
those messages apart from the ones sent at once.

Where the code and its comments disagree, the model follows the code:

- A priority message put into a queue that holds only priority messages goes
  to the front (`PlacedAllPriorityFront`, `PlacedPrioritiesLifo`). It does not
  go behind them, as the comment "find the last priority message" suggests.
- `checkSuggestionsTimer` reads and writes `lastRulesPost`. The rules trigger
  runs first on each tick and has the shorter interval, so the suggestions
  trigger never posts (`SuggestionsNeverPost`, `PeriodicTick`).
- Each reminder trigger advances `lastRulesPost` before it looks at the
  connection. With no connection, the reminder is skipped for a whole interval
  (`ReminderAdvancesWithoutConnection`).
- The 4:20 trigger fires once per hour, at minute 20, not once per day
  (`FourTwentyFiresEveryHour`).
- A restart clears only the repeating timer that the record names. A one-shot
  finishing timer armed before the restart still fires, and it nulls the
  record's handle. The restarted countdown's timer is then never cleared, and
  it posts the final message on every tick once its time is up
  (`RestartInFinishingWindow`).
- The `.commands` lines go out at normal priority, whatever the comment above
  the loop says.
- The cheers text has no `{name}` slot, so the nickname that `handleCheers`
  looks up is never used.

## Model

| member | source | states |
|---|---|---|
| Queue.Reconfigured | stumblebot.js:72-82 | A delay takes the argument exactly when it is a number greater than 0, and keeps its old value otherwise; a positive delay stays positive |
| Queue.MessageQueue.ConfigureRateLimit | stumblebot.js:72-82 | The message delay and the priority delay are each updated from their own argument only, as `Reconfigured` says; valid settings stay valid |
| Queue.SendWait | stumblebot.js:121-126 | The wait is never negative; the send happens no earlier than lastSentTime plus the class delay, and exactly then if there is any wait; the wait is at most the class delay when now is not before lastSentTime |
| Queue.FirstNormal | stumblebot.js:94-101 | The index of the first non-priority entry; every entry before it is priority |
| Queue.InsertIndex | stumblebot.js:92-104 | The insertion index is within the queue |
| Queue.Placed | stumblebot.js:92-104 | addMessage's queue grows by exactly one, holds the new message at InsertIndex, and keeps every old entry in its old order around it |
| Queue.PlacedAppends | stumblebot.js:92-104 | A normal message, or any message into an empty queue, is appended at the end |
| Queue.PlacedBeforeNormals | stumblebot.js:92-102 | A priority message into a queue that holds a normal entry goes at the first normal entry, before every normal entry; when the queue keeps its priority entries first, only normal entries follow it |
| Queue.PlacedAllPriorityFront | stumblebot.js:92-102 | A priority message into a non-empty queue of priority entries only goes to the front |
| Queue.PriorityBehindPriorityJumpsAhead | stumblebot.js:92-104 | Two priority messages added to an empty queue end up in reverse arrival order |
| Queue.PlacedKeepsPriorityFirst | stumblebot.js:92-104 | If all priority entries stand before all normal ones, they still do after addMessage |
| Queue.PlacedNormalsFifo | stumblebot.js:92-104 | The normal entries stay first-in first-out: a normal message is appended to them and a priority message leaves them as they were |
| Queue.PlacedPrioritiesFifo | stumblebot.js:92-102 | With a normal entry queued, the new priority message goes last among the priority entries |
| Queue.PlacedPrioritiesLifo | stumblebot.js:92-102 | With no normal entry queued, the new priority message goes first among the priority entries |
| Queue.FindInsertIndex | stumblebot.js:94-101 | The search loop returns the index of the first non-priority entry if there is one, and 0 otherwise |
| Queue.FindInsertIndexAgrees | stumblebot.js:92-102 | What the search loop returns is the index at which Placed inserts a priority message |
| Queue.RateLimit.constructor | stumblebot.js:21-24 | The settings start at 1200 ms for normal messages and 500 ms for priority messages |
| Queue.MessageQueue.constructor | stumblebot.js:65-69 | An empty queue, not processing, last sent at time 0 |
| Queue.MessageQueue.AddMessage | stumblebot.js:84-112 | The queue becomes Placed of the old queue and the new message stamped with now; a drain step starts exactly when none was running, and then pops the head with its SendWait; "not processing implies empty queue" and "priority entries first" are kept |
| Queue.MessageQueue.ProcessQueue | stumblebot.js:114-127 | On an empty queue processing stops and nothing is popped; otherwise only the head is removed, the rest stays as it was, processing is set, and the wait is SendWait of the head's class delay |
| Queue.MessageQueue.CompleteSend | stumblebot.js:128-139 | lastSentTime becomes now exactly when the send succeeded, and a failed send changes nothing else; the next step comes after the full class delay of the message just sent |
| Queue.SendSpacing | stumblebot.js:121-139 | Two sends in a row are at least the first message's class delay apart, and after a successful first send also at least the second message's class delay |
| Timers.After420 | stumblebot.js:188-198 | After a reading, the memory holds that day; the hour is recorded when the trigger fires, reset to -1 on a new day, and unchanged otherwise |
| Timers.FourTwentyFires | stumblebot.js:188-198 | On a valid reading, the 4:20 trigger fires exactly when the minute is 20, the second is below 10, and this hour of this day has not fired |
| Timers.FourTwentyOncePerHour | stumblebot.js:188-198 | Once it has fired, no later reading in the same hour of the same day fires again |
| Timers.FourTwentyIdempotent | stumblebot.js:188-198 | Seeing the same reading twice fires at most once and leaves the same memory |
| Timers.FourTwentyFiresEveryHour | stumblebot.js:188-198 | On a new day both 4:20 and 16:20 fire |
| Timers.Remind | stumblebot.js:199-225 | A reminder is enqueued exactly when no countdown runs, the interval has passed since lastRulesPost and there is a connection; lastRulesPost becomes now whenever the reminder is due, connected or not |
| Timers.ReminderAdvancesWithoutConnection | stumblebot.js:199-211 | A due reminder without connection posts nothing, no reading before a full interval later is due, and the reading a full interval later is |
| Timers.SuggestionsNeverPost | stumblebot.js:199-225 | When the suggestions check follows the rules check within seven minutes, it never posts |
| Timers.TimerState.constructor | stumblebot.js:53-61 | The initial TimerState record |
| Timers.TimerManager.Check420Timer | stumblebot.js:179-198 | The 4:20 memory becomes After420 of the reading; the pending flag is set when the trigger fires and kept otherwise; no other field changes |
| Timers.TimerManager.CheckRulesTimer | stumblebot.js:199-211 | lastRulesPost and the messages are as Remind says for the rules image and the 13-minute interval; no other field changes |
| Timers.TimerManager.CheckSuggestionsTimer | stumblebot.js:212-225 | The same on the shared lastRulesPost with the suggestions link and the 20-minute interval |
| Timers.TimerManager.PeriodicTick | stumblebot.js:347-351 | One tick runs the 4:20 check, the rules check and the suggestions check, each on its own reading, with the state each leaves; when the suggestions reading is less than seven minutes after the rules reading, the tick posts and records only what the rules check does, never the suggestions link |
| Timers.TimerManager.TakeFourTwenty | stumblebot.js:386-389 | A pending 4:20 flag is cleared and the 4:20 message is enqueued at priority; without the flag nothing happens |
| Countdown.Checkpoint | stumblebot.js:315-322 | Above 30 seconds a checkpoint exactly on multiples of 30, in (10, 30] exactly on multiples of 10, in (0, 10] on every second, and none otherwise; it carries the remaining seconds |
| Countdown.SecondsRemaining | stumblebot.js:300-303 | The remaining seconds are totalSeconds minus the whole seconds elapsed, rounded down as Math.floor does |
| Countdown.TickDecision | stumblebot.js:299-334 | A tick is terminal exactly when the remaining seconds are at most 0; otherwise it sends the checkpoint of the remaining seconds, and switches to a one-shot due at the end time exactly when at most 3 seconds remain and the end is more than one second away |
| Countdown.FinishingDelayExact | stumblebot.js:324-334 | When the tick switches to the one-shot, that timer fires exactly at startTime + totalSeconds * 1000, between 1 and 3 seconds later, and the tick that arms it counts down 1 to 3 |
| Countdown.RemainingDecreases | stumblebot.js:300-303 | The remaining seconds never grow with time and drop by at least one per second |
| Countdown.RemainingAtTick | stumblebot.js:300-303 | A tick k seconds (and less than one more) after the start sees totalSeconds - k remaining |
| Countdown.SwitchAtThreeSeconds | stumblebot.js:324-334 | A tick on time at three seconds left posts "3..." and arms the one-shot for the last three seconds |
| Countdown.Cleared | stumblebot.js:288-290 | clearInterval removes exactly the named timer, and nothing when the handle is null |
| Countdown.TokeCountdown.constructor | stumblebot.js:53-61 | No countdown timers registered |
| Countdown.TokeCountdown.Start | stumblebot.js:287-299 | The start message is sent and `Started` holds: the countdown is active, the timer the record named is cleared, a fresh one is registered and recorded, armed one-shots stay armed, the handle counter advances by one, and the reminder bookkeeping is untouched |
| Countdown.TokeCountdown.Tick | stumblebot.js:299-335 | A tick does what TickDecision says: on a terminal tick the final message, the named timer cleared, the record reset and lastRulesPost set; otherwise at most one checkpoint and, on the switch, the named timer cleared and a one-shot armed for the end time |
| Countdown.TokeCountdown.Finish | stumblebot.js:328-333 | The one-shot sends the final message, nulls the handle, ends the countdown and sets lastRulesPost; it clears no timer |
| Countdown.RestartInFinishingWindow | stumblebot.js:287-335 | A 60-second countdown arms its one-shot at 57 s; a restart at 58 s, two seconds before the end, leaves it armed; after it fires, the restarted timer is never cleared and sends the final message on every tick |
| Text.StartsWith | stumblebot.js:244 | text.indexOf(k) === 0 exactly when k is no longer than the text and matches it character by character from the start |
| Text.Trim | stumblebot.js:250 | trim keeps one contiguous piece of the text that starts and ends with a non-space when not empty; everything before and after it is white space |
| Text.ParseInt | stumblebot.js:255 | parseInt is NaN exactly when no digit follows the leading white space and optional sign, and a negative result comes only from a leading minus sign |
| Text.Slice | stumblebot.js:250 | text.slice(n) is the text after position n, or empty when there is none |
| Text.LeadingSpaces | stumblebot.js:250 | The length of the leading run of white space that trim drops: all white space, and followed by a non-space or the end |
| Text.TrimEnd | stumblebot.js:250 | The result is a prefix, only white space was dropped, and it ends with a non-space if it is not empty |
| Text.TrimAround | stumblebot.js:250 | trim drops exactly the white space put before a text that starts and ends with a non-space |
| Text.DigitRun | stumblebot.js:255 | The length of the leading run of digits: all digits, and followed by a non-digit or the end |
| Text.DecimalDigits | stumblebot.js:255 | The numeral of a number is a non-empty run of digits whose value is that number |
| Text.ParseDecimal | stumblebot.js:255 | parseInt reads back the numeral of any natural number, whatever non-digit text follows |
| Text.ParseNegativeDecimal | stumblebot.js:255 | parseInt reads a minus sign followed by a numeral, and any non-digit text after it, as the negative number |
| Text.ParseMinus | stumblebot.js:255 | After a leading minus sign parseInt takes the digit run that follows and negates it, or gives NaN when there is none |
| Users.AsciiLowerString | stumblebot.js:155 | Case folding keeps the length and folds each character on its own |
| Users.IsGuestNick | stumblebot.js:155 | /^guest-\d+$/i: longer than six characters, "guest-" in any case, then digits to the end of the nick |
| Users.Joined | stumblebot.js:156-164 | After a join the table has the username and the handle as keys besides the old ones, both hold the new record, and every other entry is unchanged |
| Users.ChooseNickname | stumblebot.js:155-159 | The username for a guest nick, the nick otherwise, and the username when the nick is empty |
| Users.NicknameIn | stumblebot.js:172-174 | The stored nickname when there is a non-empty one, otherwise "User"; never empty |
| Users.JoinedLookup | stumblebot.js:163-164 | After a join, the user's handle and username both give the chosen nickname, and every other entry is unchanged |
| Users.GuestNumbers | stumblebot.js:155 | "guest-" in any case followed by any decimal number is a guest nick |
| Users.GuestNickCaseInsensitive | stumblebot.js:155 | Folding case does not change whether a nick is a guest nick |
| Users.GuestNickExamples | stumblebot.js:155 | "Guest-42" and "GUEST-7" are guest nicks |
| Users.NotGuestNicks | stumblebot.js:155 | "guest-", "guest-12a" and "myguest-1" are not guest nicks: the digits are required, only digits may follow, and the match is anchored at the start |
| Users.UserManager.constructor | stumblebot.js:149-151 | The table starts as the stored one, or empty |
| Users.UserManager.GetNickname | stumblebot.js:172-174 | The stored nickname of the handle when it is non-empty, otherwise "User"; never empty |
| Users.UserManager.HandleUserJoin | stumblebot.js:153-170 | The record is stored under the username and then the handle, and one greeting with the chosen nickname is sent at normal priority |
| Commands.FirstMatchIndex | stumblebot.js:243-248 | The first position in the order whose keyword starts the text; no keyword before it does |
| Commands.Matching | stumblebot.js:243-248 | The command run has a keyword that starts the text; when none runs, no keyword in the table starts it |
| Commands.FindCommand | stumblebot.js:243-248 | The search loop finds the first command in declared order whose keyword starts the text, and none exactly when no keyword does |
| Commands.Position | stumblebot.js:234-241 | Every command has a place in the handler table |
| Commands.KeywordsPrefixFree | stumblebot.js:10-17 | No keyword is a prefix of another |
| Commands.AtMostOneMatch | stumblebot.js:10-17 | At most one keyword starts any text |
| Commands.MatchingIsTheMatch | stumblebot.js:232-248 | The command run is c exactly when c's keyword starts the text, and none runs exactly when no keyword does |
| Commands.UnmatchedExamples | stumblebot.js:243-248 | "Ping", " .rules" and "say ping" run nothing: matching is case-sensitive and at the start only |
| Commands.MatchedExamples | stumblebot.js:243-248 | ".ytfoo" runs the YouTube handler and "pingpong" the ping handler |
| Commands.Argument | stumblebot.js:250-255 | The argument lies after the keyword and, when not empty, starts and ends with a non-space |
| Commands.ArgumentAfter | stumblebot.js:250-255 | The argument after a keyword and white space is the text as typed |
| Commands.TokeDuration | stumblebot.js:254-260 | A duration is accepted exactly when parseInt of the argument is a number in [60, 240], and it is that number |
| Commands.TokeAcceptsNumeral | stumblebot.js:254-257 | ".toke", any white space and a numeral in [60, 240] give that duration |
| Commands.TokeRejects | stumblebot.js:254-260 | A numeral outside [60, 240], or no argument, is refused |
| Commands.YouTubeRequest | stumblebot.js:249-254 | A YouTube "add" is queued at priority exactly when the argument is not empty, and it carries the argument |
| Commands.YouTubeQueryKept | stumblebot.js:249-254 | The "add" carries the query as typed, without the white space around it |
| Commands.CommandsListNamesCommands | stumblebot.js:261-268 | Every command but ping has a line, and each line names its command first |
| Commands.HandleCommandsList | stumblebot.js:261-274 | Five messages, one per line of the list, in order |
| Commands.Respond | stumblebot.js:232-286 | No text or no matching keyword sends nothing; only ping sends one second later, and it sends the pong; the only priority message sent at once is the YouTube add |
| Commands.SilentIff | stumblebot.js:232-286 | The bot sends nothing exactly when there is no text, no keyword starts it, or it is .yt with an empty argument; every other command but .commands sends exactly one message |
| Commands.CommandHandler.constructor | stumblebot.js:230-232 | The handler over the countdown timers |
| Commands.CommandHandler.HandleToke | stumblebot.js:254-261 | A valid duration sends the start message and leaves the countdown `Started` for that many seconds, with armed one-shots kept and the handle counter advanced; otherwise the usage reply is sent and no state changes |
| Commands.CommandHandler.HandleCommand | stumblebot.js:232-248 | The messages sent are Respond of the text; .toke with a valid duration leaves the countdown `Started` as startTokeCountdown does, and any other text changes nothing |
| Bot.IsJoin | stumblebot.js:384 | A greeted message is a join, and the greeted name is never empty |
| Bot.Reacted | stumblebot.js:380-392 | The greeting comes first among the immediate messages of a join and nothing precedes the command's replies otherwise; a pending 4:20 message goes first among the delayed ones |
| Bot.JoinReaction | stumblebot.js:380-392 | A join greets with the chosen nickname and sends nothing else but a pending 4:20 message |
| Bot.FourTwentyOnNextMessage | stumblebot.js:386-389 | A pending 4:20 message goes out one second after the next inbound message, whatever it is, and only then |
| Bot.StumbleBot.constructor | stumblebot.js:342-345 | The bot over its user table and command handler |
| Bot.StumbleBot.Greet | stumblebot.js:384-386 | A complete join message stores the user and yields the greeting; any other message changes nothing |
| Bot.StumbleBot.HandleMessage | stumblebot.js:380-392 | One message: the greeting, the pending 4:20 message and the command's replies, in that order; the user table as the join leaves it; the 4:20 flag cleared; a valid .toke leaves the countdown `Started`, and any other text leaves the countdown as it was |

## Left out

- The WebSocket patching, the `subscribe` filter and the global connection
  reference are transport plumbing. A connection appears only as the
  `connected` flag of the reminder triggers.
- JSON parsing and building, and the rendering of message templates. Texts
  are the symbolic `Reply` values; a YouTube "add" keeps only its video id.
- Real timers. Every `setTimeout` and `setInterval` callback is a method that
  the environment calls at the right time; the scheduling itself and the
  30-second "waiting for connection" log are not modelled.
- `Date` readings are parameters, and so is the random greeting index.
  `Math.random` has no result that can be specified.
- `localStorage`: the stored nickname table is the constructor's parameter,
  and writing it back is not modelled.
- Console output.
- Timers.TimerManager.PeriodicTick: the three checks of the one-second tick
  each read the clock themselves, so the method takes three independent
  readings. Nothing ties them together; that the suggestions trigger stays
  silent is stated for readings less than seven minutes apart, which the
  back-to-back calls of the source always are.
- Queue.SendWait: the delays are whole milliseconds; fractional or NaN delays
  that `configureRateLimit` would accept or refuse are not modelled.
- Text.DigitRun: `parseInt` is modelled on decimal input only. A `0x` prefix,
  and the loss of precision on numerals beyond 2^53, are not modelled.
- Users.ChooseNickname: nicks and usernames are strings; a JSON field of
  another type is not modelled.
- Commands.CommandHandler.HandleCommand: the exception that a message without
  `text` throws is modelled as sending nothing. That is what the bot does,
  because `handleCommand` is the last step of `handleMessage`.
- The nickname table is a plain JavaScript object. A username or handle of
  `__proto__` would set the object's prototype instead of storing an entry,
  and later lookups of missing handles would then find that user's nickname.
  The model's `map` has no prototype chain, so this is not modelled.
- The message queue's `websocket` field: every message goes to the one
  connection, so the field is dropped.
