/** Values shared by every part of the bot: the texts it posts, the payloads
    it hands to the outbound queue, and an Option type. */
module Messages {

  datatype Option<T> = None | Some(value: T)

  /** The chat texts the bot posts. Each constructor stands for one canned
      text or one template; numbers and names are the template's arguments. */
  datatype Reply =
    | FourTwenty                      // MESSAGES.FOUR_TWENTY
    | RulesImage                      // MESSAGES.RULES_IMAGE
    | SuggestionsLink                 // "Got a suggestion? ..." + MESSAGES.SUGGESTIONS_LINK
    | TokeInvalidDuration             // MESSAGES.TOKE_INVALID_DURATION
    | TokeStart(seconds: int)         // MESSAGES.TOKE_START
    | TokeRemaining(seconds: int)     // MESSAGES.TOKE_REMAINING, above 30 seconds
    | TokeShortRemaining(seconds: int)// "<n> seconds remaining!", 11 to 30 seconds
    | TokeCount(seconds: int)         // "<n>...", the last ten seconds
    | TokeFinal                       // MESSAGES.TOKE_FINAL
    | Cheers                          // MESSAGES.CHEERS (it has no {name} slot)
    | Greeting(index: nat, name: string)
    | CommandsLine(text: string)      // one line of the .commands list
    | Pong                            // MESSAGES.PONG

  /** What is sent on the connection: a chat message or a YouTube "add". */
  datatype Payload = Chat(reply: Reply) | YouTubeAdd(id: string)

  /** One call of the queue's addMessage: the payload and its priority class. */
  datatype Outbound = Outbound(payload: Payload, isPriority: bool)

  /** sendMessage: a chat text at normal priority. */
  function Say(r: Reply): Outbound
  {
    Outbound(Chat(r), false)
  }
}
