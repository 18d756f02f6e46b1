/** What the handlers receive and send. Reply texts are the keys of the
    bot's lexicon, kept as tags. */
module BotEvents {
  import opened Wrappers
  import opened States
  import opened PyStrings

  /** An incoming message: a text written as a command (`Command(name)` is the
      text "/name"), any other text, or a message without text (a sticker, a
      photo). */
  datatype Message = Command(name: string) | Text(text: string) | NonText

  /** An inline keyboard button: its caption and its callback data. */
  datatype Button = Button(caption: string, callbackData: string)

  datatype Reply =
    | StartText                       // command_start
    | HelpText                        // command_help
    | WeatherPrompt(keyboard: seq<Button>)  // command_weather, with the 1..5 keyboard
    | CancelText                      // command_cancel
    | DeparturePrompt                 // fill_departure_city
    | DestinationPrompt               // fill_destination_city
    | ConfirmPrompt                   // confirm
    | ForecastPlaceholder             // the literal placeholder of the confirm handler
    | FinishedForecast                // finished_forecast
    | WrongInputText                  // wrong_input

  /** The effect of one handled message: the replies sent, in order, and the
      stage afterwards. */
  datatype Turn = Turn(replies: seq<Reply>, next: Stage)

  /** `message.text`. */
  function MessageText(m: Message): Option<string> {
    match m
    case Command(name) => Some("/" + name)
    case Text(s) => Some(s)
    case NonText => None
  }

  /** The magic filter `F.text`: the message has a text and it is not empty. */
  predicate HasText(m: Message) {
    MessageText(m).Some? && MessageText(m).value != ""
  }

  /** The commands the bot has handlers for. */
  const CommandNames: set<string> := {"start", "help", "weather", "cancel"}

  /** The command filters' reading of a message: the first word of its text
      (`text.split()[0]`) is "/" followed by one of the four names. */
  function CommandOf(m: Message): (c: Option<string>)
    ensures c.Some? ==> c.value in CommandNames && HasText(m)
    ensures c.Some? ==> Split(MessageText(m).value) != [] && Split(MessageText(m).value)[0] == "/" + c.value
  {
    match MessageText(m)
    case None => None
    case Some(t) =>
      var words := Split(t);
      if words != [] && words[0][0] == '/' && words[0][1..] in CommandNames then
        assert words[0] == "/" + words[0][1..];
        Some(words[0][1..])
      else None
  }

  /** A command message is recognised by the name it carries. */
  lemma CommandNameRecognised(name: string)
    requires name in CommandNames
    ensures CommandOf(Command(name)) == Some(name)
  {
    var t := "/" + name;
    assert IsWord(t) by {
      if name == "start" {} else if name == "help" {} else if name == "weather" {} else {}
    }
    SplitOfWord(t);
    assert t[1..] == name;
  }
}
