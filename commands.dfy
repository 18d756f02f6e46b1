/** The command router (src/bot/handlers/commands.py): `/start`, `/help`,
    `/weather` and `/cancel`, none of them filtered by state. */
module Commands {
  import opened Wrappers
  import opened States
  import opened BotEvents
  import PyStrings
  import ApiRoutes

  /** The keyboard of `/weather`: one button per `i in range(1, 6)`, labelled
      `str(i)` with callback data `str(i)`. */
  function WeatherKeyboard(): seq<Button> {
    seq(5, i requires 0 <= i < 5 => Button([('1' as int + i) as char], [('1' as int + i) as char]))
  }

  /** Five buttons labelled "1" to "5", each carrying its own label as callback
      data; every label is a day count the web API accepts. */
  lemma WeatherKeyboardButtons()
    ensures WeatherKeyboard()
         == [Button("1", "1"), Button("2", "2"), Button("3", "3"), Button("4", "4"), Button("5", "5")]
    ensures forall i :: 0 <= i < 5 ==>
              ApiRoutes.ValidDays(WeatherKeyboard()[i].callbackData)
              && PyStrings.DecimalValue(WeatherKeyboard()[i].callbackData) == i + 1
  {
    var kb := WeatherKeyboard();
    assert kb[0] == Button("1", "1") && kb[1] == Button("2", "2") && kb[2] == Button("3", "3");
    assert kb[3] == Button("4", "4") && kb[4] == Button("5", "5");
  }

  /** The first command handler whose filter matches, if any. `/weather` and
      `/cancel` set the stage; `/start` and `/help` only reply. No handler has a
      state filter. */
  function CommandsRouter(stage: Stage, m: Message): (r: Option<Turn>)
    ensures r.Some? <==> CommandOf(m).Some?
    ensures r.Some? ==> |r.value.replies| == 1
    ensures r.Some? && r.value.next != stage ==> r.value.next == FillForecastRange || r.value.next == Idle
  {
    match CommandOf(m)
    case None => None
    case Some(name) =>
      if name == "start" then Some(Turn([StartText], stage))
      else if name == "help" then Some(Turn([HelpText], stage))
      else if name == "weather" then Some(Turn([WeatherPrompt(WeatherKeyboard())], FillForecastRange))
      else Some(Turn([CancelText], Idle))
  }
}
