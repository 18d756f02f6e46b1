/** The form router (src/bot/handlers/weather.py): a router-level
    `StateFilter(FSMWeatherForm)` and four handlers, each filtered by one
    state and by `F.text`. None of them looks at the text or stores it. */
module WeatherHandlers {
  import opened Wrappers
  import opened States
  import opened BotEvents

  /** The router fires exactly on a non-empty text in one of the four handled
      states: never when idle, in `fill_additional_city`, or on a message
      without text; and each handler moves to a different state, never to
      `fill_additional_city`. */
  function WeatherRouter(stage: Stage, m: Message): (r: Option<Turn>)
    ensures r.Some? <==> HasText(m) && stage in {FillForecastRange, FillDepartureCity, FillDestinationCity, Confirm}
    ensures r.Some? ==> r.value.next != stage && r.value.next != FillAdditionalCity
  {
    if !InWeatherForm(stage) || !HasText(m) then None
    else
      match stage
      case FillForecastRange => Some(Turn([DeparturePrompt], FillDepartureCity))
      case FillDepartureCity => Some(Turn([DestinationPrompt], FillDestinationCity))
      case FillDestinationCity => Some(Turn([ConfirmPrompt], Confirm))
      case Confirm => Some(Turn([ForecastPlaceholder, FinishedForecast], Idle))
      case _ => None
  }
}
