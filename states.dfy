/** `FSMWeatherForm` (src/bot/states/states.py) together with aiogram's
    `default_state`, the idle state outside the group. */
module States {

  datatype Stage =
    | Idle                 // default_state
    | FillForecastRange
    | FillDepartureCity
    | FillDestinationCity
    | FillAdditionalCity
    | Confirm

  /** The states of the group, in declaration order. */
  const WeatherForm: seq<Stage> :=
    [FillForecastRange, FillDepartureCity, FillDestinationCity, FillAdditionalCity, Confirm]

  /** `StateFilter(FSMWeatherForm)`: the stage is one of the group's states. */
  predicate InWeatherForm(s: Stage) {
    s in WeatherForm
  }

  /** The group has exactly five pairwise distinct states, and the idle state
      is the only stage outside it. */
  lemma WeatherFormShape()
    ensures |WeatherForm| == 5
    ensures forall i, j :: 0 <= i < j < |WeatherForm| ==> WeatherForm[i] != WeatherForm[j]
    ensures forall s :: InWeatherForm(s) <==> s != Idle
  {
  }
}
