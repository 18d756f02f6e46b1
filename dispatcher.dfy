/** The conversation of one user with the bot. src/bot/bot.py builds a
    `Dispatcher` but registers no router, so the order in which the three
    routers are consulted is not in the code. This model ASSUMES the order
    commands, then the form router, then the fallback: the first router with
    a matching handler takes the message. */
module Dispatcher {
  import opened Wrappers
  import opened States
  import opened BotEvents
  import opened Commands
  import opened WeatherHandlers
  import opened Other

  /** One message, routed in the assumed order. */
  function Dispatch(stage: Stage, m: Message): (t: Turn)
    ensures CommandOf(m).Some? ==> Some(t) == CommandsRouter(stage, m)
    ensures stage != FillAdditionalCity ==> t.next != FillAdditionalCity
    ensures 1 <= |t.replies| <= 2
  {
    var c := CommandsRouter(stage, m);
    if c.Some? then c.value
    else
      var w := WeatherRouter(stage, m);
      if w.Some? then w.value else ProcessWrongInput(stage)
  }

  /** A sequence of messages from one user: every reply, in order, and the
      final stage. */
  function Run(stage: Stage, ms: seq<Message>): Turn
    decreases |ms|
  {
    if ms == [] then Turn([], stage)
    else
      var t := Dispatch(stage, ms[0]);
      var rest := Run(t.next, ms[1..]);
      Turn(t.replies + rest.replies, rest.next)
  }

  /** The per-user FSM context; the stage is all it holds. */
  class Conversation {
    var stage: Stage

    /** A user with no stored state is in `default_state`. */
    constructor ()
      ensures stage == Idle
    {
      stage := Idle;
    }

    /** A command message is the text "/name". */
    method ReceiveCommand(name: string) returns (replies: seq<Reply>)
      modifies this
      ensures Turn(replies, stage) == Dispatch(old(stage), BotEvents.Command(name))
    {
      replies := ReceiveText("/" + name);
    }

    method ReceiveText(s: string) returns (replies: seq<Reply>)
      modifies this
      ensures Turn(replies, stage) == Dispatch(old(stage), BotEvents.Text(s))
    {
      var command := CommandOf(BotEvents.Text(s));
      if command.Some? {
        var name := command.value;
        if name == "start" {
          replies := [StartText];
        } else if name == "help" {
          replies := [HelpText];
        } else if name == "weather" {
          replies := [WeatherPrompt(WeatherKeyboard())];
          stage := FillForecastRange;
        } else {
          replies := [CancelText];
          stage := Idle;
        }
        return;
      }
      if s == "" {
        replies := [WrongInputText];
        return;
      }
      match stage
      case FillForecastRange =>
        replies := [DeparturePrompt];
        stage := FillDepartureCity;
      case FillDepartureCity =>
        replies := [DestinationPrompt];
        stage := FillDestinationCity;
      case FillDestinationCity =>
        replies := [ConfirmPrompt];
        stage := Confirm;
      case Confirm =>
        replies := [ForecastPlaceholder, FinishedForecast];
        stage := Idle;
      case FillAdditionalCity =>
        replies := [WrongInputText];
      case Idle =>
        replies := [WrongInputText];
    }

    method ReceiveNonText() returns (replies: seq<Reply>)
      ensures Turn(replies, stage) == Dispatch(stage, BotEvents.NonText)
      ensures replies == [WrongInputText]
    {
      replies := [WrongInputText];
    }
  }

  /** The four commands apply in every stage: `/start` and `/help` reply and
      keep the stage, `/weather` restarts the form (with the 1..5 keyboard)
      even mid-flow, `/cancel` returns to `default_state`. */
  lemma CommandsInEveryStage(stage: Stage)
    ensures Dispatch(stage, Command("start")) == Turn([StartText], stage)
    ensures Dispatch(stage, Command("help")) == Turn([HelpText], stage)
    ensures Dispatch(stage, Command("weather")) == Turn([WeatherPrompt(WeatherKeyboard())], FillForecastRange)
    ensures Dispatch(stage, Command("cancel")) == Turn([CancelText], Idle)
  {
    CommandNameRecognised("start");
    CommandNameRecognised("help");
    CommandNameRecognised("weather");
    CommandNameRecognised("cancel");
  }

  /** `/cancel` is also a non-empty text, which the form router would accept;
      only the assumed order lets the command win. */
  lemma CancelIsAlsoText(stage: Stage)
    requires stage in {FillForecastRange, FillDepartureCity, FillDestinationCity, Confirm}
    ensures WeatherRouter(stage, Command("cancel")).Some?
    ensures WeatherRouter(stage, Command("cancel")).value != Dispatch(stage, Command("cancel"))
  {
    CommandNameRecognised("cancel");
  }

  /** What happens to a message that is not one of the four commands. */
  lemma NonCommandMessage(stage: Stage, m: Message)
    requires !CommandOf(m).Some?
    ensures Dispatch(stage, m)
         == match stage
            case FillForecastRange => if HasText(m) then Turn([DeparturePrompt], FillDepartureCity) else Turn([WrongInputText], stage)
            case FillDepartureCity => if HasText(m) then Turn([DestinationPrompt], FillDestinationCity) else Turn([WrongInputText], stage)
            case FillDestinationCity => if HasText(m) then Turn([ConfirmPrompt], Confirm) else Turn([WrongInputText], stage)
            case Confirm => if HasText(m) then Turn([ForecastPlaceholder, FinishedForecast], Idle) else Turn([WrongInputText], stage)
            case _ => Turn([WrongInputText], stage)
  {
  }

  /** Outside the form, and in `fill_additional_city`, every message other
      than a command gets the fallback answer and leaves the stage as it is. */
  lemma FallbackOutsideHandledStates(stage: Stage, m: Message)
    requires !CommandOf(m).Some?
    requires stage == Idle || stage == FillAdditionalCity || !HasText(m)
    ensures Dispatch(stage, m) == Turn([WrongInputText], stage)
  {
  }

  /** The day count is not checked: any non-empty text that is not a command
      moves on from `fill_forecast_range`, "0", "9" and "abc" included. The
      text itself is not kept: two such texts have the same effect in every
      stage. */
  lemma TextContentIgnored(stage: Stage, a: string, b: string)
    requires a != "" && b != ""
    requires CommandOf(Text(a)).None? && CommandOf(Text(b)).None?
    ensures Dispatch(stage, Text(a)) == Dispatch(stage, Text(b))
    ensures Dispatch(FillForecastRange, Text(a)).next == FillDepartureCity
  {
  }

  /** The confirm handler is the only one that answers twice; every other
      turn sends exactly one reply. */
  lemma ReplyCount(stage: Stage, m: Message)
    ensures |Dispatch(stage, m).replies|
         == if stage == Confirm && HasText(m) && !CommandOf(m).Some? then 2 else 1
  {
  }

  /** `fill_additional_city` is unreachable: no run that starts elsewhere
      (in particular from a fresh conversation) ever gets there. */
  lemma {:induction false} AdditionalCityUnreachable(stage: Stage, ms: seq<Message>)
    requires stage != FillAdditionalCity
    ensures Run(stage, ms).next != FillAdditionalCity
    decreases |ms|
  {
    if ms != [] {
      AdditionalCityUnreachable(Dispatch(stage, ms[0]).next, ms[1..]);
    }
  }

  /** The whole form, from any stage: `/weather` and four non-empty texts
      that are not commands always end in `default_state`, with the confirm
      handler's two replies last. */
  lemma CompleteForm(stage: Stage, range: string, departure: string, destination: string, confirm: string)
    requires range != "" && departure != "" && destination != "" && confirm != ""
    requires CommandOf(Text(range)).None? && CommandOf(Text(departure)).None?
    requires CommandOf(Text(destination)).None? && CommandOf(Text(confirm)).None?
    ensures Run(stage, [Command("weather"), Text(range), Text(departure), Text(destination), Text(confirm)])
         == Turn([WeatherPrompt(WeatherKeyboard()), DeparturePrompt, DestinationPrompt, ConfirmPrompt,
                  ForecastPlaceholder, FinishedForecast], Idle)
  {
    var texts := [Text(range), Text(departure), Text(destination), Text(confirm)];
    FormFromRange(range, departure, destination, confirm);
    CommandNameRecognised("weather");
    RunCons(stage, Command("weather"), texts);
    assert [Command("weather")] + texts
        == [Command("weather"), Text(range), Text(departure), Text(destination), Text(confirm)];
  }

  /** The last four steps of the form, from `fill_forecast_range`. */
  lemma FormFromRange(range: string, departure: string, destination: string, confirm: string)
    requires range != "" && departure != "" && destination != "" && confirm != ""
    requires CommandOf(Text(range)).None? && CommandOf(Text(departure)).None?
    requires CommandOf(Text(destination)).None? && CommandOf(Text(confirm)).None?
    ensures Run(FillForecastRange, [Text(range), Text(departure), Text(destination), Text(confirm)])
         == Turn([DeparturePrompt, DestinationPrompt, ConfirmPrompt, ForecastPlaceholder, FinishedForecast], Idle)
  {
    var rest := [Text(departure), Text(destination), Text(confirm)];
    FormFromDeparture(departure, destination, confirm);
    FormTexts(range);
    RunCons(FillForecastRange, Text(range), rest);
    assert [Text(range)] + rest == [Text(range), Text(departure), Text(destination), Text(confirm)];
  }

  lemma FormFromDeparture(departure: string, destination: string, confirm: string)
    requires departure != "" && destination != "" && confirm != ""
    requires CommandOf(Text(departure)).None?
    requires CommandOf(Text(destination)).None? && CommandOf(Text(confirm)).None?
    ensures Run(FillDepartureCity, [Text(departure), Text(destination), Text(confirm)])
         == Turn([DestinationPrompt, ConfirmPrompt, ForecastPlaceholder, FinishedForecast], Idle)
  {
    var rest := [Text(destination), Text(confirm)];
    FormFromDestination(destination, confirm);
    FormTexts(departure);
    RunCons(FillDepartureCity, Text(departure), rest);
    assert [Text(departure)] + rest == [Text(departure), Text(destination), Text(confirm)];
  }

  lemma FormFromDestination(destination: string, confirm: string)
    requires destination != "" && confirm != ""
    requires CommandOf(Text(destination)).None? && CommandOf(Text(confirm)).None?
    ensures Run(FillDestinationCity, [Text(destination), Text(confirm)])
         == Turn([ConfirmPrompt, ForecastPlaceholder, FinishedForecast], Idle)
  {
    var rest := [Text(confirm)];
    FormTexts(confirm);
    FormTexts(destination);
    RunCons(Confirm, Text(confirm), []);
    assert [Text(confirm)] + [] == rest;
    RunCons(FillDestinationCity, Text(destination), rest);
    assert [Text(destination)] + rest == [Text(destination), Text(confirm)];
  }

  /** The four form steps for one text that is not a command. */
  lemma FormTexts(s: string)
    requires s != "" && CommandOf(Text(s)).None?
    ensures Dispatch(FillForecastRange, Text(s)) == Turn([DeparturePrompt], FillDepartureCity)
    ensures Dispatch(FillDepartureCity, Text(s)) == Turn([DestinationPrompt], FillDestinationCity)
    ensures Dispatch(FillDestinationCity, Text(s)) == Turn([ConfirmPrompt], Confirm)
    ensures Dispatch(Confirm, Text(s)) == Turn([ForecastPlaceholder, FinishedForecast], Idle)
  {
  }

  /** One step of a run. */
  lemma RunCons(stage: Stage, m: Message, rest: seq<Message>)
    ensures Run(stage, [m] + rest)
         == Turn(Dispatch(stage, m).replies + Run(Dispatch(stage, m).next, rest).replies,
                 Run(Dispatch(stage, m).next, rest).next)
  {
    assert ([m] + rest)[0] == m && ([m] + rest)[1..] == rest;
  }
}
