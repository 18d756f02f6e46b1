/** The fallback router (src/bot/handlers/other.py): one handler without
    filters that answers `wrong_input` and leaves the state alone. */
module Other {
  import opened States
  import opened BotEvents

  function ProcessWrongInput(stage: Stage): (t: Turn)
    ensures t.next == stage && t.replies == [WrongInputText]
  {
    Turn([WrongInputText], stage)
  }
}
