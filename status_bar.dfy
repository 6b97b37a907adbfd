/** The status-bar item: its fields and the functions of the extension that
    overwrite them. An item state is a record; each `show*` function is a
    transition on it (`AuthRequired`, `Updating`, ...) and a method of
    `StatusBarItem` that performs it. */
module StatusBar {
  import opened Wrappers
  import opened Types
  import opened TooltipBuilder

  const SpinnerText: string := "$(claude-icon) $(sync~spin)"
  const ErrorText: string := "$(error)"
  const WarningText: string := "$(warning)"
  const InitializingText: string := "Initializing Claude Stats Monitor..."
  const NoopCommand: string := "claude-usage.noop"
  const ItemPriority: int := 100

  datatype Alignment = Left | Right

  /** The item's text: a fixed codicon text, or the usage label
      `$(claude-icon) <percent rounded>%`, whose rounding stays abstract. */
  datatype BarText = Literal(text: string) | PercentLabel(percent: real)

  /** The theme colours the item is given: `errorForeground` and
      `editorWarning.foreground`. */
  datatype ThemeColor = ErrorForeground | WarningForeground

  datatype ItemState = ItemState(
    text: BarText,
    color: Option<ThemeColor>,
    backgroundColor: Option<ThemeColor>,
    tooltip: Tooltip,
    command: Option<string>)

  /** The percentage shown: the higher of the 5-hour and 7-day windows, an
      absent window counting as 0; the other two windows play no part. */
  function DisplayPercent(u: ClaudeUsage): (p: real)
    ensures p >= UtilOrZero(u.fiveHour) && p >= UtilOrZero(u.sevenDay)
    ensures p == UtilOrZero(u.fiveHour) || p == UtilOrZero(u.sevenDay)
  {
    Max(UtilOrZero(u.fiveHour), UtilOrZero(u.sevenDay))
  }

  /** Only the 5-hour and 7-day windows decide the displayed percentage. */
  lemma DisplayPercentIgnoresOtherWindows(u: ClaudeUsage, opus: Option<UsageWindow>, apps: Option<UsageWindow>)
    ensures DisplayPercent(u.(sevenDayOpus := opus, sevenDayOauthApps := apps)) == DisplayPercent(u)
  {
  }

  // ---------------------------------------------------------------------------
  // Transitions

  /** `createStatusBarItem`. */
  function Initial(): ItemState
  {
    ItemState(Literal(SpinnerText), None, None, PlainTooltip(InitializingText), Some(NoopCommand))
  }

  /** `updateStatusBar` up to the tooltip: percentage text, both colours cleared. */
  function UsageText(s: ItemState, u: ClaudeUsage): ItemState
  {
    s.(text := PercentLabel(DisplayPercent(u)), color := None, backgroundColor := None)
  }

  /** `updateStatusBar` completed with the main tooltip. */
  function ShowingUsage(s: ItemState, u: ClaudeUsage, fragments: seq<Fragment>): ItemState
  {
    UsageText(s, u).(tooltip := MainTooltip(fragments))
  }

  function AuthRequired(s: ItemState): ItemState
  {
    s.(text := Literal(ErrorText), color := Some(ErrorForeground), tooltip := AuthRequiredTooltip,
       command := Some(NoopCommand))
  }

  function AuthError(s: ItemState, error: string): ItemState
  {
    s.(text := Literal(ErrorText), color := Some(ErrorForeground), tooltip := AuthErrorTooltip(error))
  }

  function Updating(s: ItemState): ItemState
  {
    s.(text := Literal(SpinnerText), color := None, tooltip := UpdatingTooltip)
  }

  function FetchError(s: ItemState): ItemState
  {
    s.(text := Literal(WarningText), color := Some(WarningForeground), tooltip := FetchErrorTooltip)
  }

  function UpdateError(s: ItemState, error: string): ItemState
  {
    s.(text := Literal(WarningText), color := Some(WarningForeground), tooltip := UpdateErrorTooltip(error))
  }

  /** Which fields each transition leaves alone: only the auth-required state
      resets the command, only the usage display clears the background, and
      the two error displays differ in nothing but their tooltip. */
  lemma TransitionFrames(s: ItemState, error: string, u: ClaudeUsage)
    ensures AuthError(s, error).command == s.command && AuthError(s, error).backgroundColor == s.backgroundColor
    ensures Updating(s).command == s.command && Updating(s).backgroundColor == s.backgroundColor
    ensures FetchError(s).command == s.command && UpdateError(s, error).command == s.command
    ensures FetchError(s).(tooltip := UpdatingTooltip) == UpdateError(s, error).(tooltip := UpdatingTooltip)
    ensures FetchError(s).tooltip != UpdateError(s, error).tooltip
    ensures AuthRequired(s).command == Some(NoopCommand)
    ensures UsageText(s, u).backgroundColor.None? && UsageText(s, u).command == s.command
    ensures AuthRequired(s).backgroundColor == s.backgroundColor && FetchError(s).backgroundColor == s.backgroundColor
      && UpdateError(s, error).backgroundColor == s.backgroundColor
  {
  }

  /** The fetch-error display overwrites every field the spinner set:
      updating, then failing to fetch, looks exactly the same as failing to
      fetch straight away. */
  lemma FetchErrorOverwritesUpdating(s: ItemState)
    ensures FetchError(Updating(s)) == FetchError(s)
  {
  }

  // ---------------------------------------------------------------------------
  // The item

  class StatusBarItem {
    const alignment: Alignment
    const priority: int
    var text: BarText
    var color: Option<ThemeColor>
    var backgroundColor: Option<ThemeColor>
    var tooltip: Tooltip
    var command: Option<string>
    var visible: bool
    var disposed: bool

    function State(): ItemState
      reads this
    {
      ItemState(text, color, backgroundColor, tooltip, command)
    }

    /** `createStatusBarItem`: right-aligned, priority 100, shown with the
        spinner, the initializing tooltip and the no-op command. */
    constructor Create()
      ensures State() == Initial()
      ensures alignment == Right && priority == ItemPriority && visible && !disposed
    {
      alignment := Right;
      priority := ItemPriority;
      text := Literal(SpinnerText);
      tooltip := PlainTooltip(InitializingText);
      command := Some(NoopCommand);
      color, backgroundColor := None, None;
      visible := true;
      disposed := false;
    }

    /** `updateStatusBar`. If building the main tooltip throws, the text and
        colours have already been replaced, the tooltip has not, and the error
        propagates to the caller (returned here as `thrown`). */
    method UpdateStatusBar(usage: ClaudeUsage, authData: AuthData, now: int, progressBarFault: ProgressBarFault)
      returns (thrown: Option<string>)
      modifies this
      ensures thrown == FirstBarFault(usage, progressBarFault)
      ensures thrown.None? ==> State() == ShowingUsage(old(State()), usage, MainFragments(usage, authData, now))
      ensures thrown.Some? ==> State() == UsageText(old(State()), usage)
      ensures visible == old(visible) && disposed == old(disposed)
    {
      var fiveHourPercent := UtilOrZero(usage.fiveHour);
      var sevenDayPercent := UtilOrZero(usage.sevenDay);
      var displayPercent := Max(fiveHourPercent, sevenDayPercent);

      text := PercentLabel(displayPercent);
      color := None;
      backgroundColor := None;

      var built := CreateMainTooltip(usage, authData, now, progressBarFault);
      match built {
        case Success(fragments) =>
          tooltip := MainTooltip(fragments);
          thrown := None;
        case Failure(e) =>
          thrown := Some(e);
      }
    }

    method ShowAuthRequired()
      modifies this
      ensures State() == AuthRequired(old(State()))
      ensures visible == old(visible) && disposed == old(disposed)
    {
      text := Literal(ErrorText);
      color := Some(ErrorForeground);
      tooltip := AuthRequiredTooltip;
      command := Some(NoopCommand);
    }

    method ShowAuthError(error: string)
      modifies this
      ensures State() == AuthError(old(State()), error)
      ensures visible == old(visible) && disposed == old(disposed)
    {
      text := Literal(ErrorText);
      color := Some(ErrorForeground);
      tooltip := AuthErrorTooltip(error);
    }

    method ShowUpdating()
      modifies this
      ensures State() == Updating(old(State()))
      ensures visible == old(visible) && disposed == old(disposed)
    {
      text := Literal(SpinnerText);
      color := None;
      tooltip := UpdatingTooltip;
    }

    method ShowFetchError()
      modifies this
      ensures State() == FetchError(old(State()))
      ensures visible == old(visible) && disposed == old(disposed)
    {
      text := Literal(WarningText);
      color := Some(WarningForeground);
      tooltip := FetchErrorTooltip;
    }

    method ShowUpdateError(error: string)
      modifies this
      ensures State() == UpdateError(old(State()), error)
      ensures visible == old(visible) && disposed == old(disposed)
    {
      text := Literal(WarningText);
      color := Some(WarningForeground);
      tooltip := UpdateErrorTooltip(error);
    }

    /** `dispose`, as `deactivate` calls it; disposing twice is harmless. */
    method Dispose()
      modifies this
      ensures disposed && State() == old(State()) && visible == old(visible)
    {
      disposed := true;
    }
  }
}
