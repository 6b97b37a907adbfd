/** The refresh cycle (`initializeMonitor`, `updateUsage`) and the aggregation
    of high-usage warnings (`checkUsageWarnings`). The module-level client and
    session become the fields of a `UsageMonitor`; the status-bar item it
    draws on is passed in. */
module UsageMonitor {
  import opened Wrappers
  import opened Types
  import opened ClaudeClient
  import opened TooltipBuilder
  import opened StatusBar

  const WarningThreshold: real := 90.0
  const WarningPrefix: string := "Claude Stats Warning: "
  const WarningSeparator: string := ", "

  // ---------------------------------------------------------------------------
  // Warnings

  /** One entry of the warning list: a window above the threshold and its
      utilisation. */
  datatype WarningEntry = WarningEntry(window: WindowKind, utilization: real)

  /** The windows that can be warned about, in the order they are checked. */
  const WarnedWindows: seq<WindowKind> := [FiveHour, SevenDay, SevenDayOpus]

  /** Windows listed strictly in tooltip order. */
  predicate InOrder(ks: seq<WindowKind>)
  {
    forall i, j :: 0 <= i < j < |ks| ==> Rank(ks[i]) < Rank(ks[j])
  }

  predicate EntriesInOrder(es: seq<WarningEntry>)
  {
    forall i, j :: 0 <= i < j < |es| ==> Rank(es[i].window) < Rank(es[j].window)
  }

  predicate AboveThreshold(u: ClaudeUsage, k: WindowKind)
  {
    Window(u, k).Some? && Window(u, k).value.utilization > WarningThreshold
  }

  /** The entries for the windows `ks` of `u` that are above the threshold, in
      the order of `ks`. */
  function EntriesOf(u: ClaudeUsage, ks: seq<WindowKind>): (es: seq<WarningEntry>)
    ensures |es| <= |ks|
  {
    if ks == [] then []
    else
      (if AboveThreshold(u, ks[0]) then [WarningEntry(ks[0], Window(u, ks[0]).value.utilization)] else [])
      + EntriesOf(u, ks[1..])
  }

  /** The warning list of a snapshot. */
  function WarningEntries(u: ClaudeUsage): seq<WarningEntry>
  {
    EntriesOf(u, WarnedWindows)
  }

  /** The three checks one after the other, as `checkUsageWarnings` makes them. */
  lemma WarningEntriesUnfold(u: ClaudeUsage)
    ensures WarningEntries(u) ==
      (if AboveThreshold(u, FiveHour) then [WarningEntry(FiveHour, u.fiveHour.value.utilization)] else [])
      + (if AboveThreshold(u, SevenDay) then [WarningEntry(SevenDay, u.sevenDay.value.utilization)] else [])
      + (if AboveThreshold(u, SevenDayOpus) then [WarningEntry(SevenDayOpus, u.sevenDayOpus.value.utilization)] else [])
  {
    assert WarnedWindows[1..] == [SevenDay, SevenDayOpus];
    assert [SevenDay, SevenDayOpus][1..] == [SevenDayOpus];
    assert [SevenDayOpus][1..] == [];
    var last := EntriesOf(u, [SevenDayOpus]);
    assert last == (if AboveThreshold(u, SevenDayOpus) then [WarningEntry(SevenDayOpus, u.sevenDayOpus.value.utilization)] else []);
    assert EntriesOf(u, [SevenDay, SevenDayOpus])
      == (if AboveThreshold(u, SevenDay) then [WarningEntry(SevenDay, u.sevenDay.value.utilization)] else []) + last;
  }

  /** `EntriesOf` keeps exactly the listed windows above the threshold, with
      their own utilisation. */
  lemma {:induction false} EntriesOfMembership(u: ClaudeUsage, ks: seq<WindowKind>, e: WarningEntry)
    ensures e in EntriesOf(u, ks) <==>
      e.window in ks && AboveThreshold(u, e.window) && e.utilization == Window(u, e.window).value.utilization
  {
    if ks != [] {
      EntriesOfMembership(u, ks[1..], e);
      assert ks == [ks[0]] + ks[1..];
    }
  }

  /** `EntriesOf` keeps the order of `ks` when `ks` is strictly ordered. */
  lemma {:induction false} EntriesOfOrdered(u: ClaudeUsage, ks: seq<WindowKind>)
    requires InOrder(ks)
    ensures EntriesInOrder(EntriesOf(u, ks))
  {
    if ks != [] {
      var es := EntriesOf(u, ks);
      var rest := EntriesOf(u, ks[1..]);
      EntriesOfOrdered(u, ks[1..]);
      forall e | e in rest
        ensures Rank(ks[0]) < Rank(e.window)
      {
        EntriesOfMembership(u, ks[1..], e);
        var j :| 0 <= j < |ks[1..]| && ks[1..][j] == e.window;
        assert ks[j + 1] == e.window;
      }
      if AboveThreshold(u, ks[0]) {
        assert es == [WarningEntry(ks[0], Window(u, ks[0]).value.utilization)] + rest;
        forall i, j | 0 <= i < j < |es|
          ensures Rank(es[i].window) < Rank(es[j].window)
        {
          if i == 0 {
            assert es[j] == rest[j - 1];
            assert es[j] in rest;
          } else {
            assert es[i] == rest[i - 1] && es[j] == rest[j - 1];
          }
        }
      } else {
        assert es == rest;
      }
    }
  }

  /** The warning list holds an entry for a window exactly when that window is
      present and strictly above 90 and is not the OAuth-apps window, carrying
      that window's utilisation; the entries follow the 5-hour, 7-day, 7-day
      Opus order and there are at most three. */
  lemma WarningEntriesSpec(u: ClaudeUsage)
    ensures forall e :: e in WarningEntries(u) <==>
      e.window != SevenDayOauthApps && AboveThreshold(u, e.window)
      && e.utilization == Window(u, e.window).value.utilization
    ensures EntriesInOrder(WarningEntries(u))
    ensures |WarningEntries(u)| <= 3
  {
    forall e
      ensures e in WarningEntries(u) <==>
        e.window != SevenDayOauthApps && AboveThreshold(u, e.window)
        && e.utilization == Window(u, e.window).value.utilization
    {
      EntriesOfMembership(u, WarnedWindows, e);
    }
    assert InOrder(WarnedWindows);
    EntriesOfOrdered(u, WarnedWindows);
  }

  /** A window at exactly 90 is not warned about. */
  lemma NinetyIsNotWarned(u: ClaudeUsage, k: WindowKind)
    requires Window(u, k).Some? && Window(u, k).value.utilization == 90.0
    ensures forall e :: e in WarningEntries(u) ==> e.window != k
  {
    WarningEntriesSpec(u);
  }

  /** `warnings.join(', ')`. */
  function Join(parts: seq<string>, sep: string): string
  {
    if parts == [] then ""
    else if |parts| == 1 then parts[0]
    else parts[0] + sep + Join(parts[1..], sep)
  }

  /** The name a window has in a warning. */
  function WarningLabel(k: WindowKind): string
  {
    match k
    case FiveHour => "5-hour"
    case SevenDay => "7-day"
    case SevenDayOpus => "7-day Opus"
    case SevenDayOauthApps => "7-day OAuth Apps"
  }

  /** The text of one entry; `fixed1` renders a number with one decimal. */
  function EntryText(e: WarningEntry, fixed1: real -> string): string
  {
    WarningLabel(e.window) + " limit is " + fixed1(e.utilization) + "% used"
  }

  function EntryTexts(es: seq<WarningEntry>, fixed1: real -> string): (ts: seq<string>)
    ensures |ts| == |es|
    ensures forall i :: 0 <= i < |es| ==> ts[i] == EntryText(es[i], fixed1)
  {
    if es == [] then [] else [EntryText(es[0], fixed1)] + EntryTexts(es[1..], fixed1)
  }

  lemma {:induction false} EntryTextsAppend(es: seq<WarningEntry>, e: WarningEntry, fixed1: real -> string)
    ensures EntryTexts(es + [e], fixed1) == EntryTexts(es, fixed1) + [EntryText(e, fixed1)]
  {
  }

  /** The one warning message of a snapshot, if any. */
  function WarningMessage(u: ClaudeUsage, fixed1: real -> string): Option<string>
  {
    var es := WarningEntries(u);
    if es == [] then None else Some(WarningPrefix + Join(EntryTexts(es, fixed1), WarningSeparator))
  }

  /** A message is shown exactly when one of the three checked windows is above
      90, and it always opens with the fixed prefix. */
  lemma WarningMessageIff(u: ClaudeUsage, fixed1: real -> string)
    ensures WarningMessage(u, fixed1).Some? <==>
      AboveThreshold(u, FiveHour) || AboveThreshold(u, SevenDay) || AboveThreshold(u, SevenDayOpus)
    ensures WarningMessage(u, fixed1).Some? ==>
      WarningMessage(u, fixed1).value[..|WarningPrefix|] == WarningPrefix
  {
    WarningEntriesSpec(u);
    if AboveThreshold(u, FiveHour) {
      assert WarningEntry(FiveHour, u.fiveHour.value.utilization) in WarningEntries(u);
    } else if AboveThreshold(u, SevenDay) {
      assert WarningEntry(SevenDay, u.sevenDay.value.utilization) in WarningEntries(u);
    } else if AboveThreshold(u, SevenDayOpus) {
      assert WarningEntry(SevenDayOpus, u.sevenDayOpus.value.utilization) in WarningEntries(u);
    }
  }

  /** The OAuth-apps window never affects the warning. */
  lemma OauthAppsNeverWarned(u: ClaudeUsage, apps: Option<UsageWindow>, fixed1: real -> string)
    ensures WarningMessage(u.(sevenDayOauthApps := apps), fixed1) == WarningMessage(u, fixed1)
  {
    WarningEntriesUnfold(u);
    WarningEntriesUnfold(u.(sevenDayOauthApps := apps));
  }

  /** `checkUsageWarnings`: push one text per window above 90, then emit at
      most one message. The result is that message (`None`: nothing shown). */
  method CheckUsageWarnings(usage: ClaudeUsage, fixed1: real -> string) returns (message: Option<string>)
    ensures message == WarningMessage(usage, fixed1)
  {
    var warnings: seq<string> := [];
    ghost var entries: seq<WarningEntry> := [];

    if usage.fiveHour.Some? && usage.fiveHour.value.utilization > WarningThreshold {
      var e := WarningEntry(FiveHour, usage.fiveHour.value.utilization);
      EntryTextsAppend(entries, e, fixed1);
      warnings := warnings + [EntryText(e, fixed1)];
      entries := entries + [e];
    }
    if usage.sevenDay.Some? && usage.sevenDay.value.utilization > WarningThreshold {
      var e := WarningEntry(SevenDay, usage.sevenDay.value.utilization);
      EntryTextsAppend(entries, e, fixed1);
      warnings := warnings + [EntryText(e, fixed1)];
      entries := entries + [e];
    }
    if usage.sevenDayOpus.Some? && usage.sevenDayOpus.value.utilization > WarningThreshold {
      var e := WarningEntry(SevenDayOpus, usage.sevenDayOpus.value.utilization);
      EntryTextsAppend(entries, e, fixed1);
      warnings := warnings + [EntryText(e, fixed1)];
      entries := entries + [e];
    }
    WarningEntriesUnfold(usage);
    assert entries == WarningEntries(usage);

    if |warnings| > 0 {
      message := Some(WarningPrefix + Join(warnings, WarningSeparator));
    } else {
      message := None;
    }
  }

  // ---------------------------------------------------------------------------
  // The refresh cycle

  /** The item once the fetched value has been dealt with, starting from `s`.
      `fetched` is what the client returned; `progressBarFault` gives the error
      the progress bar throws for a percentage; `showNotifications` is the setting, or the
      error reading it threw. */
  function Settle(s: ItemState, fetched: Option<ClaudeUsage>, auth: AuthData, now: int,
                  progressBarFault: ProgressBarFault, showNotifications: Result<bool, string>): ItemState
  {
    match fetched
    case None => FetchError(s)
    case Some(u) =>
      var fault := FirstBarFault(u, progressBarFault);
      if fault.Some? then UpdateError(UsageText(s, u), fault.value)
      else
        var shown := ShowingUsage(s, u, MainFragments(u, auth, now));
        if showNotifications.Failure? then UpdateError(shown, showNotifications.error) else shown
  }

  /** The item after one refresh that got past the guard: the spinner first,
      then the outcome of the fetch. */
  function CycleDisplay(s: ItemState, fetched: Option<ClaudeUsage>, auth: AuthData, now: int,
                        progressBarFault: ProgressBarFault, showNotifications: Result<bool, string>): ItemState
  {
    Settle(Updating(s), fetched, auth, now, progressBarFault, showNotifications)
  }

  /** The warning one refresh emits: only after the usage was drawn and the
      setting read as `true`. */
  function CycleWarning(fetched: Option<ClaudeUsage>, progressBarFault: ProgressBarFault,
                        showNotifications: Result<bool, string>, fixed1: real -> string): Option<string>
  {
    if fetched.Some? && FirstBarFault(fetched.value, progressBarFault).None?
       && showNotifications == Success(true)
    then WarningMessage(fetched.value, fixed1)
    else None
  }

  /** A refresh never leaves the spinner up; it ends on the fetch-error
      display exactly when the client had nothing to return, and shows the
      percentage whenever no error interrupted the drawing. */
  lemma CycleSettles(s: ItemState, fetched: Option<ClaudeUsage>, auth: AuthData, now: int,
                     progressBarFault: ProgressBarFault, showNotifications: Result<bool, string>)
    ensures CycleDisplay(s, fetched, auth, now, progressBarFault, showNotifications).tooltip != UpdatingTooltip
    ensures CycleDisplay(s, fetched, auth, now, progressBarFault, showNotifications).tooltip == FetchErrorTooltip
            <==> fetched.None?
    ensures fetched.Some? && FirstBarFault(fetched.value, progressBarFault).None? && showNotifications.Success? ==>
      CycleDisplay(s, fetched, auth, now, progressBarFault, showNotifications).text
        == PercentLabel(DisplayPercent(fetched.value))
  {
  }

  /** With a client that has seen `history`, and 200 responses that carry a
      body, the fetch-error display appears only while no 200 has ever arrived. */
  lemma FetchErrorOnlyBeforeFirstSuccess(s: ItemState, history: seq<HttpOutcome>, auth: AuthData, now: int,
                                         progressBarFault: ProgressBarFault, showNotifications: Result<bool, string>)
    requires forall i :: 0 <= i < |history| && IsOk(history[i]) ==> history[i].body.Some?
    ensures CycleDisplay(s, LastGood(history), auth, now, progressBarFault, showNotifications).tooltip
              == FetchErrorTooltip
            <==> forall i :: 0 <= i < |history| ==> !IsOk(history[i])
  {
    NoSnapshotIffNoSuccess(history);
  }

  class UsageMonitor {
    var apiClient: ClaudeAPIClient?
    var currentAuthData: Option<AuthData>

    /** The client and the session are set together, and the client works for
        that session. */
    ghost predicate Valid()
      reads this, apiClient
    {
      && (apiClient == null <==> currentAuthData.None?)
      && (apiClient != null ==> apiClient.Valid() && currentAuthData == Some(apiClient.authData))
    }

    predicate Initialised()
      reads this
    {
      apiClient != null && currentAuthData.Some?
    }

    /** The module state before `initializeMonitor` runs. */
    constructor ()
      ensures Valid() && !Initialised()
    {
      apiClient := null;
      currentAuthData := None;
    }

    /** `initializeMonitor`: a new session and a new client with an empty cache. */
    method InitializeMonitor(authData: AuthData)
      modifies this
      ensures Valid() && Initialised()
      ensures currentAuthData == Some(authData)
      ensures fresh(apiClient) && apiClient.authData == authData && apiClient.baseUrl == BaseUrl
      ensures apiClient.lastUsage.None? && apiClient.received == []
    {
      currentAuthData := Some(authData);
      apiClient := new ClaudeAPIClient(authData);
    }

    /** `updateUsage`, up to the display: show the spinner, then fetch. */
    method Fetch(bar: StatusBarItem, response: HttpOutcome) returns (usage: Option<ClaudeUsage>)
      requires Valid() && Initialised()
      modifies bar, apiClient
      ensures Valid()
      ensures bar.State() == Updating(old(bar.State()))
      ensures bar.visible == old(bar.visible) && bar.disposed == old(bar.disposed)
      ensures apiClient.received == old(apiClient.received) + [response]
      ensures usage == (if IsOk(response) then response.body else old(apiClient.lastUsage))
    {
      bar.ShowUpdating();
      usage := apiClient.GetUsage(response);
    }

    /** `updateUsage`, from the fetched value on: draw it or report the
        failure, then possibly warn. */
    method Render(bar: StatusBarItem, usage: Option<ClaudeUsage>, auth: AuthData, now: int,
                  progressBarFault: ProgressBarFault, showNotifications: Result<bool, string>,
                  fixed1: real -> string)
      returns (warning: Option<string>)
      modifies bar
      ensures bar.State() == Settle(old(bar.State()), usage, auth, now, progressBarFault, showNotifications)
      ensures bar.visible == old(bar.visible) && bar.disposed == old(bar.disposed)
      ensures warning == CycleWarning(usage, progressBarFault, showNotifications, fixed1)
    {
      warning := None;
      if usage.Some? {
        var thrown := bar.UpdateStatusBar(usage.value, auth, now, progressBarFault);
        if thrown.Some? {
          bar.ShowUpdateError(thrown.value);
          return;
        }
        match showNotifications {
          case Failure(e) =>
            bar.ShowUpdateError(e);
          case Success(enabled) =>
            if enabled {
              warning := CheckUsageWarnings(usage.value, fixed1);
            }
        }
      } else {
        bar.ShowFetchError();
      }
    }

    /** `updateUsage`. Without a client or a session nothing happens at all;
        otherwise the item goes through one refresh cycle, the client records
        the response, and the returned warning is the message shown, if any.
        No error escapes. */
    method UpdateUsage(bar: StatusBarItem, response: HttpOutcome, now: int,
                       progressBarFault: ProgressBarFault, showNotifications: Result<bool, string>,
                       fixed1: real -> string)
      returns (warning: Option<string>)
      requires Valid()
      modifies bar, apiClient
      ensures Valid()
      ensures apiClient == old(apiClient) && currentAuthData == old(currentAuthData)
      ensures bar.visible == old(bar.visible) && bar.disposed == old(bar.disposed)
      ensures !Initialised() ==> bar.State() == old(bar.State()) && warning.None?
      ensures Initialised() ==>
        var fetched := if IsOk(response) then response.body else old(apiClient.lastUsage);
        && apiClient.received == old(apiClient.received) + [response]
        && fetched == apiClient.lastUsage
        && bar.State() == CycleDisplay(old(bar.State()), fetched, currentAuthData.value, now,
                                       progressBarFault, showNotifications)
        && warning == CycleWarning(fetched, progressBarFault, showNotifications, fixed1)
    {
      if apiClient == null || currentAuthData.None? {
        return None;
      }
      var usage := Fetch(bar, response);
      warning := Render(bar, usage, currentAuthData.value, now, progressBarFault, showNotifications, fixed1);
    }
  }
}
