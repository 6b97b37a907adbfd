/** The tooltips of the status-bar item. A tooltip is a sequence of fragments,
    one per `appendMarkdown` call, named after what that call appends; the
    progress bar's rendering, the locale time and the static wording stay
    abstract. */
module TooltipBuilder {
  import opened Wrappers
  import opened Types
  import TimeFormatter

  /** The per-window severity mark: a check mark, a yellow or a red circle. */
  datatype Icon = Check | Yellow | Red

  datatype Fragment =
    | CenterOpen                                   // <div align="center">
    | Title                                        // ## Claude Usage Monitor
    | CenterClose                                  // </div>
    | AccountName(name: string)                    // bold display name
    | AccountEmail(email: string)
    | Subscription(tier: string)
    | Rule                                         // ---
    | UsageLimitsHeading                           // ### Usage Limits
    | LimitHeading(icon: Icon, window: WindowKind) // #### <icon> <window> Limit
    | ProgressBar(percent: real)                   // createProgressBar(percent)
    | ResetsIn(window: WindowKind, text: string)   // Resets in **<text>**
    | Blank                                        // the newline closing a window section
    | TipsHeading                                  // ### Tips
    | HighUsageTip                                 // High usage detected!
    | ApproachingLimitsTip                         // You're approaching your usage limits.
    | ClosingRule                                  // \n\n---\n\n
    | RefreshLink                                  // [Refresh Now](command:claude-usage.refresh)
    | SettingsLink                                 // [Settings](command:workbench.action.openSettings...)
    | LastUpdated                                  // Last updated: <local time>

  /** What a status-bar item can show on hover: a plain text, the main usage
      tooltip, or one of the fixed state tooltips (two of which quote an error). */
  datatype Tooltip =
    | PlainTooltip(text: string)
    | MainTooltip(fragments: seq<Fragment>)
    | AuthRequiredTooltip
    | AuthErrorTooltip(error: string)
    | UpdatingTooltip
    | FetchErrorTooltip
    | UpdateErrorTooltip(error: string)

  // ---------------------------------------------------------------------------
  // Decisions

  /** The severity mark of a window: red from 90, yellow from 75. */
  function LimitIcon(percent: real): (i: Icon)
    ensures i == Red <==> percent >= 90.0
    ensures i == Yellow <==> 75.0 <= percent < 90.0
    ensures i == Check <==> percent < 75.0
  {
    if percent >= 90.0 then Red else if percent >= 75.0 then Yellow else Check
  }

  predicate IsLower(c: char) { 'a' <= c <= 'z' }

  function UpperChar(c: char): (u: char)
    ensures !IsLower(u)
    ensures IsLower(c) ==> u as int == c as int - 32
    ensures !IsLower(c) ==> u == c
  {
    if IsLower(c) then (c as int - 32) as char else c
  }

  /** `toUpperCase` on the letters a-z. */
  function ToUpper(s: string): (r: string)
    ensures |r| == |s|
    ensures forall i :: 0 <= i < |s| ==> r[i] == UpperChar(s[i])
  {
    if s == [] then [] else [UpperChar(s[0])] + ToUpper(s[1..])
  }

  /** Upper-casing leaves no lower-case letter behind and is idempotent. */
  lemma ToUpperIdempotent(s: string)
    ensures forall i :: 0 <= i < |ToUpper(s)| ==> !IsLower(ToUpper(s)[i])
    ensures ToUpper(ToUpper(s)) == ToUpper(s)
  {
  }

  /** "max" is shown as "Claude MAX", every other tier upper-cased. */
  function SubscriptionLabel(subscriptionType: string): (shown: string)
    ensures subscriptionType == "max" ==> shown == "Claude MAX"
    ensures subscriptionType != "max" ==> shown == ToUpper(subscriptionType)
  {
    if subscriptionType == "max" then "Claude MAX" else ToUpper(subscriptionType)
  }

  /** The highest utilisation the tips look at: 5-hour, 7-day and 7-day Opus,
      an absent window counting as 0. */
  function Highest(u: ClaudeUsage): (h: real)
    ensures h >= UtilOrZero(u.fiveHour) && h >= UtilOrZero(u.sevenDay) && h >= UtilOrZero(u.sevenDayOpus)
    ensures h == UtilOrZero(u.fiveHour) || h == UtilOrZero(u.sevenDay) || h == UtilOrZero(u.sevenDayOpus)
  {
    Max(Max(UtilOrZero(u.fiveHour), UtilOrZero(u.sevenDay)), UtilOrZero(u.sevenDayOpus))
  }

  /** The OAuth-apps window never drives the tips. */
  lemma HighestIgnoresOauthApps(u: ClaudeUsage, w: Option<UsageWindow>)
    ensures Highest(u.(sevenDayOauthApps := w)) == Highest(u)
  {
  }

  // ---------------------------------------------------------------------------
  // The main tooltip, section by section

  function AccountSection(a: AuthData): seq<Fragment>
  {
    (if Truthy(a.displayName) then [AccountName(a.displayName.value)] else [])
    + [AccountEmail(a.email)]
    + (if Truthy(a.subscriptionType) then [Subscription(SubscriptionLabel(a.subscriptionType.value))] else [])
  }

  function ResetLine(k: WindowKind, w: UsageWindow, now: int): seq<Fragment>
  {
    if w.resetsAt.Some? then [ResetsIn(k, TimeFormatter.FormatResetTime(w.resetsAt.value - now))] else []
  }

  /** A present window's section below its heading. */
  function WindowBody(k: WindowKind, w: UsageWindow, now: int): seq<Fragment>
  {
    [ProgressBar(w.utilization)] + ResetLine(k, w, now) + [Blank]
  }

  function LimitSection(k: WindowKind, w: Option<UsageWindow>, now: int): seq<Fragment>
  {
    if w.None? then [] else [LimitHeading(LimitIcon(w.value.utilization), k)] + WindowBody(k, w.value, now)
  }

  function LimitSections(u: ClaudeUsage, now: int): seq<Fragment>
  {
    LimitSection(FiveHour, u.fiveHour, now)
    + LimitSection(SevenDay, u.sevenDay, now)
    + LimitSection(SevenDayOpus, u.sevenDayOpus, now)
    + LimitSection(SevenDayOauthApps, u.sevenDayOauthApps, now)
  }

  /** The tips block; the inner `> 75` test of the source is kept although the
      outer one already implies it. */
  function TipsSection(highest: real): seq<Fragment>
  {
    if highest > 75.0 then
      [Rule, TipsHeading]
      + (if highest > 90.0 then [HighUsageTip] else if highest > 75.0 then [ApproachingLimitsTip] else [])
    else []
  }

  const Header: seq<Fragment> := [CenterOpen, Title, CenterClose]
  const Footer: seq<Fragment> := [ClosingRule, RefreshLink, SettingsLink, LastUpdated]

  /** The fragments `createMainTooltip` appends, in order. */
  function MainFragments(u: ClaudeUsage, a: AuthData, now: int): seq<Fragment>
  {
    Header + AccountSection(a) + [Rule, UsageLimitsHeading] + LimitSections(u, now)
    + TipsSection(Highest(u)) + Footer
  }

  predicate AnyWindow(u: ClaudeUsage)
  {
    u.fiveHour.Some? || u.sevenDay.Some? || u.sevenDayOpus.Some? || u.sevenDayOauthApps.Some?
  }

  /** The opaque `createProgressBar`, reduced to the error it throws for a
      percentage, if any. */
  type ProgressBarFault = real -> Option<string>

  /** The error the progress bar of window `w` throws; an absent window draws
      no bar. */
  function BarFault(w: Option<UsageWindow>, progressBarFault: ProgressBarFault): Option<string>
  {
    if w.Some? then progressBarFault(w.value.utilization) else None
  }

  /** The error that ends the build of the main tooltip: that of the first
      window, in tooltip order, whose bar throws. */
  function FirstBarFault(u: ClaudeUsage, progressBarFault: ProgressBarFault): Option<string>
  {
    var f1 := BarFault(u.fiveHour, progressBarFault);
    var f2 := BarFault(u.sevenDay, progressBarFault);
    var f3 := BarFault(u.sevenDayOpus, progressBarFault);
    if f1.Some? then f1 else if f2.Some? then f2 else if f3.Some? then f3
    else BarFault(u.sevenDayOauthApps, progressBarFault)
  }

  /** The build fails exactly when the bar of some present window throws, and
      then with the error of the earliest such window; without windows it
      never fails. */
  lemma FirstBarFaultSpec(u: ClaudeUsage, progressBarFault: ProgressBarFault)
    ensures FirstBarFault(u, progressBarFault).Some? <==>
      exists k :: BarFault(Window(u, k), progressBarFault).Some?
    ensures FirstBarFault(u, progressBarFault).Some? ==>
      exists k :: FirstBarFault(u, progressBarFault) == BarFault(Window(u, k), progressBarFault)
        && forall j :: Rank(j) < Rank(k) ==> BarFault(Window(u, j), progressBarFault).None?
    ensures !AnyWindow(u) ==> FirstBarFault(u, progressBarFault).None?
  {
    var r := FirstBarFault(u, progressBarFault);
    var f := (k: WindowKind) => BarFault(Window(u, k), progressBarFault);
    if f(FiveHour).Some? {
      assert r == f(FiveHour);
    } else if f(SevenDay).Some? {
      assert r == f(SevenDay);
      assert forall j :: Rank(j) < Rank(SevenDay) ==> j == FiveHour;
    } else if f(SevenDayOpus).Some? {
      assert r == f(SevenDayOpus);
      assert forall j :: Rank(j) < Rank(SevenDayOpus) ==> j == FiveHour || j == SevenDay;
    } else if f(SevenDayOauthApps).Some? {
      assert r == f(SevenDayOauthApps);
      assert forall j :: Rank(j) < Rank(SevenDayOauthApps) ==> j == FiveHour || j == SevenDay || j == SevenDayOpus;
    } else {
      forall k ensures f(k).None? {
        match k
        case FiveHour =>
        case SevenDay =>
        case SevenDayOpus =>
        case SevenDayOauthApps =>
      }
    }
  }

  // ---------------------------------------------------------------------------
  // The builder

  /** One window's section. An error `createProgressBar` throws for the
      window's percentage ends the build. */
  method AppendLimitSection(tooltip: seq<Fragment>, k: WindowKind, w: Option<UsageWindow>, now: int,
                            progressBarFault: ProgressBarFault)
    returns (t: seq<Fragment>, thrown: Option<string>)
    ensures thrown == BarFault(w, progressBarFault)
    ensures thrown.None? ==> t == tooltip + LimitSection(k, w, now)
  {
    t, thrown := tooltip, None;
    if w.None? {
      return;
    }
    var percent := w.value.utilization;
    var limitIcon := Check;
    if percent >= 90.0 {
      limitIcon := Red;
    } else if percent >= 75.0 {
      limitIcon := Yellow;
    }
    assert limitIcon == LimitIcon(percent);
    t := t + [LimitHeading(limitIcon, k)];
    var fault := progressBarFault(percent);
    if fault.Some? {
      thrown := fault;
      return;
    }
    t := AppendWindowBody(t, k, w.value, now);
    assert t == tooltip + ([LimitHeading(limitIcon, k)] + WindowBody(k, w.value, now));
  }

  /** Progress bar, reset line when the window has a reset time, blank line. */
  method AppendWindowBody(tooltip: seq<Fragment>, k: WindowKind, w: UsageWindow, now: int) returns (t: seq<Fragment>)
    ensures t == tooltip + WindowBody(k, w, now)
  {
    t := tooltip + [ProgressBar(w.utilization)];
    if w.resetsAt.Some? {
      var resetTime := TimeFormatter.FormatResetTime(w.resetsAt.value - now);
      t := t + [ResetsIn(k, resetTime)];
    }
    t := t + [Blank];
  }

  /** The account lines: name and tier only when non-empty, e-mail always. */
  method AppendAccountSection(tooltip: seq<Fragment>, authData: AuthData) returns (t: seq<Fragment>)
    ensures t == tooltip + AccountSection(authData)
  {
    t := tooltip;
    if Truthy(authData.displayName) {
      t := t + [AccountName(authData.displayName.value)];
    }
    t := t + [AccountEmail(authData.email)];
    if Truthy(authData.subscriptionType) {
      var subName := if authData.subscriptionType.value == "max" then "Claude MAX"
                     else ToUpper(authData.subscriptionType.value);
      t := t + [Subscription(subName)];
    }
  }

  /** The tips block for the highest usage. */
  method AppendTipsSection(tooltip: seq<Fragment>, highestUsage: real) returns (t: seq<Fragment>)
    ensures t == tooltip + TipsSection(highestUsage)
  {
    t := tooltip;
    if highestUsage > 75.0 {
      t := t + [Rule];
      t := t + [TipsHeading];
      if highestUsage > 90.0 {
        t := t + [HighUsageTip];
      } else if highestUsage > 75.0 {
        t := t + [ApproachingLimitsTip];
      }
    }
  }

  /** The four window sections, in order; the first window whose progress
      bar throws ends them. */
  method AppendLimitSections(tooltip: seq<Fragment>, usage: ClaudeUsage, now: int, progressBarFault: ProgressBarFault)
    returns (t: seq<Fragment>, thrown: Option<string>)
    ensures thrown == FirstBarFault(usage, progressBarFault)
    ensures thrown.None? ==> t == tooltip + LimitSections(usage, now)
  {
    ghost var l1 := LimitSection(FiveHour, usage.fiveHour, now);
    ghost var l2 := LimitSection(SevenDay, usage.sevenDay, now);
    ghost var l3 := LimitSection(SevenDayOpus, usage.sevenDayOpus, now);
    ghost var l4 := LimitSection(SevenDayOauthApps, usage.sevenDayOauthApps, now);
    assert LimitSections(usage, now) == l1 + l2 + l3 + l4;
    var s1, s2, s3;
    t := tooltip;
    s1, thrown := AppendLimitSection(tooltip, FiveHour, usage.fiveHour, now, progressBarFault);
    if thrown.Some? {
      return;
    }
    assert s1 == tooltip + l1;
    s2, thrown := AppendLimitSection(s1, SevenDay, usage.sevenDay, now, progressBarFault);
    if thrown.Some? {
      return;
    }
    assert s2 == tooltip + l1 + l2;
    s3, thrown := AppendLimitSection(s2, SevenDayOpus, usage.sevenDayOpus, now, progressBarFault);
    if thrown.Some? {
      return;
    }
    assert s3 == tooltip + l1 + l2 + l3;
    t, thrown := AppendLimitSection(s3, SevenDayOauthApps, usage.sevenDayOauthApps, now, progressBarFault);
    if thrown.None? {
      assert t == tooltip + l1 + l2 + l3 + l4;
      AppendAssociates(tooltip, l1, l2, l3, l4);
    }
  }

  lemma AppendAssociates(t: seq<Fragment>, a: seq<Fragment>, b: seq<Fragment>, c: seq<Fragment>, d: seq<Fragment>)
    ensures t + a + b + c + d == t + (a + b + c + d)
  {
    assert t + a + b + c + d == t + (a + b + c) + d;
  }

  /** `createMainTooltip`. It fails with the error of the first window whose
      progress bar throws; otherwise it yields exactly `MainFragments`. */
  method CreateMainTooltip(usage: ClaudeUsage, authData: AuthData, now: int, progressBarFault: ProgressBarFault)
    returns (r: Result<seq<Fragment>, string>)
    ensures FirstBarFault(usage, progressBarFault).Some? ==> r == Failure(FirstBarFault(usage, progressBarFault).value)
    ensures FirstBarFault(usage, progressBarFault).None? ==> r == Success(MainFragments(usage, authData, now))
  {
    var tooltip: seq<Fragment> := [];
    tooltip := tooltip + [CenterOpen];
    tooltip := tooltip + [Title];
    tooltip := tooltip + [CenterClose];
    tooltip := AppendAccountSection(tooltip, authData);
    tooltip := tooltip + [Rule];
    tooltip := tooltip + [UsageLimitsHeading];
    assert tooltip == Preamble(authData);

    var thrown;
    tooltip, thrown := AppendLimitSections(tooltip, usage, now, progressBarFault);
    if thrown.Some? {
      return Failure(thrown.value);
    }
    ghost var beforeTips := tooltip;

    var highestUsage := Max(Max(UtilOrZero(usage.fiveHour), UtilOrZero(usage.sevenDay)), UtilOrZero(usage.sevenDayOpus));
    tooltip := AppendTipsSection(tooltip, highestUsage);
    ghost var beforeFooter := tooltip;

    tooltip := tooltip + [ClosingRule];
    tooltip := tooltip + [RefreshLink];
    tooltip := tooltip + [SettingsLink];
    tooltip := tooltip + [LastUpdated];
    assert tooltip == beforeFooter + Footer;
    assert beforeFooter == Preamble(authData) + LimitSections(usage, now) + TipsSection(Highest(usage));
    MainFragmentsSplit(usage, authData, now);
    return Success(tooltip);
  }

  // ---------------------------------------------------------------------------
  // Properties of the main tooltip

  /** The fragments of `fs` that `keep` selects, in order. */
  function Filter(fs: seq<Fragment>, keep: Fragment -> bool): seq<Fragment>
  {
    if fs == [] then [] else (if keep(fs[0]) then [fs[0]] else []) + Filter(fs[1..], keep)
  }

  lemma {:induction false} FilterAppend(a: seq<Fragment>, b: seq<Fragment>, keep: Fragment -> bool)
    ensures Filter(a + b, keep) == Filter(a, keep) + Filter(b, keep)
    decreases |a|
  {
    if a == [] {
      assert a + b == b;
    } else {
      var ab := a + b;
      var first := if keep(a[0]) then [a[0]] else [];
      assert ab[0] == a[0] && ab[1..] == a[1..] + b;
      FilterAppend(a[1..], b, keep);
      assert Filter(ab, keep) == first + (Filter(a[1..], keep) + Filter(b, keep));
      assert Filter(a, keep) == first + Filter(a[1..], keep);
    }
  }

  /** A sequence with no selected fragment filters to nothing. */
  lemma {:induction false} FilterNone(fs: seq<Fragment>, keep: Fragment -> bool)
    requires forall f :: f in fs ==> !keep(f)
    ensures Filter(fs, keep) == []
    decreases |fs|
  {
    if fs != [] {
      assert fs[0] in fs;
      assert forall f :: f in fs[1..] ==> f in fs;
      FilterNone(fs[1..], keep);
    }
  }

  /** A sequence of selected fragments filters to itself. */
  lemma {:induction false} FilterAll(fs: seq<Fragment>, keep: Fragment -> bool)
    requires forall f :: f in fs ==> keep(f)
    ensures Filter(fs, keep) == fs
    decreases |fs|
  {
    if fs != [] {
      assert fs[0] in fs;
      assert forall f :: f in fs[1..] ==> f in fs;
      FilterAll(fs[1..], keep);
      assert fs == [fs[0]] + fs[1..];
    }
  }

  /** What precedes the window sections. */
  function Preamble(a: AuthData): seq<Fragment>
  {
    Header + AccountSection(a) + [Rule, UsageLimitsHeading]
  }

  lemma MainFragmentsSplit(u: ClaudeUsage, a: AuthData, now: int)
    ensures MainFragments(u, a, now) == Preamble(a) + LimitSections(u, now) + (TipsSection(Highest(u)) + Footer)
  {
  }

  predicate IsWindowFragment(f: Fragment)
  {
    f.LimitHeading? || f.ProgressBar? || f.ResetsIn? || f.Blank?
  }

  lemma SectionOnly(k: WindowKind, w: Option<UsageWindow>, now: int)
    ensures forall f :: f in LimitSection(k, w, now) ==> IsWindowFragment(f)
  {
    if w.Some? {
      assert forall f :: f in ResetLine(k, w.value, now) ==> f.ResetsIn?;
    }
  }

  /** Only window fragments occur in the window sections. */
  lemma LimitSectionsOnly(u: ClaudeUsage, now: int)
    ensures forall f :: f in LimitSections(u, now) ==> IsWindowFragment(f)
  {
    SectionOnly(FiveHour, u.fiveHour, now);
    SectionOnly(SevenDay, u.sevenDay, now);
    SectionOnly(SevenDayOpus, u.sevenDayOpus, now);
    SectionOnly(SevenDayOauthApps, u.sevenDayOauthApps, now);
  }

  /** No window fragment occurs outside the window sections. */
  lemma OutsideLimitSections(u: ClaudeUsage, a: AuthData)
    ensures forall f :: f in Preamble(a) ==> !f.LimitHeading? && !f.ResetsIn?
    ensures forall f :: f in TipsSection(Highest(u)) + Footer ==> !f.LimitHeading? && !f.ResetsIn?
  {
  }

  predicate IsHeading(f: Fragment) { f.LimitHeading? }
  predicate IsResetLine(f: Fragment) { f.ResetsIn? }

  function ExpectedHeading(k: WindowKind, w: Option<UsageWindow>): seq<Fragment>
  {
    if w.Some? then [LimitHeading(LimitIcon(w.value.utilization), k)] else []
  }

  function ExpectedResetLine(k: WindowKind, w: Option<UsageWindow>, now: int): seq<Fragment>
  {
    if w.Some? then ResetLine(k, w.value, now) else []
  }

  lemma SectionHeading(k: WindowKind, w: Option<UsageWindow>, now: int)
    ensures Filter(LimitSection(k, w, now), IsHeading) == ExpectedHeading(k, w)
  {
    if w.Some? {
      var head := [LimitHeading(LimitIcon(w.value.utilization), k)];
      var rest := [ProgressBar(w.value.utilization)] + ResetLine(k, w.value, now) + [Blank];
      assert LimitSection(k, w, now) == head + rest;
      FilterAll(head, IsHeading);
      FilterNone(rest, IsHeading);
      FilterAppend(head, rest, IsHeading);
    }
  }

  lemma SectionResetLine(k: WindowKind, w: Option<UsageWindow>, now: int)
    ensures Filter(LimitSection(k, w, now), IsResetLine) == ExpectedResetLine(k, w, now)
  {
    if w.Some? {
      var head := [LimitHeading(LimitIcon(w.value.utilization), k), ProgressBar(w.value.utilization)];
      var line := ResetLine(k, w.value, now);
      assert LimitSection(k, w, now) == head + line + [Blank];
      FilterNone(head, IsResetLine);
      FilterAll(line, IsResetLine);
      FilterNone([Blank], IsResetLine);
      FilterAppend(head, line, IsResetLine);
      FilterAppend(head + line, [Blank], IsResetLine);
    }
  }

  /** Filtering the whole tooltip for window fragments filters the four window
      sections, one after another. */
  lemma FilterMain(u: ClaudeUsage, a: AuthData, now: int, keep: Fragment -> bool)
    requires forall f :: f in Preamble(a) ==> !keep(f)
    requires forall f :: f in TipsSection(Highest(u)) + Footer ==> !keep(f)
    ensures Filter(MainFragments(u, a, now), keep) ==
      Filter(LimitSection(FiveHour, u.fiveHour, now), keep)
      + Filter(LimitSection(SevenDay, u.sevenDay, now), keep)
      + Filter(LimitSection(SevenDayOpus, u.sevenDayOpus, now), keep)
      + Filter(LimitSection(SevenDayOauthApps, u.sevenDayOauthApps, now), keep)
  {
    var pre, post := Preamble(a), TipsSection(Highest(u)) + Footer;
    var s1, s2 := LimitSection(FiveHour, u.fiveHour, now), LimitSection(SevenDay, u.sevenDay, now);
    var s3, s4 := LimitSection(SevenDayOpus, u.sevenDayOpus, now), LimitSection(SevenDayOauthApps, u.sevenDayOauthApps, now);
    FilterNone(pre, keep);
    FilterNone(post, keep);
    FilterAppend(s1, s2, keep);
    FilterAppend(s1 + s2, s3, keep);
    FilterAppend(s1 + s2 + s3, s4, keep);
    MainFragmentsSplit(u, a, now);
    FilterAppend(pre, LimitSections(u, now), keep);
    FilterAppend(pre + LimitSections(u, now), post, keep);
  }

  /** Window headings appear only for present windows, each with the mark its
      utilisation calls for, always in the order 5-hour, 7-day, 7-day Opus,
      7-day OAuth Apps. */
  lemma MainTooltipHeadings(u: ClaudeUsage, a: AuthData, now: int)
    ensures Filter(MainFragments(u, a, now), IsHeading) ==
      ExpectedHeading(FiveHour, u.fiveHour) + ExpectedHeading(SevenDay, u.sevenDay)
      + ExpectedHeading(SevenDayOpus, u.sevenDayOpus) + ExpectedHeading(SevenDayOauthApps, u.sevenDayOauthApps)
  {
    OutsideLimitSections(u, a);
    FilterMain(u, a, now, IsHeading);
    SectionHeading(FiveHour, u.fiveHour, now);
    SectionHeading(SevenDay, u.sevenDay, now);
    SectionHeading(SevenDayOpus, u.sevenDayOpus, now);
    SectionHeading(SevenDayOauthApps, u.sevenDayOauthApps, now);
  }

  /** A "Resets in" line appears for a window exactly when the window is
      present and has a reset time, with that time's countdown text, in
      window order. */
  lemma MainTooltipResetLines(u: ClaudeUsage, a: AuthData, now: int)
    ensures Filter(MainFragments(u, a, now), IsResetLine) ==
      ExpectedResetLine(FiveHour, u.fiveHour, now) + ExpectedResetLine(SevenDay, u.sevenDay, now)
      + ExpectedResetLine(SevenDayOpus, u.sevenDayOpus, now)
      + ExpectedResetLine(SevenDayOauthApps, u.sevenDayOauthApps, now)
  {
    OutsideLimitSections(u, a);
    FilterMain(u, a, now, IsResetLine);
    SectionResetLine(FiveHour, u.fiveHour, now);
    SectionResetLine(SevenDay, u.sevenDay, now);
    SectionResetLine(SevenDayOpus, u.sevenDayOpus, now);
    SectionResetLine(SevenDayOauthApps, u.sevenDayOauthApps, now);
  }

  /** The tips block appears exactly when the highest usage is above 75, with
      the high-usage message above 90 and the approaching-limits message
      otherwise. */
  lemma MainTooltipTips(u: ClaudeUsage, a: AuthData, now: int)
    ensures var fs, h := MainFragments(u, a, now), Highest(u);
      && (TipsHeading in fs <==> h > 75.0)
      && (HighUsageTip in fs <==> h > 90.0)
      && (ApproachingLimitsTip in fs <==> 75.0 < h <= 90.0)
  {
    TipInTipsSection(u, a, now, TipsHeading);
    TipInTipsSection(u, a, now, HighUsageTip);
    TipInTipsSection(u, a, now, ApproachingLimitsTip);
  }

  /** The tips fragments occur in the main tooltip only inside its tips block. */
  lemma TipInTipsSection(u: ClaudeUsage, a: AuthData, now: int, f: Fragment)
    requires f.TipsHeading? || f.HighUsageTip? || f.ApproachingLimitsTip?
    ensures f in MainFragments(u, a, now) <==> f in TipsSection(Highest(u))
  {
    MainFragmentsSplit(u, a, now);
    LimitSectionsOnly(u, now);
    assert f !in Preamble(a) && f !in Footer;
    assert f !in LimitSections(u, now);
  }

  /** The account fragments occur in the main tooltip only inside its
      account section. */
  lemma AccountInAccountSection(u: ClaudeUsage, a: AuthData, now: int, f: Fragment)
    requires f.AccountName? || f.AccountEmail? || f.Subscription?
    ensures f in MainFragments(u, a, now) <==> f in AccountSection(a)
  {
    MainFragmentsSplit(u, a, now);
    LimitSectionsOnly(u, now);
    assert f !in Header && f !in [Rule, UsageLimitsHeading];
    assert f !in LimitSections(u, now);
    assert f !in TipsSection(Highest(u)) + Footer;
  }

  predicate IsAccountLine(f: Fragment) { f.AccountName? || f.AccountEmail? || f.Subscription? }

  /** The account lines of the main tooltip are exactly its account section:
      the display name (when non-empty), the e-mail, then the tier label
      (when non-empty), in that order. */
  lemma MainTooltipAccountLines(u: ClaudeUsage, a: AuthData, now: int)
    ensures Filter(MainFragments(u, a, now), IsAccountLine) == AccountSection(a)
  {
    var pre, win, post := Preamble(a), LimitSections(u, now), TipsSection(Highest(u)) + Footer;
    PreambleAccountLines(a);
    NoAccountLinesAfterPreamble(u, now);
    MainFragmentsSplit(u, a, now);
    FilterAppend(pre, win, IsAccountLine);
    FilterAppend(pre + win, post, IsAccountLine);
  }

  lemma PreambleAccountLines(a: AuthData)
    ensures Filter(Preamble(a), IsAccountLine) == AccountSection(a)
  {
    FilterOnly(Header, AccountSection(a), [Rule, UsageLimitsHeading], IsAccountLine);
  }

  lemma NoAccountLinesAfterPreamble(u: ClaudeUsage, now: int)
    ensures Filter(LimitSections(u, now), IsAccountLine) == []
    ensures Filter(TipsSection(Highest(u)) + Footer, IsAccountLine) == []
  {
    var win := LimitSections(u, now);
    LimitSectionsOnly(u, now);
    assert forall f :: f in win ==> !IsAccountLine(f) by {
      forall f | f in win ensures !IsAccountLine(f) {
        assert IsWindowFragment(f);
      }
    }
    FilterNone(win, IsAccountLine);
    NoAccountLinesInTips(Highest(u));
  }

  lemma NoAccountLinesInTips(h: real)
    ensures Filter(TipsSection(h) + Footer, IsAccountLine) == []
  {
    FilterNone(TipsSection(h) + Footer, IsAccountLine);
  }

  /** Filtering keeps exactly the middle part when only it is selected. */
  lemma FilterOnly(pre: seq<Fragment>, mid: seq<Fragment>, post: seq<Fragment>, keep: Fragment -> bool)
    requires forall f :: f in pre ==> !keep(f)
    requires forall f :: f in mid ==> keep(f)
    requires forall f :: f in post ==> !keep(f)
    ensures Filter(pre + mid + post, keep) == mid
  {
    FilterNone(pre, keep);
    FilterAll(mid, keep);
    FilterNone(post, keep);
    FilterAppend(pre, mid, keep);
    FilterAppend(pre + mid, post, keep);
  }

  /** Which name and tier lines an account section holds. */
  lemma AccountSectionLines(a: AuthData)
    ensures forall n :: AccountName(n) in AccountSection(a) <==>
      Truthy(a.displayName) && n == a.displayName.value
    ensures forall t :: Subscription(t) in AccountSection(a) <==>
      Truthy(a.subscriptionType) && t == SubscriptionLabel(a.subscriptionType.value)
  {
  }

  /** The e-mail line is always present; the name line carries the display
      name and the tier line the tier's label, each only when non-empty. */
  lemma MainTooltipAccount(u: ClaudeUsage, a: AuthData, now: int)
    ensures AccountEmail(a.email) in MainFragments(u, a, now)
    ensures (exists n :: AccountName(n) in MainFragments(u, a, now)) <==> Truthy(a.displayName)
    ensures (exists t :: Subscription(t) in MainFragments(u, a, now)) <==> Truthy(a.subscriptionType)
    ensures forall n :: AccountName(n) in MainFragments(u, a, now) <==>
      Truthy(a.displayName) && n == a.displayName.value
    ensures forall t :: Subscription(t) in MainFragments(u, a, now) <==>
      Truthy(a.subscriptionType) && t == SubscriptionLabel(a.subscriptionType.value)
  {
    AccountInAccountSection(u, a, now, AccountEmail(a.email));
    forall n
      ensures AccountName(n) in MainFragments(u, a, now) <==> AccountName(n) in AccountSection(a)
    {
      AccountInAccountSection(u, a, now, AccountName(n));
    }
    forall t
      ensures Subscription(t) in MainFragments(u, a, now) <==> Subscription(t) in AccountSection(a)
    {
      AccountInAccountSection(u, a, now, Subscription(t));
    }
    AccountSectionLines(a);
    if Truthy(a.displayName) {
      assert AccountName(a.displayName.value) in AccountSection(a);
    }
    if Truthy(a.subscriptionType) {
      assert Subscription(SubscriptionLabel(a.subscriptionType.value)) in AccountSection(a);
    }
  }

  /** Filtering keeps only fragments of the original sequence. */
  lemma {:induction false} FilterSubset(fs: seq<Fragment>, keep: Fragment -> bool, f: Fragment)
    requires f in Filter(fs, keep)
    ensures f in fs
    decreases |fs|
  {
    if f != fs[0] {
      FilterSubset(fs[1..], keep, f);
    }
  }

  /** At exactly 75 the boundaries of the mark and of the tips differ: a
      window at 75 gets a yellow heading, yet a tooltip whose highest usage
      is 75 shows no tips. */
  lemma SeventyFiveIsYellowWithoutTips(u: ClaudeUsage, a: AuthData, now: int)
    requires Highest(u) == 75.0
    ensures forall k :: Window(u, k).Some? && Window(u, k).value.utilization == 75.0 ==>
      LimitHeading(Yellow, k) in MainFragments(u, a, now)
    ensures TipsHeading !in MainFragments(u, a, now)
    ensures HighUsageTip !in MainFragments(u, a, now) && ApproachingLimitsTip !in MainFragments(u, a, now)
  {
    var fs := MainFragments(u, a, now);
    MainTooltipTips(u, a, now);
    MainTooltipHeadings(u, a, now);
    forall k | Window(u, k).Some? && Window(u, k).value.utilization == 75.0
      ensures LimitHeading(Yellow, k) in fs
    {
      assert ExpectedHeading(k, Window(u, k)) == [LimitHeading(Yellow, k)];
      assert LimitHeading(Yellow, k) in Filter(fs, IsHeading) by {
        match k
        case FiveHour =>
        case SevenDay =>
        case SevenDayOpus =>
        case SevenDayOauthApps =>
      }
      FilterSubset(fs, IsHeading, LimitHeading(Yellow, k));
    }
  }
}
