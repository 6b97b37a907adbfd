# claude-stats, modelled in Dafny

claude-stats is a VS Code extension. It shows how much of a Claude subscription's rate-limit windows (5-hour, 7-day, 7-day Opus, 7-day OAuth apps) has been used, as a status-bar item with a detailed hover tooltip. At startup it reads an OAuth token from the macOS Keychain and enriches it with the account details of `~/.claude.json`. It then polls the usage endpoint once, and again on a periodic timer.

This project models the extension's logic:

- the countdown text of a window's reset (`TimeFormatter`);
- the classification of the stored credential (`KeychainAccess`);
- the assembly of the session (`AuthManager`);
- the API client and its cache of the last good snapshot (`ClaudeClient`);
- the main tooltip, as a sequence of fragment tokens (`TooltipBuilder`);
- the status-bar item and its display transitions (`StatusBar`);
- the refresh cycle and high-usage warnings (`UsageMonitor`);
- the startup and shutdown lifecycle with its single periodic timer (`Extension`).

`Types` mirrors the records of `src/types.ts`, and `Wrappers` holds `Option` and `Result`.

The code around these decisions is not modelled; it becomes inputs:
- the process running the `security` tool (`Security`, a function of service and account);
- `JSON.parse` of the password (`Parser`);
- the parsed profile (`ProfileFile`);
- the HTTP outcome (`HttpOutcome`);
- the clock (`now`, and reset times as epoch milliseconds);
- the configuration values, and the errors reading them may throw;
- the error, if any, the opaque `createProgressBar` throws for a percentage (`progressBarFault`, a function of the percentage);
- the one-decimal number rendering of the warning text (`fixed1`).

Objects whose fields the source overwrites are classes with those fields:
- `MacOSKeychainAccess`;
- `ClaudeAPIClient`, with `lastUsage`;
- `StatusBarItem`, with text, colour, background colour, tooltip and command;
- `UsageMonitor`, with the module's client and session;
- `Extension`, with the module's item, timer handle, and the host's running intervals.

Each method is proved against a specification function: `Session`, `LastGood`, `MainFragments`, the `ItemState` transitions, `WarningMessage`, `CycleDisplay` and `StartupDisplay`. The properties the extension promises are proved about these functions.

The client replaces its cached snapshot on every 200 response, including one whose body is `null` or empty, which leaves `null` in the cache (`src/claude-client.ts:26-29`). That refresh, and every later refresh that gets no 200, then shows the fetch-error display, although an earlier snapshot existed (`ClaudeClient.EmptySuccessErasesSnapshot`). `ClaudeClient.ClaudeAPIClient.GetUsage` states this behaviour. `UsageMonitor.FetchErrorOnlyBeforeFirstSuccess` therefore assumes that every 200 response carries a body.

## Model

| member | source | states |
|---|---|---|
| TimeFormatter.NatToString | src/utils/time-formatter.ts:15 | a whole number renders as at least one decimal digit, with no leading zero |
| TimeFormatter.ParseNatToString | src/utils/time-formatter.ts:15 | reading the rendered digits back gives the number (by induction) |
| TimeFormatter.NatToStringInjective | src/utils/time-formatter.ts:15 | different numbers render differently |
| TimeFormatter.Seconds | src/utils/time-formatter.ts:7 | the seconds count s satisfies s*1000 <= delta < s*1000 + 1000, for negative deltas too |
| TimeFormatter.SecondsIsFloor | src/utils/time-formatter.ts:7 | any s with s*1000 <= delta < s*1000 + 1000 is the seconds count, so the count is the floor |
| TimeFormatter.PassedIff | src/utils/time-formatter.ts:9-11 | "Reset time passed" comes out exactly for negative counts; every other output starts with a digit |
| TimeFormatter.OneMillisecondLateHasPassed | src/utils/time-formatter.ts:7-11 | a delta of -1 ms already reads as passed |
| TimeFormatter.MinutesBucket | src/utils/time-formatter.ts:13-15 | under an hour, the text is "m minute(s)" for the minute m the count lies in, singular only for 1, and m < 60 |
| TimeFormatter.HoursBucket | src/utils/time-formatter.ts:16-22 | from an hour to under a day: "{h}h {m}m" when the leftover minutes are non-zero, else "h hour(s)", singular only for 1; 1 <= h < 24 |
| TimeFormatter.DaysBucket | src/utils/time-formatter.ts:23-29 | from a day on: "{d}d {h}h" when the leftover hours are non-zero, else "d day(s)", singular only for 1; d >= 1 |
| TimeFormatter.HoursComponentsBounded | src/utils/time-formatter.ts:17-18 | in the hours bucket 1 <= h < 24, 0 <= m < 60 and h*3600 + m*60 <= s < h*3600 + (m+1)*60 |
| TimeFormatter.DaysComponentsBounded | src/utils/time-formatter.ts:24-25 | in the days bucket d >= 1, 0 <= h < 24 and d*86400 + h*3600 <= s < d*86400 + (h+1)*3600 |
| TimeFormatter.MinuteExamples | src/utils/time-formatter.ts:13-15 | 90 s gives "1 minute"; 59.999 s gives "0 minutes" |
| TimeFormatter.HourExamples | src/utils/time-formatter.ts:16-22 | 7265 s gives "2h 1m"; 3600 s gives "1 hour"; 7200.999 s gives "2 hours" |
| TimeFormatter.DayExamples | src/utils/time-formatter.ts:23-29 | 86400 s gives "1 day"; 90000 s gives "1d 1h"; 172800 s gives "2 days" |
| TimeFormatter.FormatSeconds | src/utils/time-formatter.ts:9-30 | the countdown text of a whole number of seconds, branch by branch; `PassedIff` and the three bucket lemmas state what each branch yields |
| TimeFormatter.FormatResetTime | src/utils/time-formatter.ts:4-31 | `formatResetTime` for a reset `deltaMs` milliseconds away: the text of its floored seconds count (`Seconds`, `SecondsIsFloor`) |
| Types.UtilOrZero | src/ui/status-bar.ts:35-36 | `w?.utilization \|\| 0`: an absent window counts as 0, a present one as its utilisation |
| Types.Max | src/ui/status-bar.ts:39 | the maximum is at least both arguments and is one of them |
| KeychainAccess.Trim | src/auth/keychain-access.ts:26 | `trim()`: the end-trim of the start-trim; `TrimIsCore`, `TrimOfPadded` and `TrimIdempotent` state what it keeps |
| KeychainAccess.TrimStart | src/auth/keychain-access.ts:26 | what is left is a suffix of the input that starts with no trimmable character |
| KeychainAccess.TrimStartDropsPadding | src/auth/keychain-access.ts:26 | everything the start-trim drops is trimmable (by induction) |
| KeychainAccess.TrimEnd | src/auth/keychain-access.ts:26 | what is left is a prefix of the input that ends with no trimmable character |
| KeychainAccess.TrimEndDropsPadding | src/auth/keychain-access.ts:26 | everything the end-trim drops is trimmable (by induction) |
| KeychainAccess.TrimOfPadded | src/auth/keychain-access.ts:26 | trimming padding + core + padding, where the core has no trimmable ends, gives exactly the core |
| KeychainAccess.TrimIsCore | src/auth/keychain-access.ts:26 | the trimmed text is a contiguous slice of the input, with only trimmable characters around it and none at its ends |
| KeychainAccess.TrimIdempotent | src/auth/keychain-access.ts:26 | trimming twice equals trimming once |
| KeychainAccess.Contains | src/auth/keychain-access.ts:30 | `includes`, by comparing the phrase with each prefix in turn; `ContainsIff` relates it to an occurrence at a position |
| KeychainAccess.ContainsIff | src/auth/keychain-access.ts:30 | `includes` holds exactly when the phrase occurs at some position (by induction) |
| KeychainAccess.PasswordOutcomeOf | src/auth/keychain-access.ts:18-36 | a password comes back exactly when the tool completed, and it is its trimmed output; `null` exactly for an `Error` whose message contains "could not be found"; any other failure is rethrown unchanged |
| KeychainAccess.MacOSKeychainAccess.constructor | src/auth/keychain-access.ts:7-12 | the service is "Claude Code-credentials"; the account is the argument, "maol" by default |
| KeychainAccess.MacOSKeychainAccess.GetPassword | src/auth/keychain-access.ts:14-37 | looks up the given key, this object's by default; a found password is the trimmed tool output; a store error carries the tool's error |
| KeychainAccess.TokenFromPassword | src/auth/keychain-access.ts:50-78 | claudeAiOauth gives its own token and tier unless `expiresAt` is non-zero and now > expiresAt; an expired one gives `null`, except that an expiry outside the JavaScript date range (±8.64e15 ms) makes `toISOString` throw and the password is used as a bare token; otherwise JSON gives the top-level accessToken (no tier) iff it is truthy; non-JSON or `null` gives the password as a bare token |
| KeychainAccess.TokenFromOutcome | src/auth/keychain-access.ts:43-82 | not-found, a store error and an empty password all give `null`; any other password is classified |
| KeychainAccess.MacOSKeychainAccess.GetClaudeToken | src/auth/keychain-access.ts:39-83 | the token is the classification of the password stored under this object's service and account |
| KeychainAccess.ExpiryIsStrict | src/auth/keychain-access.ts:58 | a credential is still valid at its expiry instant, expired 1 ms later, and valid at every earlier time if valid now |
| KeychainAccess.ExpiryBeyondDateRangeFallsBack | src/auth/keychain-access.ts:58-78 | an expired claudeAiOauth with `expiresAt` = -8.64e15 - 1 yields the password itself as the token, without a tier |
| KeychainAccess.TokenProvenance | src/auth/keychain-access.ts:53-78 | a resolved token is the bare password (non-JSON, `null`, or an expired claudeAiOauth whose expiry cannot be printed), or it was read from claudeAiOauth (unexpired), or from a truthy top-level accessToken; only claudeAiOauth supplies a tier |
| KeychainAccess.StoreErrorLikeNotFound | src/auth/keychain-access.ts:79-82 | any failure of the store makes `getClaudeToken` resolve to `null`, exactly as a missing entry does |
| KeychainAccess.BlankPasswordGivesNull | src/auth/keychain-access.ts:44-48 | an all-whitespace password trims to empty and gives `null` |
| KeychainAccess.BareTokenFromPrintedLine | src/auth/keychain-access.ts:75-78 | a non-JSON token printed with a trailing newline is used verbatim, without a tier |
| AuthManager.DefaultToken | src/auth/auth-manager.ts:9-10 | the token of `new MacOSKeychainAccess().getClaudeToken()`: the store's entry for "Claude Code-credentials" and the default account, classified by `TokenFromOutcome` |
| AuthManager.Session | src/auth/auth-manager.ts:12-41 | no session iff no token; token and tier copied exactly; with an oauthAccount, e-mail and display name come from it, otherwise "Claude Code User" and none |
| AuthManager.LoadAuthData | src/auth/auth-manager.ts:7-46 | the result is the session of the default keychain lookup's token and the given profile |
| AuthManager.ProfileNeverDecidesSession | src/auth/auth-manager.ts:20-34 | the profile never decides whether a session exists; missing, unreadable and account-less profiles give the same session |
| ClaudeClient.Authorization | src/claude-client.ts:18 | the header is "Bearer " followed by exactly the token |
| ClaudeClient.BearerRoundTrip | src/claude-client.ts:18 | the token can be read back out of the header unchanged |
| ClaudeClient.UsageRequest | src/claude-client.ts:15-22 | the URL is base + "/api/oauth/usage"; the bearer token reads back as the session's; Content-Type and anthropic-beta are the fixed values |
| ClaudeClient.LastGood | src/claude-client.ts:7-41 | the snapshot after a sequence of outcomes: the body of the latest 200, `None` before any; `FailuresKeepSnapshot`, `SnapshotWasReceived` and `NoSnapshotIffNoSuccess` characterise it |
| ClaudeClient.ClaudeAPIClient.constructor | src/claude-client.ts:5-11 | a new client keeps the session, uses the default base URL and holds no snapshot |
| ClaudeClient.ClaudeAPIClient.GetUsage | src/claude-client.ts:13-42 | sends the usage request; a 200 replaces the cache with its body; any other status or an error leaves it alone; the cache is returned; the cache stays the last good body of all outcomes seen |
| ClaudeClient.FailuresKeepSnapshot | src/claude-client.ts:32-41 | any number of non-200 outcomes after a history leave the snapshot unchanged (by induction) |
| ClaudeClient.SnapshotWasReceived | src/claude-client.ts:26-29 | a held snapshot is the body of some 200 response that was received |
| ClaudeClient.NoSnapshotIffNoSuccess | src/claude-client.ts:7-41 | when 200s carry bodies: no snapshot exactly when no 200 has been received since construction |
| ClaudeClient.EmptySuccessErasesSnapshot | src/claude-client.ts:26-29 | without that hypothesis the equivalence fails: a 200 with an empty body after a good one leaves no snapshot |
| TooltipBuilder.LimitIcon | src/ui/tooltip-builder.ts:46-48 | red iff >= 90, yellow iff 75 <= u < 90, check mark iff < 75 |
| TooltipBuilder.ToUpper | src/ui/tooltip-builder.ts:34 | same length; each letter a-z is upper-cased and every other character kept |
| TooltipBuilder.ToUpperIdempotent | src/ui/tooltip-builder.ts:34 | no lower-case letter remains, and upper-casing again changes nothing |
| TooltipBuilder.SubscriptionLabel | src/ui/tooltip-builder.ts:31-34 | "max" is shown as "Claude MAX"; any other tier is upper-cased |
| TooltipBuilder.Highest | src/ui/tooltip-builder.ts:112-116 | the highest usage is at least each of the 5-hour, 7-day and Opus values (absent = 0) and equals one of them |
| TooltipBuilder.HighestIgnoresOauthApps | src/ui/tooltip-builder.ts:112-116 | the OAuth-apps window never changes the highest usage |
| TooltipBuilder.BarFault | src/ui/tooltip-builder.ts:44-51 | the error one window's `createProgressBar(percent)` call throws: none for an absent window, else the fault for its utilisation |
| TooltipBuilder.FirstBarFault | src/ui/tooltip-builder.ts:43-109 | the error that ends the build: that of the first of the four bar calls, in tooltip order, that throws; `FirstBarFaultSpec` characterises it |
| TooltipBuilder.AppendAccountSection | src/ui/tooltip-builder.ts:24-36 | appends the account section: name and tier lines only when truthy, the e-mail line always |
| TooltipBuilder.AppendWindowBody | src/ui/tooltip-builder.ts:51-57 | appends the progress bar, the reset line when the window has a reset time, and the closing newline |
| TooltipBuilder.FirstBarFaultSpec | src/ui/tooltip-builder.ts:43-109 | building fails iff the progress bar throws for some present window's percentage, and then with the error of the earliest such window in tooltip order; with no window it never fails |
| TooltipBuilder.AppendLimitSection | src/ui/tooltip-builder.ts:44-58 | an absent window appends nothing; a present one throws the error its percentage makes the progress bar throw, or else appends its heading and body |
| TooltipBuilder.AppendLimitSections | src/ui/tooltip-builder.ts:43-109 | the four window sections in order; it throws the error of the first window whose progress bar throws, if any |
| TooltipBuilder.AppendTipsSection | src/ui/tooltip-builder.ts:118-131 | appends the tips block for the given highest usage |
| TooltipBuilder.MainFragments | src/ui/tooltip-builder.ts:9-150 | the main tooltip as fragments: header, account section, usage heading, the four window sections, tips, footer; the `MainTooltip*` lemmas state its contents |
| TooltipBuilder.CreateMainTooltip | src/ui/tooltip-builder.ts:9-150 | throws the first present window's progress-bar error, if some bar throws; otherwise the tooltip is exactly the main fragment sequence |
| TooltipBuilder.MainTooltipHeadings | src/ui/tooltip-builder.ts:43-109 | the window headings are exactly those of the present windows, each with its severity mark, in the order 5-hour, 7-day, 7-day Opus, 7-day OAuth Apps |
| TooltipBuilder.MainTooltipResetLines | src/ui/tooltip-builder.ts:53-107 | a "Resets in" line appears for a window iff it is present with a reset time, carrying that countdown, in window order |
| TooltipBuilder.MainTooltipTips | src/ui/tooltip-builder.ts:118-131 | tips iff highest > 75; the high-usage tip iff > 90; the approaching-limits tip iff 75 < highest <= 90 |
| TooltipBuilder.MainTooltipAccountLines | src/ui/tooltip-builder.ts:24-36 | the account lines of the tooltip are exactly the account section: the name (if truthy), the e-mail, the tier label (if truthy), in that order, and nowhere else |
| TooltipBuilder.MainTooltipAccount | src/ui/tooltip-builder.ts:24-36 | the e-mail line is always present; a name line iff the display name is truthy, and it carries that name; a tier line iff the tier is truthy, and it carries the tier's label |
| TooltipBuilder.SeventyFiveIsYellowWithoutTips | src/ui/tooltip-builder.ts:46-131 | when the highest usage is exactly 75, every window at 75 gets a yellow heading in the tooltip, yet the tooltip shows no tips heading and neither tip |
| StatusBar.DisplayPercent | src/ui/status-bar.ts:35-39 | the shown percentage is at least the 5-hour and 7-day values (absent = 0) and equals one of them |
| StatusBar.DisplayPercentIgnoresOtherWindows | src/ui/status-bar.ts:35-39 | the Opus and OAuth-apps windows never change the shown percentage |
| StatusBar.Initial | src/ui/status-bar.ts:17-29 | the item as created: spinner text, no colours, the initializing tooltip, the no-op command |
| StatusBar.UsageText | src/ui/status-bar.ts:34-42 | the percentage as text, both colours cleared, the rest kept |
| StatusBar.ShowingUsage | src/ui/status-bar.ts:34-46 | `UsageText` followed by the main tooltip |
| StatusBar.AuthRequired | src/ui/status-bar.ts:51-56 | error text and colour, the auth-required tooltip, the no-op command; background kept |
| StatusBar.AuthError | src/ui/status-bar.ts:61-65 | error text and colour, the auth-error tooltip quoting the error; background and command kept |
| StatusBar.Updating | src/ui/status-bar.ts:70-74 | spinner text, colour cleared, the updating tooltip; background and command kept |
| StatusBar.FetchError | src/ui/status-bar.ts:79-83 | warning text and colour, the fetch-error tooltip |
| StatusBar.UpdateError | src/ui/status-bar.ts:88-92 | warning text and colour, the update-error tooltip quoting the error |
| StatusBar.TransitionFrames | src/ui/status-bar.ts:41-92 | which fields each display leaves alone: only auth-required resets the command; only the usage display clears the background; fetch and update errors differ only in their tooltip |
| StatusBar.FetchErrorOverwritesUpdating | src/ui/status-bar.ts:70-83 | a fetch error shown after the spinner looks the same as one shown straight away |
| StatusBar.StatusBarItem.Create | src/ui/status-bar.ts:17-29 | right-aligned, priority 100, spinner text, initializing tooltip, no-op command, shown |
| StatusBar.StatusBarItem.UpdateStatusBar | src/ui/status-bar.ts:34-46 | shows the percentage and clears both colours; then either sets the main tooltip or throws the first failing progress bar's error, leaving the old tooltip |
| StatusBar.StatusBarItem.ShowAuthRequired | src/ui/status-bar.ts:51-56 | error text, error colour, auth-required tooltip, command := no-op; the rest is unchanged |
| StatusBar.StatusBarItem.ShowAuthError | src/ui/status-bar.ts:61-65 | error text, error colour, auth-error tooltip quoting the error; command unchanged |
| StatusBar.StatusBarItem.ShowUpdating | src/ui/status-bar.ts:70-74 | spinner text, colour cleared, updating tooltip; background and command unchanged |
| StatusBar.StatusBarItem.ShowFetchError | src/ui/status-bar.ts:79-83 | warning text, warning colour, fetch-error tooltip |
| StatusBar.StatusBarItem.ShowUpdateError | src/ui/status-bar.ts:88-92 | warning text, warning colour, update-error tooltip quoting the error |
| StatusBar.StatusBarItem.Dispose | src/extension.ts:65-68 | marks the item disposed and changes nothing it shows |
| UsageMonitor.WarningEntries | src/services/usage-monitor.ts:59-79 | the warning entries of the 5-hour, 7-day and Opus windows; `WarningEntriesSpec` states which they are |
| UsageMonitor.EntriesOf | src/services/usage-monitor.ts:59-79 | never more warning entries than windows checked |
| UsageMonitor.EntriesOfOrdered | src/services/usage-monitor.ts:59-79 | checking windows in order gives entries in that order (by induction) |
| UsageMonitor.WarningEntriesSpec | src/services/usage-monitor.ts:59-79 | one entry per present window strictly above 90, with its own utilisation, never for OAuth apps, in 5-hour, 7-day, Opus order, at most three |
| UsageMonitor.NinetyIsNotWarned | src/services/usage-monitor.ts:61 | a window at exactly 90 is not warned about |
| UsageMonitor.Join | src/services/usage-monitor.ts:83 | `join`: the parts with the separator between consecutive ones |
| UsageMonitor.WarningLabel | src/services/usage-monitor.ts:63-76 | the window names the warnings use: "5-hour", "7-day", "7-day Opus" |
| UsageMonitor.EntryText | src/services/usage-monitor.ts:63-77 | one warning entry: the window's name, " limit is ", its utilisation to one decimal, "% used" |
| UsageMonitor.EntryTexts | src/services/usage-monitor.ts:59-79 | the entry texts, one per entry with the same index, same count |
| UsageMonitor.WarningMessage | src/services/usage-monitor.ts:81-85 | the message shown: the prefix and the entries joined with ", ", none without entries; `WarningMessageIff` characterises it |
| UsageMonitor.WarningMessageIff | src/services/usage-monitor.ts:81-85 | a message exists iff one of the three checked windows is above 90, and it starts with "Claude Stats Warning: " |
| UsageMonitor.OauthAppsNeverWarned | src/services/usage-monitor.ts:58-86 | the OAuth-apps window never affects the warning |
| UsageMonitor.CheckUsageWarnings | src/services/usage-monitor.ts:58-86 | the pushes build the warning list; at most one message is emitted: the prefix and the entries joined with ", " |
| UsageMonitor.Settle | src/services/usage-monitor.ts:36-52 | the item after a fetch: fetch error without usage; the update error of the first failing progress bar; otherwise the usage display, then the update error of a failing settings read |
| UsageMonitor.CycleDisplay | src/services/usage-monitor.ts:31-52 | the spinner, then `Settle` |
| UsageMonitor.CycleWarning | src/services/usage-monitor.ts:36-45 | a warning only when usage came back, no progress bar threw and the setting reads true, and then `WarningMessage` of that usage |
| UsageMonitor.CycleSettles | src/services/usage-monitor.ts:31-52 | a refresh never leaves the spinner up; it ends on fetch error iff the client returned nothing; it shows the percentage when nothing threw |
| UsageMonitor.FetchErrorOnlyBeforeFirstSuccess | src/services/usage-monitor.ts:46-48 | when every 200 carries a body: with the client's cache, the fetch-error display appears iff no 200 has ever been received |
| UsageMonitor.UsageMonitor.constructor | src/services/usage-monitor.ts:11-12 | neither a client nor a session at load |
| UsageMonitor.UsageMonitor.InitializeMonitor | src/services/usage-monitor.ts:17-20 | sets the session and a fresh client for it with an empty cache |
| UsageMonitor.UsageMonitor.Fetch | src/services/usage-monitor.ts:32-34 | shows the spinner, then fetches through the client |
| UsageMonitor.UsageMonitor.Render | src/services/usage-monitor.ts:36-52 | draws the usage or shows the fetch error; a thrown error shows the update error; warnings only when the setting reads true |
| UsageMonitor.UsageMonitor.UpdateUsage | src/services/usage-monitor.ts:25-53 | with no client or session, nothing changes and nothing is fetched; otherwise one refresh cycle runs, no error escapes, and the warning is the only message shown |
| Extension.IntervalSeconds | src/extension.ts:43 | `config.get('updateInterval') \|\| 300`: an unset or zero setting gives 300 seconds, any other value (fractional ones included) is kept |
| Extension.IntervalSecondsSpec | src/extension.ts:43 | the interval is never 0; it is the configured value when that is set and non-zero; unset gives 300 000 ms |
| Extension.StartupAuth | src/extension.ts:29-30 | the session startup loads: `Session` of the default keychain token and the profile |
| Extension.FirstFetch | src/extension.ts:36-39 | what the first refresh's new client returns: the body of a 200, nothing otherwise |
| Extension.ReadInterval | src/extension.ts:42-57 | the item after reading the period: a read error shows the auth error, otherwise unchanged |
| Extension.StartupDisplay | src/extension.ts:28-59 | the item after `loadAuthAndStartMonitoring`: auth-required without a session, else one refresh cycle then `ReadInterval` |
| Extension.StartsTimer | src/extension.ts:28-59 | startup installs the timer iff a session exists and the period was read |
| Extension.StartupOutcomes | src/extension.ts:28-59 | auth-required iff no session; auth-error iff a session but the period could not be read; the timer starts iff neither |
| Extension.NoCredentialShowsAuthRequired | src/extension.ts:52-53 | with no credential the item asks for a login, keeps the no-op command, and no timer starts |
| Extension.Extension.constructor | src/extension.ts:12 | no item, no session, no handle and no running interval at load |
| Extension.Extension.RestartTimer | src/extension.ts:45-51 | clears the old interval and installs one new interval of the given period; exactly one interval then runs |
| Extension.Extension.LoadAuthAndStartMonitoring | src/extension.ts:28-59 | no session: auth-required only, with no init, update or timer; otherwise init, one refresh, then a single timer of the configured period, or the auth-error display, with no new timer installed |
| Extension.Extension.StartMonitoring | src/extension.ts:32-51 | initialise, refresh once with a fresh client, then read the period |
| Extension.Extension.ApplyInterval | src/extension.ts:42-57 | a read error shows the auth error and leaves timers alone; otherwise the timer is restarted with period x 1000 ms, fractional periods included |
| Extension.Extension.Activate | src/extension.ts:14-26 | creates and shows the item, then starts monitoring from the initial display; without a session the monitor and timers are untouched and no warning is shown; with one the monitor holds it and a fresh client that made one request, and the warning is that refresh's; the timer starts iff `StartsTimer`, with the configured period |
| Extension.Extension.OnTimer | src/extension.ts:49-51 | a tick of the running interval runs one refresh cycle: one more request, the cycle's display, and the cycle's warning |
| Extension.Extension.Deactivate | src/extension.ts:61-68 | no interval runs afterwards; an existing item is disposed; the handle variable keeps its value |

## Left out

- Running the `security` tool through a shell, and the quoting of its command line: process I/O. Only its outcome is modelled.
- `fs.existsSync`, `readFileSync` and both `JSON.parse` calls: file I/O and parsing. Their results are inputs (`ProfileFile`, `Parser`). A truthy `claudeAiOauth` that is not an object is folded into "absent". A falsy `expiresAt` is represented as 0 or `None`. A `claudeAiOauth` without an `accessToken` is not modelled; the source would yield an `undefined` token.
- axios, its headers on the wire and its `validateStatus` behaviour: network I/O. The outcome is an input. An error thrown before any response and a non-200 response are both handled as non-200.
- `Date.now()`, `new Date()` and the ISO-8601 parsing of `resets_at`: the clock. `now` and reset instants are integers in epoch milliseconds, and a `null` or empty `resets_at` is `None`. A reset time that does not parse, which gives NaN in the source, is not modelled.
- `toLocaleTimeString` for the "Last updated" line: locale- and clock-dependent. It is a fixed fragment.
- `toFixed(0)` of the status-bar percentage: floating-point rendering. The label records the number. `toFixed(1)` in the warnings is the parameter `fixed1`.
- Utilisation is a `real`. NaN, and the fact that `|| 0` also replaces an explicit 0 or NaN, are not modelled; the 0 case agrees anyway.
- `toUpperCase` beyond the letters a-z: Unicode case mapping is not modelled.
- `createProgressBar` (`./progress-bar`) is not part of this model. Its bar is a fragment carrying the percentage; that it may throw is an input.
- The static markdown wording, `MarkdownString` flags, `ThemeColor` objects, `showWarningMessage` and `createStatusBarItem`: VS Code API. They become tokens (`Fragment`, `Tooltip`, `ThemeColor`), and the warning is returned as text.
- The text of the other five tooltips (`createAuthRequiredTooltip` and the rest): static strings. They are constructors of `Tooltip`, and the auth-error and update-error tooltips carry the error.
- `src/commands/index.ts`: command registration. Its refresh command invokes the same `UpdateUsage`, and its login command opens a link.
- `setInterval`/`clearInterval` timing, Node's clamping of a non-positive period, and overlapping ticks when a fetch outlasts the interval: timer concurrency. The timer is a handle, `OnTimer` is one tick, and `async` calls run to completion in order.
- `console` logging.
- `KeychainAccess.GetPassword`: the stderr warning is not modelled, because it only logs.
- `AuthManager.LoadAuthData`: the outer `catch` returning `null` has no counterpart, because nothing the model calls can throw.
- `UsageMonitor.UsageMonitor.Render`: an error thrown by `showWarningMessage` is not modelled. The model treats showing a message as infallible.
