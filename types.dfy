/** The records of the extension (interfaces `AuthData`, `ClaudeConfig`,
    `UsageWindow` and `ClaudeUsage`), as values. */
module Types {
  import opened Wrappers

  /** A resolved session: the bearer token, the account e-mail (a placeholder
      by default), and the optional display name and subscription tier. */
  datatype AuthData = AuthData(
    accessToken: string,
    email: string,
    displayName: Option<string>,
    subscriptionType: Option<string>)

  /** The `oauthAccount` record of the local profile; only the two fields the
      extension reads are kept. */
  datatype OAuthAccount = OAuthAccount(emailAddress: string, displayName: string)

  /** The parsed local profile (`~/.claude.json`). */
  datatype ClaudeConfig = ClaudeConfig(oauthAccount: Option<OAuthAccount>)

  /** One quota window: utilisation in percent and the reset instant, as
      epoch milliseconds (`None` for a `null` or empty `resets_at`). */
  datatype UsageWindow = UsageWindow(utilization: real, resetsAt: Option<int>)

  /** A usage snapshot; each window is optional. */
  datatype ClaudeUsage = ClaudeUsage(
    fiveHour: Option<UsageWindow>,
    sevenDay: Option<UsageWindow>,
    sevenDayOauthApps: Option<UsageWindow>,
    sevenDayOpus: Option<UsageWindow>)

  /** JavaScript truthiness of an optional string: absent and empty are falsy. */
  predicate Truthy(s: Option<string>) { s.Some? && s.value != "" }

  /** The four named windows, in the order the tooltip lists them. */
  datatype WindowKind = FiveHour | SevenDay | SevenDayOpus | SevenDayOauthApps

  /** The position of a window in the tooltip's (and the warning list's) order. */
  function Rank(k: WindowKind): nat
  {
    match k
    case FiveHour => 0
    case SevenDay => 1
    case SevenDayOpus => 2
    case SevenDayOauthApps => 3
  }

  /** The window of kind `k` in `u`. */
  function Window(u: ClaudeUsage, k: WindowKind): Option<UsageWindow>
  {
    match k
    case FiveHour => u.fiveHour
    case SevenDay => u.sevenDay
    case SevenDayOpus => u.sevenDayOpus
    case SevenDayOauthApps => u.sevenDayOauthApps
  }

  /** `w?.utilization || 0`: an absent window counts as 0. */
  function UtilOrZero(w: Option<UsageWindow>): (r: real)
    ensures w.None? ==> r == 0.0
    ensures w.Some? ==> r == w.value.utilization
  {
    if w.Some? then w.value.utilization else 0.0
  }

  /** `Math.max` of two numbers. */
  function Max(a: real, b: real): (r: real)
    ensures r >= a && r >= b
    ensures r == a || r == b
  {
    if a >= b then a else b
  }
}
