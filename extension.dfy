/** The extension's lifecycle (`activate`, `loadAuthAndStartMonitoring`,
    `deactivate`) and its one periodic refresh timer. The module-level timer
    handle is a field; the host's set of running intervals is modelled
    alongside it so that clearing and installing can be stated. */
module Extension {
  import opened Wrappers
  import opened Types
  import opened KeychainAccess
  import opened AuthManager
  import opened ClaudeClient
  import opened StatusBar
  import opened UsageMonitor
  import opened TooltipBuilder

  const DefaultIntervalSeconds: real := 300.0
  const MillisPerSecond: real := 1000.0

  /** An interval the host runs: an identity and a period in milliseconds
      (a setting may hold a fractional number of seconds). */
  datatype TimerHandle = TimerHandle(id: nat, periodMs: real)

  /** What one startup meets: the credential store and its parser, the
      clock, the profile, the first usage response, the faults the tooltip
      and the settings may throw, the configured interval, and the renderer
      of one-decimal numbers. */
  datatype Environment = Environment(
    security: Security,
    parse: Parser,
    now: int,
    profile: ProfileFile,
    response: HttpOutcome,
    progressBarFault: ProgressBarFault,
    showNotifications: Result<bool, string>,
    intervalSetting: Result<Option<real>, string>,
    fixed1: real -> string)

  /** `config.get('updateInterval') || 300`: unset and 0 fall back to 300. */
  function IntervalSeconds(configured: Option<real>): real
  {
    if configured.Some? && configured.value != 0.0 then configured.value else DefaultIntervalSeconds
  }

  /** The period is never 0, and it is the configured value whenever that is
      set and non-zero. */
  lemma IntervalSecondsSpec(configured: Option<real>)
    ensures IntervalSeconds(configured) != 0.0
    ensures configured.Some? ==> (configured.value != 0.0 <==> IntervalSeconds(configured) == configured.value)
    ensures configured.None? ==> IntervalSeconds(configured) * MillisPerSecond == 300_000.0
  {
  }

  /** The session of a startup. */
  function StartupAuth(env: Environment): Option<AuthData>
  {
    Session(DefaultToken(env.security, env.parse, env.now), env.profile)
  }

  /** What the new client returns on the first refresh: its cache is empty, so
      only a 200 response gives something. */
  function FirstFetch(env: Environment): Option<ClaudeUsage>
  {
    if IsOk(env.response) then env.response.body else None
  }

  /** The item after the period is read: an error reading it is reported as
      an auth error. */
  function ReadInterval(s: ItemState, setting: Result<Option<real>, string>): ItemState
  {
    if setting.Failure? then AuthError(s, setting.error) else s
  }

  /** The item after `loadAuthAndStartMonitoring`, starting from `s`. */
  function StartupDisplay(s: ItemState, env: Environment): ItemState
  {
    match StartupAuth(env)
    case None => AuthRequired(s)
    case Some(auth) =>
      ReadInterval(CycleDisplay(s, FirstFetch(env), auth, env.now, env.progressBarFault, env.showNotifications),
                   env.intervalSetting)
  }

  /** Whether startup installs the timer. */
  predicate StartsTimer(env: Environment)
  {
    StartupAuth(env).Some? && env.intervalSetting.Success?
  }

  /** Startup ends on the auth-required display exactly when there is no
      session, and on the auth-error display exactly when there is one but the
      interval setting could not be read; the timer runs exactly when neither
      happened. */
  lemma StartupOutcomes(s: ItemState, env: Environment)
    ensures StartupDisplay(s, env).tooltip == AuthRequiredTooltip <==> StartupAuth(env).None?
    ensures StartupDisplay(s, env).tooltip.AuthErrorTooltip? <==>
      StartupAuth(env).Some? && env.intervalSetting.Failure?
    ensures StartsTimer(env) <==>
      !(StartupDisplay(s, env).tooltip == AuthRequiredTooltip || StartupDisplay(s, env).tooltip.AuthErrorTooltip?)
  {
    if StartupAuth(env).Some? {
      CycleSettles(s, FirstFetch(env), StartupAuth(env).value, env.now, env.progressBarFault, env.showNotifications);
    }
  }

  /** No credential means the item asks for a login and keeps its no-op
      command, whatever else the environment holds. */
  lemma NoCredentialShowsAuthRequired(s: ItemState, env: Environment)
    requires DefaultToken(env.security, env.parse, env.now).None?
    ensures StartupDisplay(s, env) == AuthRequired(s) && !StartsTimer(env)
    ensures StartupDisplay(s, env).command == Some(NoopCommand)
  {
  }

  class Extension {
    var statusBar: StatusBarItem?
    const monitor: UsageMonitor
    var updateInterval: Option<TimerHandle>
    /** The intervals the host is running. */
    var liveTimers: set<TimerHandle>
    var nextTimerId: nat

    /** At most one interval runs, it is the one the handle names, and it runs
        only once the monitor has a session. */
    ghost predicate Valid()
      reads this, monitor, monitor.apiClient
    {
      && monitor.Valid()
      && (liveTimers == {} || (updateInterval.Some? && liveTimers == {updateInterval.value}))
      && (liveTimers != {} ==> monitor.Initialised())
      && (updateInterval.Some? ==> updateInterval.value.id < nextTimerId)
    }

    /** The state when the extension is loaded: no item, no session, no timer. */
    constructor ()
      ensures Valid()
      ensures statusBar == null && updateInterval.None? && liveTimers == {} && !monitor.Initialised()
      ensures fresh(monitor)
    {
      statusBar := null;
      monitor := new UsageMonitor();
      updateInterval := None;
      liveTimers := {};
      nextTimerId := 0;
    }

    /** Replaces the handle by a new interval of `seconds`, clearing the old
        one first. */
    method RestartTimer(seconds: real)
      requires Valid() && monitor.Initialised()
      modifies this
      ensures Valid()
      ensures statusBar == old(statusBar)
      ensures updateInterval == Some(TimerHandle(old(nextTimerId), seconds * MillisPerSecond))
      ensures liveTimers == {updateInterval.value}
      ensures nextTimerId == old(nextTimerId) + 1
    {
      if updateInterval.Some? {
        liveTimers := liveTimers - {updateInterval.value};
      }
      var handle := TimerHandle(nextTimerId, seconds * MillisPerSecond);
      nextTimerId := nextTimerId + 1;
      updateInterval := Some(handle);
      liveTimers := liveTimers + {handle};
    }

    /** `loadAuthAndStartMonitoring`. With no session the item asks for a
        login and nothing else happens. Otherwise the monitor gets a new
        client, one refresh runs at once, and a single interval of the
        configured period replaces any earlier one; an error reading the
        period shows the auth-error display and leaves the timers alone. The
        result is the warning message the refresh showed, if any. */
    method LoadAuthAndStartMonitoring(env: Environment) returns (warning: Option<string>)
      requires Valid() && statusBar != null
      modifies this, statusBar, monitor, monitor.apiClient
      ensures Valid()
      ensures statusBar == old(statusBar)
      ensures statusBar.State() == StartupDisplay(old(statusBar.State()), env)
      ensures statusBar.visible == old(statusBar.visible) && statusBar.disposed == old(statusBar.disposed)
      ensures StartupAuth(env).None? ==>
        && monitor.apiClient == old(monitor.apiClient)
        && monitor.currentAuthData == old(monitor.currentAuthData)
        && updateInterval == old(updateInterval) && liveTimers == old(liveTimers)
        && warning.None?
        && (old(monitor.apiClient) != null ==>
              && monitor.apiClient.received == old(monitor.apiClient.received)
              && monitor.apiClient.lastUsage == old(monitor.apiClient.lastUsage))
      ensures StartupAuth(env).Some? ==>
        && monitor.currentAuthData == StartupAuth(env)
        && fresh(monitor.apiClient) && monitor.apiClient.received == [env.response]
        && warning == CycleWarning(FirstFetch(env), env.progressBarFault, env.showNotifications, env.fixed1)
      ensures StartsTimer(env) ==>
        && updateInterval == Some(TimerHandle(old(nextTimerId), IntervalSeconds(env.intervalSetting.value) * MillisPerSecond))
        && liveTimers == {updateInterval.value}
      ensures !StartsTimer(env) ==> updateInterval == old(updateInterval) && liveTimers == old(liveTimers)
    {
      var authData := LoadAuthData(env.security, env.parse, env.now, env.profile);
      if authData.None? {
        statusBar.ShowAuthRequired();
        return None;
      }
      warning := StartMonitoring(authData.value, env);
    }

    /** `loadAuthAndStartMonitoring` once a session exists: initialise, refresh
        at once, then read the period and install the timer. */
    method StartMonitoring(auth: AuthData, env: Environment) returns (warning: Option<string>)
      requires Valid() && statusBar != null
      modifies this, statusBar, monitor, monitor.apiClient
      ensures Valid()
      ensures statusBar == old(statusBar)
      ensures statusBar.State() == ReadInterval(
        CycleDisplay(old(statusBar.State()), FirstFetch(env), auth, env.now, env.progressBarFault, env.showNotifications),
        env.intervalSetting)
      ensures statusBar.visible == old(statusBar.visible) && statusBar.disposed == old(statusBar.disposed)
      ensures monitor.currentAuthData == Some(auth)
      ensures fresh(monitor.apiClient) && monitor.apiClient.received == [env.response]
      ensures warning == CycleWarning(FirstFetch(env), env.progressBarFault, env.showNotifications, env.fixed1)
      ensures env.intervalSetting.Success? ==>
        && updateInterval == Some(TimerHandle(old(nextTimerId), IntervalSeconds(env.intervalSetting.value) * MillisPerSecond))
        && liveTimers == {updateInterval.value}
      ensures env.intervalSetting.Failure? ==> updateInterval == old(updateInterval) && liveTimers == old(liveTimers)
    {
      monitor.InitializeMonitor(auth);
      warning := monitor.UpdateUsage(statusBar, env.response, env.now, env.progressBarFault,
                                     env.showNotifications, env.fixed1);
      ApplyInterval(env.intervalSetting);
    }

    /** Reading the period: an error shows the auth-error display and leaves
        the timers alone; otherwise the timer is restarted. */
    method ApplyInterval(setting: Result<Option<real>, string>)
      requires Valid() && statusBar != null && monitor.Initialised()
      modifies this, statusBar
      ensures Valid()
      ensures statusBar == old(statusBar)
      ensures statusBar.State() == ReadInterval(old(statusBar.State()), setting)
      ensures statusBar.visible == old(statusBar.visible) && statusBar.disposed == old(statusBar.disposed)
      ensures setting.Success? ==>
        && updateInterval == Some(TimerHandle(old(nextTimerId), IntervalSeconds(setting.value) * MillisPerSecond))
        && liveTimers == {updateInterval.value}
      ensures setting.Failure? ==> updateInterval == old(updateInterval) && liveTimers == old(liveTimers)
    {
      match setting {
        case Failure(e) =>
          statusBar.ShowAuthError(e);
        case Success(configured) =>
          var intervalSeconds := IntervalSeconds(configured);
          RestartTimer(intervalSeconds);
      }
    }

    /** `activate`: create and show the item, then start monitoring. Command
        registration is not part of this model. */
    method Activate(env: Environment) returns (warning: Option<string>)
      requires Valid()
      modifies this, monitor, monitor.apiClient
      ensures Valid()
      ensures fresh(statusBar) && statusBar.visible && !statusBar.disposed
      ensures statusBar.alignment == Right && statusBar.priority == ItemPriority
      ensures statusBar.State() == StartupDisplay(Initial(), env)
      ensures StartupAuth(env).None? ==>
        && monitor.apiClient == old(monitor.apiClient)
        && monitor.currentAuthData == old(monitor.currentAuthData)
        && updateInterval == old(updateInterval) && liveTimers == old(liveTimers)
        && warning.None?
        && (old(monitor.apiClient) != null ==>
              && monitor.apiClient.received == old(monitor.apiClient.received)
              && monitor.apiClient.lastUsage == old(monitor.apiClient.lastUsage))
      ensures StartupAuth(env).Some? ==>
        && monitor.currentAuthData == StartupAuth(env)
        && fresh(monitor.apiClient) && monitor.apiClient.received == [env.response]
        && warning == CycleWarning(FirstFetch(env), env.progressBarFault, env.showNotifications, env.fixed1)
      ensures StartsTimer(env) ==>
        && updateInterval == Some(TimerHandle(old(nextTimerId), IntervalSeconds(env.intervalSetting.value) * MillisPerSecond))
        && liveTimers == {updateInterval.value}
      ensures !StartsTimer(env) ==> updateInterval == old(updateInterval) && liveTimers == old(liveTimers)
    {
      statusBar := new StatusBarItem.Create();
      warning := LoadAuthAndStartMonitoring(env);
    }

    /** One tick of the running interval: a refresh with no startup around it. */
    method OnTimer(h: TimerHandle, response: HttpOutcome, now: int, progressBarFault: ProgressBarFault,
                   showNotifications: Result<bool, string>, fixed1: real -> string)
      returns (warning: Option<string>)
      requires Valid() && h in liveTimers && statusBar != null
      modifies statusBar, monitor.apiClient
      ensures Valid()
      ensures monitor.apiClient.received == old(monitor.apiClient.received) + [response]
      ensures statusBar.State() == CycleDisplay(old(statusBar.State()),
                                                if IsOk(response) then response.body else old(monitor.apiClient.lastUsage),
                                                monitor.currentAuthData.value, now, progressBarFault, showNotifications)
      ensures warning == CycleWarning(if IsOk(response) then response.body else old(monitor.apiClient.lastUsage),
                                      progressBarFault, showNotifications, fixed1)
    {
      warning := monitor.UpdateUsage(statusBar, response, now, progressBarFault, showNotifications, fixed1);
    }

    /** `deactivate`: stop the interval if a handle is set and dispose of the
        item if there is one. The handle variable itself keeps its value. */
    method Deactivate()
      requires Valid()
      modifies this, statusBar
      ensures Valid()
      ensures liveTimers == {}
      ensures updateInterval == old(updateInterval) && statusBar == old(statusBar)
      ensures statusBar != null ==> statusBar.disposed && statusBar.State() == old(statusBar.State())
    {
      if updateInterval.Some? {
        liveTimers := liveTimers - {updateInterval.value};
      }
      if statusBar != null {
        statusBar.Dispose();
      }
    }
  }
}
