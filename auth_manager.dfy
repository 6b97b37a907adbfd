/** `loadAuthData`: the stored token, enriched with the account details of the
    local profile `~/.claude.json`. Reading and parsing that file happen
    outside; the model receives what they produced (`ProfileFile`). */
module AuthManager {
  import opened Wrappers
  import opened Types
  import opened KeychainAccess

  const DefaultEmail: string := "Claude Code User"

  /** The profile as the inner try meets it: no file, a file whose reading or
      parsing threw (a `null` document included), or a parsed document. */
  datatype ProfileFile = Missing | Unreadable | Present(config: ClaudeConfig)

  /** The profile overrides the defaults only when it carries `oauthAccount`. */
  predicate HasAccount(p: ProfileFile)
  {
    p.Present? && p.config.oauthAccount.Some?
  }

  /** The token `loadAuthData` obtains: a keychain object with the default
      service and account, asked for its token. */
  function DefaultToken(security: Security, parse: Parser, now: int): Option<TokenData>
  {
    TokenFromOutcome(PasswordOutcomeOf(security(ServiceName, DefaultAccount)), parse, now)
  }

  /** The session `loadAuthData` assembles from a token and a profile. Every
      failure of the profile leaves the defaults in place; only a missing
      token gives `null`. */
  function Session(token: Option<TokenData>, profile: ProfileFile): (r: Option<AuthData>)
    ensures r.None? <==> token.None?
    ensures r.Some? ==> r.value.accessToken == token.value.accessToken
                        && r.value.subscriptionType == token.value.subscriptionType
    ensures r.Some? && HasAccount(profile) ==>
      r.value.email == profile.config.oauthAccount.value.emailAddress
      && r.value.displayName == Some(profile.config.oauthAccount.value.displayName)
    ensures r.Some? && !HasAccount(profile) ==>
      r.value.email == DefaultEmail && r.value.displayName.None?
  {
    if token.None? then None
    else if HasAccount(profile) then
      var account := profile.config.oauthAccount.value;
      Some(AuthData(token.value.accessToken, account.emailAddress, Some(account.displayName), token.value.subscriptionType))
    else Some(AuthData(token.value.accessToken, DefaultEmail, None, token.value.subscriptionType))
  }

  /** `loadAuthData`: defaults first, overwritten from the profile when it
      carries an account. */
  method LoadAuthData(security: Security, parse: Parser, now: int, profile: ProfileFile)
    returns (r: Option<AuthData>)
    ensures r == Session(DefaultToken(security, parse, now), profile)
  {
    var keychain := new MacOSKeychainAccess();
    var tokenData := keychain.GetClaudeToken(security, parse, now);
    if tokenData.None? {
      return None;
    }

    var email := DefaultEmail;
    var displayName: Option<string> := None;
    match profile {
      case Missing =>
      case Unreadable =>
      case Present(config) =>
        if config.oauthAccount.Some? {
          email := config.oauthAccount.value.emailAddress;
          displayName := Some(config.oauthAccount.value.displayName);
        }
    }

    r := Some(AuthData(tokenData.value.accessToken, email, displayName, tokenData.value.subscriptionType));
  }

  /** The profile never decides whether there is a session: a missing or
      unreadable one, or one without an account, only costs the account
      details, and those three give the same session. */
  lemma ProfileNeverDecidesSession(token: Option<TokenData>, p: ProfileFile, q: ProfileFile)
    ensures Session(token, p).Some? == Session(token, q).Some?
    ensures !HasAccount(p) && !HasAccount(q) ==> Session(token, p) == Session(token, q)
    ensures Session(token, Missing) == Session(token, Unreadable) == Session(token, Present(ClaudeConfig(None)))
  {
  }
}
