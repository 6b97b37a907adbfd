/** `MacOSKeychainAccess`: reading the stored credential and classifying it.
    The `security` command-line tool is a parameter (`Security`): given a
    service and an account it yields what the process printed, or the error
    it failed with. `JSON.parse` is a parameter too (`Parser`). */
module KeychainAccess {
  import opened Wrappers
  import opened Types

  const ServiceName: string := "Claude Code-credentials"
  const DefaultAccount: string := "maol"
  /** The phrase by which the tool reports a missing entry. */
  const NotFoundPhrase: string := "could not be found"

  // ---------------------------------------------------------------------------
  // String.prototype.trim

  /** The characters `trim` removes: ECMAScript WhiteSpace and LineTerminator. */
  const TrimmableChars: set<char> := {
    '\t', '\n', '\U{000B}', '\U{000C}', '\r', ' ', '\U{00A0}', '\U{1680}',
    '\U{2000}', '\U{2001}', '\U{2002}', '\U{2003}', '\U{2004}', '\U{2005}',
    '\U{2006}', '\U{2007}', '\U{2008}', '\U{2009}', '\U{200A}',
    '\U{2028}', '\U{2029}', '\U{202F}', '\U{205F}', '\U{3000}', '\U{FEFF}'
  }

  predicate IsTrimmable(c: char)
  {
    c in TrimmableChars
  }

  ghost predicate AllTrimmable(s: string)
  {
    forall i :: 0 <= i < |s| ==> IsTrimmable(s[i])
  }

  /** No trimmable character at either end. */
  ghost predicate Trimmed(s: string)
  {
    s == [] || (!IsTrimmable(s[0]) && !IsTrimmable(s[|s| - 1]))
  }

  /** Drops the leading trimmable characters: what is left is a suffix that does
      not start with one, and everything dropped was trimmable. */
  function TrimStart(s: string): (r: string)
    ensures |r| <= |s| && r == s[|s| - |r|..]
    ensures r == [] || !IsTrimmable(r[0])
  {
    if s != [] && IsTrimmable(s[0]) then TrimStart(s[1..]) else s
  }

  /** Drops the trailing trimmable characters: what is left is a prefix that does
      not end with one, and everything dropped was trimmable. */
  function TrimEnd(s: string): (r: string)
    ensures |r| <= |s| && r == s[..|r|]
    ensures r == [] || !IsTrimmable(r[|r| - 1])
  {
    if s != [] && IsTrimmable(s[|s| - 1]) then TrimEnd(s[..|s| - 1]) else s
  }

  /** Everything `TrimStart` drops is trimmable. */
  lemma {:induction false} TrimStartDropsPadding(s: string)
    ensures AllTrimmable(s[..|s| - |TrimStart(s)|])
    decreases |s|
  {
    if s != [] && IsTrimmable(s[0]) {
      var rest := s[1..];
      TrimStartDropsPadding(rest);
      var k := |rest| - |TrimStart(rest)|;
      assert s[..|s| - |TrimStart(s)|] == [s[0]] + rest[..k];
    } else {
      assert s[..|s| - |TrimStart(s)|] == [];
    }
  }

  /** Everything `TrimEnd` drops is trimmable. */
  lemma {:induction false} TrimEndDropsPadding(s: string)
    ensures AllTrimmable(s[|TrimEnd(s)|..])
    decreases |s|
  {
    if s != [] && IsTrimmable(s[|s| - 1]) {
      var front := s[..|s| - 1];
      TrimEndDropsPadding(front);
      var k := |TrimEnd(front)|;
      assert s[|TrimEnd(s)|..] == front[k..] + [s[|s| - 1]];
    } else {
      assert s[|TrimEnd(s)|..] == [];
    }
  }

  function Trim(s: string): string
  {
    TrimEnd(TrimStart(s))
  }

  lemma {:induction false} TrimStartOf(lead: string, rest: string)
    requires AllTrimmable(lead)
    requires rest == [] || !IsTrimmable(rest[0])
    ensures TrimStart(lead + rest) == rest
    decreases |lead|
  {
    if lead != [] {
      assert (lead + rest)[1..] == lead[1..] + rest;
      TrimStartOf(lead[1..], rest);
    }
  }

  lemma {:induction false} TrimEndOf(rest: string, trail: string)
    requires AllTrimmable(trail)
    requires rest == [] || !IsTrimmable(rest[|rest| - 1])
    ensures TrimEnd(rest + trail) == rest
    decreases |trail|
  {
    if trail != [] {
      assert (rest + trail)[..|rest + trail| - 1] == rest + trail[..|trail| - 1];
      TrimEndOf(rest, trail[..|trail| - 1]);
    }
  }

  /** `trim` is characterised without reference to how it scans: for any split
      of `s` into trimmable padding around a core with no trimmable ends,
      the result is that core. */
  lemma TrimOfPadded(lead: string, core: string, trail: string)
    requires AllTrimmable(lead) && AllTrimmable(trail) && Trimmed(core)
    ensures Trim(lead + core + trail) == core
  {
    if core == [] {
      assert lead + core + trail == (lead + trail) + [];
      TrimStartOf(lead + trail, []);
    } else {
      assert lead + core + trail == lead + (core + trail);
      TrimStartOf(lead, core + trail);
      TrimEndOf(core, trail);
    }
  }

  /** No trimmable character is left at either end. */
  lemma TrimResultTrimmed(s: string)
    ensures Trimmed(Trim(s))
  {
    var t := TrimStart(s);
    var r := TrimEnd(t);
    if r != [] {
      assert r[0] == t[0];
    }
  }

  /** What `trim` keeps is the slice of `s` that follows the leading padding. */
  lemma TrimIsSlice(s: string)
    ensures var i := |s| - |TrimStart(s)|;
      i + |Trim(s)| <= |s| && Trim(s) == s[i..i + |Trim(s)|]
  {
    var t := TrimStart(s);
    var i := |s| - |t|;
    var r := TrimEnd(t);
    PrefixOfSuffix(s, i, |r|);
  }

  /** Everything after what `trim` keeps is trimmable. */
  lemma TrimTailTrimmable(s: string)
    ensures var i := |s| - |TrimStart(s)|;
      i + |Trim(s)| <= |s| && AllTrimmable(s[i + |Trim(s)|..])
  {
    var t := TrimStart(s);
    var i := |s| - |t|;
    var r := TrimEnd(t);
    TrimEndDropsPadding(t);
    SuffixOfSuffix(s, i, |r|);
  }

  lemma PrefixOfSuffix<T>(s: seq<T>, i: nat, n: nat)
    requires i + n <= |s|
    ensures s[i..][..n] == s[i..i + n]
  {
  }

  lemma SuffixOfSuffix<T>(s: seq<T>, i: nat, k: nat)
    requires i + k <= |s|
    ensures s[i..][k..] == s[i + k..]
  {
  }

  /** The result of `trim` is a contiguous part of its input, surrounded only by
      trimmable characters, with no trimmable character at either end. */
  lemma TrimIsCore(s: string)
    ensures var i := |s| - |TrimStart(s)|;
      i + |Trim(s)| <= |s|
      && Trim(s) == s[i..i + |Trim(s)|]
      && AllTrimmable(s[..i]) && AllTrimmable(s[i + |Trim(s)|..])
      && Trimmed(Trim(s))
  {
    TrimIsSlice(s);
    TrimStartDropsPadding(s);
    TrimTailTrimmable(s);
    TrimResultTrimmed(s);
  }

  /** Trimming twice is trimming once. */
  lemma TrimIdempotent(s: string)
    ensures Trim(Trim(s)) == Trim(s)
  {
    TrimResultTrimmed(s);
    var r := Trim(s);
    assert TrimStart(r) == r;
    assert TrimEnd(r) == r;
  }

  // ---------------------------------------------------------------------------
  // String.prototype.includes

  ghost predicate OccursAt(s: string, sub: string, i: int)
  {
    0 <= i && i + |sub| <= |s| && s[i..i + |sub|] == sub
  }

  function Contains(s: string, sub: string): bool
    decreases |s|
  {
    if |sub| > |s| then false else s[..|sub|] == sub || Contains(s[1..], sub)
  }

  /** `includes` holds exactly when `sub` occurs at some position of `s`. */
  lemma {:induction false} ContainsIff(s: string, sub: string)
    ensures Contains(s, sub) <==> exists i :: OccursAt(s, sub, i)
    decreases |s|
  {
    if |sub| > |s| {
    } else if s[..|sub|] == sub {
      assert OccursAt(s, sub, 0);
    } else {
      ContainsIff(s[1..], sub);
      if Contains(s[1..], sub) {
        var j :| OccursAt(s[1..], sub, j);
        assert s[1..][j..j + |sub|] == s[j + 1..j + 1 + |sub|];
        assert OccursAt(s, sub, j + 1);
      } else {
        forall i | 0 <= i && i + |sub| <= |s|
          ensures !OccursAt(s, sub, i)
        {
          if i > 0 {
            assert s[1..][i - 1..i - 1 + |sub|] == s[i..i + |sub|];
            assert !OccursAt(s[1..], sub, i - 1);
          }
        }
      }
    }
  }

  // ---------------------------------------------------------------------------
  // getPassword

  /** What a failed tool run throws: an `Error` with a message, or some other value. */
  datatype Thrown = ErrorObject(message: string) | OtherValue

  /** The outcome of running the `security` tool. */
  datatype ExecResult = Completed(stdout: string, stderr: string) | Failed(error: Thrown)

  /** The command-line tool, as a function of the lookup key. */
  type Security = (string, string) -> ExecResult

  /** What `getPassword` ends in: a password, `null`, or a rethrown error. */
  datatype PasswordOutcome = Found(password: string) | NotFound | StoreError(error: Thrown)

  /** Only an `Error` whose message mentions a missing entry counts as "not found". */
  predicate IsNotFoundError(e: Thrown)
  {
    e.ErrorObject? && Contains(e.message, NotFoundPhrase)
  }

  /** The try/catch of `getPassword`, applied to the tool's outcome. */
  function PasswordOutcomeOf(x: ExecResult): (r: PasswordOutcome)
    ensures r.Found? <==> x.Completed?
    ensures r.Found? ==> r.password == Trim(x.stdout) && Trimmed(r.password)
    ensures r.NotFound? <==> x.Failed? && x.error.ErrorObject? && exists i :: OccursAt(x.error.message, NotFoundPhrase, i)
    ensures r.StoreError? ==> x.Failed? && r.error == x.error
  {
    match x
    case Completed(stdout, _) =>
      TrimIsCore(stdout);
      Found(Trim(stdout))
    case Failed(ErrorObject(message)) =>
      ContainsIff(message, NotFoundPhrase);
      if Contains(message, NotFoundPhrase) then NotFound else StoreError(ErrorObject(message))
    case Failed(OtherValue) => StoreError(OtherValue)
  }

  // ---------------------------------------------------------------------------
  // getClaudeToken

  /** The `claudeAiOauth` record of the stored JSON (when truthy). */
  datatype OAuthCredential = OAuthCredential(
    accessToken: string,
    expiresAt: Option<int>,
    subscriptionType: Option<string>)

  /** What `JSON.parse` makes of the password: a parse error, `null`, an object,
      or any other JSON value (number, string, boolean, array), whose property
      reads all give `undefined`. A `None` field is absent or falsy. */
  datatype ParsedPassword =
    | NotJson
    | JsonNull
    | JsonObject(claudeAiOauth: Option<OAuthCredential>, accessToken: Option<string>)
    | JsonOther

  type Parser = string -> ParsedPassword

  /** What `getClaudeToken` resolves to when it does not resolve to `null`. */
  datatype TokenData = TokenData(accessToken: string, subscriptionType: Option<string>)

  /** `expiresAt && Date.now() > expiresAt`: an absent or zero expiry is never
      checked, and a token expiring exactly now is still valid. */
  predicate Expired(c: OAuthCredential, now: int)
  {
    c.expiresAt.Some? && c.expiresAt.value != 0 && now > c.expiresAt.value
  }

  /** The largest distance from the epoch, in milliseconds, that an ECMAScript
      `Date` can hold (the bound of its TimeClip operation). */
  const MaxDateMs: int := 8_640_000_000_000_000

  /** An expiry outside the range of `Date`: `new Date(expiresAt).toISOString()`,
      evaluated for the expiry message, throws a `RangeError`. */
  predicate UnprintableExpiry(c: OAuthCredential)
  {
    c.expiresAt.Some? && (c.expiresAt.value < -MaxDateMs || c.expiresAt.value > MaxDateMs)
  }

  /** The inner try of `getClaudeToken`, for a non-empty password. A `null`
      parse result makes the property read throw, and so does printing an
      expiry outside the range of `Date`; that same try turns both into the
      bare-token fallback. */
  function TokenFromPassword(password: string, parsed: ParsedPassword, now: int): (r: Option<TokenData>)
    ensures (parsed.NotJson? || parsed.JsonNull?) ==> r == Some(TokenData(password, None))
    ensures parsed.JsonOther? ==> r.None?
    ensures parsed.JsonObject? && parsed.claudeAiOauth.Some? ==>
      var c := parsed.claudeAiOauth.value;
      var expired := c.expiresAt.Some? && c.expiresAt.value != 0 && now > c.expiresAt.value;
      var unprintable := c.expiresAt.Some? && (c.expiresAt.value < -MaxDateMs || c.expiresAt.value > MaxDateMs);
      (r.None? <==> expired && !unprintable)
      && (!expired ==> r == Some(TokenData(c.accessToken, c.subscriptionType)))
      && (expired && unprintable ==> r == Some(TokenData(password, None)))
    ensures parsed.JsonObject? && parsed.claudeAiOauth.None? ==>
      (r.Some? <==> (parsed.accessToken.Some? && parsed.accessToken.value != ""))
      && (r.Some? ==> r.value == TokenData(parsed.accessToken.value, None))
  {
    match parsed
    case NotJson => Some(TokenData(password, None))
    case JsonNull => Some(TokenData(password, None))
    case JsonOther => None
    case JsonObject(oauth, topLevel) =>
      if oauth.Some? then
        if Expired(oauth.value, now) then
          if UnprintableExpiry(oauth.value) then Some(TokenData(password, None)) else None
        else Some(TokenData(oauth.value.accessToken, oauth.value.subscriptionType))
      else if Truthy(topLevel) then Some(TokenData(topLevel.value, None))
      else None
  }

  /** `getClaudeToken` after the password lookup: every failure is `null`. */
  function TokenFromOutcome(outcome: PasswordOutcome, parse: Parser, now: int): (r: Option<TokenData>)
    ensures (outcome.NotFound? || outcome.StoreError?) ==> r.None?
    ensures outcome.Found? && outcome.password == "" ==> r.None?
    ensures outcome.Found? && outcome.password != "" ==>
      r == TokenFromPassword(outcome.password, parse(outcome.password), now)
  {
    match outcome
    case Found(password) =>
      if password == "" then None else TokenFromPassword(password, parse(password), now)
    case NotFound => None
    case StoreError(_) => None
  }

  class MacOSKeychainAccess {
    const serviceName: string
    const accountName: string

    constructor (accountName: string := DefaultAccount)
      ensures this.serviceName == ServiceName && this.accountName == accountName
    {
      this.serviceName := ServiceName;
      this.accountName := accountName;
    }

    /** `getPassword`; the key defaults to this object's service and account. */
    function GetPassword(security: Security, service: string := serviceName, account: string := accountName): (r: PasswordOutcome)
      ensures r.Found? <==> security(service, account).Completed?
      ensures r.Found? ==> r.password == Trim(security(service, account).stdout) && Trimmed(r.password)
      ensures r.StoreError? ==> r.error == security(service, account).error
    {
      PasswordOutcomeOf(security(service, account))
    }

    /** `getClaudeToken`: looks the key of this object up and classifies what it finds. */
    function GetClaudeToken(security: Security, parse: Parser, now: int): (r: Option<TokenData>)
      ensures r == TokenFromOutcome(PasswordOutcomeOf(security(serviceName, accountName)), parse, now)
    {
      TokenFromOutcome(GetPassword(security), parse, now)
    }
  }

  // ---------------------------------------------------------------------------
  // Properties

  /** A structured credential is valid up to and including its expiry instant,
      and validity only ever runs out: valid now means valid at every earlier time. */
  lemma ExpiryIsStrict(c: OAuthCredential, now: int, earlier: int)
    requires c.expiresAt.Some? && c.expiresAt.value != 0
    requires earlier <= now
    ensures !Expired(c, c.expiresAt.value)
    ensures Expired(c, c.expiresAt.value + 1)
    ensures !Expired(c, now) ==> !Expired(c, earlier)
  {
  }

  /** A token that is resolved either is the password itself, with no tier
      (text that is not JSON, `null`, or a credential whose expiry could not
      be printed), or was read from the parsed JSON; a tier only ever comes
      from `claudeAiOauth`. */
  lemma {:induction false} TokenProvenance(outcome: PasswordOutcome, parse: Parser, now: int)
    ensures var r := TokenFromOutcome(outcome, parse, now);
      r.Some? ==>
        outcome.Found? && outcome.password != "" &&
        var p := parse(outcome.password);
        (r.value == TokenData(outcome.password, None)
         && (p.NotJson? || p.JsonNull?
             || (p.JsonObject? && p.claudeAiOauth.Some? && Expired(p.claudeAiOauth.value, now)
                 && UnprintableExpiry(p.claudeAiOauth.value))))
        || (p.JsonObject? && p.claudeAiOauth.Some? && !Expired(p.claudeAiOauth.value, now)
            && r.value == TokenData(p.claudeAiOauth.value.accessToken, p.claudeAiOauth.value.subscriptionType))
        || (p.JsonObject? && p.claudeAiOauth.None? && Truthy(p.accessToken)
            && r.value == TokenData(p.accessToken.value, None))
  {
  }

  /** An expired credential whose expiry lies beyond the range of `Date` does
      not give `null`: the whole stored text becomes the bare token. */
  lemma ExpiryBeyondDateRangeFallsBack(password: string, token: string, tier: Option<string>, now: int)
    requires -MaxDateMs <= now
    ensures var c := OAuthCredential(token, Some(-MaxDateMs - 1), tier);
      TokenFromPassword(password, JsonObject(Some(c), None), now) == Some(TokenData(password, None))
  {
  }

  /** A store failure and a missing entry are indistinguishable to the caller. */
  lemma StoreErrorLikeNotFound(k: MacOSKeychainAccess, security: Security, parse: Parser, now: int)
    requires security(k.serviceName, k.accountName).Failed?
    ensures k.GetClaudeToken(security, parse, now).None?
  {
  }

  /** A password that is only whitespace is read as empty and yields `null`. */
  lemma BlankPasswordGivesNull(k: MacOSKeychainAccess, security: Security, parse: Parser, now: int)
    requires security(k.serviceName, k.accountName).Completed?
    requires AllTrimmable(security(k.serviceName, k.accountName).stdout)
    ensures k.GetClaudeToken(security, parse, now).None?
  {
    var out := security(k.serviceName, k.accountName).stdout;
    assert out == out + [] + [];
    TrimOfPadded(out, [], []);
  }

  /** A non-JSON password surrounded by a trailing newline is used verbatim,
      newline removed, as a bare token. */
  lemma BareTokenFromPrintedLine(k: MacOSKeychainAccess, security: Security, parse: Parser, now: int, token: string)
    requires token != [] && Trimmed(token)
    requires security(k.serviceName, k.accountName) == Completed(token + "\n", "")
    requires parse(token).NotJson?
    ensures k.GetClaudeToken(security, parse, now) == Some(TokenData(token, None))
  {
    assert token + "\n" == [] + token + "\n";
    TrimOfPadded([], token, "\n");
  }
}
