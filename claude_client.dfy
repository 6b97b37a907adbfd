/** `ClaudeAPIClient`: one authenticated GET to the usage endpoint, and a cache
    of the last snapshot a 200 response delivered. The HTTP exchange itself
    happens outside; each call receives its outcome (`HttpOutcome`). */
module ClaudeClient {
  import opened Wrappers
  import opened Types

  const BaseUrl: string := "https://api.anthropic.com"
  const UsagePath: string := "/api/oauth/usage"
  const BearerPrefix: string := "Bearer "
  const ContentType: string := "application/json"
  const AnthropicBeta: string := "oauth-2025-04-20,fine-grained-tool-streaming-2025-05-14"

  /** The request the client issues: URL and its three headers. */
  datatype Request = Request(url: string, authorization: string, contentType: string, anthropicBeta: string)

  /** What the request came back with: a response with its status and body
      (`None` for a `null` or empty body), or an error thrown before any
      response, such as a timeout or a refused connection. */
  datatype HttpOutcome = Status(code: int, body: Option<ClaudeUsage>) | NetworkError

  predicate IsOk(x: HttpOutcome) { x.Status? && x.code == 200 }

  /** The `Authorization` value of the bearer scheme (section 2.1 of RFC 6750). */
  function Authorization(token: string): (h: string)
    ensures |h| == |BearerPrefix| + |token|
    ensures h[..|BearerPrefix|] == BearerPrefix && h[|BearerPrefix|..] == token
  {
    BearerPrefix + token
  }

  /** Reads the token back out of an `Authorization` value. */
  function BearerToken(h: string): Option<string>
  {
    if |h| >= |BearerPrefix| && h[..|BearerPrefix|] == BearerPrefix then Some(h[|BearerPrefix|..]) else None
  }

  /** The header carries the token unchanged: it can be read back exactly. */
  lemma BearerRoundTrip(token: string)
    ensures BearerToken(Authorization(token)) == Some(token)
  {
  }

  function UsageRequest(baseUrl: string, token: string): (r: Request)
    ensures r.url == baseUrl + UsagePath
    ensures BearerToken(r.authorization) == Some(token)
    ensures r.contentType == ContentType && r.anthropicBeta == AnthropicBeta
  {
    Request(baseUrl + UsagePath, Authorization(token), ContentType, AnthropicBeta)
  }

  /** The snapshot a client holds after seeing `responses`: the body of the
      latest 200 response, or `None` when there has been none. */
  function LastGood(responses: seq<HttpOutcome>): Option<ClaudeUsage>
  {
    if responses == [] then None
    else if IsOk(responses[|responses| - 1]) then responses[|responses| - 1].body
    else LastGood(responses[..|responses| - 1])
  }

  class ClaudeAPIClient {
    const authData: AuthData
    const baseUrl: string
    var lastUsage: Option<ClaudeUsage>
    /** Every request sent and every outcome received, oldest first. */
    ghost var sent: seq<Request>
    ghost var received: seq<HttpOutcome>

    ghost predicate Valid()
      reads this
    {
      && lastUsage == LastGood(received)
      && |sent| == |received|
      && forall i :: 0 <= i < |sent| ==> sent[i] == UsageRequest(baseUrl, authData.accessToken)
    }

    constructor (authData: AuthData)
      ensures Valid()
      ensures this.authData == authData && baseUrl == BaseUrl
      ensures lastUsage.None? && sent == [] && received == []
    {
      this.authData := authData;
      baseUrl := BaseUrl;
      lastUsage := None;
      sent := [];
      received := [];
    }

    /** `getUsage`: a 200 response replaces the cache with its body; any other
        status, or an error, leaves the cache as it was. The cache is returned
        in every case. */
    method GetUsage(response: HttpOutcome) returns (r: Option<ClaudeUsage>)
      requires Valid()
      modifies this
      ensures Valid()
      ensures sent == old(sent) + [UsageRequest(baseUrl, authData.accessToken)]
      ensures received == old(received) + [response]
      ensures lastUsage == if IsOk(response) then response.body else old(lastUsage)
      ensures r == lastUsage
    {
      var request := UsageRequest(baseUrl, authData.accessToken);
      sent := sent + [request];
      received := received + [response];
      match response {
        case Status(code, body) =>
          if code == 200 {
            lastUsage := body;
          }
        case NetworkError =>
      }
      r := lastUsage;
    }
  }

  // ---------------------------------------------------------------------------
  // Properties of the cache

  /** Failures after a history never change what the client holds, however
      many there are. */
  lemma {:induction false} FailuresKeepSnapshot(history: seq<HttpOutcome>, failures: seq<HttpOutcome>)
    requires forall i :: 0 <= i < |failures| ==> !IsOk(failures[i])
    ensures LastGood(history + failures) == LastGood(history)
    decreases |failures|
  {
    if failures == [] {
      assert history + failures == history;
    } else {
      var all := history + failures;
      var front := failures[..|failures| - 1];
      assert all[|all| - 1] == failures[|failures| - 1];
      assert all[..|all| - 1] == history + front;
      FailuresKeepSnapshot(history, front);
    }
  }

  /** What the client holds is the body of some 200 response it received. */
  lemma {:induction false} SnapshotWasReceived(history: seq<HttpOutcome>)
    requires LastGood(history).Some?
    ensures exists i :: 0 <= i < |history| && history[i] == Status(200, LastGood(history))
  {
    var n := |history|;
    if !IsOk(history[n - 1]) {
      SnapshotWasReceived(history[..n - 1]);
      var i :| 0 <= i < n - 1 && history[..n - 1][i] == Status(200, LastGood(history[..n - 1]));
      assert history[i] == history[..n - 1][i];
    } else {
      assert history[n - 1] == Status(200, LastGood(history));
    }
  }

  /** When 200 responses always carry a body, the client holds nothing exactly
      when it has never received a 200. */
  lemma {:induction false} NoSnapshotIffNoSuccess(history: seq<HttpOutcome>)
    requires forall i :: 0 <= i < |history| && IsOk(history[i]) ==> history[i].body.Some?
    ensures LastGood(history).None? <==> forall i :: 0 <= i < |history| ==> !IsOk(history[i])
  {
    if history != [] {
      var n := |history|;
      var front := history[..n - 1];
      assert forall i :: 0 <= i < |front| ==> front[i] == history[i];
      NoSnapshotIffNoSuccess(front);
    }
  }

  /** The body hypothesis above is needed: a 200 response with an empty body
      replaces an earlier snapshot by nothing, so a client that has had a
      success can hold no snapshot. */
  lemma EmptySuccessErasesSnapshot(u: ClaudeUsage)
    ensures LastGood([Status(200, Some(u))]) == Some(u)
    ensures LastGood([Status(200, Some(u)), Status(200, None)]).None?
  {
  }
}
