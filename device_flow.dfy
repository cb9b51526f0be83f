/**
 * The client side of the OAuth 2.0 Device Authorization Grant (RFC 8628) as
 * the playground runs it: the device authorization request (section 3.1 of
 * RFC 8628), the gate that starts the token exchange, the token request
 * (section 3.4), the polling loop over the provider's replies (section 3.5)
 * and the bearer header of the follow-up user-info request.
 *
 * The network is not modelled: every reply of `fetch` + `res.json()` is an
 * input value, and a polling run consumes a finite sequence of them. The
 * timer that reschedules a poll is recorded as the delay it waits.
 */
module DeviceFlow {
  import opened Wrappers
  import opened Text
  import opened Form

  /** The values read from the configuration form, passed in explicitly. */
  datatype Config = Config(tenant: string, clientId: string, audience: string, scopes: seq<string>)

  /** What `fetch(...).then(res => res.json())` settles with: parsed JSON or a rejection. */
  datatype Fetched<T> = Received(json: T) | TransportFailure

  /** The JSON reply of `/oauth/device/code`; the whole object is the device authorization. */
  datatype DeviceCodeResponse = DeviceCodeResponse(
    error: Option<string>,
    deviceCode: Option<string>,
    userCode: string,
    verificationUri: string,
    verificationUriComplete: string,
    expiresIn: int,
    interval: Option<int>)

  /** The JSON reply of `/oauth/token`: an error object or a token set. */
  datatype TokenResponse = TokenResponse(
    error: Option<string>,
    accessToken: Option<string>,
    tokenType: Option<string>,
    refreshToken: Option<string>,
    expiresIn: Option<int>)

  /** Why polling stopped without tokens. */
  datatype Failure = ProviderError(error: string) | TransportError

  /** The polling state machine: PENDING, then SUCCESS or ERROR, both absorbing. */
  datatype PollState = Pending | Success(tokens: TokenResponse) | Failed(failure: Failure)

  /** What one polling run did: where it ended, how many token calls it made, the delays it asked for. */
  datatype PollRun = PollRun(outcome: PollState, calls: nat, delays: seq<int>)

  /** A started exchange: the device authorization it polls for and everything the run produced. */
  datatype Exchange = Exchange(device: DeviceCodeResponse, run: PollRun, requests: seq<FormBody>, userInfoHeader: Option<string>)

  const DeviceCodeGrantType := "urn:ietf:params:oauth:grant-type:device_code"

  /** The `error` values after which the client polls again. */
  const RetryableErrors := ["authorization_pending", "slow_down"]

  /** JavaScript truthiness of `jsonRes.error`: present and not the empty string. */
  predicate IsError(error: Option<string>)
  {
    error.Some? && error.value != ""
  }

  /** The facts that make `body` the device authorization request for `config`. */
  predicate AuthorizationBodyFor(config: Config, body: FormBody)
  {
    && Lookup(body, "client_id") == Some(config.clientId)
    && Lookup(body, "audience") == (if config.audience != "" then Some(config.audience) else None)
    && Lookup(body, "scope") == (if |config.scopes| > 0 then Some(Join(config.scopes, " ")) else None)
    && (forall i :: 0 <= i < |body| ==> body[i].key in ["client_id", "audience", "scope"])
    && DistinctKeys(body)
  }

  /**
   * Builds the body of the `/oauth/device/code` request the way the source
   * does: `client_id` first, then `audience` if one is configured, then
   * `scope` as the selected scopes joined by single spaces if any were chosen.
   */
  method AuthorizationRequestBody(config: Config) returns (body: FormBody)
    ensures AuthorizationBodyFor(config, body)
    ensures |body| >= 1 && body[0] == Param("client_id", config.clientId)
    ensures |body| >= 2 ==> body[1].key == if config.audience != "" then "audience" else "scope"
    ensures |body| == 1 + (if config.audience != "" then 1 else 0) + (if |config.scopes| > 0 then 1 else 0)
  {
    body := [Param("client_id", config.clientId)];
    if config.audience != "" {
      LookupAppend(body, Param("audience", config.audience), "client_id");
      LookupAppend(body, Param("audience", config.audience), "audience");
      LookupAppend(body, Param("audience", config.audience), "scope");
      body := body + [Param("audience", config.audience)];
    }
    if |config.scopes| > 0 {
      var scope := Param("scope", Join(config.scopes, " "));
      LookupAppend(body, scope, "client_id");
      LookupAppend(body, scope, "audience");
      LookupAppend(body, scope, "scope");
      body := body + [scope];
    }
  }

  /**
   * The gate after the device authorization reply: the exchange starts with
   * the reply itself exactly when JSON arrived and its `error` is not truthy.
   */
  function ExchangeStart(reply: Fetched<DeviceCodeResponse>): (device: Option<DeviceCodeResponse>)
    ensures device.Some? <==> reply.Received? && !IsError(reply.json.error)
    ensures device.Some? ==> device.value == reply.json
  {
    match reply
    case Received(json) => if IsError(json.error) then None else Some(json)
    case TransportFailure => None
  }

  /** The body of every `/oauth/token` request: exactly these three fields. */
  function TokenRequestBody(config: Config, device: DeviceCodeResponse): (body: FormBody)
    ensures Keys(body) == ["client_id", "device_code", "grant_type"]
    ensures Lookup(body, "client_id") == Some(config.clientId)
    ensures Lookup(body, "device_code") == Some(FieldText(device.deviceCode))
    ensures Lookup(body, "grant_type") == Some(DeviceCodeGrantType)
  {
    [ Param("client_id", config.clientId),
      Param("device_code", FieldText(device.deviceCode)),
      Param("grant_type", DeviceCodeGrantType) ]
  }

  /** How JavaScript turns an optional string field into text: an absent field reads `undefined`. */
  function FieldText(field: Option<string>): (text: string)
    ensures field.Some? ==> text == field.value
    ensures field.None? ==> text == "undefined"
  {
    match field
    case Some(value) => value
    case None => "undefined"
  }

  /** The `Authorization` header of the `/userinfo` request (an absent token prints as `undefined`). */
  function BearerAuthorization(tokens: TokenResponse): (header: string)
    ensures |header| >= 7 && header[..7] == "Bearer "
    ensures tokens.accessToken.Some? ==> header[7..] == tokens.accessToken.value
    ensures tokens.accessToken.None? ==> header[7..] == "undefined"
  {
    "Bearer " + FieldText(tokens.accessToken)
  }

  /**
   * The delay in milliseconds the timer waits before the next poll. The
   * source asks for `interval * 1000`; the timer takes that number as a signed
   * 32-bit integer (wrapping it modulo 2^32) and waits 0 for a negative result.
   * An absent interval gives NaN, which the timer also reads as 0.
   */
  function PollDelay(interval: Option<int>): (ms: int)
    ensures 0 <= ms < 0x8000_0000
    ensures interval.None? ==> ms == 0
    ensures interval.Some? && 0 <= interval.value * 1000 < 0x8000_0000 ==> ms == interval.value * 1000
    ensures interval.Some? && ms > 0 ==> (interval.value * 1000 - ms) % 0x1_0000_0000 == 0
  {
    match interval
    case None => 0
    case Some(seconds) =>
      var wrapped := (seconds * 1000) % 0x1_0000_0000;
      if wrapped >= 0x8000_0000 then 0 else wrapped
  }

  /** An interval of 2147484 seconds or more no longer fits the timer: this one wraps to 0. */
  lemma LongIntervalWraps()
    ensures PollDelay(Some(3000000)) == 0
    ensures PollDelay(Some(5)) == 5000
    ensures PollDelay(Some(-1)) == 0
  {
  }

  /** The state one token reply moves a PENDING poll to. */
  function Classify(reply: Fetched<TokenResponse>): (next: PollState)
    ensures next.Success? <==> reply.Received? && !IsError(reply.json.error)
    ensures next.Success? ==> next.tokens == reply.json
    ensures next.Pending? <==> reply.Received? && IsError(reply.json.error) && reply.json.error.value in RetryableErrors
    ensures next.Failed? && reply.Received? ==> next.failure == ProviderError(reply.json.error.value)
    ensures reply.TransportFailure? ==> next == Failed(TransportError)
  {
    match reply
    case TransportFailure => Failed(TransportError)
    case Received(json) =>
      if !IsError(json.error) then Success(json)
      else if json.error.value in RetryableErrors then Pending
      else Failed(ProviderError(json.error.value))
  }

  /** The position of the first reply that ends polling, or `|replies|` if every reply is retryable. */
  function FirstTerminal(replies: seq<Fetched<TokenResponse>>): (k: nat)
    ensures k <= |replies|
    ensures forall i :: 0 <= i < k ==> Classify(replies[i]).Pending?
    ensures k < |replies| ==> !Classify(replies[k]).Pending?
  {
    if replies == [] then 0
    else if Classify(replies[0]).Pending? then 1 + FirstTerminal(replies[1..])
    else 0
  }

  /**
   * The reference run over a reply sequence: polling goes on through every
   * retryable reply, waiting each time the same delay of `PollDelay(interval)`
   * milliseconds, and stops at the first other reply.
   */
  function ExpectedRun(interval: Option<int>, replies: seq<Fetched<TokenResponse>>): (run: PollRun)
    ensures run.calls <= |replies|
    ensures forall i :: 0 <= i < |run.delays| ==> run.delays[i] == PollDelay(interval)
    ensures run.outcome.Pending? ==>
      && run.calls == |replies| == |run.delays|
      && forall i :: 0 <= i < |replies| ==> Classify(replies[i]).Pending?
    ensures !run.outcome.Pending? ==>
      && 1 <= run.calls
      && |run.delays| == run.calls - 1
      && run.outcome == Classify(replies[run.calls - 1])
      && forall i :: 0 <= i < run.calls - 1 ==> Classify(replies[i]).Pending?
  {
    var k := FirstTerminal(replies);
    var delays := seq(k, _ => PollDelay(interval));
    if k < |replies| then PollRun(Classify(replies[k]), k + 1, delays)
    else PollRun(Pending, k, delays)
  }

  /**
   * The polling loop of `exchangeDeviceCodeForToken`: one token request per
   * attempt, a rescheduled attempt after every retryable reply, and one
   * user-info request when tokens arrive.
   */
  method PollForToken(config: Config, device: DeviceCodeResponse, replies: seq<Fetched<TokenResponse>>)
    returns (run: PollRun, requests: seq<FormBody>, userInfoHeader: Option<string>)
    ensures run == ExpectedRun(device.interval, replies)
    ensures |requests| == run.calls
    ensures forall i :: 0 <= i < |requests| ==> requests[i] == TokenRequestBody(config, device)
    ensures userInfoHeader == if run.outcome.Success? then Some(BearerAuthorization(run.outcome.tokens)) else None
  {
    var state := Pending;
    var calls := 0;
    var delays: seq<int> := [];
    requests := [];
    while state.Pending? && calls < |replies|
      invariant calls <= |replies|
      invariant state.Pending? ==> calls <= FirstTerminal(replies)
      invariant !state.Pending? ==> calls == FirstTerminal(replies) + 1 && state == Classify(replies[calls - 1])
      invariant |delays| == (if state.Pending? then calls else calls - 1)
      invariant forall i :: 0 <= i < |delays| ==> delays[i] == PollDelay(device.interval)
      invariant |requests| == calls
      invariant forall i :: 0 <= i < calls ==> requests[i] == TokenRequestBody(config, device)
      decreases |replies| - calls
    {
      requests := requests + [TokenRequestBody(config, device)];
      state := Classify(replies[calls]);
      calls := calls + 1;
      if state.Pending? {
        delays := delays + [PollDelay(device.interval)];
      }
    }
    assert delays == seq(FirstTerminal(replies), _ => PollDelay(device.interval));
    run := PollRun(state, calls, delays);
    userInfoHeader := if state.Success? then Some(BearerAuthorization(state.tokens)) else None;
  }

  /**
   * `requestAuthorization` followed by the exchange it may start: the
   * authorization body is sent, and only a reply without a truthy `error`
   * starts exactly one exchange, for that reply.
   */
  method RequestAuthorization(config: Config, reply: Fetched<DeviceCodeResponse>, tokenReplies: seq<Fetched<TokenResponse>>)
    returns (body: FormBody, exchange: Option<Exchange>)
    ensures |body| >= 1 && body[0] == Param("client_id", config.clientId)
    ensures |body| >= 2 ==> body[1].key == if config.audience != "" then "audience" else "scope"
    ensures AuthorizationBodyFor(config, body)
    ensures exchange.Some? <==> reply.Received? && !IsError(reply.json.error)
    ensures exchange.Some? ==>
      && exchange.value.device == reply.json
      && exchange.value.run == ExpectedRun(reply.json.interval, tokenReplies)
      && |exchange.value.requests| == exchange.value.run.calls
      && (forall i :: 0 <= i < |exchange.value.requests| ==>
            exchange.value.requests[i] == TokenRequestBody(config, reply.json))
      && exchange.value.userInfoHeader ==
           (if exchange.value.run.outcome.Success? then Some(BearerAuthorization(exchange.value.run.outcome.tokens)) else None)
  {
    body := AuthorizationRequestBody(config);
    var started := ExchangeStart(reply);
    if started.Some? {
      var run, requests, userInfoHeader := PollForToken(config, started.value, tokenReplies);
      exchange := Some(Exchange(started.value, run, requests, userInfoHeader));
    } else {
      exchange := None;
    }
  }

  /** SUCCESS and ERROR are absorbing: replies after the terminal one change nothing. */
  lemma {:induction false} TerminalIgnoresLaterReplies(interval: Option<int>, replies: seq<Fetched<TokenResponse>>, later: seq<Fetched<TokenResponse>>)
    requires !ExpectedRun(interval, replies).outcome.Pending?
    ensures ExpectedRun(interval, replies + later) == ExpectedRun(interval, replies)
  {
    FirstTerminalAppend(replies, later);
  }

  /** A prefix that already holds a terminal reply fixes the first terminal position. */
  lemma {:induction false} FirstTerminalAppend(replies: seq<Fetched<TokenResponse>>, later: seq<Fetched<TokenResponse>>)
    requires FirstTerminal(replies) < |replies|
    ensures FirstTerminal(replies + later) == FirstTerminal(replies)
    decreases |replies|
  {
    if !Classify(replies[0]).Pending? {
      assert (replies + later)[0] == replies[0];
    } else {
      assert (replies + later)[1..] == replies[1..] + later;
      FirstTerminalAppend(replies[1..], later);
    }
  }

  /**
   * One step of the state machine: a PENDING run that receives one more reply
   * makes one more call and either stays PENDING, asking for one more delay of
   * `PollDelay(interval)`, or ends in that reply's state.
   */
  lemma {:induction false} PendingStep(interval: Option<int>, replies: seq<Fetched<TokenResponse>>, reply: Fetched<TokenResponse>)
    requires ExpectedRun(interval, replies).outcome.Pending?
    ensures var before := ExpectedRun(interval, replies);
      ExpectedRun(interval, replies + [reply]) ==
        if Classify(reply).Pending? then PollRun(Pending, before.calls + 1, before.delays + [PollDelay(interval)])
        else PollRun(Classify(reply), before.calls + 1, before.delays)
  {
    FirstTerminalAllPending(replies, reply);
  }

  lemma {:induction false} FirstTerminalAllPending(replies: seq<Fetched<TokenResponse>>, reply: Fetched<TokenResponse>)
    requires FirstTerminal(replies) == |replies|
    ensures FirstTerminal(replies + [reply]) == |replies| + (if Classify(reply).Pending? then 1 else 0)
    decreases |replies|
  {
    if replies == [] {
      assert [] + [reply] == [reply];
    } else {
      assert (replies + [reply])[1..] == replies[1..] + [reply];
      FirstTerminalAllPending(replies[1..], reply);
    }
  }

  /** The scenario of a pending reply followed by tokens: two calls, one delay of `PollDelay(interval)`, SUCCESS. */
  lemma PendingThenTokens(interval: Option<int>, tokens: TokenResponse)
    requires !IsError(tokens.error)
    ensures var pending := TokenResponse(Some("authorization_pending"), None, None, None, None);
      ExpectedRun(interval, [Received(pending), Received(tokens)]) == PollRun(Success(tokens), 2, [PollDelay(interval)])
  {
    var pending := TokenResponse(Some("authorization_pending"), None, None, None, None);
    var replies := [Received(pending), Received(tokens)];
    assert replies[1..] == [Received(tokens)];
    assert FirstTerminal(replies) == 1;
  }
}
