/**
 * AuthenticationDelegatingHandler: a message handler that fetches a token for every request,
 * writes it into the request's Authorization header and hands the request to its inner handler.
 */
module Authentication {
  import opened Failures
  import opened Net
  import AzureCliToken

  /**
   * The `Func<Task<string>>` a handler holds: a delegate the caller supplied (known only by an
   * identity), or the lambda `() => GetTokenAsync(scope)` of AzureCliAuthenticationHandler.
   */
  datatype TokenProvider = Delegate(id: nat) | AzureCli(scope: string)

  /** The call the world sees when a provider is invoked. */
  function CallOf(provider: TokenProvider): TokenCall {
    match provider
    case Delegate(id) => InvokeDelegate(id)
    case AzureCli(scope) => AzureCliToken.CliCall(scope)
  }

  /** Invokes a token provider once. */
  method InvokeTokenProvider(provider: TokenProvider, world: World) returns (r: Result<string>)
    modifies world`trace
    ensures world.trace == old(world.trace) + [TokenFetched(CallOf(provider))]
    ensures r == world.tokens(|old(world.trace)|, CallOf(provider))
  {
    match provider
    case Delegate(id) =>
      r := world.Fetch(InvokeDelegate(id));
    case AzureCli(scope) =>
      r := AzureCliToken.GetTokenAsync(scope, world);
  }

  /** What one SendAsync does: the events it causes, the header it leaves, the response it returns. */
  datatype Exchange = Exchange(events: seq<Event>, authorization: Option<AuthHeader>, response: Result<Response>)

  class AuthenticationDelegatingHandler {
    const tokenProvider: TokenProvider
    const scheme: string
    const inner: Transport

    constructor (tokenProvider: TokenProvider, scheme: string, inner: Transport)
      ensures this.tokenProvider == tokenProvider && this.scheme == scheme && this.inner == inner
    {
      this.tokenProvider := tokenProvider;
      this.scheme := scheme;
      this.inner := inner;
    }

    /**
     * `new AuthenticationDelegatingHandler(tokenProvider, scheme = "Bearer", innerHandler = null)`.
     * A missing inner handler is replaced by a new platform transport talking to `network`;
     * a null provider, then a null scheme, is rejected. An empty scheme is accepted here.
     */
    static method Create(network: Network, tokenProvider: Option<TokenProvider>,
                         scheme: Option<string> := Some("Bearer"), innerHandler: Transport? := null)
      returns (r: Result<AuthenticationDelegatingHandler>)
      ensures tokenProvider.None? ==> r == Err(ArgumentNullException("tokenProvider"))
      ensures tokenProvider.Some? && scheme.None? ==> r == Err(ArgumentNullException("scheme"))
      ensures tokenProvider.Some? && scheme.Some? ==>
                r.Ok? && fresh(r.value) &&
                r.value.tokenProvider == tokenProvider.value && r.value.scheme == scheme.value
      ensures r.Ok? && innerHandler != null ==> r.value.inner == innerHandler
      ensures r.Ok? && innerHandler == null ==>
                fresh(r.value.inner) && r.value.inner.isPlatformDefault && r.value.inner.respond == network
    {
      var inner: Transport;
      if innerHandler == null {
        inner := new Transport(true, network);
      } else {
        inner := innerHandler;
      }
      if tokenProvider.None? {
        return Err(ArgumentNullException("tokenProvider"));
      }
      if scheme.None? {
        return Err(ArgumentNullException("scheme"));
      }
      var handler := new AuthenticationDelegatingHandler(tokenProvider.value, scheme.value, inner);
      r := Ok(handler);
    }

    /**
     * The effect of SendAsync on a request that looks like `sent`, when `start` events have
     * already happened: the provider is asked exactly once, first; only if that yields a token
     * and the scheme forms a valid header is the request, now carrying `(scheme, token)`,
     * forwarded, and the inner handler's answer is returned as it is.
     */
    function Outcome(tokens: (nat, TokenCall) -> Result<string>, start: nat, sent: RequestSnapshot): (x: Exchange)
      ensures 1 <= |x.events| <= 2 && x.events[0] == TokenFetched(CallOf(tokenProvider))
      ensures |x.events| == 2 <==> tokens(start, CallOf(tokenProvider)).Ok? && IsToken(scheme)
      ensures tokens(start, CallOf(tokenProvider)).Err? ==>
                x.response == Err(tokens(start, CallOf(tokenProvider)).error)
      ensures |x.events| == 1 ==> x.authorization == sent.authorization && x.response.Err?
      ensures |x.events| == 2 ==>
                x.authorization == Some(AuthHeader(scheme, tokens(start, CallOf(tokenProvider)).value)) &&
                x.events[1] == Forwarded(inner, sent.(authorization := x.authorization)) &&
                x.response == inner.respond(start + 1, x.events[1].request)
    {
      var fetch := TokenFetched(CallOf(tokenProvider));
      match tokens(start, CallOf(tokenProvider))
      case Err(e) => Exchange([fetch], sent.authorization, Err(e))
      case Ok(token) =>
        match NewAuthenticationHeaderValue(scheme, token)
        case Err(e) => Exchange([fetch], sent.authorization, Err(e))
        case Ok(header) =>
          var out := sent.(authorization := Some(header));
          Exchange([fetch, Forwarded(inner, out)], Some(header), inner.respond(start + 1, out))
    }

    /** `SendAsync(request, cancellationToken)`: fetch a token, overwrite the header, forward. */
    method SendAsync(request: Request, world: World) returns (r: Result<Response>)
      modifies request`authorization, world`trace
      ensures var x := Outcome(world.tokens, |old(world.trace)|, old(request.Snapshot()));
              world.trace == old(world.trace) + x.events && request.authorization == x.authorization &&
              r == x.response
    {
      var token := InvokeTokenProvider(tokenProvider, world);
      if token.Err? {
        return Err(token.error);
      }
      var header := NewAuthenticationHeaderValue(scheme, token.value);
      if header.Err? {
        return Err(header.error);
      }
      request.authorization := Some(header.value);
      r := inner.Send(request.Snapshot(), world);
    }
  }
}
