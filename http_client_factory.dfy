/**
 * HttpClient over an authentication handler, and HttpClientFactory, which validates its
 * arguments and then builds a new handler and a new client on every call.
 */
module HttpClients {
  import opened Failures
  import opened Net
  import opened Authentication
  import AzureCliHandler

  /** How a client is set up: who supplies tokens, the scheme, the transport kind and the base address. */
  datatype ClientSetup = ClientSetup(tokenProvider: TokenProvider, scheme: string, platformTransport: bool,
                                     baseAddress: Option<Uri>)

  /** The setup every Azure CLI client has: CLI tokens for `scope`, "Bearer", the platform transport. */
  function AzureSetup(scope: string, baseAddress: Option<Uri>): ClientSetup {
    ClientSetup(AzureCli(scope), "Bearer", true, baseAddress)
  }

  /** System.Net.Http.HttpClient over one handler; `releases` counts the calls to Dispose. */
  class HttpClient {
    const handler: AuthenticationDelegatingHandler
    var baseAddress: Option<Uri>
    var disposed: bool
    var releases: nat

    constructor (handler: AuthenticationDelegatingHandler)
      ensures this.handler == handler && baseAddress == None && !disposed && releases == 0
    {
      this.handler := handler;
      baseAddress := None;
      disposed := false;
      releases := 0;
    }

    function Setup(): ClientSetup
      reads this
    {
      ClientSetup(handler.tokenProvider, handler.scheme, handler.inner.isPlatformDefault, baseAddress)
    }

    method Dispose()
      modifies this`disposed, this`releases
      ensures disposed && releases == old(releases) + 1
    {
      disposed := true;
      releases := releases + 1;
    }

    /** Builds a request for `endpoint` (relative to the base address) and sends it through the handler. */
    method Send(verb: Verb, endpoint: string, content: Option<string>, world: World) returns (r: Result<Response>)
      modifies world`trace
      ensures disposed ==>
                r == Err(ObjectDisposedException("System.Net.Http.HttpClient")) && world.trace == old(world.trace)
      ensures !disposed ==>
                var x := handler.Outcome(world.tokens, |old(world.trace)|,
                                         RequestSnapshot(verb, Target(baseAddress, endpoint), content, None));
                world.trace == old(world.trace) + x.events && r == x.response
    {
      if disposed {
        return Err(ObjectDisposedException("System.Net.Http.HttpClient"));
      }
      var request := new Request(verb, Target(baseAddress, endpoint), content);
      r := handler.SendAsync(request, world);
    }
  }

  class HttpClientFactory {
    constructor () {
    }

    /**
     * `CreateAzureAuthenticatedClient(scope, baseAddress = null)`: rejects a null or empty scope
     * before building anything; otherwise a new client over a new Azure CLI handler, with the
     * base address set only when one is given.
     */
    method CreateAzureAuthenticatedClient(network: Network, scope: Option<string>, baseAddress: Option<Uri> := None)
      returns (r: Result<HttpClient>)
      ensures IsNullOrEmpty(scope) ==> r == Err(ArgumentNullException("scope"))
      ensures !IsNullOrEmpty(scope) ==>
                r.Ok? && fresh(r.value) && fresh(r.value.handler) && fresh(r.value.handler.inner) &&
                r.value.Setup() == AzureSetup(scope.value, baseAddress) &&
                r.value.handler.inner.respond == network && !r.value.disposed && r.value.releases == 0
    {
      if IsNullOrEmpty(scope) {
        return Err(ArgumentNullException("scope"));
      }
      var handler := AzureCliHandler.NewAzureCliAuthenticationHandler(network, scope);
      var client := new HttpClient(handler.value);
      if baseAddress.Some? {
        client.baseAddress := baseAddress;
      }
      r := Ok(client);
    }

    /**
     * `CreateAuthenticatedClient(tokenProvider, scheme = "Bearer", baseAddress = null)`: rejects a
     * null provider itself; a null scheme is rejected by the handler it builds.
     */
    method CreateAuthenticatedClient(network: Network, tokenProvider: Option<TokenProvider>,
                                     scheme: Option<string> := Some("Bearer"), baseAddress: Option<Uri> := None)
      returns (r: Result<HttpClient>)
      ensures tokenProvider.None? ==> r == Err(ArgumentNullException("tokenProvider"))
      ensures tokenProvider.Some? && scheme.None? ==> r == Err(ArgumentNullException("scheme"))
      ensures tokenProvider.Some? && scheme.Some? ==>
                r.Ok? && fresh(r.value) && fresh(r.value.handler) && fresh(r.value.handler.inner) &&
                r.value.Setup() == ClientSetup(tokenProvider.value, scheme.value, true, baseAddress) &&
                r.value.handler.inner.respond == network && !r.value.disposed && r.value.releases == 0
    {
      if tokenProvider.None? {
        return Err(ArgumentNullException("tokenProvider"));
      }
      var handler := AuthenticationDelegatingHandler.Create(network, tokenProvider, scheme);
      if handler.Err? {
        return Err(handler.error);
      }
      var client := new HttpClient(handler.value);
      if baseAddress.Some? {
        client.baseAddress := baseAddress;
      }
      r := Ok(client);
    }

    /** `CreateAzureAuthenticatedClientStatic(scope, baseAddress = null)`: the same as the instance method. */
    static method CreateAzureAuthenticatedClientStatic(network: Network, scope: Option<string>,
                                                       baseAddress: Option<Uri> := None)
      returns (r: Result<HttpClient>)
      ensures IsNullOrEmpty(scope) ==> r == Err(ArgumentNullException("scope"))
      ensures !IsNullOrEmpty(scope) ==>
                r.Ok? && fresh(r.value) && fresh(r.value.handler) && fresh(r.value.handler.inner) &&
                r.value.Setup() == AzureSetup(scope.value, baseAddress) &&
                r.value.handler.inner.respond == network && !r.value.disposed && r.value.releases == 0
    {
      if IsNullOrEmpty(scope) {
        return Err(ArgumentNullException("scope"));
      }
      var handler := AzureCliHandler.NewAzureCliAuthenticationHandler(network, scope);
      var client := new HttpClient(handler.value);
      if baseAddress.Some? {
        client.baseAddress := baseAddress;
      }
      r := Ok(client);
    }
  }
}
