/**
 * ApiService: owns one authenticated HttpClient for a base URL, offers GET and POST helpers that
 * return the body of a successful response, and goes from usable to disposed exactly once.
 */
module Services {
  import opened Failures
  import opened Net
  import opened Authentication
  import opened HttpClients

  /**
   * The checks of `ApiService(httpClientFactory, apiBaseUrl, scope)`, in the order the constructor
   * makes them: factory, then base URL, then scope; the first failing one is reported.
   */
  function CheckArguments(factoryGiven: bool, apiBaseUrl: Option<string>, scope: Option<string>): (e: Option<Exception>)
    ensures e.None? <==> factoryGiven && !IsNullOrEmpty(apiBaseUrl) && !IsNullOrEmpty(scope)
    ensures !factoryGiven ==> e == Some(ArgumentNullException("httpClientFactory"))
    ensures factoryGiven && IsNullOrEmpty(apiBaseUrl) ==> e == Some(ArgumentNullException("apiBaseUrl"))
    ensures factoryGiven && !IsNullOrEmpty(apiBaseUrl) && IsNullOrEmpty(scope) ==>
              e == Some(ArgumentNullException("scope"))
  {
    if !factoryGiven then Some(ArgumentNullException("httpClientFactory"))
    else if IsNullOrEmpty(apiBaseUrl) then Some(ArgumentNullException("apiBaseUrl"))
    else if IsNullOrEmpty(scope) then Some(ArgumentNullException("scope"))
    else None
  }

  /** The checks of the legacy constructor `ApiService(apiBaseUrl, scope)`: the same as the main one's after its factory check. */
  function CheckLegacyArguments(apiBaseUrl: Option<string>, scope: Option<string>): (e: Option<Exception>)
    ensures e == CheckArguments(true, apiBaseUrl, scope)
  {
    if IsNullOrEmpty(apiBaseUrl) then Some(ArgumentNullException("apiBaseUrl"))
    else if IsNullOrEmpty(scope) then Some(ArgumentNullException("scope"))
    else None
  }

  /**
   * Whether a constructor that has passed or failed `check` gets to build its client: after the
   * checks, `new Uri(apiBaseUrl)` must succeed; the result is the base address the client gets.
   */
  function BaseAddressFor(check: Option<Exception>, apiBaseUrl: Option<string>,
                          parseUri: string -> Result<Uri>): (r: Result<Uri>)
    ensures check.Some? ==> r == Err(check.value)
    ensures check.None? && apiBaseUrl.Some? ==> r == parseUri(apiBaseUrl.value)
  {
    if check.Some? then Err(check.value)
    else if apiBaseUrl.None? then Err(ArgumentNullException("apiBaseUrl"))
    else parseUri(apiBaseUrl.value)
  }

  class ApiService {
    const client: HttpClient
    const apiBaseUrl: string
    var disposed: bool

    /** The service owns its client: the client is released at most once, and only by a disposed service. */
    ghost predicate Valid()
      reads this, client
    {
      client.releases <= 1 && (client.disposed <==> client.releases == 1) && (client.disposed ==> disposed)
    }

    constructor (apiBaseUrl: string, client: HttpClient)
      requires !client.disposed && client.releases == 0
      ensures Valid() && !disposed && this.apiBaseUrl == apiBaseUrl && this.client == client
    {
      this.apiBaseUrl := apiBaseUrl;
      this.client := client;
      disposed := false;
    }

    /**
     * `new ApiService(httpClientFactory, apiBaseUrl, scope)`: fails on the first failed check, or
     * when the base URL is no URI, without creating a client; otherwise the new service stores
     * the base URL and owns a new client built by the factory for `scope` with that base address.
     */
    static method New(network: Network, parseUri: string -> Result<Uri>, httpClientFactory: HttpClientFactory?,
                      apiBaseUrl: Option<string>, scope: Option<string>)
      returns (r: Result<ApiService>)
      ensures var base := BaseAddressFor(CheckArguments(httpClientFactory != null, apiBaseUrl, scope), apiBaseUrl, parseUri);
              (r.Ok? <==> base.Ok?) && (base.Err? ==> r.error == base.error) &&
              (r.Ok? ==> fresh(r.value) && fresh(r.value.client) && r.value.Valid() && !r.value.disposed &&
                          r.value.apiBaseUrl == apiBaseUrl.value &&
                          r.value.client.Setup() == AzureSetup(scope.value, Some(base.value)) &&
                          r.value.client.handler.inner.respond == network)
    {
      var check := CheckArguments(httpClientFactory != null, apiBaseUrl, scope);
      if check.Some? {
        return Err(check.value);
      }
      var baseAddress := parseUri(apiBaseUrl.value);
      if baseAddress.Err? {
        return Err(baseAddress.error);
      }
      var created := httpClientFactory.CreateAzureAuthenticatedClient(network, scope, Some(baseAddress.value));
      var service := new ApiService(apiBaseUrl.value, created.value);
      r := Ok(service);
    }

    /** The legacy `new ApiService(apiBaseUrl, scope)`: the same, through the static factory method. */
    static method NewLegacy(network: Network, parseUri: string -> Result<Uri>,
                            apiBaseUrl: Option<string>, scope: Option<string>)
      returns (r: Result<ApiService>)
      ensures var base := BaseAddressFor(CheckLegacyArguments(apiBaseUrl, scope), apiBaseUrl, parseUri);
              (r.Ok? <==> base.Ok?) && (base.Err? ==> r.error == base.error) &&
              (r.Ok? ==> fresh(r.value) && fresh(r.value.client) && r.value.Valid() && !r.value.disposed &&
                          r.value.apiBaseUrl == apiBaseUrl.value &&
                          r.value.client.Setup() == AzureSetup(scope.value, Some(base.value)) &&
                          r.value.client.handler.inner.respond == network)
    {
      var check := CheckLegacyArguments(apiBaseUrl, scope);
      if check.Some? {
        return Err(check.value);
      }
      var baseAddress := parseUri(apiBaseUrl.value);
      if baseAddress.Err? {
        return Err(baseAddress.error);
      }
      var created := HttpClientFactory.CreateAzureAuthenticatedClientStatic(network, scope, Some(baseAddress.value));
      var service := new ApiService(apiBaseUrl.value, created.value);
      r := Ok(service);
    }

    /** `ThrowIfDisposed()`: the exception a disposed service raises, and none otherwise. */
    method ThrowIfDisposed() returns (e: Option<Exception>)
      ensures e.Some? <==> disposed
      ensures e.Some? ==> e.value == ObjectDisposedException("ApiService")
    {
      if disposed {
        return Some(ObjectDisposedException("ApiService"));
      }
      return None;
    }

    /** The request the service's client builds for `endpoint`, before any header is set. */
    function RequestFor(verb: Verb, endpoint: string, content: Option<string>): RequestSnapshot
      reads client
    {
      RequestSnapshot(verb, Target(client.baseAddress, endpoint), content, None)
    }

    /**
     * `GetDataAsync(endpoint)`: a disposed service fails before its client is touched; otherwise
     * one authenticated GET, and the body is returned only for a 2xx status.
     */
    method GetDataAsync(endpoint: string, world: World) returns (r: Result<string>)
      requires Valid()
      modifies world`trace
      ensures disposed ==> r == Err(ObjectDisposedException("ApiService")) && world.trace == old(world.trace)
      ensures !disposed ==>
                var x := client.handler.Outcome(world.tokens, |old(world.trace)|, RequestFor(Get, endpoint, None));
                world.trace == old(world.trace) + x.events && r == ReadSuccessBody(x.response)
    {
      var failure := ThrowIfDisposed();
      if failure.Some? {
        return Err(failure.value);
      }
      var response := client.Send(Get, endpoint, None, world);
      r := ReadSuccessBody(response);
    }

    /** `PostDataAsync(endpoint, content)`: as GetDataAsync, with one authenticated POST of `content`. */
    method PostDataAsync(endpoint: string, content: Option<string>, world: World) returns (r: Result<string>)
      requires Valid()
      modifies world`trace
      ensures disposed ==> r == Err(ObjectDisposedException("ApiService")) && world.trace == old(world.trace)
      ensures !disposed ==>
                var x := client.handler.Outcome(world.tokens, |old(world.trace)|, RequestFor(Post, endpoint, content));
                world.trace == old(world.trace) + x.events && r == ReadSuccessBody(x.response)
    {
      var failure := ThrowIfDisposed();
      if failure.Some? {
        return Err(failure.value);
      }
      var response := client.Send(Post, endpoint, content, world);
      r := ReadSuccessBody(response);
    }

    /**
     * `Dispose(disposing)`: the first call marks the service disposed and, when `disposing`,
     * releases the client; later calls change nothing.
     */
    method DisposeCore(disposing: bool)
      requires Valid()
      modifies this`disposed, client`disposed, client`releases
      ensures Valid() && disposed
      ensures old(disposed) ==> client.releases == old(client.releases) && client.disposed == old(client.disposed)
      ensures !old(disposed) ==> client.releases == (if disposing then 1 else 0)
    {
      if !disposed {
        if disposing {
          client.Dispose();
        }
        disposed := true;
      }
    }

    /** `Dispose()`: `Dispose(true)`; however often it is called, the client is released at most once. */
    method Dispose()
      requires Valid()
      modifies this`disposed, client`disposed, client`releases
      ensures Valid() && disposed && client.releases <= 1
      ensures old(disposed) ==> client.releases == old(client.releases)
      ensures !old(disposed) ==> client.releases == 1
    {
      DisposeCore(true);
    }
  }
}
