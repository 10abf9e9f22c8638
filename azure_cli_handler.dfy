/** AzureCliAuthenticationHandler: an AuthenticationDelegatingHandler wired to the Azure CLI token source. */
module AzureCliHandler {
  import opened Failures
  import opened Net
  import opened Authentication

  /**
   * `new AzureCliAuthenticationHandler(scope, innerHandler = null)`: the base handler gets the
   * deferred provider `() => GetTokenAsync(scope)`, the fixed scheme "Bearer" and the caller's
   * inner handler; only a null scope is rejected (an empty one is accepted). Nothing is fetched
   * while constructing: the world is not even an argument.
   */
  method NewAzureCliAuthenticationHandler(network: Network, scope: Option<string>, innerHandler: Transport? := null)
    returns (r: Result<AuthenticationDelegatingHandler>)
    ensures r.Err? <==> scope.None?
    ensures scope.None? ==> r == Err(ArgumentNullException("scope"))
    ensures scope.Some? ==>
              fresh(r.value) && r.value.tokenProvider == AzureCli(scope.value) && r.value.scheme == "Bearer"
    ensures r.Ok? && innerHandler != null ==> r.value.inner == innerHandler
    ensures r.Ok? && innerHandler == null ==>
              fresh(r.value.inner) && r.value.inner.isPlatformDefault && r.value.inner.respond == network
  {
    if scope.None? {
      // the base constructor has already run; what it built is dropped with the exception
      return Err(ArgumentNullException("scope"));
    }
    r := AuthenticationDelegatingHandler.Create(network, Some(AzureCli(scope.value)), Some("Bearer"), innerHandler);
  }
}
