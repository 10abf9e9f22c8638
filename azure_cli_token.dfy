/** The token source behind AzureCliAuthenticationHandler: one Azure CLI credential call per token. */
module AzureCliToken {
  import opened Failures
  import opened Net

  /** The call `GetTokenAsync(scope)` makes: a token request context holding exactly the one scope. */
  function CliCall(scope: string): (c: TokenCall)
    ensures c.CliGetToken? && c.scopes == [scope]
  {
    CliGetToken([scope])
  }

  /**
   * `GetTokenAsync(scope)`: builds a new credential, asks it for a token for `scope` and returns
   * the token; a failure is rethrown as it is, never turned into a token.
   */
  method GetTokenAsync(scope: string, world: World) returns (r: Result<string>)
    modifies world`trace
    ensures world.trace == old(world.trace) + [TokenFetched(CliGetToken([scope]))]
    ensures var answer := world.tokens(|old(world.trace)|, CliGetToken([scope]));
            (r.Ok? <==> answer.Ok?) && (answer.Ok? ==> r.value == answer.value) &&
            (answer.Err? ==> r.error == answer.error)
  {
    var accessToken := world.Fetch(CliCall(scope));
    match accessToken
    case Ok(token) =>
      r := Ok(token);
    case Err(e) =>
      // the diagnostic written to the debug output is not modelled
      r := Err(e);
  }
}
