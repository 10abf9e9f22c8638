/**
 * Stand-ins for the System.Net.Http types the application builds on: URIs, requests whose
 * Authorization header is updated in place, responses, the transport at the bottom of a
 * handler chain, and the world outside the program (token sources and the network), which
 * answers calls and records them in order.
 */
module Net {
  import opened Failures

  /** An absolute URI, as `new Uri(text)` produced it. */
  datatype Uri = Uri(text: string)

  datatype Verb = Get | Post

  /** The request URI as a caller of HttpClient gives it: an endpoint relative to the client's base address. */
  datatype Target = Target(baseAddress: Option<Uri>, endpoint: string)

  /** `AuthenticationHeaderValue(scheme, parameter)`: the header line `Authorization: <scheme> <parameter>`. */
  datatype AuthHeader = AuthHeader(scheme: string, parameter: string)

  /** A request as a transport sees it when it is forwarded. */
  datatype RequestSnapshot = RequestSnapshot(verb: Verb, target: Target, content: Option<string>, authorization: Option<AuthHeader>)

  /** An HTTP response: status code, reason phrase and body text. */
  datatype Response = Response(status: nat, reason: string, body: string)

  /** What the network answers to the n-th event of the world's trace when it is handed a request. */
  type Network = (nat, RequestSnapshot) -> Result<Response>

  /** One call to something a token provider delegates to. */
  datatype TokenCall =
    | InvokeDelegate(id: nat)          // a caller-supplied Func<Task<string>>
    | CliGetToken(scopes: seq<string>) // AzureCliCredential.GetTokenAsync(new TokenRequestContext(scopes))

  /** What the world records, in the order it happened. */
  datatype Event =
    | TokenFetched(call: TokenCall)
    | Forwarded(via: Transport, request: RequestSnapshot)

  /** HttpRequestMessage: fixed verb, URI and content; its Authorization header can be overwritten. */
  class Request {
    const verb: Verb
    const target: Target
    const content: Option<string>
    var authorization: Option<AuthHeader>

    constructor (verb: Verb, target: Target, content: Option<string>)
      ensures Snapshot() == RequestSnapshot(verb, target, content, None)
    {
      this.verb := verb;
      this.target := target;
      this.content := content;
      authorization := None;
    }

    function Snapshot(): RequestSnapshot
      reads this
    {
      RequestSnapshot(verb, target, content, authorization)
    }
  }

  /** The environment: who answers token calls, and the log of everything sent out. */
  class World {
    const tokens: (nat, TokenCall) -> Result<string>
    var trace: seq<Event>

    constructor (tokens: (nat, TokenCall) -> Result<string>)
      ensures this.tokens == tokens && trace == []
    {
      this.tokens := tokens;
      trace := [];
    }

    /** Performs one token call; the answer depends on the call and on when it happens. */
    method Fetch(call: TokenCall) returns (r: Result<string>)
      modifies this`trace
      ensures trace == old(trace) + [TokenFetched(call)]
      ensures r == tokens(|old(trace)|, call)
    {
      r := tokens(|trace|, call);
      trace := trace + [TokenFetched(call)];
    }
  }

  /** The innermost HttpMessageHandler: `new HttpClientHandler()` or one a caller supplies. */
  class Transport {
    const isPlatformDefault: bool
    const respond: Network

    constructor (isPlatformDefault: bool, respond: Network)
      ensures this.isPlatformDefault == isPlatformDefault && this.respond == respond
    {
      this.isPlatformDefault := isPlatformDefault;
      this.respond := respond;
    }

    /** Sends a request over the network and returns what comes back. */
    method Send(request: RequestSnapshot, world: World) returns (r: Result<Response>)
      modifies world`trace
      ensures world.trace == old(world.trace) + [Forwarded(this, request)]
      ensures r == respond(|old(world.trace)|, request)
    {
      r := respond(|world.trace|, request);
      world.trace := world.trace + [Forwarded(this, request)];
    }
  }

  /** A `tchar` of section 3.2.6 of RFC 7230: the characters an authentication scheme may use. */
  predicate IsTokenChar(c: char) {
    ('a' <= c <= 'z') || ('A' <= c <= 'Z') || ('0' <= c <= '9') ||
    c in "!#$%&'*+-.^_`|~"
  }

  predicate IsToken(s: string) {
    |s| > 0 && forall i :: 0 <= i < |s| ==> IsTokenChar(s[i])
  }

  /**
   * `new AuthenticationHeaderValue(scheme, parameter)`: the scheme must be a non-empty token
   * (ArgumentException when empty, FormatException when it holds other characters); the
   * parameter is taken as it is.
   */
  function NewAuthenticationHeaderValue(scheme: string, parameter: string): (r: Result<AuthHeader>)
    ensures r.Ok? <==> IsToken(scheme)
    ensures r.Ok? ==> r.value == AuthHeader(scheme, parameter)
    ensures scheme == "" ==> r.Err? && r.error.kind == Argument("scheme")
    ensures scheme != "" && !IsToken(scheme) ==> r.Err? && r.error.kind == Format
  {
    if scheme == "" then
      Err(ArgumentException("The value cannot be null or empty.", "scheme"))
    else if exists i :: 0 <= i < |scheme| && !IsTokenChar(scheme[i]) then
      Err(Exception(Format, "The format of value '" + scheme + "' is invalid."))
    else
      Ok(AuthHeader(scheme, parameter))
  }

  /** `HttpResponseMessage.IsSuccessStatusCode`: a 2xx status. */
  predicate IsSuccessStatusCode(status: nat) {
    200 <= status <= 299
  }

  /**
   * `response.EnsureSuccessStatusCode()` followed by `response.Content.ReadAsStringAsync()`,
   * applied to whatever the client returned (an exception from sending passes through).
   */
  function ReadSuccessBody(response: Result<Response>): (r: Result<string>)
    ensures r.Ok? <==> response.Ok? && IsSuccessStatusCode(response.value.status)
    ensures r.Ok? ==> r.value == response.value.body
    ensures response.Err? ==> r == Err(response.error)
    ensures response.Ok? && !IsSuccessStatusCode(response.value.status) ==>
              r.Err? && r.error.kind == HttpRequest(response.value.status)
  {
    match response
    case Err(e) => Err(e)
    case Ok(resp) =>
      if IsSuccessStatusCode(resp.status) then Ok(resp.body)
      else Err(Exception(HttpRequest(resp.status),
                         "Response status code does not indicate success: " + DecimalString(resp.status) +
                         " (" + resp.reason + ")."))
  }
}
