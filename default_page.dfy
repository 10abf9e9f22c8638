/**
 * The Default page: fetches an Azure CLI token for the page's API scope, shows it masked, and
 * then shows which of three ways of building an authenticated client the application offers.
 */
module DefaultPage {
  import opened Failures
  import opened Net
  import opened DependencyInjection
  import opened Application

  /** The API scope the page asks tokens for and builds its clients for. */
  const PageScope := "api://f9c13a4b-fe6e-4191-b63a-9f07864fc5b3/.default"
  const TooShortToMask := "***token too short to mask safely***"
  const SuccessPrefix := "Token retrieved successfully: "
  const FailureMessage := "Failed to retrieve token. Check if you're logged in with Azure CLI."
  const CreatedThrough := "<br/><br/>HTTP client created through "
  const ErrorPrefix := "<br/><br/>Error using HTTP client: "

  /** The page's token request: one Azure CLI call for the page scope. */
  function PageCall(): TokenCall {
    CliGetToken([PageScope])
  }

  /**
   * `MaskToken(token)`: a token longer than 20 characters shows its first 10 and last 5
   * characters around "...", hiding at least 6; a shorter one is replaced by a fixed text.
   */
  function MaskToken(token: string): (masked: string)
    ensures |token| > 20 ==>
              |masked| == 18 && masked[..10] == token[..10] && masked[10..13] == "..." &&
              masked[13..] == token[|token| - 5..] && |token| - 15 >= 6
    ensures |token| <= 20 ==> masked == TooShortToMask
  {
    if |token| > 20 then token[..10] + "..." + token[|token| - 5..] else TooShortToMask
  }

  /** A masked long token depends on its first 10 and last 5 characters only. */
  lemma MaskRevealsOnlyEnds(a: string, b: string)
    requires |a| > 20 && |b| > 20
    ensures MaskToken(a) == MaskToken(b) <==> a[..10] == b[..10] && a[|a| - 5..] == b[|b| - 5..]
  {
  }

  /** All tokens of at most 20 characters are shown alike, so none of their characters is revealed. */
  lemma ShortTokensLookAlike(a: string, b: string)
    requires |a| <= 20 && |b| <= 20
    ensures MaskToken(a) == MaskToken(b)
  {
  }

  /** The label after a token attempt: the masked token, or the failure text for a null or empty token. */
  function TokenLabel(token: Option<string>): (text: string)
    ensures IsNullOrEmpty(token) ==> text == FailureMessage
    ensures !IsNullOrEmpty(token) ==> text == SuccessPrefix + MaskToken(token.value)
  {
    if IsNullOrEmpty(token) then FailureMessage else SuccessPrefix + MaskToken(token.value)
  }

  /** `GetTokenUsingAzureCliCredentialAsync()` swallows every failure into a null token. */
  function TokenOf(answer: Result<string>): (token: Option<string>)
    ensures token.Some? <==> answer.Ok?
    ensures answer.Ok? ==> token.value == answer.value
  {
    if answer.Ok? then Some(answer.value) else None
  }

  /** Which branch of `DemonstrateHttpClientWithHandler()` ran, or the exception it caught. */
  datatype Demonstration = ViaApiService | ViaInjectedFactory | ViaStaticFactory | Failed(error: Exception)

  /**
   * The branch taken, given what resolving ApiService and then HttpClientFactory gives: the
   * injected service when there is one, else the injected factory, else the static factory
   * method; a failed resolution is caught and reported.
   */
  function Demonstrated(apiService: Result<Option<Resolved>>, clientFactory: Result<Option<Resolved>>)
    : (d: Demonstration)
    ensures d == ViaApiService <==> apiService.Ok? && apiService.value.Some?
    ensures d == ViaInjectedFactory <==> apiService == Ok(None) && clientFactory.Ok? && clientFactory.value.Some?
    ensures d == ViaStaticFactory <==> apiService == Ok(None) && clientFactory == Ok(None)
    ensures apiService.Err? ==> d == Failed(apiService.error)
    ensures apiService == Ok(None) && clientFactory.Err? ==> d == Failed(clientFactory.error)
  {
    match apiService
    case Err(e) => Failed(e)
    case Ok(Some(_)) => ViaApiService
    case Ok(None) =>
      match clientFactory
      case Err(e) => Failed(e)
      case Ok(Some(_)) => ViaInjectedFactory
      case Ok(None) => ViaStaticFactory
  }

  /** What each outcome appends to the label. */
  function DemonstrationText(d: Demonstration): string {
    match d
    case ViaApiService => "<br/><br/>Using injected ApiService"
    case ViaInjectedFactory => CreatedThrough + "injected HttpClientFactory."
    case ViaStaticFactory => CreatedThrough + "static factory method (legacy)."
    case Failed(e) => ErrorPrefix + e.message
  }

  /**
   * With the registrations the application uses, the page takes the ApiService branch exactly
   * when the service can be built; the two factory fallbacks are never reached.
   */
  lemma ConfiguredAppUsesApiService(factory: HttpClients.HttpClientFactory, host: Host)
    ensures var ds := Registrations(factory);
            var d := Demonstrated(Resolve(ds, ApiServiceType, host), Resolve(ds, HttpClientFactoryType, host));
            var url := AppSetting(host.settings, "ApiBaseUrl", DefaultApiBaseUrl);
            var scope := AppSetting(host.settings, "ApiScope", DefaultApiScope);
            (d == ViaApiService <==> url != "" && scope != "" && host.parseUri(url).Ok?) &&
            d != ViaInjectedFactory && d != ViaStaticFactory
  {
    ApiServiceGetsScopeSetting(factory, host);
  }

  /**
   * With the registrations as written, the same holds except that the scope setting plays no
   * part: an empty scope setting does not stop the ApiService branch.
   */
  lemma WrittenAppUsesApiService(factory: HttpClients.HttpClientFactory, host: Host)
    ensures var ds := RegistrationsAsWritten(factory);
            var d := Demonstrated(Resolve(ds, ApiServiceType, host), Resolve(ds, HttpClientFactoryType, host));
            var url := AppSetting(host.settings, "ApiBaseUrl", DefaultApiBaseUrl);
            (d == ViaApiService <==> url != "" && host.parseUri(url).Ok?) &&
            d != ViaInjectedFactory && d != ViaStaticFactory
  {
    ApiServiceScopeIsBaseUrl(factory, host);
    ClientFactoryIsTheRegisteredInstance(factory, host);
  }

  /** Before `ConfigureServices()` has run, the page reports the NullReferenceException of its first lookup. */
  lemma UnconfiguredAppReportsNullReference(app: Global, host: Host)
    requires app.Valid() && app.serviceProvider == null
    ensures Demonstrated(app.Lookup(ApiServiceType, host), app.Lookup(HttpClientFactoryType, host)) ==
            Failed(NullReferenceException())
  {
  }

  /** The character after the line breaks: 'U' for the service, 'H' for a client, 'E' for an error. */
  lemma BranchLetter(d: Demonstration)
    ensures |DemonstrationText(d)| > 10
    ensures DemonstrationText(d)[10] == match d case ViaApiService => 'U' case Failed(_) => 'E' case _ => 'H'
  {
    match d
    case ViaApiService =>
    case ViaInjectedFactory =>
      assert (CreatedThrough + "injected HttpClientFactory.")[10] == CreatedThrough[10];
    case ViaStaticFactory =>
      assert (CreatedThrough + "static factory method (legacy).")[10] == CreatedThrough[10];
    case Failed(e) =>
      assert (ErrorPrefix + e.message)[10] == ErrorPrefix[10];
  }

  /** The appended text tells which branch ran, and for a failure, the exception's message. */
  lemma {:induction false} DemonstrationTextTellsBranch(d1: Demonstration, d2: Demonstration)
    requires DemonstrationText(d1) == DemonstrationText(d2)
    ensures d1.Failed? <==> d2.Failed?
    ensures !d1.Failed? ==> d1 == d2
    ensures d1.Failed? ==> d1.error.message == d2.error.message
  {
    BranchLetter(d1);
    BranchLetter(d2);
    var t1, t2 := DemonstrationText(d1), DemonstrationText(d2);
    if d1.Failed? && d2.Failed? {
      assert d1.error.message == t1[|ErrorPrefix|..] == t2[|ErrorPrefix|..] == d2.error.message;
    }
  }

  /** The failure message is shown exactly when there is no token. */
  lemma LabelReportsFailureExactlyWithoutToken(token: Option<string>)
    ensures TokenLabel(token) == FailureMessage <==> IsNullOrEmpty(token)
  {
    if !IsNullOrEmpty(token) {
      // a masked token has 18 or 36 characters, so a success label is 48 or 66 long, never 67
      assert |SuccessPrefix| == 30 && |TooShortToMask| == 36 && |FailureMessage| == 67;
      assert |TokenLabel(token)| != |FailureMessage|;
    }
  }

  lemma ShortTokenLabelsAlike(a: string, b: string)
    requires 0 < |a| <= 20 && 0 < |b| <= 20
    ensures TokenLabel(Some(a)) == TokenLabel(Some(b))
  {
  }

  /** Two long tokens get the same label exactly when their first 10 and last 5 characters agree. */
  lemma LongTokenLabelsRevealOnlyEnds(a: string, b: string)
    requires |a| > 20 && |b| > 20
    ensures TokenLabel(Some(a)) == TokenLabel(Some(b)) <==> a[..10] == b[..10] && a[|a| - 5..] == b[|b| - 5..]
  {
    MaskRevealsOnlyEnds(a, b);
    if TokenLabel(Some(a)) == TokenLabel(Some(b)) {
      assert MaskToken(a) == TokenLabel(Some(a))[|SuccessPrefix|..] == TokenLabel(Some(b))[|SuccessPrefix|..] == MaskToken(b);
    }
  }

  /** What the page can tell from an object handed out: failure, null or an object, as described. */
  lemma RealizedShape(r: Result<Option<Service>>, spec: Result<Option<Resolved>>)
    requires Realizes(r, spec)
    ensures r.Err? <==> spec.Err?
    ensures r.Err? ==> r.error == spec.error
    ensures r.Ok? ==> (r.value.Some? <==> spec.value.Some?)
  {
  }

  /** A resolved HttpClientFactory is an object the page can call. */
  lemma RealizedFactory(r: Result<Option<Service>>, spec: Result<Option<Resolved>>)
    requires Realizes(r, spec) && spec.Ok? && spec.value.Some? && ResolvedType(spec.value.value) == HttpClientFactoryType
    ensures r.Ok? && AsClientFactory(r.value) != null
  {
  }

  class Page {
    const app: Global
    var tokenResultLabel: string

    constructor (app: Global)
      ensures this.app == app && tokenResultLabel == ""
    {
      this.app := app;
      tokenResultLabel := "";
    }

    /**
     * `GetTokenUsingAzureCliCredentialAsync()`: exactly one Azure CLI token request for the page
     * scope; its token, or null when the request failed.
     */
    method GetTokenUsingAzureCliCredentialAsync(world: World) returns (token: Option<string>)
      modifies world`trace
      ensures world.trace == old(world.trace) + [TokenFetched(PageCall())]
      ensures token == TokenOf(world.tokens(|old(world.trace)|, PageCall()))
    {
      var answer := world.Fetch(PageCall());
      if answer.Err? {
        return None;
      }
      return Some(answer.value);
    }

    /**
     * `DemonstrateHttpClientWithHandler()`: appends the text of exactly one outcome; every
     * client it builds is disposed again before it returns.
     */
    method DemonstrateHttpClientWithHandler(host: Host)
      requires app.Valid()
      modifies this`tokenResultLabel
      ensures tokenResultLabel == old(tokenResultLabel) +
                DemonstrationText(Demonstrated(old(app.Lookup(ApiServiceType, host)), old(app.Lookup(HttpClientFactoryType, host))))
    {
      ghost var apiSpec := app.Lookup(ApiServiceType, host);
      ghost var factorySpec := app.Lookup(HttpClientFactoryType, host);
      var apiService := app.GetService(ApiServiceType, host);
      RealizedShape(apiService, apiSpec);
      if apiService.Err? {
        tokenResultLabel := tokenResultLabel + DemonstrationText(Failed(apiService.error));
        return;
      }
      if apiService.value.Some? {
        tokenResultLabel := tokenResultLabel + DemonstrationText(ViaApiService);
        return;
      }
      var clientFactory := app.GetService(HttpClientFactoryType, host);
      RealizedShape(clientFactory, factorySpec);
      if clientFactory.Err? {
        tokenResultLabel := tokenResultLabel + DemonstrationText(Failed(clientFactory.error));
        return;
      }
      if clientFactory.value.Some? {
        // the property resolves the factory a second time before the call
        var again := app.GetService(HttpClientFactoryType, host);
        RealizedFactory(again, factorySpec);
        var client := AsClientFactory(again.value).CreateAzureAuthenticatedClient(host.network, Some(PageScope));
        client.value.Dispose();
        tokenResultLabel := tokenResultLabel + DemonstrationText(ViaInjectedFactory);
      } else {
        var client := HttpClients.HttpClientFactory.CreateAzureAuthenticatedClientStatic(host.network, Some(PageScope));
        client.value.Dispose();
        tokenResultLabel := tokenResultLabel + DemonstrationText(ViaStaticFactory);
      }
    }

    /**
     * `GetTokenAsync()`: when registering the start-up script fails, the label shows that error
     * and no token is requested; otherwise one token request, then the label is replaced by the
     * token text and, only for a token, extended by the demonstration.
     */
    method GetTokenAsync(world: World, host: Host, scriptFailure: Option<Exception>)
      requires app.Valid()
      modifies this`tokenResultLabel, world`trace
      ensures scriptFailure.Some? ==>
                tokenResultLabel == "Error: " + scriptFailure.value.message && world.trace == old(world.trace)
      ensures scriptFailure.None? ==>
                var token := TokenOf(world.tokens(|old(world.trace)|, PageCall()));
                world.trace == old(world.trace) + [TokenFetched(PageCall())] &&
                tokenResultLabel == TokenLabel(token) +
                  (if IsNullOrEmpty(token) then ""
                   else DemonstrationText(Demonstrated(old(app.Lookup(ApiServiceType, host)),
                                                       old(app.Lookup(HttpClientFactoryType, host)))))
    {
      if scriptFailure.Some? {
        tokenResultLabel := "Error: " + scriptFailure.value.message;
        return;
      }
      var token := GetTokenUsingAzureCliCredentialAsync(world);
      tokenResultLabel := TokenLabel(token);
      if !IsNullOrEmpty(token) {
        DemonstrateHttpClientWithHandler(host);
      }
    }
  }
}
