# WebForms authenticated HTTP plumbing, modelled in Dafny

This project models the core of an ASP.NET WebForms application that calls a protected API with
tokens from the Azure CLI. It covers these parts:

- **AuthenticationDelegatingHandler** fetches a token for every outgoing request. It overwrites
  the request's `Authorization` header with `(scheme, token)` and forwards the request to its
  inner handler. **AzureCliAuthenticationHandler** is the same handler with the scheme fixed to
  "Bearer" and an Azure CLI token source for one scope.
- **HttpClientFactory** checks its arguments, then builds a new handler and a new client on every
  call. It has an instance and a static variant.
- **ApiService** owns one client and offers GET and POST helpers that return the body of a 2xx
  response. It moves from usable to disposed, and releases its client at most once.
- **DefaultServiceProvider** is a minimal container. It looks up the first registration of exactly
  the requested type. It then prefers a registered instance, then a factory, then a type to
  construct.
- **Global** makes the application's registrations and exposes `GetService<T>` and
  `GetRequiredService<T>`.
- **The Default page** masks the token, chooses the result label, and picks one of three ways to
  build a client.

The world outside the program is an object (`Net.World`). Its `tokens` oracle answers each token
call, and its `trace` records every token fetch and every forwarded request, in order. This is how
the model states "exactly one fetch, before forwarding" and "nothing is sent after dispose". The
network is a function from position and request to a response. Constructors that can throw are
static methods returning a `Result`. A null string or a possibly-null value is `Option.None`; a
possibly-null object reference has a nullable class type (`HttpClientFactory?`, `Transport?`,
`ServiceCollection?`) and is `null`.

Files: `failures.dfy` holds options, results and the .NET exceptions. `net.dfy` holds the HTTP
stand-ins and the world. There is one file per source file: `authentication_handler.dfy`,
`azure_cli_token.dfy`, `azure_cli_handler.dfy`, `http_client_factory.dfy`, `api_service.dfy`,
`service_provider.dfy`, `global.dfy` and `default_page.dfy`.

## Model

| member | source | states |
|---|---|---|
| Net.NewAuthenticationHeaderValue | WebForms/Http/AuthenticationDelegatingHandler.cs:48 | A header is formed exactly when the scheme is a non-empty RFC 7230 token; it then holds (scheme, token) unchanged. An empty scheme gives ArgumentException; other bad characters give FormatException |
| Net.Transport.Send | WebForms/Http/AuthenticationDelegatingHandler.cs:51 | Forwarding appends exactly one Forwarded event, and the result is the network's answer to that request |
| Net.ReadSuccessBody | WebForms/Services/ApiService.cs:74-77 | A body is returned exactly for a sent request with a 2xx status, and it is that response's body. Any other status gives HttpRequestException carrying the status. A send failure passes through unchanged |
| AzureCliToken.GetTokenAsync | WebForms/Http/AzureCliAuthenticationHandler.cs:32-51 | Each call makes exactly one new credential request, for exactly the one configured scope, with nothing cached. A token is returned exactly when the credential gave one, and a failure is rethrown unchanged, never turned into a token |
| Authentication.InvokeTokenProvider | WebForms/Http/AuthenticationDelegatingHandler.cs:45 | Invoking the provider is exactly one token call, and its answer is returned as given |
| Authentication.AuthenticationDelegatingHandler.Create | WebForms/Http/AuthenticationDelegatingHandler.cs:23-31 | A null provider gives ArgumentNullException("tokenProvider"); otherwise a null scheme gives ArgumentNullException("scheme"). The scheme defaults to "Bearer". A given inner handler is kept; a null one is replaced by a new platform transport |
| Authentication.AuthenticationDelegatingHandler.Outcome | WebForms/Http/AuthenticationDelegatingHandler.cs:40-52 | The provider is asked exactly once, first. Forwarding happens exactly when a token came back and the header is valid. Then the header is (scheme, token), replacing any earlier one, and the inner handler's response is returned unchanged. A provider failure propagates with nothing forwarded and the header untouched |
| Authentication.AuthenticationDelegatingHandler.SendAsync | WebForms/Http/AuthenticationDelegatingHandler.cs:40-52 | The world's trace, the request's header and the result are exactly what Outcome describes for the request as it was on entry |
| AzureCliHandler.NewAzureCliAuthenticationHandler | WebForms/Http/AzureCliAuthenticationHandler.cs:21-25 | It fails exactly for a null scope, with ArgumentNullException("scope"), and an empty scope is accepted. The handler gets the CLI provider for that scope, the scheme "Bearer" and the caller's inner handler. Nothing is fetched |
| HttpClients.HttpClient.Send | WebForms/Services/ApiService.cs:71 | A disposed client fails with ObjectDisposedException and sends nothing. Otherwise the request, relative to the base address and without a header, goes through the handler as Outcome describes |
| HttpClients.HttpClient.Dispose | WebForms/Services/ApiService.cs:131 | Disposing marks the client disposed and counts one release |
| HttpClients.HttpClientFactory.CreateAzureAuthenticatedClient | WebForms/Http/HttpClientFactory.cs:25-43 | A null or empty scope gives ArgumentNullException("scope") before anything is built. Otherwise a new client over a new handler and a new transport, with CLI tokens for the scope and "Bearer". The base address is set only when one is given |
| HttpClients.HttpClientFactory.CreateAuthenticatedClient | WebForms/Http/HttpClientFactory.cs:52-70 | A null provider is rejected by the factory; a null scheme is rejected by the handler it builds. The scheme defaults to "Bearer". Otherwise a new client and handler with that provider and scheme, and the base address only when given |
| HttpClients.HttpClientFactory.CreateAzureAuthenticatedClientStatic | WebForms/Http/HttpClientFactory.cs:75-93 | The same validation and the same client setup as the instance method, for the same arguments |
| Services.CheckArguments | WebForms/Services/ApiService.cs:25-32 | There is no error exactly when the factory is given and the base URL and scope are both non-empty. Otherwise the first failing check, in the order factory, base URL, scope, is reported as ArgumentNullException |
| Services.CheckLegacyArguments | WebForms/Services/ApiService.cs:47-51 | The legacy checks are exactly the main constructor's checks once a factory is given |
| DependencyInjection.NewApi | WebForms/Services/ApiService.cs:23-40 | Construction fails exactly when the checks or the URI fail. A constructed service carries the given base URL and scope |
| Services.ApiService.New | WebForms/Services/ApiService.cs:23-40 | Fails exactly as the checks and URI parse dictate, building no client; a failed check is reported before the URL is parsed. Otherwise a new, not disposed service stores the base URL and owns a new client for the scope, with that base address |
| Services.ApiService.NewLegacy | WebForms/Services/ApiService.cs:45-59 | The same as New, with the static factory method building the client |
| Services.ApiService.GetDataAsync | WebForms/Services/ApiService.cs:66-78 | A disposed service fails with ObjectDisposedException("ApiService") before the client is touched, with no token fetched and nothing sent. Otherwise one authenticated GET, and the body only for a 2xx response |
| Services.ApiService.PostDataAsync | WebForms/Services/ApiService.cs:86-98 | The same as GetDataAsync, with one authenticated POST of the content |
| Services.ApiService.DisposeCore | WebForms/Services/ApiService.cs:124-136 | The first call marks the service disposed and releases the client only when `disposing` is set. Later calls change nothing. The client is released at most once, and only by a disposed service |
| Services.ApiService.Dispose | WebForms/Services/ApiService.cs:114-118 | The first call releases the client; later calls release nothing, so there is at most one release in total |
| DependencyInjection.FirstMatch | WebForms/DependencyInjection/ServiceCollectionExtensions.cs:47-57 | The result is none exactly when no registration has exactly the requested type. Otherwise it is the position of the first such registration |
| DependencyInjection.FirstMatchIgnoresLaterRegistrations | WebForms/DependencyInjection/ServiceCollectionExtensions.cs:50-54 | Once a registration matches, registrations added later are never reached |
| DependencyInjection.Resolve | WebForms/DependencyInjection/ServiceCollectionExtensions.cs:33-45 | With no registration of the type, the result is null. Whatever is handed out has the requested type |
| DependencyInjection.Create | WebForms/DependencyInjection/ServiceCollectionExtensions.cs:59-71 | A registered instance wins and is handed out itself. Without an instance, a factory is invoked with the provider. A type is activated only when there is neither an instance nor a factory. With none of the three, the result is null |
| DependencyInjection.FirstMatchSeesOnlyTypes | WebForms/DependencyInjection/ServiceCollectionExtensions.cs:47-57 | Two registration lists with the same service types at every position find the same first match |
| DependencyInjection.LifetimeIsNeverConsulted | WebForms/DependencyInjection/ServiceCollectionExtensions.cs:59-71 | Two registration lists that differ only in lifetimes resolve every type to the same outcome, through nested factory lookups too |
| DependencyInjection.SettingOverridesDefault | WebForms/Global.asax.cs:42-46 | A present setting is used as it is, whatever the default |
| DependencyInjection.AbsentSettingGivesDefault | WebForms/Global.asax.cs:42-46 | An absent setting gives the default |
| DependencyInjection.Activate | WebForms/DependencyInjection/ServiceCollectionExtensions.cs:67-68 | A successful activation yields a new object of the requested type |
| DependencyInjection.Invoke | WebForms/Global.asax.cs:42-54 | A factory delegate yields a service of its return type |
| DependencyInjection.ServiceCollection.Add | WebForms/Global.asax.cs:39-55 | Registrations are appended in call order |
| DependencyInjection.ServiceProvider.BuildServiceProvider | WebForms/DependencyInjection/ServiceCollectionExtensions.cs:16-31 | A null collection gives ArgumentNullException("services"). Otherwise a new provider over that collection |
| DependencyInjection.ServiceProvider.FindServiceDescriptor | WebForms/DependencyInjection/ServiceCollectionExtensions.cs:47-57 | The scan finds nothing exactly when no registration has exactly the type. Otherwise it returns the registration at FirstMatch |
| DependencyInjection.ServiceProvider.GetService | WebForms/DependencyInjection/ServiceCollectionExtensions.cs:33-45 | A null service type gives ArgumentNullException("serviceType"). Otherwise what is handed out matches Resolve, and every object built during the call is new |
| DependencyInjection.ServiceProvider.CreateService | WebForms/DependencyInjection/ServiceCollectionExtensions.cs:59-71 | What is handed out matches Create, and built objects are new |
| DependencyInjection.ServiceProvider.ActivateType | WebForms/DependencyInjection/ServiceCollectionExtensions.cs:67-68 | What is handed out matches Activate |
| DependencyInjection.ServiceProvider.InvokeFactory | WebForms/DependencyInjection/ServiceCollectionExtensions.cs:64-65 | What is handed out matches Invoke. The provider itself is the delegate's argument |
| DependencyInjection.ServiceProvider.BuildApiService | WebForms/Global.asax.cs:54 | What is handed out matches NewApi, and a new service and client are built |
| Application.RegistrationsAsWritten | WebForms/Global.asax.cs:36-55 | The four registrations as written are well typed |
| Application.Registrations | WebForms/Global.asax.cs:49-55 | The corrected registrations are well typed |
| Application.ClientFactoryIsTheRegisteredInstance | WebForms/Global.asax.cs:39 | Every resolution of HttpClientFactory returns the single registered instance |
| Application.StringLookupFindsBaseUrl | WebForms/Global.asax.cs:42-46 | Every string lookup yields the base URL setting, or "https://api.example.com" when it is absent |
| Application.ApiServiceScopeIsBaseUrl | WebForms/Global.asax.cs:49-54 | As written, a resolved ApiService gets the base URL as its scope. Resolution fails exactly when the URL is empty or no URI |
| Application.DefaultSettingsGiveWrongScope | WebForms/Global.asax.cs:42-54 | With no settings, the ApiService scope is "https://api.example.com" and not "api://example-api/.default" |
| Application.ApiServiceGetsScopeSetting | WebForms/Global.asax.cs:49-55 | Corrected, the ApiService gets the base URL setting and the scope setting, each with its default |
| Application.CorrectionChangesOnlyApiService | WebForms/Global.asax.cs:39-46 | The correction leaves every lookup of any other type unchanged |
| Application.Global.ConfigureServices | WebForms/Global.asax.cs:33-59 | Four registrations in order over a new factory; a new provider is stored |
| Application.Global.GetService | WebForms/Global.asax.cs:62-65 | Before configuration it fails with NullReferenceException. Otherwise it hands out what the provider resolves, and built objects are new |
| Application.Global.GetRequiredService | WebForms/Global.asax.cs:68-76 | It fails exactly when GetService fails or yields null, with InvalidOperationException("Service of type T not found.") for null; a GetService failure passes through unchanged. Otherwise it returns the service |
| DefaultPage.MaskToken | WebForms/Default.aspx.cs:76-84 | A token longer than 20 characters shows its first 10 and last 5 characters around "...". The result has 18 characters and at least 6 stay hidden. A shorter token gives the fixed placeholder |
| DefaultPage.MaskRevealsOnlyEnds | WebForms/Default.aspx.cs:79-81 | Two long tokens mask alike exactly when their first 10 and last 5 characters agree |
| DefaultPage.ShortTokensLookAlike | WebForms/Default.aspx.cs:83 | All tokens of at most 20 characters mask alike |
| DefaultPage.LabelReportsFailureExactlyWithoutToken | WebForms/Default.aspx.cs:48-60 | The failure message is shown exactly when the token is null or empty |
| DefaultPage.ShortTokenLabelsAlike | WebForms/Default.aspx.cs:48-52 | All non-empty tokens of at most 20 characters get the same label |
| DefaultPage.LongTokenLabelsRevealOnlyEnds | WebForms/Default.aspx.cs:48-52 | Two tokens longer than 20 characters get the same label exactly when their first 10 and last 5 characters agree |
| DefaultPage.Demonstrated | WebForms/Default.aspx.cs:113-153 | The injected ApiService is used exactly when it resolves. Otherwise the injected factory when it resolves, otherwise the static factory. Exactly one branch runs, and a failed resolution is reported |
| DefaultPage.DemonstrationTextTellsBranch | WebForms/Default.aspx.cs:120-151 | Equal appended texts come from the same branch, and two failures with equal texts have the same exception message |
| DefaultPage.ConfiguredAppUsesApiService | WebForms/Default.aspx.cs:118-127 | With the corrected registrations (`Registrations`), the ApiService branch is taken exactly when the service can be built, and the two fallbacks are never taken |
| DefaultPage.WrittenAppUsesApiService | WebForms/Default.aspx.cs:118-127 | With the registrations as written (`RegistrationsAsWritten`), the ApiService branch is taken exactly when the base URL is non-empty and parses, and the two fallbacks are never taken |
| DefaultPage.UnconfiguredAppReportsNullReference | WebForms/Default.aspx.cs:149-152 | For an application whose provider is null, the page shows the NullReferenceException of the first lookup |
| DefaultPage.Page.GetTokenUsingAzureCliCredentialAsync | WebForms/Default.aspx.cs:86-108 | Exactly one Azure CLI request, for the page scope. It returns a token exactly when the credential gave one, and null on failure |
| DefaultPage.Page.DemonstrateHttpClientWithHandler | WebForms/Default.aspx.cs:113-153 | The label gets exactly the text of the branch Demonstrated selects |
| DefaultPage.Page.GetTokenAsync | WebForms/Default.aspx.cs:35-74 | A script failure shows "Error: " and its message, and no token is requested. Otherwise one token request; the label becomes the failure message for a null or empty token and "Token retrieved successfully: " with the mask otherwise, and the demonstration runs only for a non-empty token |

## Left out

- The Azure CLI credential is an oracle (`World.tokens`), and so are caller-supplied token delegates, known only by an identity. A delegate returning a null token is not modelled.
- The HTTP stack is left out: real transport, relative-URI resolution against the base address (RFC 3986) and HttpClient's own request checks. `Uri` parsing is a parameter (`Host.parseUri`).
- async/await, `ConfigureAwait` and `CancellationToken` are left out. Every call runs to completion in order.
- The page lifecycle is left out: `Page_Load`, `RegisterAsyncTask`, the `ScriptManager` scripts and the `finally` block that re-enables the button. A failure to register the first script is the `scriptFailure` parameter of `GetTokenAsync`.
- `RouteConfig` and `BundleConfig` registration is left out.
- `ConfigurationManager.AppSettings` is a map of settings (`Host.settings`).
- `Activator.CreateInstance` is modelled only by outcome. HttpClientFactory gets a new instance. string and ApiService get MissingMethodException. Any other type gets an opaque constructed object.
- WebForms/DependencyInjection/ServiceLocator.cs is not part of this model: its methods forward to `Global.GetService` and `Global.GetRequiredService`, which are modelled.
- `GC.SuppressFinalize`, the finalizer and `Debug.WriteLine` logging are left out.
- HttpClient disposing its handler, and the HttpClientHandler a handler allocates before throwing, are not modelled.
- Casts of resolved objects are assumed to succeed: registrations are well typed, as C# generics guarantee.
- Lifetimes are recorded but never consulted, as in the container. Scoped and singleton caching do not exist there.
- Application.Global.ConfigureServices: registers the corrected ApiService factory (see Findings). The registrations as written are `Application.RegistrationsAsWritten`, and the lemmas about them show the difference.
- DefaultPage.MaskToken: counts Unicode scalar values where C# counts UTF-16 code units. A token of one emoji (two code units) followed by 19 'a' has 21 units in C# and is masked, but has 20 characters here and gets the placeholder. Tokens from the Azure CLI are ASCII, where both agree.
- DependencyInjection.FactoryDelegate: only the three factories the application registers exist, so a factory that resolves its own service type, which recurses without end in the container, cannot be written. The termination of `Resolve` rests on this closed set.
- DependencyInjection.Invoke: does not state the ApiService it builds beyond its type. The lemmas in `Application` state it for the application's registrations.

## Findings

| source | as written | input that shows it | evidently intended | confidence | as-written member | corrected member |
|---|---|---|---|---|---|---|
| WebForms/Global.asax.cs:51-52 | The ApiService factory looks up `string` twice. First-match lookup returns the base-URL registration both times, so the scope is the base URL | No `ApiBaseUrl` or `ApiScope` setting. The ApiService is built with scope "https://api.example.com", so tokens are requested for the wrong audience | The scope is the `ApiScope` setting, defaulting to "api://example-api/.default" | high, not executed | Application.DefaultSettingsGiveWrongScope | Application.ApiServiceGetsScopeSetting |
