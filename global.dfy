/**
 * Global: the application's registrations and its static service provider, with the lookups the
 * pages use. The registration order decides what every string lookup finds.
 */
module Application {
  import opened Failures
  import opened Net
  import opened HttpClients
  import opened Services
  import opened DependencyInjection

  const DefaultApiBaseUrl := "https://api.example.com"
  const DefaultApiScope := "api://example-api/.default"

  /**
   * The registrations as `ConfigureServices` writes them, in order: the factory instance, the base
   * URL setting, the scope setting, and the ApiService factory that looks both strings up by type.
   */
  function RegistrationsAsWritten(factory: HttpClientFactory): (ds: seq<ServiceDescriptor>)
    ensures AllWellTyped(ds) && |ds| == 4
  {
    [ InstanceRegistration(HttpClientFactoryType, ClientFactory(factory)),
      FactoryRegistration(Transient, SettingOrDefault("ApiBaseUrl", DefaultApiBaseUrl)),
      FactoryRegistration(Transient, SettingOrDefault("ApiScope", DefaultApiScope)),
      FactoryRegistration(Scoped, ApiServiceFromProvider) ]
  }

  /**
   * The registrations the application uses: the same, except that the ApiService factory reads
   * each setting under its own key, so the scope is the scope setting.
   */
  function Registrations(factory: HttpClientFactory): (ds: seq<ServiceDescriptor>)
    ensures AllWellTyped(ds) && |ds| == 4
  {
    RegistrationsAsWritten(factory)[..3] +
    [FactoryRegistration(Scoped, ApiServiceFromSettings("ApiBaseUrl", DefaultApiBaseUrl, "ApiScope", DefaultApiScope))]
  }

  /** Every lookup of HttpClientFactory yields the one registered instance. */
  lemma ClientFactoryIsTheRegisteredInstance(factory: HttpClientFactory, host: Host)
    ensures Resolve(RegistrationsAsWritten(factory), HttpClientFactoryType, host) == Ok(Some(Existing(ClientFactory(factory))))
    ensures Resolve(Registrations(factory), HttpClientFactoryType, host) == Ok(Some(Existing(ClientFactory(factory))))
  {
  }

  /** Every lookup of a string finds the base URL registration; the scope registration is never reached. */
  lemma StringLookupFindsBaseUrl(factory: HttpClientFactory, host: Host)
    ensures Resolve(RegistrationsAsWritten(factory), StringType, host) ==
            Ok(Some(Existing(Text(AppSetting(host.settings, "ApiBaseUrl", DefaultApiBaseUrl)))))
  {
    assert FirstMatch(RegistrationsAsWritten(factory), StringType) == Some(1);
  }

  /**
   * As written: the ApiService the container builds gets the base URL as its scope, so its
   * client asks the Azure CLI for a token for the base URL.
   */
  lemma ApiServiceScopeIsBaseUrl(factory: HttpClientFactory, host: Host)
    ensures var r := Resolve(RegistrationsAsWritten(factory), ApiServiceType, host);
            var url := AppSetting(host.settings, "ApiBaseUrl", DefaultApiBaseUrl);
            (r.Ok? <==> url != "" && host.parseUri(url).Ok?) &&
            (r.Ok? ==> r.value == Some(NewApiService(true, url, url, host.parseUri(url).value)))
  {
    var ds := RegistrationsAsWritten(factory);
    assert ds[0].serviceType == HttpClientFactoryType && ds[1].serviceType == ds[2].serviceType == StringType;
    assert ds[3].serviceType == ApiServiceType;
    assert FirstMatch(ds, ApiServiceType) == Some(3);
    ClientFactoryIsTheRegisteredInstance(factory, host);
    StringLookupFindsBaseUrl(factory, host);
  }

  /** A concrete case: with no settings, the scope the service gets is "https://api.example.com", not the default scope. */
  lemma DefaultSettingsGiveWrongScope(factory: HttpClientFactory)
    ensures var host := Host(map[], (s: string) => Ok(Uri(s)), (n: nat, q: RequestSnapshot) => Ok(Response(200, "OK", "")));
            var r := Resolve(RegistrationsAsWritten(factory), ApiServiceType, host);
            r.Ok? && r.value.Some? && r.value.value.NewApiService? &&
            r.value.value.scope == DefaultApiBaseUrl && r.value.value.scope != DefaultApiScope
  {
    var host := Host(map[], (s: string) => Ok(Uri(s)), (n: nat, q: RequestSnapshot) => Ok(Response(200, "OK", "")));
    ApiServiceScopeIsBaseUrl(factory, host);
    assert DefaultApiBaseUrl[0] != DefaultApiScope[0];
  }

  /** Corrected: the ApiService gets the scope setting as its scope and the base URL setting as its base URL. */
  lemma ApiServiceGetsScopeSetting(factory: HttpClientFactory, host: Host)
    ensures var r := Resolve(Registrations(factory), ApiServiceType, host);
            var url := AppSetting(host.settings, "ApiBaseUrl", DefaultApiBaseUrl);
            var scope := AppSetting(host.settings, "ApiScope", DefaultApiScope);
            (r.Ok? <==> url != "" && scope != "" && host.parseUri(url).Ok?) &&
            (r.Ok? ==> r.value == Some(NewApiService(true, url, scope, host.parseUri(url).value)))
  {
    var ds := Registrations(factory);
    assert ds[0].serviceType == HttpClientFactoryType && ds[1].serviceType == ds[2].serviceType == StringType;
    assert ds[3].serviceType == ApiServiceType;
    assert FirstMatch(ds, ApiServiceType) == Some(3);
    ClientFactoryIsTheRegisteredInstance(factory, host);
  }

  /** The correction touches the ApiService registration only: every other lookup is unchanged. */
  lemma CorrectionChangesOnlyApiService(factory: HttpClientFactory, t: ServiceType, host: Host)
    requires t != ApiServiceType
    ensures Resolve(Registrations(factory), t, host) == Resolve(RegistrationsAsWritten(factory), t, host)
  {
    var ds, written := Registrations(factory), RegistrationsAsWritten(factory);
    assert forall i :: 0 <= i < 3 ==> ds[i] == written[i];
    assert FirstMatch(ds, t) == FirstMatch(written, t);
  }

  /** `GetRequiredService<T>()` on the outcome of `GetService<T>()`: null becomes an InvalidOperationException. */
  function Required(lookup: Result<Option<Service>>, t: ServiceType): (r: Result<Service>)
    ensures lookup.Ok? ==> (r.Err? <==> lookup.value.None?)
    ensures lookup == Ok(None) ==> r.error.kind == InvalidOperation && r.error.message == "Service of type " + FullName(t) + " not found."
    ensures lookup.Err? ==> r == Err(lookup.error)
    ensures lookup.Ok? && lookup.value.Some? ==> r == Ok(lookup.value.value)
  {
    match lookup
    case Err(e) => Err(e)
    case Ok(None) => Err(Exception(InvalidOperation, "Service of type " + FullName(t) + " not found."))
    case Ok(Some(s)) => Ok(s)
  }

  function NullReferenceException(): Exception {
    Exception(NullReference, "Object reference not set to an instance of an object.")
  }

  /** The application object; `serviceProvider` is the static `Global.ServiceProvider`. */
  class Global {
    var serviceProvider: ServiceProvider?

    ghost predicate Valid()
      reads this, serviceProvider, if serviceProvider != null then {serviceProvider.services} else {}
    {
      serviceProvider != null ==> serviceProvider.services.Valid()
    }

    /** What `GetService<T>()` hands out, as a description. */
    ghost function Lookup(t: ServiceType, host: Host): Result<Option<Resolved>>
      requires Valid()
      reads this, serviceProvider, if serviceProvider != null then {serviceProvider.services} else {}
    {
      if serviceProvider == null then Err(NullReferenceException())
      else Resolve(serviceProvider.services.descriptors, t, host)
    }

    constructor ()
      ensures Valid() && serviceProvider == null
    {
      serviceProvider := null;
    }

    /** `ConfigureServices()`: registers the four services in order and builds the provider. */
    method ConfigureServices()
      modifies this
      ensures Valid() && serviceProvider != null && fresh(serviceProvider) && fresh(serviceProvider.services)
      ensures exists factory: HttpClientFactory :: fresh(factory) && serviceProvider.services.descriptors == Registrations(factory)
    {
      var services := new ServiceCollection();
      var factory := new HttpClientFactory();
      services.Add(InstanceRegistration(HttpClientFactoryType, ClientFactory(factory)));
      services.Add(FactoryRegistration(Transient, SettingOrDefault("ApiBaseUrl", DefaultApiBaseUrl)));
      services.Add(FactoryRegistration(Transient, SettingOrDefault("ApiScope", DefaultApiScope)));
      // the ApiService factory reads the scope setting itself; see ApiServiceScopeIsBaseUrl for the lookup as written
      services.Add(FactoryRegistration(Scoped, ApiServiceFromSettings("ApiBaseUrl", DefaultApiBaseUrl, "ApiScope", DefaultApiScope)));
      var provider := ServiceProvider.BuildServiceProvider(services);
      serviceProvider := provider.value;
      assert serviceProvider.services.descriptors == Registrations(factory);
    }

    /** `GetService<T>()`: the provider's answer for `typeof(T)`. */
    method GetService(t: ServiceType, host: Host) returns (r: Result<Option<Service>>)
      requires Valid()
      ensures Realizes(r, Lookup(t, host))
      ensures IsNew(Lookup(t, host)) ==> fresh(Built(r))
    {
      if serviceProvider == null {
        return Err(NullReferenceException());
      }
      r := serviceProvider.GetService(Some(t), host);
    }

    /** `GetRequiredService<T>()`: as GetService, but a missing service is an error. */
    method GetRequiredService(t: ServiceType, host: Host) returns (r: Result<Service>)
      requires Valid()
      ensures Lookup(t, host).Err? ==> r == Err(Lookup(t, host).error)
      ensures Lookup(t, host) == Ok(None) ==>
                r == Err(Exception(InvalidOperation, "Service of type " + FullName(t) + " not found."))
      ensures Lookup(t, host).Ok? && Lookup(t, host).value.Some? ==>
                r.Ok? && Realizes(Ok(Some(r.value)), Lookup(t, host))
      ensures IsNew(Lookup(t, host)) ==> fresh(Built(Ok(Some(r.value))))
    {
      var service := GetService(t, host);
      r := Required(service, t);
    }
  }
}
