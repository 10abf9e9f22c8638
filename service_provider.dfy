/**
 * The minimal service container: a list of registrations, a lookup that takes the first
 * registration of exactly the requested type, and a creation rule that prefers a registered
 * instance, then a factory, then a type to construct. Lifetimes are recorded and never consulted.
 */
module DependencyInjection {
  import opened Failures
  import opened Net
  import opened HttpClients
  import opened Services

  /** The types services are registered and requested under. */
  datatype ServiceType = StringType | HttpClientFactoryType | ApiServiceType | OtherType(fullName: string)

  /** `typeof(T).FullName`. */
  function FullName(t: ServiceType): string {
    match t
    case StringType => "System.String"
    case HttpClientFactoryType => "WebForms.Http.HttpClientFactory"
    case ApiServiceType => "WebForms.Services.ApiService"
    case OtherType(name) => name
  }

  datatype Lifetime = Singleton | Scoped | Transient

  /** An object the container hands out. */
  datatype Service =
    | Text(text: string)
    | ClientFactory(factory: HttpClientFactory)
    | Api(service: ApiService)
    | Constructed(typeName: string)   // an object of another type, built by reflection

  function TypeOf(s: Service): ServiceType {
    match s
    case Text(_) => StringType
    case ClientFactory(_) => HttpClientFactoryType
    case Api(_) => ApiServiceType
    case Constructed(name) => OtherType(name)
  }

  /** The factory delegates an application can register. */
  datatype FactoryDelegate =
    /** Returns the application setting under `key`, or `fallback` when there is none. */
    | SettingOrDefault(key: string, fallback: string)
    /** Builds an ApiService from the provider's HttpClientFactory and two string lookups (base URL, scope). */
    | ApiServiceFromProvider
    /** Builds an ApiService from the provider's HttpClientFactory and two settings read under their own keys. */
    | ApiServiceFromSettings(urlKey: string, urlFallback: string, scopeKey: string, scopeFallback: string)

  /** The type a factory delegate returns (its `TService`). */
  function ReturnType(f: FactoryDelegate): ServiceType {
    match f
    case SettingOrDefault(_, _) => StringType
    case _ => ApiServiceType
  }

  datatype ServiceDescriptor = ServiceDescriptor(serviceType: ServiceType, lifetime: Lifetime,
                                                 implementationInstance: Option<Service>,
                                                 implementationFactory: Option<FactoryDelegate>,
                                                 implementationType: Option<ServiceType>)

  /** `AddSingleton<T>(instance)`. */
  function InstanceRegistration(t: ServiceType, instance: Service): ServiceDescriptor {
    ServiceDescriptor(t, Singleton, Some(instance), None, None)
  }

  /** `AddTransient<T>(factory)`, `AddScoped<T>(factory)`, `AddSingleton<T>(factory)`. */
  function FactoryRegistration(lifetime: Lifetime, factory: FactoryDelegate): ServiceDescriptor {
    ServiceDescriptor(ReturnType(factory), lifetime, None, Some(factory), None)
  }

  /** What the generic registration methods guarantee: every part of a registration yields its service type. */
  predicate WellTyped(d: ServiceDescriptor) {
    (d.implementationInstance.Some? ==> TypeOf(d.implementationInstance.value) == d.serviceType) &&
    (d.implementationFactory.Some? ==> ReturnType(d.implementationFactory.value) == d.serviceType) &&
    (d.implementationType.Some? ==> d.implementationType.value == d.serviceType)
  }

  predicate AllWellTyped(ds: seq<ServiceDescriptor>) {
    forall i :: 0 <= i < |ds| ==> WellTyped(ds[i])
  }

  /** What factory delegates read from outside the container, and what the clients they build talk to. */
  datatype Host = Host(settings: map<string, string>, parseUri: string -> Result<Uri>, network: Network)

  /** `ConfigurationManager.AppSettings[key] ?? fallback`. */
  function AppSetting(settings: map<string, string>, key: string, fallback: string): string {
    if key in settings then settings[key] else fallback
  }

  /** A setting that is present wins over the default, even when it is empty (`??` tests for null only). */
  lemma SettingOverridesDefault(settings: map<string, string>, key: string, value: string, fallback: string)
    ensures AppSetting(settings[key := value], key, fallback) == value
  {
  }

  /** An absent setting gives the default. */
  lemma AbsentSettingGivesDefault(settings: map<string, string>, key: string, fallback: string)
    requires key !in settings
    ensures AppSetting(settings, key, fallback) == fallback
  {
  }

  /**
   * `FindServiceDescriptor(serviceType)`: the position of the first registration whose service
   * type is exactly the requested one, or none.
   */
  function FirstMatch(ds: seq<ServiceDescriptor>, t: ServiceType): (r: Option<nat>)
    ensures r.None? <==> forall j :: 0 <= j < |ds| ==> ds[j].serviceType != t
    ensures r.Some? ==> r.value < |ds| && ds[r.value].serviceType == t &&
                        forall j :: 0 <= j < r.value ==> ds[j].serviceType != t
  {
    if ds == [] then None
    else if ds[0].serviceType == t then Some(0)
    else match FirstMatch(ds[1..], t)
      case None => None
      case Some(i) => Some(i + 1)
  }

  /** Registrations added after a match cannot change what the lookup finds. */
  lemma {:induction false} FirstMatchIgnoresLaterRegistrations(ds: seq<ServiceDescriptor>, later: seq<ServiceDescriptor>,
                                                              t: ServiceType)
    requires FirstMatch(ds, t).Some?
    ensures FirstMatch(ds + later, t) == FirstMatch(ds, t)
  {
    if ds[0].serviceType != t {
      assert (ds + later)[1..] == ds[1..] + later;
      FirstMatchIgnoresLaterRegistrations(ds[1..], later, t);
    }
  }

  /** A description of what a resolution hands out: an object that already exists, or one it builds. */
  datatype Resolved =
    | Existing(service: Service)
    | NewClientFactory
    | NewApiService(factoryGiven: bool, apiBaseUrl: string, scope: string, baseAddress: Uri)
    | NewConstructed(typeName: string)

  function ResolvedType(x: Resolved): ServiceType {
    match x
    case Existing(s) => TypeOf(s)
    case NewClientFactory => HttpClientFactoryType
    case NewApiService(_, _, _, _) => ApiServiceType
    case NewConstructed(name) => OtherType(name)
  }

  /** `(string)o` of a resolved string service; a null reference stays null. */
  function TextOf(x: Option<Resolved>): Option<string> {
    if x.Some? && x.value.Existing? && x.value.service.Text? then Some(x.value.service.text) else None
  }

  /** Services are ranked so that a factory only resolves services of lower rank. */
  function Rank(t: ServiceType): nat {
    if t == ApiServiceType then 1 else 0
  }

  /** `GetService(serviceType)` on registrations `ds`: first match, then creation. */
  function Resolve(ds: seq<ServiceDescriptor>, t: ServiceType, host: Host): (r: Result<Option<Resolved>>)
    requires AllWellTyped(ds)
    ensures FirstMatch(ds, t).None? ==> r == Ok(None)
    ensures r.Ok? && r.value.Some? ==> ResolvedType(r.value.value) == t
    decreases Rank(t), 2
  {
    match FirstMatch(ds, t)
    case None => Ok(None)
    case Some(i) => Create(ds, ds[i], host)
  }

  /** `Activator.CreateInstance(type)`: only types with a parameterless constructor can be built. */
  function Activate(t: ServiceType): (r: Result<Option<Resolved>>)
    ensures r.Ok? ==> r.value.Some? && ResolvedType(r.value.value) == t
  {
    match t
    case HttpClientFactoryType => Ok(Some(NewClientFactory))
    case OtherType(name) => Ok(Some(NewConstructed(name)))
    case _ => Err(Exception(MissingMethod, "No parameterless constructor defined for this object."))
  }

  /** `CreateService(descriptor)`: instance, else factory, else type, else null. */
  function Create(ds: seq<ServiceDescriptor>, d: ServiceDescriptor, host: Host): (r: Result<Option<Resolved>>)
    requires AllWellTyped(ds) && WellTyped(d)
    ensures r.Ok? && r.value.Some? ==> ResolvedType(r.value.value) == d.serviceType
    ensures d.implementationInstance.Some? ==> r == Ok(Some(Existing(d.implementationInstance.value)))
    ensures d.implementationInstance.None? && d.implementationFactory.Some? ==>
              r == Invoke(ds, d.implementationFactory.value, host)
    ensures d.implementationInstance.None? && d.implementationFactory.None? && d.implementationType.Some? ==>
              r == Activate(d.implementationType.value)
    ensures d.implementationInstance.None? && d.implementationFactory.None? && d.implementationType.None? ==> r == Ok(None)
    decreases Rank(d.serviceType), 1
  {
    if d.implementationInstance.Some? then Ok(Some(Existing(d.implementationInstance.value)))
    else if d.implementationFactory.Some? then Invoke(ds, d.implementationFactory.value, host)
    else if d.implementationType.Some? then Activate(d.implementationType.value)
    else Ok(None)
  }

  /** `es` holds the registrations of `ds`, in the same order, each with a lifetime of its own. */
  predicate SameButLifetimes(es: seq<ServiceDescriptor>, ds: seq<ServiceDescriptor>) {
    |es| == |ds| && forall j :: 0 <= j < |ds| ==> es[j] == ds[j].(lifetime := es[j].lifetime)
  }

  /** The lookup sees only service types. */
  lemma {:induction false} FirstMatchSeesOnlyTypes(es: seq<ServiceDescriptor>, ds: seq<ServiceDescriptor>, t: ServiceType)
    requires |es| == |ds| && forall j :: 0 <= j < |ds| ==> es[j].serviceType == ds[j].serviceType
    ensures FirstMatch(es, t) == FirstMatch(ds, t)
  {
    if ds != [] && ds[0].serviceType != t {
      FirstMatchSeesOnlyTypes(es[1..], ds[1..], t);
    }
  }

  /**
   * The lifetimes registrations were made with never change what a resolution yields: two
   * registration lists that differ only in lifetimes resolve every type alike.
   */
  lemma {:induction false} LifetimeIsNeverConsulted(es: seq<ServiceDescriptor>, ds: seq<ServiceDescriptor>,
                                                    t: ServiceType, host: Host)
    requires AllWellTyped(ds) && SameButLifetimes(es, ds)
    ensures AllWellTyped(es) && Resolve(es, t, host) == Resolve(ds, t, host)
    decreases Rank(t)
  {
    forall j | 0 <= j < |es|
      ensures WellTyped(es[j]) && es[j].serviceType == ds[j].serviceType
    {
      assert es[j] == ds[j].(lifetime := es[j].lifetime);
    }
    FirstMatchSeesOnlyTypes(es, ds, t);
    if FirstMatch(ds, t).Some? {
      var i := FirstMatch(ds, t).value;
      var d := ds[i];
      assert es[i] == d.(lifetime := es[i].lifetime);
      if d.implementationInstance.None? && d.implementationFactory.Some? && !d.implementationFactory.value.SettingOrDefault? {
        LifetimeIsNeverConsulted(es, ds, HttpClientFactoryType, host);
        LifetimeIsNeverConsulted(es, ds, StringType, host);
      }
    }
  }

  /** Running a factory delegate with the provider itself as its argument. */
  function Invoke(ds: seq<ServiceDescriptor>, f: FactoryDelegate, host: Host): (r: Result<Option<Resolved>>)
    requires AllWellTyped(ds)
    ensures r.Ok? && r.value.Some? ==> ResolvedType(r.value.value) == ReturnType(f)
    decreases Rank(ReturnType(f)), 0
  {
    match f
    case SettingOrDefault(key, fallback) => Ok(Some(Existing(Text(AppSetting(host.settings, key, fallback)))))
    case ApiServiceFromProvider =>
      var factory := Resolve(ds, HttpClientFactoryType, host);
      if factory.Err? then Err(factory.error) else
      var apiBaseUrl := Resolve(ds, StringType, host);
      if apiBaseUrl.Err? then Err(apiBaseUrl.error) else
      // the second lookup of a string is the same lookup as the first, so it cannot fail now
      var apiScope := Resolve(ds, StringType, host);
      NewApi(factory.value.Some?, TextOf(apiBaseUrl.value), TextOf(apiScope.value), host)
    case ApiServiceFromSettings(urlKey, urlFallback, scopeKey, scopeFallback) =>
      var factory := Resolve(ds, HttpClientFactoryType, host);
      if factory.Err? then Err(factory.error) else
      NewApi(factory.value.Some?, Some(AppSetting(host.settings, urlKey, urlFallback)),
             Some(AppSetting(host.settings, scopeKey, scopeFallback)), host)
  }

  /** `new ApiService(factory, apiBaseUrl, scope)` as a description: its checks, then the URI. */
  function NewApi(factoryGiven: bool, apiBaseUrl: Option<string>, scope: Option<string>, host: Host)
    : (r: Result<Option<Resolved>>)
    ensures r.Ok? ==> r.value.Some? && r.value.value.NewApiService? &&
                      r.value.value.factoryGiven && Some(r.value.value.apiBaseUrl) == apiBaseUrl &&
                      Some(r.value.value.scope) == scope
    ensures r.Err? <==> BaseAddressFor(CheckArguments(factoryGiven, apiBaseUrl, scope), apiBaseUrl, host.parseUri).Err?
  {
    match BaseAddressFor(CheckArguments(factoryGiven, apiBaseUrl, scope), apiBaseUrl, host.parseUri)
    case Err(e) => Err(e)
    case Ok(uri) => Ok(Some(NewApiService(factoryGiven, apiBaseUrl.value, scope.value, uri)))
  }

  /** `GetService(serviceType)`: a null type is rejected, anything else is resolved. */
  function GetServiceSpec(ds: seq<ServiceDescriptor>, serviceType: Option<ServiceType>, host: Host)
    : (r: Result<Option<Resolved>>)
    requires AllWellTyped(ds)
    ensures serviceType.None? ==> r == Err(ArgumentNullException("serviceType"))
  {
    if serviceType.None? then Err(ArgumentNullException("serviceType")) else Resolve(ds, serviceType.value, host)
  }

  /** The objects a resolution built, or none when it handed out an existing one. */
  function Built(r: Result<Option<Service>>): set<object> {
    if r.Ok? && r.value.Some? then
      match r.value.value
      case ClientFactory(f) => {f}
      case Api(a) => {a, a.client}
      case _ => {}
    else {}
  }

  /** An object handed out matches its description. */
  ghost predicate Realizes(r: Result<Option<Service>>, spec: Result<Option<Resolved>>)
    reads Built(r)
  {
    match spec
    case Err(e) => r == Err(e)
    case Ok(None) => r == Ok(None)
    case Ok(Some(Existing(s))) => r == Ok(Some(s))
    case Ok(Some(NewClientFactory)) => r.Ok? && r.value.Some? && r.value.value.ClientFactory?
    case Ok(Some(NewConstructed(name))) => r == Ok(Some(Constructed(name)))
    case Ok(Some(NewApiService(_, apiBaseUrl, scope, baseAddress))) =>
      r.Ok? && r.value.Some? && r.value.value.Api? &&
      var a := r.value.value.service;
      a.client in Built(r) && a.Valid() && !a.disposed && a.apiBaseUrl == apiBaseUrl &&
      a.client.Setup() == HttpClients.AzureSetup(scope, Some(baseAddress))
  }

  predicate IsNew(spec: Result<Option<Resolved>>) {
    spec.Ok? && spec.value.Some? && !spec.value.value.Existing? && !spec.value.value.NewConstructed?
  }

  /** The registrations an application makes, in order. */
  class ServiceCollection {
    var descriptors: seq<ServiceDescriptor>

    ghost predicate Valid()
      reads this
    {
      AllWellTyped(descriptors)
    }

    constructor ()
      ensures Valid() && descriptors == []
    {
      descriptors := [];
    }

    method Add(d: ServiceDescriptor)
      requires Valid() && WellTyped(d)
      modifies this
      ensures Valid() && descriptors == old(descriptors) + [d]
    {
      descriptors := descriptors + [d];
    }
  }

  /** DefaultServiceProvider: resolves against the collection it was built from. */
  class ServiceProvider {
    const services: ServiceCollection

    constructor (services: ServiceCollection)
      ensures this.services == services
    {
      this.services := services;
    }

    /** `services.BuildServiceProvider()`: a null collection is rejected. */
    static method BuildServiceProvider(services: ServiceCollection?) returns (r: Result<ServiceProvider>)
      ensures services == null ==> r == Err(ArgumentNullException("services"))
      ensures services != null ==> r.Ok? && fresh(r.value) && r.value.services == services
    {
      if services == null {
        return Err(ArgumentNullException("services"));
      }
      var provider := new ServiceProvider(services);
      r := Ok(provider);
    }

    /** `FindServiceDescriptor(serviceType)`: a scan for the first exact match. */
    method FindServiceDescriptor(serviceType: ServiceType) returns (d: Option<ServiceDescriptor>)
      ensures d.None? <==> forall j :: 0 <= j < |services.descriptors| ==> services.descriptors[j].serviceType != serviceType
      ensures d.Some? ==> FirstMatch(services.descriptors, serviceType).Some? &&
                          d.value == services.descriptors[FirstMatch(services.descriptors, serviceType).value]
    {
      var ds := services.descriptors;
      var i := 0;
      while i < |ds|
        invariant 0 <= i <= |ds|
        invariant forall j :: 0 <= j < i ==> ds[j].serviceType != serviceType
      {
        if ds[i].serviceType == serviceType {
          return Some(ds[i]);
        }
        i := i + 1;
      }
      return None;
    }

    /** `GetService(serviceType)`. */
    method GetService(serviceType: Option<ServiceType>, host: Host) returns (r: Result<Option<Service>>)
      requires services.Valid()
      ensures Realizes(r, GetServiceSpec(services.descriptors, serviceType, host))
      ensures IsNew(GetServiceSpec(services.descriptors, serviceType, host)) ==> fresh(Built(r))
      decreases if serviceType.Some? then Rank(serviceType.value) else 0, 2
    {
      if serviceType.None? {
        return Err(ArgumentNullException("serviceType"));
      }
      var descriptor := FindServiceDescriptor(serviceType.value);
      if descriptor.None? {
        return Ok(None);
      }
      r := CreateService(descriptor.value, host);
    }

    /** `CreateService(descriptor)`. */
    method CreateService(d: ServiceDescriptor, host: Host) returns (r: Result<Option<Service>>)
      requires services.Valid() && WellTyped(d)
      ensures Realizes(r, Create(services.descriptors, d, host))
      ensures IsNew(Create(services.descriptors, d, host)) ==> fresh(Built(r))
      decreases Rank(d.serviceType), 1
    {
      if d.implementationInstance.Some? {
        return Ok(Some(d.implementationInstance.value));
      }
      if d.implementationFactory.Some? {
        r := InvokeFactory(d.implementationFactory.value, host);
        return;
      }
      if d.implementationType.Some? {
        r := ActivateType(d.implementationType.value);
        return;
      }
      return Ok(None);
    }

    /** `Activator.CreateInstance(type)`. */
    method ActivateType(t: ServiceType) returns (r: Result<Option<Service>>)
      ensures Realizes(r, Activate(t))
      ensures IsNew(Activate(t)) ==> fresh(Built(r))
    {
      match t
      case HttpClientFactoryType =>
        var factory := new HttpClientFactory();
        r := Ok(Some(ClientFactory(factory)));
      case OtherType(name) =>
        r := Ok(Some(Constructed(name)));
      case _ =>
        r := Err(Exception(MissingMethod, "No parameterless constructor defined for this object."));
    }

    /** `descriptor.ImplementationFactory(this)`. */
    method InvokeFactory(f: FactoryDelegate, host: Host) returns (r: Result<Option<Service>>)
      requires services.Valid()
      ensures Realizes(r, Invoke(services.descriptors, f, host))
      ensures IsNew(Invoke(services.descriptors, f, host)) ==> fresh(Built(r))
      decreases Rank(ReturnType(f)), 0
    {
      match f
      case SettingOrDefault(key, fallback) =>
        r := Ok(Some(Text(AppSetting(host.settings, key, fallback))));
      case ApiServiceFromProvider =>
        var factory := GetService(Some(HttpClientFactoryType), host);
        if factory.Err? {
          return Err(factory.error);
        }
        var apiBaseUrl := GetService(Some(StringType), host);
        if apiBaseUrl.Err? {
          return Err(apiBaseUrl.error);
        }
        var apiScope := GetService(Some(StringType), host);
        if apiScope.Err? {
          return Err(apiScope.error);
        }
        r := BuildApiService(AsClientFactory(factory.value), AsText(apiBaseUrl.value), AsText(apiScope.value), host);
      case ApiServiceFromSettings(urlKey, urlFallback, scopeKey, scopeFallback) =>
        var factory := GetService(Some(HttpClientFactoryType), host);
        if factory.Err? {
          return Err(factory.error);
        }
        r := BuildApiService(AsClientFactory(factory.value), Some(AppSetting(host.settings, urlKey, urlFallback)),
                             Some(AppSetting(host.settings, scopeKey, scopeFallback)), host);
    }

    /** `new ApiService(factory, apiBaseUrl, scope)` inside a factory delegate. */
    method BuildApiService(factory: HttpClientFactory?, apiBaseUrl: Option<string>, scope: Option<string>, host: Host)
      returns (r: Result<Option<Service>>)
      ensures Realizes(r, NewApi(factory != null, apiBaseUrl, scope, host))
      ensures IsNew(NewApi(factory != null, apiBaseUrl, scope, host)) ==> fresh(Built(r))
    {
      var created := ApiService.New(host.network, host.parseUri, factory, apiBaseUrl, scope);
      if created.Err? {
        return Err(created.error);
      }
      r := Ok(Some(Api(created.value)));
    }
  }

  /** `(HttpClientFactory)o`. */
  function AsClientFactory(o: Option<Service>): HttpClientFactory? {
    if o.Some? && o.value.ClientFactory? then o.value.factory else null
  }

  /** `(string)o`. */
  function AsText(o: Option<Service>): Option<string> {
    if o.Some? && o.value.Text? then Some(o.value.text) else None
  }
}
