/** The framework's service container, as far as the package uses it:
    singleton bindings under string keys, built on first resolution and then
    reused. Driver bindings live under "dokufy.driver.<name>". */
module Registry {
  import opened Wrappers
  import opened Errors
  import opened Environment
  import opened Config
  import opened Fakes
  import opened Drivers
  import LibreOfficeDriver
  import ChromiumDriver
  import PhpWordDriver

  /** Which driver class a binding's closure constructs. */
  datatype Kind = FakeKind | GotenbergKind | LibreOfficeKind | ChromiumKind | PhpWordKind

  /** A binding's closure: it builds a driver, or some object that is not a driver. */
  datatype Binding = DriverBinding(kind: Kind) | OtherBinding

  /** What resolving a binding yields. */
  datatype Instance = DriverInstance(driver: Driver) | OtherInstance

  function KindOf(d: Driver): Kind {
    match d
    case Fake(_) => FakeKind
    case Gotenberg => GotenbergKind
    case LibreOffice(_) => LibreOfficeKind
    case Chromium(_, _) => ChromiumKind
    case PhpWord(_) => PhpWordKind
  }

  /** The name `getName` reports for the drivers of a kind. */
  function KindName(k: Kind): string {
    match k
    case FakeKind => "fake"
    case GotenbergKind => "gotenberg"
    case LibreOfficeKind => "libreoffice"
    case ChromiumKind => "chromium"
    case PhpWordKind => "phpword"
  }

  /** Each driver reports the name of its kind, and different kinds have
      different names. */
  lemma KindNames(d: Driver, j: Kind, k: Kind)
    ensures Drivers.Name(d) == KindName(KindOf(d))
    ensures KindName(j) == KindName(k) ==> j == k
  {
  }

  /** A driver was built from the configuration: each driver constructor
      reads its own section of it. */
  predicate Conforms(d: Driver, config: Config) {
    match d
    case Fake(_) => true
    case Gotenberg => true
    case LibreOffice(c) => c == config.libreoffice
    case Chromium(c, pdf) => c == config.chromium && pdf == config.pdf
    case PhpWord(c) => c == config.phpword
  }

  /** Whether every driver of a kind built from `config` reports itself available. */
  predicate KindAvailable(k: Kind, config: Config, host: Host, nodes: Nodes) {
    match k
    case FakeKind => true
    case GotenbergKind => host.libraries.gotenberg && host.gotenbergHealthy
    case LibreOfficeKind => LibreOfficeDriver.Available(config.libreoffice, host, nodes)
    case ChromiumKind => host.libraries.browsershot
    case PhpWordKind => host.libraries.phpWord
  }

  /** A driver built from the configuration is available exactly when its kind is. */
  lemma AvailableByKind(d: Driver, config: Config, host: Host, nodes: Nodes)
    requires Conforms(d, config)
    ensures Drivers.Available(d, host, nodes) == KindAvailable(KindOf(d), config, host, nodes)
  {
  }

  /** The container key of a driver name. */
  function Abstract(name: string): string {
    "dokufy.driver." + name
  }

  /** Different names give different keys. */
  lemma AbstractInjective(a: string, b: string)
    ensures Abstract(a) == Abstract(b) ==> a == b
  {
    var p := "dokufy.driver.";
    if Abstract(a) == Abstract(b) {
      assert a == Abstract(a)[|p|..];
      assert b == Abstract(b)[|p|..];
    }
  }

  /** What `resolveDriverByName` finds under a name: no binding is
      "not found", a binding that builds no driver is "not properly
      configured", a driver binding gives its kind. */
  function Resolve(bindings: map<string, Binding>, name: string): (r: Result<Kind, Error>)
    ensures Abstract(name) !in bindings ==> r == Err(NotFound(name))
    ensures Abstract(name) in bindings && bindings[Abstract(name)].OtherBinding? ==> r == Err(NotConfigured(name))
    ensures r.Ok? <==> Abstract(name) in bindings && bindings[Abstract(name)].DriverBinding?
    ensures r.Ok? ==> r.value == bindings[Abstract(name)].kind
  {
    var a := Abstract(name);
    if a !in bindings then Err(NotFound(name))
    else match bindings[a]
      case OtherBinding => Err(NotConfigured(name))
      case DriverBinding(k) => Ok(k)
  }

  class Container {
    const config: Config
    var bindings: map<string, Binding>
    var instances: map<string, Driver>

    /** Only driver bindings are memoized here, each instance is of the
        bound kind and was built from the configuration. */
    ghost predicate Valid()
      reads this
    {
      forall a :: a in instances ==>
        a in bindings && bindings[a].DriverBinding? &&
        KindOf(instances[a]) == bindings[a].kind && Conforms(instances[a], config)
    }

    /** The recording drivers the container holds. */
    function Recorders(): set<object>
      reads this
    {
      set a | a in instances && instances[a].Fake? :: instances[a].recorder
    }

    constructor (config: Config)
      ensures this.config == config && bindings == map[] && instances == map[]
      ensures Valid()
    {
      this.config := config;
      bindings := map[];
      instances := map[];
    }

    /** `singleton`: (re)binds the key; an instance built earlier is dropped. */
    method Singleton(key: string, kind: Kind)
      modifies this
      requires Valid()
      ensures bindings == old(bindings)[key := DriverBinding(kind)]
      ensures instances == old(instances) - {key}
      ensures Valid()
    {
      bindings := bindings[key := DriverBinding(kind)];
      instances := instances - {key};
    }

    /** Binds the key to a closure that builds something other than a driver. */
    method BindOther(key: string)
      modifies this
      requires Valid()
      ensures bindings == old(bindings)[key := OtherBinding]
      ensures instances == old(instances) - {key}
      ensures Valid()
    {
      bindings := bindings[key := OtherBinding];
      instances := instances - {key};
    }

    /** A driver constructor, reading its section of the configuration. */
    method Build(kind: Kind) returns (d: Driver)
      ensures KindOf(d) == kind && Conforms(d, config)
      ensures d.Fake? ==> fresh(d.recorder) && d.recorder.calls == [] && d.recorder.generatedFiles == []
    {
      match kind
      case FakeKind =>
        var recorder := new FakeDriver();
        d := Fake(recorder);
      case GotenbergKind => d := Gotenberg;
      case LibreOfficeKind => d := LibreOffice(config.libreoffice);
      case ChromiumKind => d := Chromium(config.chromium, config.pdf);
      case PhpWordKind => d := PhpWord(config.phpword);
    }

    /** `make` on a bound key: the memoized instance if there is one,
        else a new one, memoized when it is a driver. */
    method Make(key: string) returns (o: Instance)
      modifies this
      requires Valid() && key in bindings
      ensures bindings == old(bindings) && Valid()
      ensures key in old(instances) ==> o == DriverInstance(old(instances)[key]) && instances == old(instances)
      ensures old(bindings)[key].OtherBinding? ==> o == OtherInstance && instances == old(instances)
      ensures key !in old(instances) && old(bindings)[key].DriverBinding? ==>
                o.DriverInstance? && instances == old(instances)[key := o.driver] &&
                (o.driver.Fake? ==> fresh(o.driver.recorder) && o.driver.recorder.calls == [] &&
                                    o.driver.recorder.generatedFiles == [])
      ensures o.DriverInstance? ==> key in instances && instances[key] == o.driver
    {
      if key in instances {
        return DriverInstance(instances[key]);
      }
      match bindings[key]
      case OtherBinding =>
        o := OtherInstance;
      case DriverBinding(kind) =>
        var d := Build(kind);
        instances := instances[key := d];
        o := DriverInstance(d);
    }
  }
}
