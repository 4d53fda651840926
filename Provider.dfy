/** The package's service provider: at registration the five drivers are
    bound as lazily built singletons under "dokufy.driver.<name>", and then
    the builder itself is bound as a singleton with the alias "dokufy". */
module Provider {
  import opened Wrappers
  import opened Errors
  import opened Config
  import opened Drivers
  import opened Registry
  import opened Orchestrator

  /** The driver names the provider registers, in registration order. */
  const DriverNames: seq<string> := ["fake", "gotenberg", "libreoffice", "chromium", "phpword"]

  /** The container key of the builder class, and its alias. */
  const DokufyClass: string := "CleaniqueCoders\\Dokufy\\Dokufy"
  const DokufyAlias: string := "dokufy"

  /** The bindings after `registerDrivers`, one singleton per driver class. */
  function Registered(bindings: map<string, Binding>): map<string, Binding> {
    bindings[Abstract("fake") := DriverBinding(FakeKind)]
            [Abstract("gotenberg") := DriverBinding(GotenbergKind)]
            [Abstract("libreoffice") := DriverBinding(LibreOfficeKind)]
            [Abstract("chromium") := DriverBinding(ChromiumKind)]
            [Abstract("phpword") := DriverBinding(PhpWordKind)]
  }

  /** Each registered name resolves to the driver kind reporting that very
      name; every other name resolves as it did before registration. */
  lemma {:induction false} RegisteredNames(bindings: map<string, Binding>, name: string)
    ensures name in DriverNames ==>
              Resolve(Registered(bindings), name).Ok? && KindName(Resolve(Registered(bindings), name).value) == name
    ensures name !in DriverNames ==> Resolve(Registered(bindings), name) == Resolve(bindings, name)
  {
    AbstractInjective(name, "fake");
    AbstractInjective(name, "gotenberg");
    AbstractInjective(name, "libreoffice");
    AbstractInjective(name, "chromium");
    AbstractInjective(name, "phpword");
  }

  /** Registered in an empty container, exactly the five names resolve. */
  lemma {:induction false} ExactlyFiveNames(name: string)
    ensures Resolve(Registered(map[]), name).Ok? <==> name in DriverNames
  {
    RegisteredNames(map[], name);
  }

  /** The five `singleton` calls of `registerDrivers`, on the container. */
  method Register(container: Container)
    requires container.Valid()
    modifies container
    ensures container.Valid()
    ensures container.bindings == Registered(old(container.bindings))
    ensures container.instances == old(container.instances) - {Abstract("fake")} - {Abstract("gotenberg")}
                                     - {Abstract("libreoffice")} - {Abstract("chromium")} - {Abstract("phpword")}
  {
    container.Singleton(Abstract("fake"), FakeKind);
    container.Singleton(Abstract("gotenberg"), GotenbergKind);
    container.Singleton(Abstract("libreoffice"), LibreOfficeKind);
    container.Singleton(Abstract("chromium"), ChromiumKind);
    container.Singleton(Abstract("phpword"), PhpWordKind);
  }

  /** The framework application, as far as the provider uses it. */
  class Application {
    const container: Container
    var dokufyBound: bool
    var dokufy: Option<Dokufy>

    function Builders(): set<object>
      reads this
    {
      if dokufy.Some? then {dokufy.value} else {}
    }

    /** The builder singleton exists only once bound, and shares the container. */
    ghost predicate Valid()
      reads this, container, Builders()
    {
      && container.Valid()
      && (dokufy.Some? ==> dokufyBound && dokufy.value.container == container && dokufy.value.Valid())
    }

    constructor (config: Config)
      ensures fresh(container) && container.config == config
      ensures container.bindings == map[] && container.instances == map[]
      ensures !dokufyBound && dokufy == None && Valid()
    {
      container := new Container(config);
      dokufyBound := false;
      dokufy := None;
    }

    /** `registerDrivers`: five singleton bindings, one after the other; a
        driver built under one of those keys earlier is dropped. */
    method RegisterDrivers()
      requires Valid()
      modifies container
      ensures Valid()
      ensures container.bindings == Registered(old(container.bindings))
      ensures container.instances == old(container.instances) - {Abstract("fake")} - {Abstract("gotenberg")}
                                       - {Abstract("libreoffice")} - {Abstract("chromium")} - {Abstract("phpword")}
    {
      Register(container);
    }

    /** `registerDokufy`: binding the singleton drops a builder built earlier. */
    method RegisterDokufy()
      modifies this
      ensures dokufyBound && dokufy == None && Valid()
      requires Valid()
    {
      dokufyBound := true;
      dokufy := None;
    }

    /** `packageRegistered`: the drivers first, then the builder. */
    method PackageRegistered()
      requires Valid()
      modifies this, container
      ensures Valid() && dokufyBound && dokufy == None
      ensures container.bindings == Registered(old(container.bindings))
    {
      RegisterDrivers();
      RegisterDokufy();
    }

    /** Resolving the builder by its class name or by its alias: built on
        the first request, the same object afterwards. */
    method MakeDokufy(key: string) returns (d: Dokufy)
      requires Valid() && dokufyBound && (key == DokufyClass || key == DokufyAlias)
      modifies this
      ensures Valid() && dokufyBound && dokufy == Some(d)
      ensures old(dokufy).Some? ==> d == old(dokufy).value
      ensures old(dokufy).None? ==> fresh(d) && d.container == container && d.driver == None &&
                                    d.templatePath == None && d.htmlContent == None && d.data == []
    {
      if dokufy.Some? {
        return dokufy.value;
      }
      d := new Dokufy(container);
      dokufy := Some(d);
    }
  }

  /** A booted application: both spellings of the builder give one object;
      each registered driver name resolves, twice to the same driver, whose
      name is the one asked for; any other name is not found. */
  method Boot(config: Config, name: string)
    returns (first: Dokufy, second: Dokufy, driverA: Result<Driver, Error>, driverB: Result<Driver, Error>)
    ensures first == second
    ensures name in DriverNames ==> driverA.Ok? && driverA == driverB && Drivers.Name(driverA.value) == name
    ensures name !in DriverNames ==> driverA == Err(NotFound(name)) && driverB == driverA
  {
    var app := new Application(config);
    app.PackageRegistered();
    RegisteredNames(map[], name);
    first := app.MakeDokufy(DokufyClass);
    second := app.MakeDokufy(DokufyAlias);
    driverA := first.ResolveDriverByName(name);
    driverB := first.ResolveDriverByName(name);
    if driverA.Ok? {
      KindNames(driverA.value, KindOf(driverA.value), KindOf(driverA.value));
    }
  }
}
