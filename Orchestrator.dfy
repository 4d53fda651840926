/** The request-scoped document builder: a source (a template file or
    inline HTML), placeholder data, an optional pinned driver and an
    optional recording driver; `toPdf` routes the source to the driver. */
module Orchestrator {
  import opened Wrappers
  import opened Strings
  import opened Errors
  import opened Environment
  import opened Config
  import opened Placeholders
  import opened Fakes
  import opened Drivers
  import opened Registry
  import Paths
  import PhpWordDriver

  /** `config('dokufy.default', 'gotenberg')`: the fallback applies only
      when the key is absent. */
  function DefaultName(config: Config): string {
    config.default.GetOr("gotenberg")
  }

  /** Templates whose lower-cased extension is "html" or "htm" are read and
      converted as HTML. */
  predicate IsHtmlTemplate(path: string) {
    var ext := Lower(Paths.Extension(path));
    ext == "html" || ext == "htm"
  }

  /** Where `toPdf` sends the document, decided from the source alone. */
  datatype Route = HtmlRoute(html: string) | DocxRoute(path: string) | NoRoute(error: Error)

  /** The routing of `toPdf` once the driver is resolved: inline HTML wins;
      an HTML template is read (a missing file is the file-system's error)
      and substituted; any other template is handed over as a DOCX path
      without substitution; no source is an error. */
  function RouteFor(htmlContent: Option<string>, templatePath: Option<string>, handler: Option<Handler>,
                    data: Data, nodes: Nodes): Route
  {
    if htmlContent.Some? then HtmlRoute(Substituted(htmlContent.value, EffectiveData(handler, data)))
    else if templatePath.Some? then
      var t := templatePath.value;
      if IsHtmlTemplate(t) then
        if IsFile(nodes, t) then HtmlRoute(Substituted(nodes[t].contents, EffectiveData(handler, data)))
        else NoRoute(FileNotFound(t))
      else DocxRoute(t)
    else NoRoute(NoContent)
  }

  /** With inline HTML the template is ignored and the substituted HTML is converted. */
  lemma RouteInlineHtml(html: string, templatePath: Option<string>, h: Option<Handler>, data: Data, nodes: Nodes)
    ensures RouteFor(Some(html), templatePath, h, data, nodes) == HtmlRoute(Substituted(html, EffectiveData(h, data)))
  {
  }

  /** An HTML template, whatever the case of its extension, is read and substituted. */
  lemma {:induction false} RouteHtmlTemplate(dir: string, stem: string, ext: string, h: Option<Handler>, data: Data, nodes: Nodes)
    requires forall j :: 0 <= j < |stem| ==> stem[j] != '/'
    requires forall j :: 0 <= j < |ext| ==> ext[j] != '/' && ext[j] != '.'
    requires Lower(ext) == "html" || Lower(ext) == "htm"
    requires IsFile(nodes, dir + "/" + stem + "." + ext)
    ensures var t := dir + "/" + stem + "." + ext;
            RouteFor(None, Some(t), h, data, nodes) == HtmlRoute(Substituted(nodes[t].contents, EffectiveData(h, data)))
  {
    Paths.ExtensionOfJoin(dir, stem, ext);
  }

  /** A template whose extension is "docx" goes to `docxToPdf` unchanged,
      even when the file is missing. */
  lemma {:induction false} RouteDocxTemplate(t: string, h: Option<Handler>, data: Data, nodes: Nodes)
    requires Paths.Extension(t) == "docx"
    ensures RouteFor(None, Some(t), h, data, nodes) == DocxRoute(t)
  {
    var lowered := Lower("docx");
    assert lowered[0] == 'd' && lowered[1] == 'o' && lowered[2] == 'c' && lowered[3] == 'x';
    assert lowered == "docx";
  }

  /** The recorded call a route makes on the fake driver. */
  function CallFor(route: Route, outputPath: string): Call
    requires !route.NoRoute?
  {
    match route
    case HtmlRoute(html) => Call("htmlToPdf", [html, outputPath])
    case DocxRoute(path) => Call("docxToPdf", [path, outputPath])
  }

  /** What a real driver does with a route. */
  function Delivery(d: Driver, route: Route, host: Host, nodes: Nodes, outputPath: string): (Result<string, Error>, Nodes)
    requires !d.Fake? && !route.NoRoute?
  {
    match route
    case HtmlRoute(html) => HtmlEffect(d, host, nodes, html, outputPath)
    case DocxRoute(path) => DocxEffect(d, host, nodes, path, outputPath)
  }

  /** The renderer a route's conversion configures in the word-processing
      library's settings (only the PhpWord driver configures one). */
  function RouteRenderer(d: Driver, route: Route, host: Host, nodes: Nodes, outputPath: string): Option<PhpWordDriver.RendererSetting>
    requires !route.NoRoute?
  {
    match route
    case HtmlRoute(_) => HtmlRenderer(d, host, nodes, outputPath)
    case DocxRoute(path) => DocxRenderer(d, host, nodes, path, outputPath)
  }

  /** A configured name is kept by `getAvailableDrivers` when it resolves to
      a driver that reports itself available. */
  predicate Usable(bindings: map<string, Binding>, config: Config, host: Host, nodes: Nodes, name: string) {
    var r := Resolve(bindings, name);
    r.Ok? && KindAvailable(r.value, config, host, nodes)
  }

  /** `getAvailableDrivers`: the configured names, in order, without the
      ones that are not usable. */
  function AvailableNames(names: seq<string>, bindings: map<string, Binding>, config: Config, host: Host, nodes: Nodes): seq<string>
    decreases |names|
  {
    if names == [] then []
    else
      var last := names[|names| - 1];
      AvailableNames(names[..|names| - 1], bindings, config, host, nodes) +
        (if Usable(bindings, config, host, nodes, last) then [last] else [])
  }

  /** A name is listed iff it is configured and usable; nothing is added. */
  lemma {:induction false} AvailableNamesMembers(names: seq<string>, bindings: map<string, Binding>, config: Config, host: Host, nodes: Nodes)
    ensures var r := AvailableNames(names, bindings, config, host, nodes);
            |r| <= |names| &&
            forall n :: n in r <==> n in names && Usable(bindings, config, host, nodes, n)
    decreases |names|
  {
    if names != [] {
      var init := names[..|names| - 1];
      AvailableNamesMembers(init, bindings, config, host, nodes);
      assert names == init + [names[|names| - 1]];
    }
  }

  /** With every configured name usable, all of them are listed, in order. */
  lemma {:induction false} AvailableNamesAll(names: seq<string>, bindings: map<string, Binding>, config: Config, host: Host, nodes: Nodes)
    requires forall i :: 0 <= i < |names| ==> Usable(bindings, config, host, nodes, names[i])
    ensures AvailableNames(names, bindings, config, host, nodes) == names
    decreases |names|
  {
    if names != [] {
      var init := names[..|names| - 1];
      AvailableNamesAll(init, bindings, config, host, nodes);
      assert names == init + [names[|names| - 1]];
    }
  }

  /** Hands a routed source to the driver's matching conversion. */
  method Dispatch(d: Driver, route: Route, host: Host, fs: FileSystem, settings: PhpWordDriver.Settings, outputPath: string)
    returns (r: Result<string, Error>)
    requires !route.NoRoute?
    modifies fs, settings, Objects(d)
    ensures !d.Fake? ==> (r, fs.nodes) == Delivery(d, route, host, old(fs.nodes), outputPath)
    ensures d.Fake? ==> r == Ok(outputPath) && fs.nodes == old(fs.nodes) &&
                        d.recorder.calls == old(d.recorder.calls) + [CallFor(route, outputPath)] &&
                        d.recorder.generatedFiles == old(d.recorder.generatedFiles) + [outputPath]
    ensures !d.PhpWord? ==> unchanged(settings)
    ensures RouteRenderer(d, route, host, old(fs.nodes), outputPath).None? ==> unchanged(settings)
    ensures RouteRenderer(d, route, host, old(fs.nodes), outputPath).Some? ==>
              Configured(settings, RouteRenderer(d, route, host, old(fs.nodes), outputPath).value)
  {
    match route
    case HtmlRoute(html) =>
      r := Drivers.HtmlToPdf(d, host, fs, settings, html, outputPath);
    case DocxRoute(path) =>
      r := Drivers.DocxToPdf(d, host, fs, settings, path, outputPath);
  }

  class Dokufy {
    const container: Container
    var templatePath: Option<string>
    var htmlContent: Option<string>
    var data: Data
    var driver: Option<Driver>
    var fakeDriver: Option<FakeDriver>
    var placeholderHandler: Option<Handler>

    /** At most one source is set, the container is consistent and a pinned
        driver was built from its configuration. */
    ghost predicate Valid()
      reads this, container
    {
      && !(templatePath.Some? && htmlContent.Some?)
      && container.Valid()
      && (driver.Some? ==> Conforms(driver.value, container.config))
    }

    /** The recording drivers `toPdf` may append to. */
    function Recorders(): set<object>
      reads this, container
    {
      (if driver.Some? then Objects(driver.value) else {}) + container.Recorders()
    }

    function FakeObjects(): set<object>
      reads this
    {
      if fakeDriver.Some? then {fakeDriver.value} else {}
    }

    constructor (container: Container)
      requires container.Valid()
      ensures this.container == container && Valid()
      ensures templatePath == None && htmlContent == None && data == [] && driver == None
      ensures fakeDriver == None && placeholderHandler == None
    {
      this.container := container;
      templatePath := None;
      htmlContent := None;
      data := [];
      driver := None;
      fakeDriver := None;
      placeholderHandler := None;
    }

    /** `template`: a missing path fails and changes nothing; otherwise the
        template replaces any inline HTML. */
    method Template(fs: FileSystem, path: string) returns (r: Result<Dokufy, Error>)
      requires Valid()
      modifies this
      ensures Valid()
      ensures !Exists(fs.nodes, path) ==> r == Err(TemplateNotFound(path)) && unchanged(this)
      ensures Exists(fs.nodes, path) ==>
                r == Ok(this) && templatePath == Some(path) && htmlContent == None &&
                data == old(data) && driver == old(driver) && fakeDriver == old(fakeDriver) &&
                placeholderHandler == old(placeholderHandler)
    {
      if !Exists(fs.nodes, path) {
        return Err(TemplateNotFound(path));
      }
      templatePath := Some(path);
      htmlContent := None;
      return Ok(this);
    }

    /** `html`: inline HTML replaces any template. */
    method Html(content: string) returns (self: Dokufy)
      requires Valid()
      modifies this
      ensures Valid() && self == this
      ensures htmlContent == Some(content) && templatePath == None
      ensures data == old(data) && driver == old(driver) && fakeDriver == old(fakeDriver)
      ensures placeholderHandler == old(placeholderHandler)
    {
      htmlContent := Some(content);
      templatePath := None;
      return this;
    }

    /** `data`: merged over the earlier data, later values winning. */
    method Data(more: Data) returns (self: Dokufy)
      requires Valid()
      modifies this
      ensures Valid() && self == this
      ensures data == Merge(old(data), more)
      ensures templatePath == old(templatePath) && htmlContent == old(htmlContent)
      ensures driver == old(driver) && fakeDriver == old(fakeDriver)
      ensures placeholderHandler == old(placeholderHandler)
    {
      data := Merge(data, more);
      return this;
    }

    /** `with`: attaches a placeholder handler. */
    method With(handler: Handler) returns (self: Dokufy)
      requires Valid()
      modifies this
      ensures Valid() && self == this
      ensures placeholderHandler == Some(handler)
      ensures templatePath == old(templatePath) && htmlContent == old(htmlContent) && data == old(data)
      ensures driver == old(driver) && fakeDriver == old(fakeDriver)
    {
      placeholderHandler := Some(handler);
      return this;
    }

    /** `processPlaceholders`: the handler's data replaces the explicit data
        when a handler is attached. */
    method ProcessPlaceholders(content: string) returns (r: string)
      ensures r == Substituted(content, EffectiveData(placeholderHandler, data))
    {
      var effective := data;
      if placeholderHandler.Some? {
        effective := HandlerData(placeholderHandler);
      }
      r := Substitute(content, effective);
    }

    /** `resolveDriverByName`. */
    method ResolveDriverByName(name: string) returns (r: Result<Driver, Error>)
      requires container.Valid()
      modifies container
      ensures container.Valid() && container.bindings == old(container.bindings)
      ensures r.Err? <==> Resolve(old(container.bindings), name).Err?
      ensures r.Err? ==> r.error == Resolve(old(container.bindings), name).error && container.instances == old(container.instances)
      ensures r.Ok? ==> KindOf(r.value) == Resolve(old(container.bindings), name).value &&
                        Conforms(r.value, container.config) &&
                        Abstract(name) in container.instances && container.instances[Abstract(name)] == r.value
      ensures Abstract(name) in old(container.instances) ==>
                r == Ok(old(container.instances)[Abstract(name)]) && container.instances == old(container.instances)
      ensures r.Ok? && r.value.Fake? ==> fresh(r.value.recorder) || r.value.recorder in old(container.Recorders())
      ensures r.Ok? && r.value.Fake? && Abstract(name) !in old(container.instances) ==> fresh(r.value.recorder)
      ensures r.Ok? && r.value.Fake? && fresh(r.value.recorder) ==>
                r.value.recorder.calls == [] && r.value.recorder.generatedFiles == []
    {
      var key := Abstract(name);
      if key !in container.bindings {
        return Err(NotFound(name));
      }
      var o := container.Make(key);
      if o.OtherInstance? {
        assert old(container.bindings)[key].OtherBinding?;
        return Err(NotConfigured(name));
      }
      if key in old(container.instances) && o.driver.Fake? {
        assert o.driver.recorder in old(container.Recorders());
      }
      return Ok(o.driver);
    }

    /** Which driver kind `toPdf` will use, or why none resolves. */
    function DriverResolution(): Result<Registry.Kind, Error>
      reads this, container
    {
      if driver.Some? then Ok(KindOf(driver.value))
      else Resolve(container.bindings, DefaultName(container.config))
    }

    /** The driver `toPdf` uses once it has resolved one. */
    function CurrentDriver(): Option<Driver>
      reads this, container
    {
      if driver.Some? then driver
      else
        var key := Abstract(DefaultName(container.config));
        if key in container.instances then Some(container.instances[key]) else None
    }

    /** The recording driver of the driver `toPdf` uses, when that driver
        is already pinned or built; no other recorder may change. */
    function ChosenObjects(): set<object>
      reads this, container
    {
      if CurrentDriver().Some? then Objects(CurrentDriver().value) else {}
    }

    /** `resolveDriver`: the pinned driver, else the configured default. */
    method ResolveDriver() returns (r: Result<Driver, Error>)
      requires Valid()
      modifies container
      ensures Valid() && container.bindings == old(container.bindings)
      ensures r.Err? <==> old(DriverResolution()).Err?
      ensures r.Err? ==> r.error == old(DriverResolution()).error && container.instances == old(container.instances)
      ensures r.Ok? ==> KindOf(r.value) == old(DriverResolution()).value && CurrentDriver() == Some(r.value) &&
                        Conforms(r.value, container.config)
      ensures old(CurrentDriver()).Some? ==> r == Ok(old(CurrentDriver()).value)
      ensures r.Ok? && r.value.Fake? ==> fresh(r.value.recorder) || r.value.recorder in old(Recorders())
      ensures r.Ok? && r.value.Fake? && old(CurrentDriver()).None? ==> fresh(r.value.recorder)
      ensures r.Ok? && r.value.Fake? && fresh(r.value.recorder) ==>
                r.value.recorder.calls == [] && r.value.recorder.generatedFiles == []
    {
      if driver.Some? {
        return Ok(driver.value);
      }
      r := ResolveDriverByName(DefaultName(container.config));
    }

    /** `driver`: pins a driver by name; an unknown or misbound name fails
        and changes nothing. */
    method Driver(name: string) returns (r: Result<Dokufy, Error>)
      requires Valid()
      modifies this, container
      ensures Valid() && container.bindings == old(container.bindings)
      ensures r.Err? <==> Resolve(old(container.bindings), name).Err?
      ensures r.Err? ==> r.error == Resolve(old(container.bindings), name).error && unchanged(this) && container.instances == old(container.instances)
      ensures r.Ok? ==> r == Ok(this) && driver.Some? && KindOf(driver.value) == Resolve(old(container.bindings), name).value &&
                        Abstract(name) in container.instances && driver == Some(container.instances[Abstract(name)])
      ensures templatePath == old(templatePath) && htmlContent == old(htmlContent) && data == old(data)
      ensures fakeDriver == old(fakeDriver) && placeholderHandler == old(placeholderHandler)
    {
      var resolved := ResolveDriverByName(name);
      if resolved.Err? {
        return Err(resolved.error);
      }
      driver := Some(resolved.value);
      return Ok(this);
    }

    /** `make`: a new builder sharing the container, with nothing set, and
        with the named driver pinned when a name is given. */
    method Make(driverName: Option<string>) returns (r: Result<Dokufy, Error>)
      requires Valid()
      modifies container
      ensures container.Valid() && container.bindings == old(container.bindings)
      ensures driverName.None? ==> r.Ok? && r.value.driver == None
      ensures driverName.Some? ==> (r.Err? <==> Resolve(old(container.bindings), driverName.value).Err?)
      ensures driverName.Some? && r.Err? ==> r.error == Resolve(old(container.bindings), driverName.value).error
      ensures r.Ok? ==> fresh(r.value) && r.value.container == container && r.value.Valid() &&
                        r.value.templatePath == None && r.value.htmlContent == None && r.value.data == [] &&
                        r.value.fakeDriver == None && r.value.placeholderHandler == None
      ensures r.Ok? && driverName.Some? ==>
                r.value.driver.Some? && KindOf(r.value.driver.value) == Resolve(old(container.bindings), driverName.value).value &&
                Abstract(driverName.value) in container.instances &&
                r.value.driver == Some(container.instances[Abstract(driverName.value)])
    {
      var instance := new Dokufy(container);
      if driverName.Some? {
        var pinned := instance.Driver(driverName.value);
        if pinned.Err? {
          return Err(pinned.error);
        }
      }
      return Ok(instance);
    }

    /** `toPdf`: the driver is resolved first, so a driver error wins over a
        missing source; then the source is routed to the driver, whose answer
        is returned. */
    method ToPdf(host: Host, fs: FileSystem, settings: PhpWordDriver.Settings, outputPath: string)
      returns (r: Result<string, Error>)
      requires Valid()
      modifies fs, settings, container, ChosenObjects()
      ensures Valid() && container.bindings == old(container.bindings)
      ensures old(DriverResolution()).Err? ==> r == Err(old(DriverResolution()).error) && fs.nodes == old(fs.nodes) &&
                                                unchanged(settings)
      ensures old(DriverResolution()).Ok? && old(RouteFor(htmlContent, templatePath, placeholderHandler, data, fs.nodes)).NoRoute? ==>
                r == Err(old(RouteFor(htmlContent, templatePath, placeholderHandler, data, fs.nodes)).error) &&
                fs.nodes == old(fs.nodes) && unchanged(settings)
      ensures old(DriverResolution()).Ok? && !old(RouteFor(htmlContent, templatePath, placeholderHandler, data, fs.nodes)).NoRoute? ==>
                var route := old(RouteFor(htmlContent, templatePath, placeholderHandler, data, fs.nodes));
                CurrentDriver().Some? && KindOf(CurrentDriver().value) == old(DriverResolution()).value &&
                var d := CurrentDriver().value;
                (!d.Fake? ==> (r, fs.nodes) == Delivery(d, route, host, old(fs.nodes), outputPath)) &&
                (d.Fake? ==> r == Ok(outputPath) && fs.nodes == old(fs.nodes) &&
                             (fresh(d.recorder) ==> d.recorder.calls == [CallFor(route, outputPath)] &&
                                                    d.recorder.generatedFiles == [outputPath]) &&
                             (!fresh(d.recorder) ==> d.recorder.calls == old(d.recorder.calls) + [CallFor(route, outputPath)] &&
                                                     d.recorder.generatedFiles == old(d.recorder.generatedFiles) + [outputPath])) &&
                var renderer := RouteRenderer(d, route, host, old(fs.nodes), outputPath);
                (renderer.None? ==> unchanged(settings)) && (renderer.Some? ==> Configured(settings, renderer.value))
    {
      ghost var route0 := RouteFor(htmlContent, templatePath, placeholderHandler, data, fs.nodes);
      var resolved := ResolveDriver();
      if resolved.Err? {
        return Err(resolved.error);
      }
      var route := Routed(fs);
      assert route == route0;
      if route.NoRoute? {
        return Err(route.error);
      }
      var d := resolved.value;
      assert Objects(d) <= old(Recorders()) || (d.Fake? && fresh(d.recorder));
      ghost var calls0 := if d.Fake? then d.recorder.calls else [];
      ghost var files0 := if d.Fake? then d.recorder.generatedFiles else [];
      ghost var renderer := RouteRenderer(d, route, host, fs.nodes, outputPath);
      r := Dispatch(d, route, host, fs, settings, outputPath);
      assert (renderer.None? ==> unchanged(settings)) && (renderer.Some? ==> Configured(settings, renderer.value));
      assert d.Fake? ==> d.recorder.calls == calls0 + [CallFor(route, outputPath)] &&
                         d.recorder.generatedFiles == files0 + [outputPath];
    }

    /** The routing step of `toPdf`, reading an HTML template from the files. */
    method Routed(fs: FileSystem) returns (route: Route)
      ensures route == RouteFor(htmlContent, templatePath, placeholderHandler, data, fs.nodes)
    {
      if htmlContent.Some? {
        var html := ProcessPlaceholders(htmlContent.value);
        return HtmlRoute(html);
      }
      if templatePath.Some? {
        var t := templatePath.value;
        if IsHtmlTemplate(t) {
          if !IsFile(fs.nodes, t) {
            return NoRoute(FileNotFound(t));
          }
          var html := ProcessPlaceholders(fs.nodes[t].contents);
          return HtmlRoute(html);
        }
        return DocxRoute(t);
      }
      return NoRoute(NoContent);
    }

    /** `toDocx`: a byte copy of the template; no driver, no substitution. */
    method ToDocx(fs: FileSystem, outputPath: string) returns (r: Result<string, Error>)
      modifies fs
      ensures templatePath.None? ==> r == Err(TemplateRequired) && fs.nodes == old(fs.nodes)
      ensures templatePath.Some? ==> r == Ok(outputPath) && fs.nodes == Copied(old(fs.nodes), templatePath.value, outputPath)
    {
      if templatePath.None? {
        return Err(TemplateRequired);
      }
      fs.Copy(templatePath.value, outputPath);
      return Ok(outputPath);
    }

    /** `getAvailableDrivers`: every configured name is probed; a name that
        does not resolve is skipped rather than reported. */
    method GetAvailableDrivers(host: Host, fs: FileSystem) returns (names: seq<string>)
      requires Valid()
      modifies container
      ensures Valid() && container.bindings == old(container.bindings)
      ensures names == AvailableNames(container.config.driverNames, old(container.bindings), container.config, host, fs.nodes)
    {
      var configured := container.config.driverNames;
      names := [];
      var i := 0;
      while i < |configured|
        invariant 0 <= i <= |configured|
        invariant Valid() && container.bindings == old(container.bindings)
        invariant names == AvailableNames(configured[..i], container.bindings, container.config, host, fs.nodes)
      {
        var name := configured[i];
        var resolved := ResolveDriverByName(name);
        if resolved.Ok? {
          var available := Drivers.IsAvailable(resolved.value, host, fs);
          AvailableByKind(resolved.value, container.config, host, fs.nodes);
          if available {
            names := names + [name];
          }
        }
        assert configured[..i + 1][..i] == configured[..i];
        i := i + 1;
      }
      assert configured[..i] == configured;
    }

    /** `isDriverAvailable`: never fails; a name that does not resolve is
        simply unavailable. */
    method IsDriverAvailable(host: Host, fs: FileSystem, name: string) returns (available: bool)
      requires Valid()
      modifies container
      ensures Valid() && container.bindings == old(container.bindings)
      ensures available == Usable(old(container.bindings), container.config, host, fs.nodes, name)
    {
      var resolved := ResolveDriverByName(name);
      if resolved.Err? {
        return false;
      }
      available := Drivers.IsAvailable(resolved.value, host, fs);
      AvailableByKind(resolved.value, container.config, host, fs.nodes);
    }

    /** `fake`: a new recording driver, kept and pinned. */
    method Fake() returns (f: FakeDriver)
      requires Valid()
      modifies this
      ensures Valid() && fresh(f) && f.calls == [] && f.generatedFiles == [] && f.Valid()
      ensures fakeDriver == Some(f) && driver == Some(Drivers.Fake(f))
      ensures templatePath == old(templatePath) && htmlContent == old(htmlContent) && data == old(data)
      ensures placeholderHandler == old(placeholderHandler)
    {
      f := new FakeDriver();
      fakeDriver := Some(f);
      driver := Some(Drivers.Fake(f));
    }

    /** `getFakeDriver`. */
    function GetFakeDriver(): (r: Result<FakeDriver, Error>)
      reads this
      ensures fakeDriver.None? <==> r == Err(NoFakeDriver)
      ensures r.Ok? ==> fakeDriver == Some(r.value)
    {
      if fakeDriver.None? then Err(NoFakeDriver) else Ok(fakeDriver.value)
    }

    /** `assertGenerated`, asked of the recording driver. */
    function AssertGenerated(path: string): (r: Outcome<Error>)
      reads this, FakeObjects()
      ensures fakeDriver.None? ==> r == Fail(NoFakeDriver)
      ensures fakeDriver.Some? ==> (r.Pass? <==> path in fakeDriver.value.generatedFiles)
    {
      if fakeDriver.None? then Fail(NoFakeDriver) else fakeDriver.value.AssertGenerated(path)
    }

    /** `assertPdfGenerated`, asked of the recording driver. */
    function AssertPdfGenerated(): (r: Outcome<Error>)
      reads this, FakeObjects()
      ensures fakeDriver.None? ==> r == Fail(NoFakeDriver)
      ensures fakeDriver.Some? ==>
                (r.Pass? <==> exists i :: 0 <= i < |fakeDriver.value.generatedFiles| &&
                                         EndsWith(fakeDriver.value.generatedFiles[i], ".pdf"))
    {
      if fakeDriver.None? then Fail(NoFakeDriver) else fakeDriver.value.AssertPdfGenerated()
    }

    /** `assertDocxGenerated`, asked of the recording driver. */
    function AssertDocxGenerated(): (r: Outcome<Error>)
      reads this, FakeObjects()
      ensures fakeDriver.None? ==> r == Fail(NoFakeDriver)
      ensures fakeDriver.Some? ==>
                (r.Pass? <==> exists i :: 0 <= i < |fakeDriver.value.generatedFiles| &&
                                         EndsWith(fakeDriver.value.generatedFiles[i], ".docx"))
    {
      if fakeDriver.None? then Fail(NoFakeDriver) else fakeDriver.value.AssertDocxGenerated()
    }

    /** `reset`: back to an empty builder, except that the recording driver
        is kept. */
    method Reset() returns (self: Dokufy)
      requires Valid()
      modifies this
      ensures Valid() && self == this
      ensures templatePath == None && htmlContent == None && data == [] && driver == None
      ensures placeholderHandler == None && fakeDriver == old(fakeDriver)
    {
      templatePath := None;
      htmlContent := None;
      data := [];
      driver := None;
      placeholderHandler := None;
      return this;
    }
  }

  /** The recording walk-through of the builder: after `fake()`, inline
      HTML converted to a .pdf path answers that path, and the builder's PDF
      and generated-file assertions pass, with the one call logged. */
  method FakePdfScenario(config: Config, host: Host, fs: FileSystem, settings: PhpWordDriver.Settings,
                         html: string, stem: string)
    returns (result: Result<string, Error>, pdfSeen: bool, generatedSeen: bool, logged: seq<Call>)
    modifies fs, settings
    ensures result == Ok(stem + ".pdf") && pdfSeen && generatedSeen
    ensures logged == [Call("htmlToPdf", [html, stem + ".pdf"])]
  {
    var output := stem + ".pdf";
    var container := new Container(config);
    var builder := new Dokufy(container);
    var recorder := builder.Fake();
    var _ := builder.Html(html);
    result := builder.ToPdf(host, fs, settings, output);
    EndsWithAppended(stem, ".pdf");
    assert recorder.generatedFiles == [output];
    pdfSeen := builder.AssertPdfGenerated().Pass?;
    generatedSeen := builder.AssertGenerated(output).Pass?;
    logged := recorder.calls;
  }
}
