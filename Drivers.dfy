/** The driver contract (`getName`, `supports`, `isAvailable`, `htmlToPdf`,
    `docxToPdf`) over the five drivers the package ships. The remote
    document service is kept as an opaque backend: its conversions are
    driven by the host's answers only. */
module Drivers {
  import opened Wrappers
  import opened Errors
  import opened Environment
  import opened Config
  import opened Fakes
  import Paths
  import ChromiumDriver
  import LibreOfficeDriver
  import PhpWordDriver

  /** A driver instance: the recording fake is an object with state; the
      others hold only the configuration they were built with. */
  datatype Driver =
    | Fake(recorder: FakeDriver)
    | Gotenberg
    | LibreOffice(officeConfig: LibreOfficeConfig)
    | Chromium(browserConfig: ChromiumConfig, pdf: PdfConfig)
    | PhpWord(wordConfig: PhpWordConfig)

  function Name(d: Driver): string {
    match d
    case Fake(_) => "fake"
    case Gotenberg => "gotenberg"
    case LibreOffice(_) => LibreOfficeDriver.Name
    case Chromium(_, _) => ChromiumDriver.Name
    case PhpWord(_) => PhpWordDriver.Name
  }

  function Supports(d: Driver): seq<string> {
    match d
    case Fake(_) => ["html", "docx", "xlsx", "pptx", "odt", "markdown"]
    case Gotenberg => ["html", "docx", "xlsx", "pptx", "odt", "markdown"]
    case LibreOffice(_) => LibreOfficeDriver.Supports
    case Chromium(_, _) => ChromiumDriver.Supports
    case PhpWord(_) => PhpWordDriver.Supports
  }

  /** Every driver accepts HTML except the word-processing one, and every
      driver accepts DOCX except the browser one. */
  lemma SupportedFormats(d: Driver)
    ensures "html" in Supports(d) <==> !d.PhpWord?
    ensures "docx" in Supports(d) <==> !d.Chromium?
  {
  }

  /** The objects a driver's conversions may change. */
  function Objects(d: Driver): set<object> {
    if d.Fake? then {d.recorder} else {}
  }

  /** `isAvailable` of each driver. */
  predicate Available(d: Driver, host: Host, nodes: Nodes) {
    match d
    case Fake(_) => true
    case Gotenberg => host.libraries.gotenberg && host.gotenbergHealthy
    case LibreOffice(c) => LibreOfficeDriver.Available(c, host, nodes)
    case Chromium(_, _) => ChromiumDriver.IsAvailable(host.libraries)
    case PhpWord(_) => PhpWordDriver.IsAvailable(host.libraries)
  }

  method IsAvailable(d: Driver, host: Host, fs: FileSystem) returns (available: bool)
    ensures available == Available(d, host, fs.nodes)
  {
    match d
    case Fake(recorder) => available := recorder.IsAvailable();
    case Gotenberg => available := host.libraries.gotenberg && host.gotenbergHealthy;
    case LibreOffice(c) => available := LibreOfficeDriver.IsAvailable(c, host, fs);
    case Chromium(_, _) => available := ChromiumDriver.IsAvailable(host.libraries);
    case PhpWord(_) => available := PhpWordDriver.IsAvailable(host.libraries);
  }

  /** The remote service's conversion: library check, then (for DOCX) the
      source check, then the request, whose failure is wrapped. */
  function RemoteConversion(host: Host, nodes: Nodes, source: Option<string>, outputPath: string): (Result<string, Error>, Nodes) {
    if !host.libraries.gotenberg then (Err(NotConfigured("gotenberg")), nodes)
    else if source.Some? && !Exists(nodes, source.value) then
      (Err(Failed("Source file not found: " + source.value)), nodes)
    else match host.render
      case Threw(message) => (Err(Failed(message)), nodes)
      case Rendered(bytes) =>
        Saved(MadeDirectory(nodes, Paths.Dirname(outputPath)), outputPath, bytes, host.saveRefusal)
  }

  /** `htmlToPdf` of a driver other than the fake one. */
  function HtmlEffect(d: Driver, host: Host, nodes: Nodes, html: string, outputPath: string): (Result<string, Error>, Nodes)
    requires !d.Fake?
  {
    match d
    case Gotenberg => RemoteConversion(host, nodes, None, outputPath)
    case LibreOffice(_) => LibreOfficeDriver.HtmlConversion(host, nodes, html, outputPath)
    case Chromium(_, _) => ChromiumDriver.HtmlToPdf(host.libraries, host.render, host.saveRefusal, outputPath, nodes)
    case PhpWord(c) =>
      var e := PhpWordDriver.HtmlConversion(host.libraries, c, host, nodes, outputPath);
      (e.result, e.nodes)
  }

  /** `docxToPdf` of a driver other than the fake one. */
  function DocxEffect(d: Driver, host: Host, nodes: Nodes, docxPath: string, outputPath: string): (Result<string, Error>, Nodes)
    requires !d.Fake?
  {
    match d
    case Gotenberg => RemoteConversion(host, nodes, Some(docxPath), outputPath)
    case LibreOffice(_) => LibreOfficeDriver.DocxConversion(host, nodes, docxPath, outputPath)
    case Chromium(_, _) => (ChromiumDriver.DocxToPdf(docxPath, outputPath), nodes)
    case PhpWord(c) =>
      var e := PhpWordDriver.DocxConversion(host.libraries, c, host, nodes, docxPath, outputPath);
      (e.result, e.nodes)
  }

  /** The renderer `htmlToPdf` configures in the word-processing library's
      settings: only the PhpWord driver sets one. */
  function HtmlRenderer(d: Driver, host: Host, nodes: Nodes, outputPath: string): Option<PhpWordDriver.RendererSetting> {
    if d.PhpWord? then PhpWordDriver.HtmlConversion(host.libraries, d.wordConfig, host, nodes, outputPath).renderer else None
  }

  /** The renderer `docxToPdf` configures, as for `HtmlRenderer`. */
  function DocxRenderer(d: Driver, host: Host, nodes: Nodes, docxPath: string, outputPath: string): Option<PhpWordDriver.RendererSetting> {
    if d.PhpWord? then PhpWordDriver.DocxConversion(host.libraries, d.wordConfig, host, nodes, docxPath, outputPath).renderer else None
  }

  /** The settings name the renderer `s`. */
  predicate Configured(settings: PhpWordDriver.Settings, s: PhpWordDriver.RendererSetting)
    reads settings
  {
    settings.rendererName == Some(s.name) && settings.rendererPath == Some(s.path)
  }

  /** Every successful conversion answers with the output path it was given. */
  lemma SuccessAnswersOutputPath(d: Driver, host: Host, nodes: Nodes, input: string, outputPath: string)
    requires !d.Fake?
    ensures HtmlEffect(d, host, nodes, input, outputPath).0.Ok? ==>
              HtmlEffect(d, host, nodes, input, outputPath).0.value == outputPath
    ensures DocxEffect(d, host, nodes, input, outputPath).0.Ok? ==>
              DocxEffect(d, host, nodes, input, outputPath).0.value == outputPath
  {
  }

  /** No driver that saves a library's or the service's document can save it
      onto an existing directory: the conversion fails, and apart from the
      output directory the files are unchanged. */
  lemma NoSaveOntoDirectory(d: Driver, host: Host, nodes: Nodes, input: string, outputPath: string)
    requires d.Gotenberg? || d.Chromium? || d.PhpWord?
    requires IsDir(nodes, outputPath)
    ensures HtmlEffect(d, host, nodes, input, outputPath).0.Err?
    ensures DocxEffect(d, host, nodes, input, outputPath).0.Err?
    ensures HtmlEffect(d, host, nodes, input, outputPath).1 in {nodes, MadeDirectory(nodes, Paths.Dirname(outputPath))}
    ensures DocxEffect(d, host, nodes, input, outputPath).1 in {nodes, MadeDirectory(nodes, Paths.Dirname(outputPath))}
  {
  }

  method HtmlToPdf(d: Driver, host: Host, fs: FileSystem, settings: PhpWordDriver.Settings, html: string, outputPath: string)
    returns (r: Result<string, Error>)
    modifies fs, settings, Objects(d)
    ensures d.Fake? ==> r == Ok(outputPath) && fs.nodes == old(fs.nodes) &&
                        d.recorder.calls == old(d.recorder.calls) + [Call("htmlToPdf", [html, outputPath])] &&
                        d.recorder.generatedFiles == old(d.recorder.generatedFiles) + [outputPath]
    ensures !d.Fake? ==> (r, fs.nodes) == HtmlEffect(d, host, old(fs.nodes), html, outputPath)
    ensures !d.PhpWord? ==> unchanged(settings)
    ensures HtmlRenderer(d, host, old(fs.nodes), outputPath).None? ==> unchanged(settings)
    ensures HtmlRenderer(d, host, old(fs.nodes), outputPath).Some? ==>
              Configured(settings, HtmlRenderer(d, host, old(fs.nodes), outputPath).value)
  {
    match d
    case Fake(recorder) =>
      var path := recorder.HtmlToPdf(html, outputPath);
      r := Ok(path);
    case Gotenberg =>
      var effect := RemoteConversion(host, fs.nodes, None, outputPath);
      fs.nodes := effect.1;
      r := effect.0;
    case LibreOffice(c) =>
      r := LibreOfficeDriver.HtmlToPdf(c, host, fs, html, outputPath);
    case Chromium(_, _) =>
      var effect := ChromiumDriver.HtmlToPdf(host.libraries, host.render, host.saveRefusal, outputPath, fs.nodes);
      fs.nodes := effect.1;
      r := effect.0;
    case PhpWord(c) =>
      r := PhpWordDriver.HtmlToPdf(host.libraries, c, host, fs, settings, outputPath);
  }

  method DocxToPdf(d: Driver, host: Host, fs: FileSystem, settings: PhpWordDriver.Settings, docxPath: string, outputPath: string)
    returns (r: Result<string, Error>)
    modifies fs, settings, Objects(d)
    ensures d.Fake? ==> r == Ok(outputPath) && fs.nodes == old(fs.nodes) &&
                        d.recorder.calls == old(d.recorder.calls) + [Call("docxToPdf", [docxPath, outputPath])] &&
                        d.recorder.generatedFiles == old(d.recorder.generatedFiles) + [outputPath]
    ensures !d.Fake? ==> (r, fs.nodes) == DocxEffect(d, host, old(fs.nodes), docxPath, outputPath)
    ensures !d.PhpWord? ==> unchanged(settings)
    ensures DocxRenderer(d, host, old(fs.nodes), docxPath, outputPath).None? ==> unchanged(settings)
    ensures DocxRenderer(d, host, old(fs.nodes), docxPath, outputPath).Some? ==>
              Configured(settings, DocxRenderer(d, host, old(fs.nodes), docxPath, outputPath).value)
  {
    match d
    case Fake(recorder) =>
      var path := recorder.DocxToPdf(docxPath, outputPath);
      r := Ok(path);
    case Gotenberg =>
      var effect := RemoteConversion(host, fs.nodes, Some(docxPath), outputPath);
      fs.nodes := effect.1;
      r := effect.0;
    case LibreOffice(c) =>
      r := LibreOfficeDriver.DocxToPdf(c, host, fs, docxPath, outputPath);
    case Chromium(_, _) =>
      r := ChromiumDriver.DocxToPdf(docxPath, outputPath);
    case PhpWord(c) =>
      r := PhpWordDriver.DocxToPdf(host.libraries, c, host, fs, settings, docxPath, outputPath);
  }
}
