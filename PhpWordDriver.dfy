/** The pure-PHP driver: DOCX (and, through its HTML reader, HTML) to PDF
    with the word-processing library and one of three PDF rendering
    libraries, chosen by configuration. */
module PhpWordDriver {
  import opened Wrappers
  import opened Errors
  import opened Environment
  import opened Config
  import Paths

  const Name := "phpword"

  /** The input formats the driver accepts. */
  const Supports: seq<string> := ["docx"]

  const SourceMissingPrefix := "Source file not found: "

  /** `isAvailable`: only the word-processing library is looked for, never
      the PDF renderer. */
  function IsAvailable(libs: Libraries): bool {
    libs.phpWord
  }

  /** `getPdfRenderer`: "dompdf" unless configured. */
  function PdfRenderer(c: PhpWordConfig): (r: string)
    ensures c.pdfRenderer.None? ==> r == "dompdf"
    ensures c.pdfRenderer.Some? ==> r == c.pdfRenderer.value
  {
    c.pdfRenderer.GetOr("dompdf")
  }

  predicate KnownRenderer(renderer: string) {
    renderer == "dompdf" || renderer == "tcpdf" || renderer == "mpdf"
  }

  /** The renderer's library is installed; an unknown renderer never is. */
  function RendererAvailable(libs: Libraries, renderer: string): (b: bool)
    ensures b ==> KnownRenderer(renderer)
  {
    match renderer
    case "dompdf" => libs.dompdf
    case "tcpdf" => libs.tcpdf
    case "mpdf" => libs.mpdf
    case _ => false
  }

  function MissingRenderer(renderer: string): Error {
    NotConfigured(Name + " (missing PDF renderer: " + renderer + ")")
  }

  /** `ensureAvailable` followed by `ensurePdfRendererAvailable`. */
  function Preconditions(libs: Libraries, c: PhpWordConfig): (o: Outcome<Error>)
    ensures o.Pass? <==> libs.phpWord && RendererAvailable(libs, PdfRenderer(c))
    ensures !libs.phpWord ==> o == Fail(NotConfigured(Name))
    ensures libs.phpWord && !RendererAvailable(libs, PdfRenderer(c)) ==>
              o == Fail(MissingRenderer(PdfRenderer(c)))
  {
    if !libs.phpWord then Fail(NotConfigured(Name))
    else if !RendererAvailable(libs, PdfRenderer(c)) then Fail(MissingRenderer(PdfRenderer(c)))
    else Pass
  }

  /** The word-processing library's name for a renderer; unknown renderers
      fall back to DomPDF. */
  function RendererName(renderer: string): string {
    match renderer
    case "dompdf" => "DomPDF"
    case "tcpdf" => "TCPDF"
    case "mpdf" => "MPDF"
    case _ => "DomPDF"
  }

  /** The Composer package that holds a renderer; unknown renderers fall
      back to the DomPDF package. */
  function RendererPackage(renderer: string): string {
    match renderer
    case "dompdf" => "dompdf/dompdf"
    case "tcpdf" => "tecnickcom/tcpdf"
    case "mpdf" => "mpdf/mpdf"
    case _ => "dompdf/dompdf"
  }

  /** Once the preconditions pass, the renderer is one of the three known
      ones, so the fallback branches of the name and package tables are never
      taken, and each renderer gets its own library name and package. */
  lemma ConfiguredRendererIsKnown(libs: Libraries, c: PhpWordConfig)
    requires Preconditions(libs, c).Pass?
    ensures var r := PdfRenderer(c);
            (r == "dompdf" && RendererName(r) == "DomPDF" && RendererPackage(r) == "dompdf/dompdf") ||
            (r == "tcpdf" && RendererName(r) == "TCPDF" && RendererPackage(r) == "tecnickcom/tcpdf") ||
            (r == "mpdf" && RendererName(r) == "MPDF" && RendererPackage(r) == "mpdf/mpdf")
  {
  }

  /** The vendor directories searched, in order: the application's, then
      the two that hold the package when it is installed as a dependency. */
  function VendorBases(host: Host): seq<string> {
    [host.appRoot + "/vendor", host.packageParent + "/vendor", host.packageGrandparent + "/vendor"]
  }

  /** The first base under which the package is a directory. */
  function FirstPackageDirectory(nodes: Nodes, bases: seq<string>, package: string): (r: Option<string>)
    ensures r.Some? ==> IsDir(nodes, r.value) &&
                        exists i :: 0 <= i < |bases| && r.value == bases[i] + "/" + package &&
                                    forall j :: 0 <= j < i ==> !IsDir(nodes, bases[j] + "/" + package)
    ensures r.None? ==> forall i :: 0 <= i < |bases| ==> !IsDir(nodes, bases[i] + "/" + package)
  {
    if bases == [] then None
    else if IsDir(nodes, bases[0] + "/" + package) then Some(bases[0] + "/" + package)
    else
      var rest := FirstPackageDirectory(nodes, bases[1..], package);
      assert rest.Some? ==> exists i :: 1 <= i < |bases| && rest.value == bases[i] + "/" + package &&
                              forall j :: 0 <= j < i ==> !IsDir(nodes, bases[j] + "/" + package) by {
        if rest.Some? {
          var k :| 0 <= k < |bases[1..]| && rest.value == bases[1..][k] + "/" + package &&
                   forall j :: 0 <= j < k ==> !IsDir(nodes, bases[1..][j] + "/" + package);
          assert bases[k + 1] == bases[1..][k];
          assert forall j :: 0 <= j < k + 1 ==> !IsDir(nodes, bases[j] + "/" + package) by {
            forall j | 0 <= j < k + 1 ensures !IsDir(nodes, bases[j] + "/" + package) {
              if j > 0 { assert bases[j] == bases[1..][j - 1]; }
            }
          }
        }
      }
      rest
  }

  /** `getVendorPath`'s answer: the first vendor directory that holds the
      package, else the application's vendor path for it, existing or not. */
  function VendorPath(host: Host, nodes: Nodes, package: string): string {
    FirstPackageDirectory(nodes, VendorBases(host), package).GetOr(host.appRoot + "/vendor/" + package)
  }

  /** The vendor path is an existing package directory, or the fallback
      under the application's root when no base holds the package. */
  lemma VendorPathChoice(host: Host, nodes: Nodes, package: string)
    ensures var p := VendorPath(host, nodes, package);
            (IsDir(nodes, p) && exists b :: b in VendorBases(host) && p == b + "/" + package) ||
            (p == host.appRoot + "/vendor/" + package &&
             forall b :: b in VendorBases(host) ==> !IsDir(nodes, b + "/" + package))
  {
    var r := FirstPackageDirectory(nodes, VendorBases(host), package);
    if r.Some? {
      var i :| 0 <= i < |VendorBases(host)| && r.value == VendorBases(host)[i] + "/" + package;
      assert VendorBases(host)[i] in VendorBases(host);
    }
  }

  /** `getVendorPath`: a search that stops at the first hit. */
  method GetVendorPath(host: Host, fs: FileSystem, package: string) returns (path: string)
    ensures path == VendorPath(host, fs.nodes, package)
  {
    var bases := VendorBases(host);
    var i := 0;
    while i < |bases|
      invariant 0 <= i <= |bases|
      invariant FirstPackageDirectory(fs.nodes, bases, package) == FirstPackageDirectory(fs.nodes, bases[i..], package)
    {
      var candidate := bases[i] + "/" + package;
      if IsDir(fs.nodes, candidate) {
        return candidate;
      }
      assert bases[i..][1..] == bases[i + 1..];
      i := i + 1;
    }
    return host.appRoot + "/vendor/" + package;
  }

  /** The process-wide renderer settings of the word-processing library. */
  class Settings {
    var rendererName: Option<string>
    var rendererPath: Option<string>

    constructor ()
      ensures rendererName == None && rendererPath == None
    {
      rendererName := None;
      rendererPath := None;
    }
  }

  datatype RendererSetting = RendererSetting(name: string, path: string)

  /** What `configurePdfRenderer` installs. */
  function RendererFor(c: PhpWordConfig, host: Host, nodes: Nodes): RendererSetting {
    var r := PdfRenderer(c);
    RendererSetting(RendererName(r), VendorPath(host, nodes, RendererPackage(r)))
  }

  /** What a conversion does: its answer, the filesystem after it, and the
      renderer setting it installed (none when it stopped before that). */
  datatype Effect = Effect(result: Result<string, Error>, nodes: Nodes, renderer: Option<RendererSetting>)

  /** The body of both conversions once their checks have passed: configure
      the renderer, create the output directory, save; anything the libraries
      throw becomes a conversion failure carrying the same message. */
  function Rendering(c: PhpWordConfig, host: Host, nodes: Nodes, outputPath: string): Effect {
    var setting := RendererFor(c, host, nodes);
    var prepared := MadeDirectory(nodes, Paths.Dirname(outputPath));
    match host.render
    case Threw(message) => Effect(Err(Failed(message)), prepared, Some(setting))
    case Rendered(bytes) =>
      var saved := Saved(prepared, outputPath, bytes, host.saveRefusal);
      Effect(saved.0, saved.1, Some(setting))
  }

  /** `htmlToPdf` on values. */
  function HtmlConversion(libs: Libraries, c: PhpWordConfig, host: Host, nodes: Nodes, outputPath: string): Effect {
    var checks := Preconditions(libs, c);
    if checks.Fail? then Effect(Err(checks.error), nodes, None)
    else Rendering(c, host, nodes, outputPath)
  }

  /** `docxToPdf` on values: the source is checked only after both
      library checks. */
  function DocxConversion(libs: Libraries, c: PhpWordConfig, host: Host, nodes: Nodes, docxPath: string, outputPath: string): Effect {
    var checks := Preconditions(libs, c);
    if checks.Fail? then Effect(Err(checks.error), nodes, None)
    else if !Exists(nodes, docxPath) then Effect(Err(Failed(SourceMissingPrefix + docxPath)), nodes, None)
    else Rendering(c, host, nodes, outputPath)
  }

  method ConfigurePdfRenderer(c: PhpWordConfig, host: Host, fs: FileSystem, settings: Settings)
    modifies settings
    ensures settings.rendererName == Some(RendererFor(c, host, fs.nodes).name)
    ensures settings.rendererPath == Some(RendererFor(c, host, fs.nodes).path)
  {
    var renderer := PdfRenderer(c);
    var path := GetVendorPath(host, fs, RendererPackage(renderer));
    settings.rendererName := Some(RendererName(renderer));
    settings.rendererPath := Some(path);
  }

  method Render(c: PhpWordConfig, host: Host, fs: FileSystem, settings: Settings, outputPath: string)
    returns (r: Result<string, Error>)
    modifies fs, settings
    ensures var e := Rendering(c, host, old(fs.nodes), outputPath);
            r == e.result && fs.nodes == e.nodes &&
            settings.rendererName == Some(e.renderer.value.name) &&
            settings.rendererPath == Some(e.renderer.value.path)
  {
    ConfigurePdfRenderer(c, host, fs, settings);
    var directory := Paths.Dirname(outputPath);
    if !IsDir(fs.nodes, directory) {
      fs.MakeDirectory(directory);
    }
    match host.render
    case Threw(message) =>
      r := Err(Failed(message));
    case Rendered(bytes) =>
      if IsDir(fs.nodes, outputPath) {
        r := Err(Failed(host.saveRefusal));
      } else {
        fs.Write(outputPath, bytes);
        r := Ok(outputPath);
      }
  }

  method HtmlToPdf(libs: Libraries, c: PhpWordConfig, host: Host, fs: FileSystem, settings: Settings, outputPath: string)
    returns (r: Result<string, Error>)
    modifies fs, settings
    ensures var e := HtmlConversion(libs, c, host, old(fs.nodes), outputPath);
            r == e.result && fs.nodes == e.nodes &&
            (e.renderer.None? ==> unchanged(settings)) &&
            (e.renderer.Some? ==> settings.rendererName == Some(e.renderer.value.name) &&
                                  settings.rendererPath == Some(e.renderer.value.path))
  {
    var checks := Preconditions(libs, c);
    if checks.Fail? {
      return Err(checks.error);
    }
    r := Render(c, host, fs, settings, outputPath);
  }

  method DocxToPdf(libs: Libraries, c: PhpWordConfig, host: Host, fs: FileSystem, settings: Settings,
                   docxPath: string, outputPath: string)
    returns (r: Result<string, Error>)
    modifies fs, settings
    ensures var e := DocxConversion(libs, c, host, old(fs.nodes), docxPath, outputPath);
            r == e.result && fs.nodes == e.nodes &&
            (e.renderer.None? ==> unchanged(settings)) &&
            (e.renderer.Some? ==> settings.rendererName == Some(e.renderer.value.name) &&
                                  settings.rendererPath == Some(e.renderer.value.path))
  {
    var checks := Preconditions(libs, c);
    if checks.Fail? {
      return Err(checks.error);
    }
    if !Exists(fs.nodes, docxPath) {
      return Err(Failed(SourceMissingPrefix + docxPath));
    }
    r := Render(c, host, fs, settings, outputPath);
  }

  /** Without the word-processing library both conversions fail with
      "Driver [phpword] is not properly configured." before anything else is
      looked at, whatever the renderer and the source. */
  lemma LibraryCheckedFirst(libs: Libraries, c: PhpWordConfig, host: Host, nodes: Nodes, docxPath: string, outputPath: string)
    requires !libs.phpWord
    ensures HtmlConversion(libs, c, host, nodes, outputPath) == Effect(Err(NotConfigured("phpword")), nodes, None)
    ensures DocxConversion(libs, c, host, nodes, docxPath, outputPath) == Effect(Err(NotConfigured("phpword")), nodes, None)
  {
  }

  /** The renderer is checked second, still before the source. */
  lemma RendererCheckedSecond(libs: Libraries, c: PhpWordConfig, host: Host, nodes: Nodes, docxPath: string, outputPath: string)
    requires libs.phpWord && !RendererAvailable(libs, PdfRenderer(c))
    ensures DocxConversion(libs, c, host, nodes, docxPath, outputPath).result == Err(MissingRenderer(PdfRenderer(c)))
    ensures HtmlConversion(libs, c, host, nodes, outputPath).result == Err(MissingRenderer(PdfRenderer(c)))
  {
  }

  /** The library reports itself available while every conversion fails:
      availability never looks at the renderer. */
  lemma AvailableWithoutRenderer(libs: Libraries, c: PhpWordConfig, host: Host, nodes: Nodes, docxPath: string, outputPath: string)
    requires libs.phpWord && !libs.dompdf && c.pdfRenderer.None?
    ensures IsAvailable(libs)
    ensures HtmlConversion(libs, c, host, nodes, outputPath).result == Err(MissingRenderer("dompdf"))
    ensures DocxConversion(libs, c, host, nodes, docxPath, outputPath).result == Err(MissingRenderer("dompdf"))
  {
  }

  /** With both checks passed, a missing source fails and touches nothing. */
  lemma DocxSourceCheckedThird(libs: Libraries, c: PhpWordConfig, host: Host, nodes: Nodes, docxPath: string, outputPath: string)
    requires Preconditions(libs, c).Pass? && !Exists(nodes, docxPath)
    ensures DocxConversion(libs, c, host, nodes, docxPath, outputPath) ==
      Effect(Err(Failed(SourceMissingPrefix + docxPath)), nodes, None)
  {
  }

  /** A library error is reported as a conversion failure with the same
      message; a successful save leaves the rendered PDF at the output path. */
  lemma RenderingOutcome(c: PhpWordConfig, host: Host, nodes: Nodes, outputPath: string)
    requires outputPath != Paths.Dirname(outputPath) && !IsDir(nodes, outputPath)
    ensures var e := Rendering(c, host, nodes, outputPath);
            (host.render.Threw? ==> e.result == Err(Failed(host.render.message))) &&
            (host.render.Rendered? ==> e.result == Ok(outputPath) && IsFile(e.nodes, outputPath) &&
                                       e.nodes[outputPath].contents == host.render.bytes)
  {
  }

  /** A save onto an existing directory fails: the writer's error is wrapped
      as a conversion failure, and only the output directory may have been
      made. */
  lemma RenderingOntoDirectory(c: PhpWordConfig, host: Host, nodes: Nodes, outputPath: string)
    requires IsDir(nodes, outputPath) && host.render.Rendered?
    ensures var e := Rendering(c, host, nodes, outputPath);
            e.result == Err(Failed(host.saveRefusal)) && e.nodes == MadeDirectory(nodes, Paths.Dirname(outputPath)) &&
            e.renderer == Some(RendererFor(c, host, nodes))
  {
  }
}
