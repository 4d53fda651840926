/** The office-suite driver: it runs the suite's command line to convert a
    file into a PDF in the output directory, then moves that PDF to the
    requested path. */
module LibreOfficeDriver {
  import opened Wrappers
  import opened Errors
  import opened Environment
  import opened Config
  import Paths

  const Name := "libreoffice"

  /** The input formats the driver accepts. */
  const Supports: seq<string> := ["html", "docx", "xlsx", "pptx", "odt"]

  /** Where the suite is installed by default on macOS and Linux, in the order searched. */
  const CommonPaths: seq<string> := [
    "/Applications/LibreOffice.app/Contents/MacOS/soffice",
    "/usr/bin/libreoffice",
    "/usr/local/bin/libreoffice"
  ]

  const ProcessFailedMessage := "LibreOffice conversion failed"
  const SourceMissingPrefix := "Source file not found: "

  /** `getBinary`: "libreoffice" unless configured. */
  function Binary(c: LibreOfficeConfig): (b: string)
    ensures c.binary.None? ==> b == "libreoffice"
    ensures c.binary.Some? ==> b == c.binary.value
  {
    c.binary.GetOr("libreoffice")
  }

  /** `getTimeout`: 120 seconds unless configured. */
  function Timeout(c: LibreOfficeConfig): (t: int)
    ensures c.timeout.None? ==> t == 120
    ensures c.timeout.Some? ==> t == c.timeout.value
  {
    c.timeout.GetOr(120)
  }

  /** The first of `paths` that is an executable file. */
  function FirstExecutable(nodes: Nodes, paths: seq<string>): (r: Option<string>)
    ensures r.Some? ==> exists i :: 0 <= i < |paths| && paths[i] == r.value &&
                          IsExecutable(nodes, r.value) &&
                          forall j :: 0 <= j < i ==> !IsExecutable(nodes, paths[j])
    ensures r.None? ==> forall i :: 0 <= i < |paths| ==> !IsExecutable(nodes, paths[i])
  {
    if paths == [] then None
    else if IsExecutable(nodes, paths[0]) then Some(paths[0])
    else
      var rest := FirstExecutable(nodes, paths[1..]);
      assert rest.Some? ==> exists i :: 1 <= i < |paths| && paths[i] == rest.value &&
                              IsExecutable(nodes, rest.value) &&
                              forall j :: 0 <= j < i ==> !IsExecutable(nodes, paths[j]) by {
        if rest.Some? {
          var k :| 0 <= k < |paths[1..]| && paths[1..][k] == rest.value &&
                   IsExecutable(nodes, rest.value) &&
                   forall j :: 0 <= j < k ==> !IsExecutable(nodes, paths[1..][j]);
          assert paths[k + 1] == rest.value;
          assert forall j :: 0 <= j < k + 1 ==> !IsExecutable(nodes, paths[j]) by {
            forall j | 0 <= j < k + 1 ensures !IsExecutable(nodes, paths[j]) {
              if j > 0 { assert paths[j] == paths[1..][j - 1]; }
            }
          }
        }
      }
      rest
  }

  /** The binary `resolveBinaryPath` settles on: the configured one if it is
      an executable file, else the first executable common path, else the
      configured string unchanged. */
  function ResolvedBinary(c: LibreOfficeConfig, nodes: Nodes): string {
    if IsExecutable(nodes, Binary(c)) then Binary(c)
    else FirstExecutable(nodes, CommonPaths).GetOr(Binary(c))
  }

  /** The resolved binary is the configured string, or else an executable
      common path found only because the configured one is not executable. */
  lemma ResolvedBinaryChoice(c: LibreOfficeConfig, nodes: Nodes)
    ensures ResolvedBinary(c, nodes) == Binary(c) ||
            (ResolvedBinary(c, nodes) in CommonPaths && IsExecutable(nodes, ResolvedBinary(c, nodes)) &&
             !IsExecutable(nodes, Binary(c)))
    ensures ResolvedBinary(c, nodes) != Binary(c) || IsExecutable(nodes, Binary(c)) ||
            forall p :: p in CommonPaths ==> !IsExecutable(nodes, p)
  {
    var r := FirstExecutable(nodes, CommonPaths);
    if r.Some? {
      var i :| 0 <= i < |CommonPaths| && CommonPaths[i] == r.value;
    }
  }

  /** `resolveBinaryPath`. */
  method ResolveBinaryPath(c: LibreOfficeConfig, fs: FileSystem) returns (binary: string)
    ensures binary == ResolvedBinary(c, fs.nodes)
  {
    binary := Binary(c);
    if IsExecutable(fs.nodes, binary) {
      return;
    }
    var i := 0;
    while i < |CommonPaths|
      invariant 0 <= i <= |CommonPaths|
      invariant FirstExecutable(fs.nodes, CommonPaths) == FirstExecutable(fs.nodes, CommonPaths[i..])
    {
      if IsExecutable(fs.nodes, CommonPaths[i]) {
        return CommonPaths[i];
      }
      assert CommonPaths[i..][1..] == CommonPaths[i + 1..];
      i := i + 1;
    }
  }

  /** What `isAvailable` answers: `which` finds the binary, or one of the
      common paths is an executable file. */
  predicate Available(c: LibreOfficeConfig, host: Host, nodes: Nodes) {
    host.whichFindsBinary || exists p :: p in CommonPaths && IsExecutable(nodes, p)
  }

  /** `isAvailable`: the common paths are searched only when `which` fails,
      and the search stops at the first executable one. */
  method IsAvailable(c: LibreOfficeConfig, host: Host, fs: FileSystem) returns (available: bool)
    ensures available <==> Available(c, host, fs.nodes)
  {
    if host.whichFindsBinary {
      return true;
    }
    var i := 0;
    while i < |CommonPaths|
      invariant 0 <= i <= |CommonPaths|
      invariant forall j :: 0 <= j < i ==> !IsExecutable(fs.nodes, CommonPaths[j])
    {
      if IsExecutable(fs.nodes, CommonPaths[i]) {
        return true;
      }
      i := i + 1;
    }
    return false;
  }

  /** Where the suite leaves its output: the output directory, the input's
      file name without extension, and ".pdf". */
  function ExpectedOutput(outputDir: string, input: string): string {
    outputDir + "/" + Paths.Stem(input) + ".pdf"
  }

  /** PHP's `?:` on the process's error output: "" and "0" are falsy. */
  function FailureCause(errorOutput: string): (cause: string)
    ensures errorOutput != "" && errorOutput != "0" ==> cause == errorOutput
    ensures errorOutput == "" || errorOutput == "0" ==> cause == ProcessFailedMessage
  {
    if errorOutput == "" || errorOutput == "0" then ProcessFailedMessage else errorOutput
  }

  /** `convertToPdf`: create the output directory if needed, run the suite;
      a failed run is a conversion failure carrying its error output, a
      successful one may leave the PDF at the expected output path. */
  function Converted(host: Host, nodes: Nodes, input: string, outputDir: string): (r: (Outcome<Error>, Nodes))
    ensures r.0.Fail? <==> !host.process.successful
    ensures r.0.Fail? ==> r.0.error == Failed(FailureCause(host.process.errorOutput))
    ensures IsDir(r.1, outputDir) || Exists(nodes, outputDir)
  {
    var prepared := MadeDirectory(nodes, outputDir);
    if !host.process.successful then
      (Fail(Failed(FailureCause(host.process.errorOutput))), prepared)
    else if host.process.producesPdf then
      (Pass, Written(prepared, ExpectedOutput(outputDir, input), host.process.pdf))
    else (Pass, prepared)
  }

  method ConvertToPdf(c: LibreOfficeConfig, host: Host, fs: FileSystem, input: string, outputDir: string)
    returns (outcome: Outcome<Error>)
    modifies fs
    ensures (outcome, fs.nodes) == Converted(host, old(fs.nodes), input, outputDir)
  {
    var binary := ResolveBinaryPath(c, fs);
    if !IsDir(fs.nodes, outputDir) {
      fs.MakeDirectory(outputDir);
    }
    if !host.process.successful {
      return Fail(Failed(FailureCause(host.process.errorOutput)));
    }
    if host.process.producesPdf {
      fs.Write(ExpectedOutput(outputDir, input), host.process.pdf);
    }
    return Pass;
  }

  /** `docxToPdf` on values. */
  function DocxConversion(host: Host, nodes: Nodes, docxPath: string, outputPath: string): (r: (Result<string, Error>, Nodes)) {
    if !Exists(nodes, docxPath) then (Err(Failed(SourceMissingPrefix + docxPath)), nodes)
    else
      var outputDir := Paths.Dirname(outputPath);
      var (outcome, converted) := Converted(host, nodes, docxPath, outputDir);
      if outcome.Fail? then (Err(outcome.error), converted)
      else
        var generated := ExpectedOutput(outputDir, docxPath);
        var moved := if Exists(converted, generated) && generated != outputPath
                     then Renamed(converted, generated, outputPath) else converted;
        if !Exists(moved, outputPath) then (Err(OutputFailed(outputPath)), moved)
        else (Ok(outputPath), moved)
  }

  /** `docxToPdf`: the source is checked before anything runs; the PDF the
      suite leaves is moved to `outputPath` when it is elsewhere; the call
      fails unless something is at `outputPath` in the end. */
  method DocxToPdf(c: LibreOfficeConfig, host: Host, fs: FileSystem, docxPath: string, outputPath: string)
    returns (r: Result<string, Error>)
    modifies fs
    ensures (r, fs.nodes) == DocxConversion(host, old(fs.nodes), docxPath, outputPath)
  {
    if !Exists(fs.nodes, docxPath) {
      return Err(Failed(SourceMissingPrefix + docxPath));
    }
    var outputDir := Paths.Dirname(outputPath);
    var outcome := ConvertToPdf(c, host, fs, docxPath, outputDir);
    if outcome.Fail? {
      return Err(outcome.error);
    }
    var generated := ExpectedOutput(outputDir, docxPath);
    if Exists(fs.nodes, generated) && generated != outputPath {
      fs.Rename(generated, outputPath);
    }
    if !Exists(fs.nodes, outputPath) {
      return Err(OutputFailed(outputPath));
    }
    return Ok(outputPath);
  }

  /** A missing source fails with "Source file not found" and touches nothing. */
  lemma DocxMissingSource(host: Host, nodes: Nodes, docxPath: string, outputPath: string)
    requires !Exists(nodes, docxPath)
    ensures DocxConversion(host, nodes, docxPath, outputPath) ==
      (Err(Error(ConversionFailure, FailedPrefix + SourceMissingPrefix + docxPath)), nodes)
  {
    assert FailedPrefix + (SourceMissingPrefix + docxPath) == FailedPrefix + SourceMissingPrefix + docxPath;
  }

  /** A successful `docxToPdf` leaves something at the output path. */
  lemma DocxSuccessHasOutput(host: Host, nodes: Nodes, docxPath: string, outputPath: string)
    ensures var r := DocxConversion(host, nodes, docxPath, outputPath);
            r.0.Ok? ==> r.0.value == outputPath && Exists(r.1, outputPath)
  {
  }

  /** When the suite succeeds and leaves its PDF, the output path ends up
      holding exactly the suite's PDF, wherever the suite put it. */
  lemma {:induction false} DocxDelivers(host: Host, nodes: Nodes, docxPath: string, outputPath: string)
    requires Exists(nodes, docxPath)
    requires host.process.successful && host.process.producesPdf
    requires !IsDir(nodes, ExpectedOutput(Paths.Dirname(outputPath), docxPath))
    ensures var r := DocxConversion(host, nodes, docxPath, outputPath);
            r.0 == Ok(outputPath) && IsFile(r.1, outputPath) && r.1[outputPath].contents == host.process.pdf
  {
    var outputDir := Paths.Dirname(outputPath);
    var generated := ExpectedOutput(outputDir, docxPath);
    var prepared := MadeDirectory(nodes, outputDir);
    assert |generated| > |outputDir|;
    assert !IsDir(prepared, generated);
    var converted := Written(prepared, generated, host.process.pdf);
    assert Converted(host, nodes, docxPath, outputDir) == (Pass, converted);
    assert IsFile(converted, generated) && converted[generated].contents == host.process.pdf;
  }

  /** A failed run of the suite is reported with its error output, or with
      the fixed message when that output is empty. */
  lemma DocxProcessFailure(host: Host, nodes: Nodes, docxPath: string, outputPath: string)
    requires Exists(nodes, docxPath) && !host.process.successful
    ensures DocxConversion(host, nodes, docxPath, outputPath).0 ==
      Err(Failed(if host.process.errorOutput == "" || host.process.errorOutput == "0"
                 then ProcessFailedMessage else host.process.errorOutput))
  {
  }

  /** Where `htmlToPdf` writes the HTML before converting it. */
  function TempHtmlPath(host: Host): string {
    host.tempDir + "/dokufy_html_" + host.uniqueId + ".html"
  }

  /** `htmlToPdf` on values. */
  function HtmlConversion(host: Host, nodes: Nodes, html: string, outputPath: string): (r: (Result<string, Error>, Nodes)) {
    var temp := TempHtmlPath(host);
    var staged := Written(nodes, temp, html);
    var outputDir := Paths.Dirname(outputPath);
    var (outcome, converted) := Converted(host, staged, temp, outputDir);
    if outcome.Fail? then (Err(outcome.error), Unlinked(converted, temp))
    else
      var generated := ExpectedOutput(outputDir, temp);
      var moved := if Exists(converted, generated) then Renamed(converted, generated, outputPath) else converted;
      (Ok(outputPath), Unlinked(moved, temp))
  }

  /** `htmlToPdf`: the HTML goes to a temporary file that is removed whether
      the conversion succeeds or fails; the output path is returned without
      checking that anything is there. */
  method HtmlToPdf(c: LibreOfficeConfig, host: Host, fs: FileSystem, html: string, outputPath: string)
    returns (r: Result<string, Error>)
    modifies fs
    ensures (r, fs.nodes) == HtmlConversion(host, old(fs.nodes), html, outputPath)
  {
    var temp := TempHtmlPath(host);
    fs.Write(temp, html);
    var outputDir := Paths.Dirname(outputPath);
    var outcome := ConvertToPdf(c, host, fs, temp, outputDir);
    if outcome.Fail? {
      fs.Unlink(temp);
      return Err(outcome.error);
    }
    var generated := ExpectedOutput(outputDir, temp);
    if Exists(fs.nodes, generated) {
      fs.Rename(generated, outputPath);
    }
    fs.Unlink(temp);
    return Ok(outputPath);
  }

  /** No temporary HTML file survives `htmlToPdf`, and a successful run of
      the suite always reports success, even when no PDF was produced. */
  lemma HtmlCleansUp(host: Host, nodes: Nodes, html: string, outputPath: string)
    ensures var r := HtmlConversion(host, nodes, html, outputPath);
            !IsFile(r.1, TempHtmlPath(host)) &&
            (r.0.Ok? <==> host.process.successful) &&
            (r.0.Ok? ==> r.0.value == outputPath)
  {
  }

  /** The unchecked return: a run that succeeds without producing a PDF
      still answers with the output path although nothing is there. */
  lemma {:induction false} HtmlSuccessUnchecked(host: Host, nodes: Nodes, html: string, outputPath: string)
    requires host.process.successful && !host.process.producesPdf
    requires !Exists(nodes, outputPath) && outputPath != Paths.Dirname(outputPath)
    requires outputPath != TempHtmlPath(host)
    requires !Exists(nodes, ExpectedOutput(Paths.Dirname(outputPath), TempHtmlPath(host)))
    requires ExpectedOutput(Paths.Dirname(outputPath), TempHtmlPath(host)) != TempHtmlPath(host)
    ensures var r := HtmlConversion(host, nodes, html, outputPath);
            r.0 == Ok(outputPath) && !Exists(r.1, outputPath)
  {
    var temp := TempHtmlPath(host);
    var outputDir := Paths.Dirname(outputPath);
    var staged := Written(nodes, temp, html);
    var converted := MadeDirectory(staged, outputDir);
    assert Converted(host, staged, temp, outputDir) == (Pass, converted);
    assert !Exists(converted, ExpectedOutput(outputDir, temp));
    assert !Exists(converted, outputPath);
  }
}
