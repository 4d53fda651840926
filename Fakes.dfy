/** The recording driver used in tests: it converts nothing, logs every call
    and every output path, and answers assertions about those logs. */
module Fakes {
  import opened Wrappers
  import opened Strings
  import opened Errors

  /** One recorded conversion: the method name and its arguments. */
  datatype Call = Call(name: string, args: seq<string>)

  /** Some path in the log ends with `suffix`. */
  function AnyEndsWith(files: seq<string>, suffix: string): (b: bool)
    ensures b <==> exists i :: 0 <= i < |files| && EndsWith(files[i], suffix)
    decreases |files|
  {
    if files == [] then false
    else EndsWith(files[0], suffix) || AnyEndsWith(files[1..], suffix)
  }

  /** Logging one more path: the log has a path with the suffix iff it had
      one before or the new path has it. */
  lemma {:induction false} AnyEndsWithAppend(files: seq<string>, path: string, suffix: string)
    ensures AnyEndsWith(files + [path], suffix) <==> AnyEndsWith(files, suffix) || EndsWith(path, suffix)
  {
    var f := files + [path];
    assert f[|files|] == path;
    if AnyEndsWith(files, suffix) {
      var i :| 0 <= i < |files| && EndsWith(files[i], suffix);
      assert f[i] == files[i];
    }
    if AnyEndsWith(f, suffix) && !EndsWith(path, suffix) {
      var i :| 0 <= i < |f| && EndsWith(f[i], suffix);
      assert i < |files| && f[i] == files[i];
    }
  }

  /** Some recorded call is to `method` (and, when given, with exactly `args`). */
  function AnyCall(calls: seq<Call>, methodName: string, args: Option<seq<string>>): (b: bool)
    ensures b <==> exists i :: 0 <= i < |calls| && calls[i].name == methodName &&
                               (args.Some? ==> calls[i].args == args.value)
    decreases |calls|
  {
    if calls == [] then false
    else
      || (calls[0].name == methodName && (args.Some? ==> calls[0].args == args.value))
      || AnyCall(calls[1..], methodName, args)
  }

  function AssertionFailed(message: string): Error {
    Error(AssertionFailure, message)
  }

  class FakeDriver {
    var calls: seq<Call>
    var generatedFiles: seq<string>

    /** The two logs grow together: call `i` produced output `i`. */
    ghost predicate Valid()
      reads this
    {
      && |calls| == |generatedFiles|
      && forall i :: 0 <= i < |calls| ==>
           |calls[i].args| == 2 && calls[i].args[1] == generatedFiles[i] &&
           (calls[i].name == "htmlToPdf" || calls[i].name == "docxToPdf")
    }

    constructor ()
      ensures Valid() && calls == [] && generatedFiles == []
    {
      calls := [];
      generatedFiles := [];
    }

    function Name(): string {
      "fake"
    }

    function Supports(): seq<string> {
      ["html", "docx", "xlsx", "pptx", "odt", "markdown"]
    }

    function IsAvailable(): bool {
      true
    }

    method HtmlToPdf(html: string, outputPath: string) returns (r: string)
      modifies this
      ensures r == outputPath
      ensures calls == old(calls) + [Call("htmlToPdf", [html, outputPath])]
      ensures generatedFiles == old(generatedFiles) + [outputPath]
      ensures old(Valid()) ==> Valid()
    {
      calls := calls + [Call("htmlToPdf", [html, outputPath])];
      generatedFiles := generatedFiles + [outputPath];
      r := outputPath;
    }

    method DocxToPdf(docxPath: string, outputPath: string) returns (r: string)
      modifies this
      ensures r == outputPath
      ensures calls == old(calls) + [Call("docxToPdf", [docxPath, outputPath])]
      ensures generatedFiles == old(generatedFiles) + [outputPath]
      ensures old(Valid()) ==> Valid()
    {
      calls := calls + [Call("docxToPdf", [docxPath, outputPath])];
      generatedFiles := generatedFiles + [outputPath];
      r := outputPath;
    }

    method Reset()
      modifies this
      ensures calls == [] && generatedFiles == [] && Valid()
    {
      calls := [];
      generatedFiles := [];
    }

    function AssertGenerated(path: string): (r: Outcome<Error>)
      reads this
      ensures r.Pass? <==> path in generatedFiles
      ensures r.Fail? ==> r.error.kind == AssertionFailure
    {
      if path in generatedFiles then Pass
      else Fail(AssertionFailed("Expected file to be generated at [" + path + "], but it was not."))
    }

    /** Judged by the output path alone, not by the method that produced it. */
    function AssertPdfGenerated(): (r: Outcome<Error>)
      reads this
      ensures r.Pass? <==> exists i :: 0 <= i < |generatedFiles| && EndsWith(generatedFiles[i], ".pdf")
    {
      if AnyEndsWith(generatedFiles, ".pdf") then Pass
      else Fail(AssertionFailed("Expected a PDF file to be generated, but none were."))
    }

    function AssertDocxGenerated(): (r: Outcome<Error>)
      reads this
      ensures r.Pass? <==> exists i :: 0 <= i < |generatedFiles| && EndsWith(generatedFiles[i], ".docx")
    {
      if AnyEndsWith(generatedFiles, ".docx") then Pass
      else Fail(AssertionFailed("Expected a DOCX file to be generated, but none were."))
    }

    /** Without `withArgs` some call must name the method; with it, some such
        call must also carry exactly those arguments. */
    function AssertMethodCalled(methodName: string, withArgs: Option<seq<string>>): (r: Outcome<Error>)
      reads this
      ensures r.Pass? <==> (exists i :: 0 <= i < |calls| && calls[i].name == methodName) &&
                           (withArgs.Some? ==> exists i :: 0 <= i < |calls| && calls[i].name == methodName &&
                                                           calls[i].args == withArgs.value)
    {
      if !AnyCall(calls, methodName, None) then
        Fail(AssertionFailed("Expected method [" + methodName + "] to be called, but it was not."))
      else if withArgs.Some? && !AnyCall(calls, methodName, withArgs) then
        Fail(AssertionFailed("Expected method [" + methodName + "] to be called with specific arguments, but no matching call was found."))
      else Pass
    }

    function AssertNothingGenerated(): (r: Outcome<Error>)
      reads this
      ensures r.Pass? <==> |generatedFiles| == 0
    {
      if generatedFiles == [] then Pass
      else Fail(AssertionFailed("Expected no files to be generated, but some were."))
    }
  }

  /** A path made by appending an extension ends with that extension. */
  lemma EndsWithAppended(stem: string, extension: string)
    ensures EndsWith(stem + extension, extension)
  {
    var s := stem + extension;
    assert s[|s| - |extension|..] == extension;
  }

  /** A log holding a .pdf path and a .docx path has both kinds of output. */
  lemma BothOutputsSeen(pdf: string, docx: string)
    requires EndsWith(pdf, ".pdf") && EndsWith(docx, ".docx")
    ensures AnyEndsWith([pdf, docx], ".pdf") && AnyEndsWith([pdf, docx], ".docx")
  {
    assert [pdf, docx][0] == pdf && [pdf, docx][1] == docx;
  }

  /** The recording walk-through: an HTML conversion to a .pdf path and a
      DOCX conversion to a .docx path are both logged, in order, so both
      presence assertions and the call assertion with those arguments pass. */
  method RecordingScenario(html: string, source: string, a: string, b: string)
    returns (logged: seq<Call>, pdfSeen: bool, docxSeen: bool, calledWith: bool)
    ensures logged == [Call("htmlToPdf", [html, a + ".pdf"]), Call("docxToPdf", [source, b + ".docx"])]
    ensures pdfSeen && docxSeen && calledWith
  {
    var pdf, docx := a + ".pdf", b + ".docx";
    var fake := new FakeDriver();
    var _ := fake.HtmlToPdf(html, pdf);
    var _ := fake.DocxToPdf(source, docx);
    assert fake.generatedFiles == [pdf, docx];
    logged := fake.calls;
    EndsWithAppended(a, ".pdf");
    EndsWithAppended(b, ".docx");
    BothOutputsSeen(pdf, docx);
    pdfSeen := fake.AssertPdfGenerated().Pass?;
    docxSeen := fake.AssertDocxGenerated().Pass?;
    assert fake.calls[1] == Call("docxToPdf", [source, docx]);
    calledWith := fake.AssertMethodCalled("docxToPdf", Some([source, docx])).Pass?;
  }

  /** After `reset` the fake has forgotten every conversion: no presence
      assertion passes and "nothing generated" does. */
  method ResetScenario(html: string, source: string, a: string, b: string) returns (seenAfterReset: bool)
    ensures !seenAfterReset
  {
    var pdf, docx := a + ".pdf", b + ".docx";
    var fake := new FakeDriver();
    var _ := fake.HtmlToPdf(html, pdf);
    var _ := fake.DocxToPdf(source, docx);
    fake.Reset();
    seenAfterReset := fake.AssertPdfGenerated().Pass? || fake.AssertDocxGenerated().Pass? ||
                      fake.AssertGenerated(pdf).Pass? || !fake.AssertNothingGenerated().Pass?;
  }
}
