/** The browser-rendering driver: HTML only, page layout from the shared
    `dokufy.pdf` configuration, margins converted to millimetres. */
module ChromiumDriver {
  import opened Wrappers
  import opened Strings
  import opened Errors
  import opened Environment
  import opened Config
  import Paths

  const Name := "chromium"

  /** The input formats the driver accepts. */
  const Supports: seq<string> := ["html"]

  function IsAvailable(libs: Libraries): bool {
    libs.browsershot
  }

  predicate IsNumericChar(c: char) {
    IsDigit(c) || c == '.'
  }

  /** `preg_replace('/[^0-9.]/', '', $m)`: the digits and dots, in order. */
  function NumericPart(m: string): (r: string)
    ensures forall i :: 0 <= i < |r| ==> IsNumericChar(r[i])
  {
    if m == [] then []
    else (if IsNumericChar(m[0]) then [m[0]] else []) + NumericPart(m[1..])
  }

  /** `preg_replace('/[0-9.]/', '', $m)`: every other character, in order. */
  function UnitPart(m: string): (r: string)
    ensures forall i :: 0 <= i < |r| ==> !IsNumericChar(r[i])
  {
    if m == [] then []
    else (if IsNumericChar(m[0]) then [] else [m[0]]) + UnitPart(m[1..])
  }

  /** The numeric part and the unit part split the margin's characters between them. */
  lemma {:induction false} PartsPartition(m: string)
    ensures |NumericPart(m)| + |UnitPart(m)| == |m|
    ensures multiset(NumericPart(m)) + multiset(UnitPart(m)) == multiset(m)
  {
    if m != [] {
      PartsPartition(m[1..]);
      assert m == [m[0]] + m[1..];
    }
  }

  lemma {:induction false} PartsOfConcat(a: string, b: string)
    ensures NumericPart(a + b) == NumericPart(a) + NumericPart(b)
    ensures UnitPart(a + b) == UnitPart(a) + UnitPart(b)
  {
    if a == [] {
      assert a + b == b;
    } else {
      assert (a + b)[1..] == a[1..] + b;
      PartsOfConcat(a[1..], b);
    }
  }

  lemma {:induction false} PartsOfNumeric(n: string)
    requires forall i :: 0 <= i < |n| ==> IsNumericChar(n[i])
    ensures NumericPart(n) == n && UnitPart(n) == ""
  {
    if n != [] {
      PartsOfNumeric(n[1..]);
    }
  }

  lemma {:induction false} PartsOfUnit(u: string)
    requires forall i :: 0 <= i < |u| ==> !IsNumericChar(u[i])
    ensures NumericPart(u) == "" && UnitPart(u) == u
  {
    if u != [] {
      PartsOfUnit(u[1..]);
    }
  }

  /** The longest prefix made of decimal digits. */
  function LeadingDigits(s: string): (r: string)
    ensures AllDigits(r) && |r| <= |s| && r == s[..|r|]
    ensures |r| < |s| ==> !IsDigit(s[|r|])
  {
    if s == [] || !IsDigit(s[0]) then [] else [s[0]] + LeadingDigits(s[1..])
  }

  function Pow10(n: nat): (r: nat)
    ensures r >= 1
  {
    if n == 0 then 1 else 10 * Pow10(n - 1)
  }

  /** PHP's `(float)` of a string of digits and dots: the longest leading
      decimal number (digits, then optionally a dot and more digits); an empty
      prefix reads as 0. */
  function DecimalValue(s: string): real {
    var whole := LeadingDigits(s);
    var rest := s[|whole|..];
    if |rest| > 0 && rest[0] == '.' then
      var fraction := LeadingDigits(rest[1..]);
      DigitsValue(whole) as real + DigitsValue(fraction) as real / Pow10(|fraction|) as real
    else DigitsValue(whole) as real
  }

  /** Millimetres per unit: "in" is 25.4, "cm" is 10, "mm", an empty unit and
      any other unit are taken as millimetres. */
  function Multiplier(unit: string): real {
    var u := Lower(unit);
    if u == "in" then 25.4 else if u == "cm" then 10.0 else 1.0
  }

  /** A length given as a number of units, in millimetres. */
  function InMillimetres(value: real, unit: string): real {
    value * Multiplier(unit)
  }

  /** `parseMargin`: a margin string in millimetres. */
  function ParseMargin(m: string): real {
    InMillimetres(DecimalValue(NumericPart(m)), UnitPart(m))
  }

  /** A margin written as a number followed by a unit is the number times
      the unit's size in millimetres. */
  lemma ParseMarginOfParts(n: string, u: string)
    requires forall i :: 0 <= i < |n| ==> IsNumericChar(n[i])
    requires forall i :: 0 <= i < |u| ==> !IsNumericChar(u[i])
    ensures ParseMargin(n + u) == InMillimetres(DecimalValue(n), u)
  {
    SplitMargin(n, u);
  }

  lemma SplitMargin(n: string, u: string)
    requires forall i :: 0 <= i < |n| ==> IsNumericChar(n[i])
    requires forall i :: 0 <= i < |u| ==> !IsNumericChar(u[i])
    ensures NumericPart(n + u) == n && UnitPart(n + u) == u
  {
    PartsOfConcat(n, u);
    PartsOfNumeric(n);
    PartsOfUnit(u);
    assert n + "" == n;
    assert "" + u == u;
  }

  /** Units are read case-insensitively. */
  lemma UnitCaseInsensitive(u: string)
    ensures Multiplier(Lower(u)) == Multiplier(u)
  {
    LowerIdempotent(u);
  }

  lemma DigitValues()
    ensures DecimalValue("1") == 1.0 && DecimalValue("2") == 2.0
    ensures DecimalValue("5") == 5.0 && DecimalValue("3") == 3.0
    ensures DecimalValue("0.5") == 0.5
  {
    assert LeadingDigits("1") == "1";
    assert LeadingDigits("2") == "2";
    assert LeadingDigits("5") == "5";
    assert LeadingDigits("3") == "3";
    assert "0.5"[1..] == ".5" && ".5"[1..] == "5";
    assert LeadingDigits("0.5") == "0";
    assert LeadingDigits("5") == "5";
  }

  lemma UnitSizes()
    ensures Multiplier("in") == 25.4 && Multiplier("IN") == 25.4
    ensures Multiplier("cm") == 10.0 && Multiplier("mm") == 1.0 && Multiplier("") == 1.0
  {
    assert Lower("in") == "in";
    assert Lower("IN") == "in";
    assert Lower("cm") == "cm";
    assert Lower("mm") == "mm";
  }

  lemma OneInch()
    ensures ParseMargin("1in") == 25.4
  {
    assert "1in" == "1" + "in";
    ParseMarginOfParts("1", "in");
    DigitValues();
    UnitSizes();
  }

  lemma HalfInch()
    ensures ParseMargin("0.5in") == 12.7
  {
    assert "0.5in" == "0.5" + "in";
    ParseMarginOfParts("0.5", "in");
    DigitValues();
    UnitSizes();
  }

  lemma TwoCentimetres()
    ensures ParseMargin("2cm") == 20.0
  {
    assert "2cm" == "2" + "cm";
    ParseMarginOfParts("2", "cm");
    DigitValues();
    UnitSizes();
  }

  lemma FiveMillimetres()
    ensures ParseMargin("5mm") == 5.0
  {
    assert "5mm" == "5" + "mm";
    ParseMarginOfParts("5", "mm");
    DigitValues();
    UnitSizes();
  }

  lemma BareNumber()
    ensures ParseMargin("3") == 3.0
  {
    assert "3" == "3" + "";
    ParseMarginOfParts("3", "");
    DigitValues();
    UnitSizes();
  }

  /** "1in" is 25.4 mm, "0.5in" 12.7 mm, "2cm" 20 mm, "5mm" 5 mm and a bare
      "3" is 3 mm. */
  lemma MarginExamples()
    ensures ParseMargin("1in") == 25.4 && ParseMargin("0.5in") == 12.7
    ensures ParseMargin("2cm") == 20.0 && ParseMargin("5mm") == 5.0
    ensures ParseMargin("3") == 3.0
  {
    OneInch();
    HalfInch();
    TwoCentimetres();
    FiveMillimetres();
    BareNumber();
  }

  /** Margins in the order the renderer takes them: top, right, bottom, left. */
  datatype Margins = Margins(top: real, right: real, bottom: real, left: real)

  datatype PageSetup = PageSetup(format: string, landscape: bool, margins: Margins)

  /** `applyPdfOptions`: format "A4", portrait, 1in top and bottom and 0.5in
      left and right unless configured; landscape only for exactly "landscape". */
  function PdfOptions(pdf: PdfConfig): PageSetup {
    PageSetup(
      pdf.format.GetOr("A4"),
      pdf.orientation.GetOr("portrait") == "landscape",
      Margins(
        ParseMargin(pdf.marginTop.GetOr("1in")),
        ParseMargin(pdf.marginRight.GetOr("0.5in")),
        ParseMargin(pdf.marginBottom.GetOr("1in")),
        ParseMargin(pdf.marginLeft.GetOr("0.5in"))))
  }

  /** With nothing configured the page is A4 portrait with 25.4 mm top and
      bottom and 12.7 mm left and right margins. */
  lemma DefaultPageSetup()
    ensures PdfOptions(PdfConfig(None, None, None, None, None, None)) ==
      PageSetup("A4", false, Margins(25.4, 12.7, 25.4, 12.7))
  {
    OneInch();
    HalfInch();
  }

  /** Only the exact orientation "landscape" turns the page; "Landscape" does not. */
  lemma LandscapeOnlyWhenExact(pdf: PdfConfig)
    ensures PdfOptions(pdf).landscape <==> pdf.orientation == Some("landscape")
  {
  }

  /** PHP's `empty()` on a configured string. */
  predicate IsEmptyString(s: string) {
    s == "" || s == "0"
  }

  datatype BrowserSettings = BrowserSettings(nodeBinary: Option<string>, npmBinary: Option<string>, timeout: int)

  /** `configureBrowsershot`: node and npm binaries only when set and not
      empty, the timeout 60 seconds unless configured. */
  function Browser(c: ChromiumConfig): (s: BrowserSettings)
    ensures s.nodeBinary.Some? <==> c.nodeBinary.Some? && !IsEmptyString(c.nodeBinary.value)
    ensures s.npmBinary.Some? <==> c.npmBinary.Some? && !IsEmptyString(c.npmBinary.value)
    ensures s.nodeBinary.Some? ==> s.nodeBinary == c.nodeBinary
    ensures s.npmBinary.Some? ==> s.npmBinary == c.npmBinary
    ensures c.timeout.None? ==> s.timeout == 60
    ensures c.timeout.Some? ==> s.timeout == c.timeout.value
  {
    BrowserSettings(
      if c.nodeBinary.Some? && !IsEmptyString(c.nodeBinary.value) then c.nodeBinary else None,
      if c.npmBinary.Some? && !IsEmptyString(c.npmBinary.value) then c.npmBinary else None,
      c.timeout.GetOr(60))
  }

  /** `htmlToPdf`: the library check comes first and is not wrapped; after
      it, the output directory is created and any error of the renderer is
      reported as a conversion failure carrying its message. */
  function HtmlToPdf(libs: Libraries, render: Render, refusal: string, outputPath: string, nodes: Nodes): (r: (Result<string, Error>, Nodes))
    ensures !libs.browsershot ==> r == (Err(NotConfigured(Name)), nodes)
    ensures r.0.Ok? ==> r.0.value == outputPath && render.Rendered?
    ensures libs.browsershot && render.Threw? ==> r.0 == Err(Failed(render.message))
    ensures libs.browsershot && render.Rendered? && !IsDir(nodes, outputPath) && Paths.Dirname(outputPath) != outputPath ==>
              r.0 == Ok(outputPath) && IsFile(r.1, outputPath) && r.1[outputPath].contents == render.bytes
    ensures libs.browsershot && render.Rendered? && IsDir(nodes, outputPath) ==>
              r == (Err(Failed(refusal)), MadeDirectory(nodes, Paths.Dirname(outputPath)))
  {
    if !libs.browsershot then (Err(NotConfigured(Name)), nodes)
    else
      var prepared := MadeDirectory(nodes, Paths.Dirname(outputPath));
      match render
      case Threw(message) => (Err(Failed(message)), prepared)
      case Rendered(bytes) => Saved(prepared, outputPath, bytes, refusal)
  }

  /** `docxToPdf`: never supported, whatever the arguments. */
  function DocxToPdf(docxPath: string, outputPath: string): (r: Result<string, Error>)
    ensures r.Err? && r.error == UnsupportedFormat("docx")
  {
    Err(UnsupportedFormat("docx"))
  }
}
