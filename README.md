# Dokufy, modelled in Dafny

Dokufy is a Laravel package that turns a template or inline HTML into a PDF through one of several
interchangeable drivers. This project models its core:

- The request-scoped builder `Dokufy` (module `Orchestrator`) holds a source. The source is a
  template path or inline HTML, and setting one clears the other. The builder also holds merged
  placeholder data, an optional placeholder handler, an optional pinned driver and an optional
  recording driver. `toPdf` resolves a driver first and then routes the source by its kind and by
  the template's lower-cased extension. `toDocx` copies the template. The availability probes never
  fail.
- The placeholder engine (module `Placeholders`). For each eligible key, in data order, it
  replaces the four spellings `{{ k }}`, `{{k}}`, `{{ k}}` and `{{k }}`. A handler's data
  (`toArray`, then `getPlaceholders`, then `resolve`) replaces the explicit data.
- The recording fake driver (module `Fakes`). It keeps two append-only logs and answers assertions
  about them.
- The three real drivers' decision logic:
  - Chromium: margin parsing, page defaults, browser settings, and saving or wrapping the
    renderer's failure.
  - LibreOffice: binary search, availability, and the convert / rename / output-check sequence
    over a file system.
  - PhpWord: the order of its checks, renderer selection, the vendor-path search, and the global
    renderer settings it writes.
- The remote Gotenberg driver as a backend whose answers come from the host.
- The driver registry of the service provider (modules `Registry` and `Provider`). It binds five
  lazily built singletons under `dokufy.driver.<name>`, and the builder itself as a singleton with
  the alias `dokufy`.
- The exception message constructors (module `Errors`).

How the PHP world is represented:

- The driver interface is the datatype `Drivers.Driver`, one constructor per driver. The fake
  driver is a class (`Fakes.FakeDriver`), because its logs change in place.
- The file system is the class `Environment.FileSystem`: a map from path to file or directory.
- Everything outside the package is a field of the value `Environment.Host`, passed as a
  parameter. That covers installed libraries, `which`, the conversion process, rendering
  libraries, the message of the error a save onto a directory raises, the remote service's
  health, the temp directory, `uniqid` and the vendor roots.
- Exceptions are `Errors.Error` values carried in `Result`/`Outcome`.
- The process-wide PhpWord renderer settings are the class `PhpWordDriver.Settings`.

Methods that change state are proved against pure functions of the old state. The properties are
lemmas about those functions.

## Model

| member | source | states |
|---|---|---|
| Errors.NotFound | src/Exceptions/DriverException.php:9-12 | a driver-kind error, and a package exception |
| Errors.NotAvailable | src/Exceptions/DriverException.php:14-17 | a driver-kind error, and a package exception |
| Errors.NotConfigured | src/Exceptions/DriverException.php:19-22 | a driver-kind error, and a package exception |
| Errors.Failed | src/Exceptions/ConversionException.php:9-12 | a conversion-kind error, and a package exception |
| Errors.UnsupportedFormat | src/Exceptions/ConversionException.php:14-17 | a conversion-kind error, and a package exception |
| Errors.OutputFailed | src/Exceptions/ConversionException.php:19-22 | a conversion-kind error, and a package exception |
| Errors.TemplateNotFound | src/Exceptions/TemplateNotFoundException.php:9-12 | a template error, and a package exception |
| Errors.FileNotFound | src/Dokufy.php:99 | reading a missing template raises the framework's error, which is not a package exception |
| Errors.DriverNameRecoverable | src/Exceptions/DriverException.php:9-22 | the driver name is exactly what lies between "Driver [" and each message's fixed tail |
| Errors.DriverMessagesInjective | src/Exceptions/DriverException.php:9-22 | different driver names give different messages, for each of the three constructors |
| Errors.NotFoundIsNotNotConfigured | src/Exceptions/DriverException.php:9-22 | a "not found" error never equals a "not properly configured" one, whatever the names |
| Errors.ConversionCauseRecoverable | src/Exceptions/ConversionException.php:9-22 | the cause, format or path is the message minus its fixed prefix |
| Errors.ConversionMessagesDistinct | src/Exceptions/ConversionException.php:9-22 | the three conversion messages never coincide |
| Strings.Lower | src/Dokufy.php:96 | `strtolower`: same length, each ASCII capital mapped to its small letter, every other character kept |
| Strings.LowerIdempotent | src/Drivers/ChromiumDriver.php:150 | lower-casing twice is lower-casing once |
| Strings.ReplaceAllWithoutMatch | src/Concerns/InteractsWithPlaceholdify.php:41-45 | `str_replace` leaves content without the searched text unchanged |
| Strings.ReplaceAllSkip | src/Concerns/InteractsWithPlaceholdify.php:41-45 | text lacking the search string's first character is passed over, and the scan goes on after it |
| Strings.ReplaceAllOmitted | src/Concerns/InteractsWithPlaceholdify.php:41-45 | content lacking the search string's first character is unchanged |
| Strings.ReplaceAllOccurrence | src/Concerns/InteractsWithPlaceholdify.php:41-45 | one occurrence between text that cannot start another becomes the replacement, the text around it kept |
| Strings.NatToString | src/Concerns/InteractsWithPlaceholdify.php:43 | `(string)` of a natural number is a non-empty digit string without a leading zero |
| Strings.DigitsValueOfNatToString | src/Concerns/InteractsWithPlaceholdify.php:43 | the decimal rendering reads back as the number |
| Strings.NatToStringInjective | src/Concerns/InteractsWithPlaceholdify.php:43 | different numbers render differently |
| Paths.LastIndexOf | src/Drivers/LibreOfficeDriver.php:71 | the last occurrence of a character, or none at all |
| Paths.BasenameHasNoSlash | src/Drivers/LibreOfficeDriver.php:71 | a base name never holds a slash |
| Paths.DirnameBasename | src/Drivers/LibreOfficeDriver.php:66 | a path whose `dirname` is not the root is that directory (never ending in a slash), a non-empty run of slashes, and its base name |
| Paths.DirnameSlashBasename | src/Drivers/LibreOfficeDriver.php:66 | with a single slash before the base name, `dirname`, "/" and the base name give back the path, as the driver rebuilds it |
| Paths.RepeatedSlashes | src/Drivers/LibreOfficeDriver.php:66 | repeated slashes before the base name are dropped: `dirname("a//b")` is "a", `dirname("//b")` is "/" |
| Paths.StemExtension | src/Drivers/LibreOfficeDriver.php:71 | a base name with a dot is its `PATHINFO_FILENAME`, a dot, and its `PATHINFO_EXTENSION` |
| Paths.NoDotNoExtension | src/Dokufy.php:96 | a base name without a dot has an empty extension |
| Paths.ExtensionOfJoin | src/Dokufy.php:96 | for dir/stem.ext the base name, extension and stem are the parts |
| Environment.Written | src/Drivers/LibreOfficeDriver.php:42 | `file_put_contents` creates or overwrites the file, refuses a directory; every other path keeps its presence and its node |
| Environment.Saved | src/Drivers/GotenbergDriver.php:58-62 | a conversion's save onto an existing directory fails, is wrapped as "Document conversion failed: " with the host's message and changes nothing; otherwise out is answered and holds the bytes; every other path keeps its node |
| Environment.MadeDirectory | src/Drivers/LibreOfficeDriver.php:133-135 | `mkdir` only when nothing is there, adding exactly that directory |
| Environment.Renamed | src/Drivers/LibreOfficeDriver.php:73-75 | `rename` moves the node to the target, and does nothing when the source is missing; every other path keeps its node |
| Environment.Unlinked | src/Drivers/LibreOfficeDriver.php:56 | `@unlink` removes the file if there is one, never fails, and leaves no file behind |
| Environment.Copied | src/Dokufy.php:121 | `File::copy` gives the target the source's bytes, and does nothing without a source file or onto a directory; every other path keeps its node |
| Placeholders.IndexOf | src/Dokufy.php:75-80 | the position holding a key, or proof that no entry has it |
| Placeholders.LookupAt | src/Dokufy.php:75-80 | each entry is what its key looks up, keys being unique |
| Placeholders.LookupFirst | src/Dokufy.php:75-80 | a key is found at the head of the data or else in the rest |
| Placeholders.Put | src/Dokufy.php:77 | the key now maps to the value; other keys and the existing order are kept |
| Placeholders.Merge | src/Dokufy.php:77 | `array_merge`: existing keys keep their positions; a key of the new data has the new value, any other key its old one |
| Placeholders.MergeOverrides | src/Dokufy.php:75-80 | the override rule of `data()`, stated key by key |
| Placeholders.Substitute | src/Concerns/InteractsWithPlaceholdify.php:39-49 | the loop computes the left fold of one `str_replace` per eligible entry, in data order |
| Placeholders.SubstitutedConcat | src/Concerns/InteractsWithPlaceholdify.php:39-47 | substituting a + b is substituting a, then b |
| Placeholders.IneligibleValuesSkipped | src/Concerns/InteractsWithPlaceholdify.php:40 | values that are neither scalar nor stringable change nothing, so their tokens stay |
| Placeholders.NoTokensUnchanged | src/Concerns/InteractsWithPlaceholdify.php:39-49 | content without "{{" comes back unchanged, whatever the data |
| Placeholders.TokenNotIn | src/Concerns/InteractsWithPlaceholdify.php:42 | no token spelling occurs in content without "{{" |
| Placeholders.EarlierTokenAbsent | src/Concerns/InteractsWithPlaceholdify.php:42 | for a plain key, no spelling contains one replaced before it |
| Placeholders.TokenShape | src/Concerns/InteractsWithPlaceholdify.php:42 | every spelling opens with "{{" and holds no other opening brace |
| Placeholders.TokensDiffer | src/Concerns/InteractsWithPlaceholdify.php:42 | two spellings of a plain key differ at a position both have |
| Placeholders.EarlierSpellingKept | src/Concerns/InteractsWithPlaceholdify.php:41-45 | searching for a spelling listed before the one in the markup changes nothing |
| Placeholders.SpellingStep | src/Concerns/InteractsWithPlaceholdify.php:41-45 | each of the four searches: unchanged before the spelling present, the value at it, nothing left after it |
| Placeholders.EverySpellingReplaced | src/Concerns/InteractsWithPlaceholdify.php:41-45 | any of the four spellings of a key, anywhere in brace-free markup, becomes the value's text, the markup around it kept |
| Placeholders.HandlerPriority | src/Concerns/InteractsWithPlaceholdify.php:57-79 | toArray, then getPlaceholders, then resolve; none of them gives the empty data |
| Placeholders.HandlerReplacesData | src/Concerns/InteractsWithPlaceholdify.php:33-36 | with a handler, the explicit data is ignored, not merged |
| Fakes.AnyEndsWith | src/Drivers/FakeDriver.php:122-143 | true iff some generated path ends with the suffix |
| Fakes.AnyEndsWithAppend | src/Drivers/FakeDriver.php:45-59 | after one more conversion, the suffix check is the old one or the new path's |
| Fakes.AnyCall | src/Drivers/FakeDriver.php:150-167 | true iff some call has the method name and, when given, exactly the arguments |
| Fakes.FakeDriver.constructor | src/Drivers/FakeDriver.php:27-30 | both logs start empty |
| Fakes.FakeDriver.HtmlToPdf | src/Drivers/FakeDriver.php:45-51 | appends ("htmlToPdf", [html, out]) to the calls and out to the files, and returns out; the logs stay paired |
| Fakes.FakeDriver.DocxToPdf | src/Drivers/FakeDriver.php:53-59 | the same with "docxToPdf" |
| Fakes.FakeDriver.Reset | src/Drivers/FakeDriver.php:183-187 | both logs are empty again |
| Fakes.FakeDriver.AssertGenerated | src/Drivers/FakeDriver.php:110-117 | passes iff the path was generated; otherwise an assertion failure |
| Fakes.FakeDriver.AssertPdfGenerated | src/Drivers/FakeDriver.php:122-130 | passes iff some generated path ends in ".pdf", judged by path only |
| Fakes.FakeDriver.AssertDocxGenerated | src/Drivers/FakeDriver.php:135-143 | passes iff some generated path ends in ".docx" |
| Fakes.FakeDriver.AssertMethodCalled | src/Drivers/FakeDriver.php:150-167 | passes iff some call has the method and, with arguments, some such call has exactly them |
| Fakes.FakeDriver.AssertNothingGenerated | src/Drivers/FakeDriver.php:172-178 | passes iff no file was generated |
| Fakes.RecordingScenario | tests/Unit/Drivers/FakeDriverTest.php:180-218 | an HTML conversion to a .pdf path and a DOCX conversion to a .docx path are logged in order; the PDF, DOCX and called-with-arguments assertions all pass |
| Fakes.ResetScenario | tests/Unit/Drivers/FakeDriverTest.php:222-233 | after `reset` no presence assertion passes and "nothing generated" does |
| ChromiumDriver.NumericPart | src/Drivers/ChromiumDriver.php:147 | only digits and dots remain |
| ChromiumDriver.UnitPart | src/Drivers/ChromiumDriver.php:148 | no digit or dot remains |
| ChromiumDriver.PartsPartition | src/Drivers/ChromiumDriver.php:147-148 | the two parts together hold exactly the input's characters |
| ChromiumDriver.PartsOfConcat | src/Drivers/ChromiumDriver.php:147-148 | both filters distribute over concatenation |
| ChromiumDriver.PartsOfNumeric | src/Drivers/ChromiumDriver.php:147-148 | a purely numeric string is its own numeric part and has no unit |
| ChromiumDriver.PartsOfUnit | src/Drivers/ChromiumDriver.php:147-148 | a string without digits or dots is its own unit |
| ChromiumDriver.LeadingDigits | src/Drivers/ChromiumDriver.php:147 | the longest digit prefix that `(float)` reads |
| ChromiumDriver.SplitMargin | src/Drivers/ChromiumDriver.php:147-148 | number-then-unit splits back into the number and the unit |
| ChromiumDriver.ParseMarginOfParts | src/Drivers/ChromiumDriver.php:145-156 | the millimetre value is the number times the unit's size |
| ChromiumDriver.UnitCaseInsensitive | src/Drivers/ChromiumDriver.php:150 | the unit is matched without regard to case |
| ChromiumDriver.UnitSizes | src/Drivers/ChromiumDriver.php:150-155 | in = 25.4, IN = 25.4, cm = 10; mm and the empty unit = 1 |
| ChromiumDriver.DigitValues | src/Drivers/ChromiumDriver.php:147 | the decimal reading of 1, 2, 3, 5 and 0.5 |
| ChromiumDriver.OneInch | src/Drivers/ChromiumDriver.php:145-156 | "1in" is 25.4 mm |
| ChromiumDriver.HalfInch | src/Drivers/ChromiumDriver.php:145-156 | "0.5in" is 12.7 mm |
| ChromiumDriver.TwoCentimetres | src/Drivers/ChromiumDriver.php:145-156 | "2cm" is 20 mm |
| ChromiumDriver.FiveMillimetres | src/Drivers/ChromiumDriver.php:145-156 | "5mm" is 5 mm |
| ChromiumDriver.BareNumber | src/Drivers/ChromiumDriver.php:154 | a number without a unit is taken as millimetres |
| ChromiumDriver.MarginExamples | src/Drivers/ChromiumDriver.php:145-156 | the examples above together |
| ChromiumDriver.DefaultPageSetup | src/Drivers/ChromiumDriver.php:120-139 | unconfigured: A4, portrait, margins 25.4 / 12.7 / 25.4 / 12.7 in the order top, right, bottom, left |
| ChromiumDriver.LandscapeOnlyWhenExact | src/Drivers/ChromiumDriver.php:121-127 | landscape iff the orientation is exactly "landscape" |
| ChromiumDriver.Browser | src/Drivers/ChromiumDriver.php:96-108 | node and npm binaries are set iff configured and not PHP-empty, and then to the configured value; the timeout is the configured one, 60 by default |
| ChromiumDriver.HtmlToPdf | src/Drivers/ChromiumDriver.php:38-60 | no library means "not properly configured" with no change; success means the renderer produced bytes, and then out is answered and holds those bytes; a renderer error, or a save onto a directory, is wrapped with its message |
| ChromiumDriver.DocxToPdf | src/Drivers/ChromiumDriver.php:62-66 | always fails with an unsupported "docx" format |
| LibreOfficeDriver.Binary | src/Drivers/LibreOfficeDriver.php:119-122 | the configured binary, else "libreoffice" |
| LibreOfficeDriver.Timeout | src/Drivers/LibreOfficeDriver.php:124-127 | the configured timeout, else 120 |
| LibreOfficeDriver.FirstExecutable | src/Drivers/LibreOfficeDriver.php:167-171 | the first executable candidate, with none before it, or none at all |
| LibreOfficeDriver.ResolvedBinaryChoice | src/Drivers/LibreOfficeDriver.php:151-174 | the configured binary, unless it is not executable and a common path is |
| LibreOfficeDriver.ResolveBinaryPath | src/Drivers/LibreOfficeDriver.php:151-174 | the early-return loop computes the resolved binary |
| LibreOfficeDriver.IsAvailable | src/Drivers/LibreOfficeDriver.php:92-117 | true iff `which` succeeds or some common path is executable |
| LibreOfficeDriver.FailureCause | src/Drivers/LibreOfficeDriver.php:147 | the error output, unless it is "" or "0", then the fixed message |
| LibreOfficeDriver.Converted | src/Drivers/LibreOfficeDriver.php:129-149 | fails iff the process fails, with the wrapped cause; the output directory exists afterwards |
| LibreOfficeDriver.ConvertToPdf | src/Drivers/LibreOfficeDriver.php:129-149 | the method's answer and file system are those of the conversion |
| LibreOfficeDriver.DocxToPdf | src/Drivers/LibreOfficeDriver.php:60-82 | the method's answer and file system are those of the DOCX conversion |
| LibreOfficeDriver.DocxMissingSource | src/Drivers/LibreOfficeDriver.php:62-64 | a missing source fails with "Document conversion failed: Source file not found: p" before anything runs |
| LibreOfficeDriver.DocxSuccessHasOutput | src/Drivers/LibreOfficeDriver.php:77-81 | success answers out, and something is at out |
| LibreOfficeDriver.DocxDelivers | src/Drivers/LibreOfficeDriver.php:66-81 | when the suite writes dir/stem.pdf, the PDF ends up at out |
| LibreOfficeDriver.DocxProcessFailure | src/Drivers/LibreOfficeDriver.php:146-148 | a failed process gives its error output, or the fixed message when that is PHP-empty |
| LibreOfficeDriver.HtmlToPdf | src/Drivers/LibreOfficeDriver.php:38-58 | the method's answer and file system are those of the HTML conversion |
| LibreOfficeDriver.HtmlCleansUp | src/Drivers/LibreOfficeDriver.php:44-57 | the temporary file is gone either way; success iff the process succeeds; success answers out |
| LibreOfficeDriver.HtmlSuccessUnchecked | src/Drivers/LibreOfficeDriver.php:50-54 | success is answered even though nothing was written at out |
| PhpWordDriver.PdfRenderer | src/Drivers/PhpWordDriver.php:112-115 | the configured renderer, else "dompdf" |
| PhpWordDriver.RendererAvailable | src/Drivers/PhpWordDriver.php:134-139 | only dompdf, tcpdf and mpdf can be available |
| PhpWordDriver.Preconditions | src/Drivers/PhpWordDriver.php:120-144 | passes iff the library and the renderer are present; library first, then "phpword (missing PDF renderer: r)" |
| PhpWordDriver.ConfiguredRendererIsKnown | src/Drivers/PhpWordDriver.php:146-166 | after the checks pass, the renderer is a known one, so the fallback rows are never taken |
| PhpWordDriver.FirstPackageDirectory | src/Drivers/PhpWordDriver.php:177-182 | the first base holding the package as a directory, with none before it, or none |
| PhpWordDriver.VendorPathChoice | src/Drivers/PhpWordDriver.php:168-185 | an existing package directory, or the fallback under the application root |
| PhpWordDriver.GetVendorPath | src/Drivers/PhpWordDriver.php:168-185 | the early-return loop computes the vendor path |
| PhpWordDriver.Settings.constructor | src/Drivers/PhpWordDriver.php:164-165 | no renderer is set until a conversion sets one |
| PhpWordDriver.ConfigurePdfRenderer | src/Drivers/PhpWordDriver.php:146-166 | the global settings receive the renderer's name and its vendor path |
| PhpWordDriver.Render | src/Drivers/PhpWordDriver.php:43-65 | configure, make the directory, save; a library error, or a save onto a directory, is wrapped with its message |
| PhpWordDriver.HtmlToPdf | src/Drivers/PhpWordDriver.php:38-66 | answer, files and settings are those of the HTML conversion; failed checks leave the settings alone |
| PhpWordDriver.DocxToPdf | src/Drivers/PhpWordDriver.php:68-97 | answer, files and settings are those of the DOCX conversion |
| PhpWordDriver.LibraryCheckedFirst | src/Drivers/PhpWordDriver.php:38-71 | without the library both conversions fail with "phpword" not configured, changing nothing |
| PhpWordDriver.RendererCheckedSecond | src/Drivers/PhpWordDriver.php:38-71 | with the library but no renderer, both fail with the missing-renderer error, even for a missing source |
| PhpWordDriver.AvailableWithoutRenderer | src/Drivers/PhpWordDriver.php:107-110 | availability ignores the renderer, so an available driver can still fail every conversion |
| PhpWordDriver.DocxSourceCheckedThird | src/Drivers/PhpWordDriver.php:73-75 | after both checks, a missing source fails with nothing changed |
| PhpWordDriver.RenderingOutcome | src/Drivers/PhpWordDriver.php:59-65 | a library error is wrapped with its message; otherwise out holds the rendered bytes |
| PhpWordDriver.RenderingOntoDirectory | src/Drivers/PhpWordDriver.php:59-65 | the writer's save onto an existing directory fails and is wrapped with the host's message; the renderer stays configured and only the output directory may be made |
| Drivers.SupportedFormats | src/Drivers/PhpWordDriver.php:102-105 | every driver takes HTML except PhpWord, and every driver takes DOCX except Chromium |
| Drivers.IsAvailable | src/Contracts/Driver.php:7-20 | each driver's own availability test |
| Drivers.SuccessAnswersOutputPath | src/Contracts/Converter.php:7-30 | every successful conversion answers the output path it was given |
| Drivers.NoSaveOntoDirectory | src/Drivers/ChromiumDriver.php:54-58 | the remote, Browsershot and PhpWord drivers never convert onto an existing directory: both conversions fail, and at most the output directory is made |
| Drivers.HtmlToPdf | src/Contracts/Converter.php:7-12 | dispatch of the contract's `htmlToPdf`: the fake logs the call and the output path and leaves the files alone; every other driver behaves as its own conversion; the renderer settings change only when the PhpWord driver configures a renderer, and then name it |
| Drivers.DocxToPdf | src/Contracts/Converter.php:14-17 | the same for the contract's `docxToPdf`, renderer settings included |
| Registry.KindNames | src/DokufyServiceProvider.php:36-58 | each driver reports its kind's name, and different kinds have different names |
| Registry.AvailableByKind | src/Dokufy.php:210-229 | a driver built from the configuration is available exactly when its kind is |
| Registry.AbstractInjective | src/Dokufy.php:292 | different driver names give different container keys |
| Registry.Resolve | src/Dokufy.php:290-305 | no binding: not found; a binding to a non-driver: not properly configured; otherwise the bound driver |
| Registry.Container.constructor | src/Dokufy.php:37-40 | an empty container |
| Registry.Container.Singleton | src/DokufyServiceProvider.php:36-38 | (re)binds the key and drops a stale instance |
| Registry.Container.Build | src/DokufyServiceProvider.php:36-58 | the built driver is of the bound kind and reads its configuration; a fake is new and empty |
| Registry.Container.Make | src/Dokufy.php:298 | the memoized instance when there is one, else a new one that is then memoized |
| Orchestrator.RouteInlineHtml | src/Dokufy.php:89-93 | inline HTML wins over a template and is converted after substitution |
| Orchestrator.RouteHtmlTemplate | src/Dokufy.php:95-103 | a template ending in html or htm, in any case, is read and substituted |
| Orchestrator.RouteDocxTemplate | src/Dokufy.php:105 | a .docx template goes to `docxToPdf` unchanged, even when the file is missing |
| Orchestrator.AvailableNamesMembers | src/Dokufy.php:197-219 | a name is listed iff it is configured and usable; the list is no longer than the configuration |
| Orchestrator.AvailableNamesAll | src/Dokufy.php:197-219 | with every configured name usable, all are listed, in order |
| Orchestrator.Dokufy.constructor | src/Dokufy.php:37-40 | an empty builder over the container |
| Orchestrator.Dokufy.Template | src/Dokufy.php:47-57 | a missing path fails with "Template not found at" and changes nothing; otherwise it sets the template and clears the HTML |
| Orchestrator.Dokufy.Html | src/Dokufy.php:62-68 | sets the HTML and clears the template; the rest is kept |
| Orchestrator.Dokufy.Data | src/Dokufy.php:75-80 | the data becomes the merge of the old data and the new |
| Orchestrator.Dokufy.With | src/Concerns/InteractsWithPlaceholdify.php:19-24 | stores the handler and answers the same builder |
| Orchestrator.Dokufy.ProcessPlaceholders | src/Concerns/InteractsWithPlaceholdify.php:31-50 | substitution of the handler's data when a handler is attached, else of the explicit data |
| Orchestrator.Dokufy.ResolveDriverByName | src/Dokufy.php:290-305 | fails exactly as `Resolve` says, with nothing built; otherwise the memoized singleton of that kind |
| Orchestrator.Dokufy.ResolveDriver | src/Dokufy.php:273-283 | the pinned driver, else the configured default, falling back to "gotenberg" |
| Orchestrator.Dokufy.Driver | src/Dokufy.php:169-174 | pins the container's singleton for the name; a resolution error changes nothing |
| Orchestrator.Dokufy.Make | src/Dokufy.php:181-190 | a new empty builder sharing the container, with the container's singleton for the name pinned when a name is given |
| Orchestrator.Dokufy.ToPdf | src/Dokufy.php:85-109 | driver errors first, then the route's error, then exactly the chosen driver's conversion of the routed source; the fake logs the call and the output path, and no other recorder may change; the renderer settings change only when the chosen PhpWord driver configures a renderer |
| Orchestrator.Dokufy.Routed | src/Dokufy.php:89-108 | the route chosen is the routing function of the builder's source, data and files |
| Orchestrator.Dispatch | src/Dokufy.php:92-105 | an HTML route goes to `htmlToPdf`, a template path to `docxToPdf`; a real driver's effect is its delivery, the fake appends exactly that call and the output path; the renderer settings are those of the route's conversion |
| Orchestrator.Dokufy.ToDocx | src/Dokufy.php:114-124 | without a template "A template is required"; otherwise a copy of the template at out |
| Orchestrator.Dokufy.GetAvailableDrivers | src/Dokufy.php:197-219 | the loop computes the ordered sub-list of usable configured names |
| Orchestrator.Dokufy.IsDriverAvailable | src/Dokufy.php:224-233 | true iff the name resolves and that driver is available; never an error |
| Orchestrator.Dokufy.Fake | src/Dokufy.php:238-244 | a new, empty recording driver, kept and pinned |
| Orchestrator.Dokufy.GetFakeDriver | src/Dokufy.php:312-319 | the recording driver, or "No fake driver has been set" |
| Orchestrator.Dokufy.AssertGenerated | src/Dokufy.php:249-252 | fails without a recording driver, else passes iff the path was generated |
| Orchestrator.Dokufy.AssertPdfGenerated | src/Dokufy.php:257-260 | fails without a recording driver, else passes iff some ".pdf" was generated |
| Orchestrator.Dokufy.AssertDocxGenerated | src/Dokufy.php:265-268 | fails without a recording driver, else passes iff some ".docx" was generated |
| Orchestrator.Dokufy.Reset | src/Dokufy.php:324-333 | clears the source, data, driver and handler, and keeps the recording driver |
| Orchestrator.FakePdfScenario | tests/Unit/DokufyTest.php:105-116 | after `fake()` and `html()`, `toPdf` answers the .pdf path, `assertPdfGenerated` and `assertGenerated` pass, and the one call is logged |
| Provider.RegisteredNames | src/DokufyServiceProvider.php:33-59 | each of the five names resolves to the kind reporting that name; other names are untouched |
| Provider.ExactlyFiveNames | src/DokufyServiceProvider.php:33-59 | in a fresh container exactly fake, gotenberg, libreoffice, chromium and phpword resolve |
| Provider.Register | src/DokufyServiceProvider.php:33-59 | the five singleton bindings in order: the bindings are the registered ones and the five driver keys lose any instance |
| Provider.Application.constructor | src/DokufyServiceProvider.php:27-31 | a fresh container without bindings |
| Provider.Application.RegisterDrivers | src/DokufyServiceProvider.php:33-59 | the bindings are the registered ones, and stale driver instances are dropped |
| Provider.Application.RegisterDokufy | src/DokufyServiceProvider.php:61-68 | the builder is bound, and no instance exists yet |
| Provider.Application.PackageRegistered | src/DokufyServiceProvider.php:27-31 | the drivers are registered, then the builder |
| Provider.Application.MakeDokufy | src/DokufyServiceProvider.php:63-67 | the class name and the alias give the one builder, built on first use |
| Provider.Boot | tests/Unit/ServiceProviderTest.php:14-67 | after boot, class name and alias give the same builder; a registered name resolves twice to the same driver with that name; other names are not found |

## Left out

- `stream` and `download` (src/Dokufy.php:129-162) are not modelled. They build HTTP responses around `toPdf` into a temporary file.
- The remote driver's own logic is not modelled: its URL default, the empty-URL check, the health request and its timeout. The host says whether the library is installed, whether the service is healthy, and what rendering returns.
- Command lines are not modelled: `escapeshellarg`, the sprintf layout and the process timeout. The process is an oracle in `Host.process`, which reports success, error output and whether it wrote dir/stem.pdf.
- Environment.Written: a `file_put_contents` onto a directory leaves the files unchanged without an error. The conversions' save steps go through Environment.Saved, which fails there; only the LibreOffice driver's temporary HTML file, at a unique name in the temporary directory, is written with Written directly.
- ChromiumDriver.HtmlToPdf and PhpWordDriver.Render: the failures of the libraries' builder calls that happen before `mkdir` are modelled at the save step only. So a failing render still creates the output directory.
- Paths.Dirname and Paths.Basename model `dirname` and `basename` for paths without trailing slashes; for "a/b/" PHP ignores the trailing slash and the model does not. Paths are otherwise compared as plain strings, with no normalisation ("a/./b" and "a/b" are different nodes). `mkdir` creates only the last directory, not its parents. A directory is never executable, although `is_executable` can be true for one.
- Environment.MadeDirectory: when a regular file sits at the directory path, PHP's `mkdir` emits a warning that the framework raises as an exception (caught and wrapped as a conversion failure by the Chromium driver). The model leaves the files unchanged and goes on.
- Environment.Copied: copying from a template removed after `template()`, or onto an output path that is a directory, makes PHP's `copy` warn, and the framework raises that as an exception. The model leaves the files unchanged, and `toDocx` answers the output path.
- Environment.Renamed: PHP's `rename` of a file onto an existing directory fails with a warning, which the framework raises as an exception. The model replaces the directory with the file.
- Placeholders.Render: the scalar values modelled are strings and integers. Floats and booleans are left out, because PHP's `(string)` of them depends on float formatting and on the rule that `false` renders as "". An object with `__toString` carries the text it renders to.
- Integer-like string keys that `array_merge` renumbers are not modelled. Keys are strings.
- PHPUnit's assertion message texts are not modelled. Assertion failures are errors of the kind `AssertionFailure`.
- `getConfig` on every driver is not modelled.
- ChromiumDriver.Browser: only the settings values are modelled, not the calls on the Browsershot builder. The `(int)` cast of a configured timeout is taken as an integer already.
- The driver interface is a datatype with one constructor per driver, not an open interface. Third-party drivers bound under `dokufy.driver.*` are represented only as non-driver bindings.
- Orchestrator.DefaultName falls back to "gotenberg" only when `dokufy.default` is absent. The published configuration sets it to "phpword", and `Config.Published` carries that value.
- Provider.Application.MakeDokufy covers only the builder's class name and its alias. Resolving other unbound names through the framework is not modelled.
- Orchestrator.Dokufy.GetAvailableDrivers: a driver's `isAvailable` that itself throws (the LibreOffice driver's unguarded `which` process call, src/Drivers/LibreOfficeDriver.php:97, can) is folded into the host's answer.
