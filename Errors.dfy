/** The exceptions the core throws, as values: a kind (the exception class)
    and the message its static constructor builds. */
module Errors {

  datatype Kind =
    | DriverFailure       // DriverException
    | ConversionFailure   // ConversionException
    | TemplateMissing     // TemplateNotFoundException
    | InvalidState        // a plain RuntimeException
    | FileMissing         // the framework's FileNotFoundException from File::get
    | AssertionFailure    // the test framework's failed assertion

  datatype Error = Error(kind: Kind, message: string)

  /** The package's own exceptions all derive from DokufyException. */
  predicate IsDokufyException(e: Error) {
    e.kind.DriverFailure? || e.kind.ConversionFailure? || e.kind.TemplateMissing?
  }

  // DriverException

  const NotFoundPrefix := "Driver ["
  const NotFoundSuffix := "] not found."
  const NotAvailableSuffix := "] is not available. Please check your configuration."
  const NotConfiguredSuffix := "] is not properly configured."

  function NotFound(driver: string): (e: Error)
    ensures e.kind == DriverFailure && IsDokufyException(e)
  {
    Error(DriverFailure, NotFoundPrefix + driver + NotFoundSuffix)
  }

  function NotAvailable(driver: string): (e: Error)
    ensures e.kind == DriverFailure && IsDokufyException(e)
  {
    Error(DriverFailure, NotFoundPrefix + driver + NotAvailableSuffix)
  }

  function NotConfigured(driver: string): (e: Error)
    ensures e.kind == DriverFailure && IsDokufyException(e)
  {
    Error(DriverFailure, NotFoundPrefix + driver + NotConfiguredSuffix)
  }

  // ConversionException

  const FailedPrefix := "Document conversion failed: "
  const UnsupportedPrefix := "Unsupported format: "
  const OutputFailedPrefix := "Failed to write output to: "

  function Failed(cause: string): (e: Error)
    ensures e.kind == ConversionFailure && IsDokufyException(e)
  {
    Error(ConversionFailure, FailedPrefix + cause)
  }

  function UnsupportedFormat(format: string): (e: Error)
    ensures e.kind == ConversionFailure && IsDokufyException(e)
  {
    Error(ConversionFailure, UnsupportedPrefix + format)
  }

  function OutputFailed(path: string): (e: Error)
    ensures e.kind == ConversionFailure && IsDokufyException(e)
  {
    Error(ConversionFailure, OutputFailedPrefix + path)
  }

  // TemplateNotFoundException

  function TemplateNotFound(path: string): (e: Error)
    ensures e.kind == TemplateMissing && IsDokufyException(e)
  {
    Error(TemplateMissing, "Template not found at: " + path)
  }

  // Errors that are not the package's own

  function FileNotFound(path: string): (e: Error)
    ensures e.kind == FileMissing && !IsDokufyException(e)
  {
    Error(FileMissing, "File does not exist at path " + path + ".")
  }

  const NoContent := Error(InvalidState, "No template or HTML content has been set.")
  const TemplateRequired := Error(InvalidState, "A template is required for DOCX output.")
  const NoFakeDriver := Error(InvalidState, "No fake driver has been set. Call fake() first.")

  /** The text between a fixed prefix and a fixed suffix, if the message has both. */
  function Between(message: string, prefix: string, suffix: string): (r: string)
    requires |prefix| + |suffix| <= |message|
    ensures |r| == |message| - |prefix| - |suffix|
  {
    message[|prefix|..|message| - |suffix|]
  }

  /** The driver name can be read back from a DriverException message. */
  lemma {:induction false} DriverNameRecoverable(driver: string)
    ensures Between(NotFound(driver).message, NotFoundPrefix, NotFoundSuffix) == driver
    ensures Between(NotAvailable(driver).message, NotFoundPrefix, NotAvailableSuffix) == driver
    ensures Between(NotConfigured(driver).message, NotFoundPrefix, NotConfiguredSuffix) == driver
  {
    var n := |NotFoundPrefix|;
    assert (NotFoundPrefix + driver + NotFoundSuffix)[n..n + |driver|] == driver;
    assert (NotFoundPrefix + driver + NotAvailableSuffix)[n..n + |driver|] == driver;
    assert (NotFoundPrefix + driver + NotConfiguredSuffix)[n..n + |driver|] == driver;
  }

  /** Different drivers give different messages, for each DriverException constructor. */
  lemma DriverMessagesInjective(a: string, b: string)
    ensures NotFound(a) == NotFound(b) ==> a == b
    ensures NotAvailable(a) == NotAvailable(b) ==> a == b
    ensures NotConfigured(a) == NotConfigured(b) ==> a == b
  {
    DriverNameRecoverable(a);
    DriverNameRecoverable(b);
  }

  /** "not found" and "not properly configured" can never be confused, whatever the names. */
  lemma {:induction false} NotFoundIsNotNotConfigured(a: string, b: string)
    ensures NotFound(a) != NotConfigured(b)
  {
    var m := NotFound(a).message;
    var m' := NotConfigured(b).message;
    assert m[|m| - 12..] == NotFoundSuffix;
    assert m'[|m'| - 12..] == " configured.";
  }

  /** The cause of a conversion failure can be read back from the message. */
  lemma {:induction false} ConversionCauseRecoverable(s: string)
    ensures Failed(s).message[|FailedPrefix|..] == s
    ensures UnsupportedFormat(s).message[|UnsupportedPrefix|..] == s
    ensures OutputFailed(s).message[|OutputFailedPrefix|..] == s
  {
    assert (FailedPrefix + s)[|FailedPrefix|..] == s;
    assert (UnsupportedPrefix + s)[|UnsupportedPrefix|..] == s;
    assert (OutputFailedPrefix + s)[|OutputFailedPrefix|..] == s;
  }

  /** The three ConversionException constructors never build the same message. */
  lemma {:induction false} ConversionMessagesDistinct(a: string, b: string)
    ensures Failed(a) != UnsupportedFormat(b)
    ensures Failed(a) != OutputFailed(b)
    ensures UnsupportedFormat(a) != OutputFailed(b)
  {
    assert Failed(a).message[..9] == "Document ";
    assert UnsupportedFormat(b).message[..9] == "Unsupport";
    assert OutputFailed(b).message[..9] == "Failed to";
    assert UnsupportedFormat(a).message[..9] == "Unsupport";
  }
}
