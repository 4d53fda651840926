/** The `dokufy` configuration the drivers and the orchestrator read. A key
    that is absent from the configuration is `None`; each reader applies its
    own default. */
module Config {
  import opened Wrappers

  datatype LibreOfficeConfig = LibreOfficeConfig(binary: Option<string>, timeout: Option<int>)

  datatype ChromiumConfig = ChromiumConfig(
    nodeBinary: Option<string>,
    npmBinary: Option<string>,
    timeout: Option<int>)

  datatype PhpWordConfig = PhpWordConfig(pdfRenderer: Option<string>)

  /** `dokufy.pdf`: page layout shared by the drivers that lay out pages. */
  datatype PdfConfig = PdfConfig(
    format: Option<string>,
    orientation: Option<string>,
    marginTop: Option<string>,
    marginBottom: Option<string>,
    marginLeft: Option<string>,
    marginRight: Option<string>)

  datatype Config = Config(
    default: Option<string>,      // dokufy.default
    driverNames: seq<string>,     // the keys of dokufy.drivers, in order
    libreoffice: LibreOfficeConfig,
    chromium: ChromiumConfig,
    phpword: PhpWordConfig,
    pdf: PdfConfig)

  /** The configuration file the package publishes, with no environment overrides. */
  const Published := Config(
    Some("phpword"),
    ["gotenberg", "libreoffice", "chromium", "phpword", "fake"],
    LibreOfficeConfig(Some("libreoffice"), Some(120)),
    ChromiumConfig(None, None, Some(60)),
    PhpWordConfig(Some("dompdf")),
    PdfConfig(Some("A4"), Some("portrait"), Some("1in"), Some("1in"), Some("0.5in"), Some("0.5in")))
}
