/**
 * The configuration rules of SimpleCmdScan: how `__init__` turns the
 * command-line arguments into settings (resolution keywords and fall-backs),
 * the paper-format table, the controller's own copy of the default-paper rule
 * and the choice `set_paper_size` makes.
 */
module Options {
  import opened Base
  import opened Strings
  import Utils

  const DEFAULT_RESOLUTION_TEXT: int := 150
  const DEFAULT_RESOLUTION_PICTURE: int := 300
  const DEFAULT_OUTPUT_FILENAME: string := "%Y-%m-%d_%H%M_scan"

  // ---------------------------------------------------------------------
  // resolution
  // ---------------------------------------------------------------------

  /**
   * The DPI `__init__` stores for the `resolution` argument: an integer
   * string gives its value, `text` and `picture` in any letter case give 150
   * and 300, and an absent argument, anything else or a value of 0 gives 150.
   */
  function ResolutionDpi(arg: Option<string>): (dpi: int)
    ensures dpi != 0
    ensures dpi == DEFAULT_RESOLUTION_TEXT || dpi == DEFAULT_RESOLUTION_PICTURE ||
            (arg.Some? && ParseInt(arg.value) == Some(dpi))
    ensures arg.None? || arg.value == "" ==> dpi == DEFAULT_RESOLUTION_TEXT
    ensures arg.Some? && ParseInt(arg.value).Some? && ParseInt(arg.value).value != 0 ==> dpi == ParseInt(arg.value).value
    ensures arg.Some? && ParseInt(arg.value) == Some(0) ==> dpi == DEFAULT_RESOLUTION_TEXT
    ensures arg.Some? && ParseInt(arg.value).None? && Lower(arg.value) != "picture" ==> dpi == DEFAULT_RESOLUTION_TEXT
    ensures arg.Some? && ParseInt(arg.value).None? && Lower(arg.value) == "picture" ==> dpi == DEFAULT_RESOLUTION_PICTURE
  {
    if arg.None? || arg.value == "" then DEFAULT_RESOLUTION_TEXT
    else
      match ParseInt(arg.value)
      case Some(v) => if v != 0 then v else DEFAULT_RESOLUTION_TEXT
      case None =>
        var res := Lower(arg.value);
        if res == "text" then DEFAULT_RESOLUTION_TEXT
        else if res == "picture" then DEFAULT_RESOLUTION_PICTURE
        else DEFAULT_RESOLUTION_TEXT
  }

  /** Every non-zero integer, written in decimal, is taken as it is (negative ones too). */
  lemma ResolutionOfInteger(n: int)
    requires n != 0
    ensures ResolutionDpi(Some(ShowInt(n))) == n
  {
    ParseShow(n);
  }

  /** An integer string of value 0 falls back to the text default. */
  lemma ResolutionOfZero(s: string)
    requires ParseInt(s) == Some(0)
    ensures ResolutionDpi(Some(s)) == DEFAULT_RESOLUTION_TEXT
  {
  }

  /** A word that starts with a letter is not an integer. */
  lemma LetterIsNotInteger(s: string)
    requires |s| > 0 && !IsSpace(s[0]) && !IsSpace(s[|s| - 1])
    requires s[0] != '-' && s[0] != '+' && !IsDigit(s[0])
    ensures ParseInt(s) == None
  {
    StripUnspaced(s);
  }

  /** The keywords, in any letter case, select the text and picture presets. */
  lemma ResolutionKeywords(s: string)
    ensures Lower(s) == "text" ==> ResolutionDpi(Some(s)) == DEFAULT_RESOLUTION_TEXT
    ensures Lower(s) == "picture" ==> ResolutionDpi(Some(s)) == DEFAULT_RESOLUTION_PICTURE
  {
    if Lower(s) == "text" || Lower(s) == "picture" {
      assert LowerChar(s[0]) == Lower(s)[0];
      assert LowerChar(s[|s| - 1]) == Lower(s)[|s| - 1];
      LetterIsNotInteger(s);
    }
  }

  /** The values the application tests expect: `picture` gives 300, no argument gives 150. */
  lemma ResolutionExamples()
    ensures ResolutionDpi(Some("picture")) == 300
    ensures ResolutionDpi(None) == 150
  {
    ResolutionKeywords("picture");
  }

  /** Mixed-case spellings of the keywords. */
  lemma ResolutionCaseExamples()
    ensures ResolutionDpi(Some("PiCtUrE")) == 300
    ensures ResolutionDpi(Some("Text")) == 150
  {
    ResolutionKeywords("PiCtUrE");
    ResolutionKeywords("Text");
  }

  // ---------------------------------------------------------------------
  // paper formats
  // ---------------------------------------------------------------------

  /** A paper format: display name and size in tenths of a millimetre. */
  datatype PaperSize = PaperSize(name: string, widthTenthMm: nat, heightTenthMm: nat)

  /** PAPER_SIZES_MM, keyed by lower-case format name. */
  const PAPER_SIZES: map<string, PaperSize> := map[
    "a4" := PaperSize("A4", 2100, 2970),
    "letter" := PaperSize("Letter", 2159, 2794),
    "legal" := PaperSize("Legal", 2159, 3556)
  ]

  /** SimpleCmdScan.get_default_paper_size, the controller's own copy of the rule. */
  function DefaultPaperSize(lcPaper: Option<string>, processLocale: Option<string>): (r: string)
    ensures r in PAPER_SIZES
    ensures r == "letter" || r == "a4"
  {
    var loc := if lcPaper.Some? && lcPaper.value != "" then Split(lcPaper.value, '.')[0]
               else processLocale.GetOr("");
    if loc != "" && (Contains(loc, "US") || Contains(loc, "CA")) then "letter" else "a4"
  }

  /** The two copies of the default-paper rule compute the same format. */
  lemma DefaultPaperSizesAgree(lcPaper: Option<string>, processLocale: Option<string>)
    ensures DefaultPaperSize(lcPaper, processLocale) == Utils.DefaultPaperSize(lcPaper, processLocale)
    ensures Utils.DefaultPaperSize(lcPaper, processLocale) in PAPER_SIZES
  {
  }

  /** The format set_paper_size applies, and whether it reports an unsupported name. */
  datatype PaperChoice = PaperChoice(key: string, warned: bool)

  /**
   * set_paper_size: a given name is lower-cased; a missing one, or one
   * that is not in the table, is replaced by the locale default.
   */
  function ChoosePaper(paperFormat: Option<string>, lcPaper: Option<string>,
                       processLocale: Option<string>): (c: PaperChoice)
    ensures c.key in PAPER_SIZES
  {
    var requested := if paperFormat.Some? && paperFormat.value != "" then Lower(paperFormat.value)
                     else DefaultPaperSize(lcPaper, processLocale);
    if requested in PAPER_SIZES then PaperChoice(requested, false)
    else PaperChoice(DefaultPaperSize(lcPaper, processLocale), requested != "")
  }

  /**
   * A supplied name is matched case-insensitively; an unsupported one gives
   * the locale default and is reported; none at all gives the default silently.
   */
  lemma ChoosePaperRule(paperFormat: Option<string>, lcPaper: Option<string>,
                        processLocale: Option<string>)
    ensures var supplied := paperFormat.Some? && paperFormat.value != "";
            var c := ChoosePaper(paperFormat, lcPaper, processLocale);
            && (c.warned <==> supplied && Lower(paperFormat.value) !in PAPER_SIZES)
            && c.key == if supplied && Lower(paperFormat.value) in PAPER_SIZES
                        then Lower(paperFormat.value)
                        else Utils.DefaultPaperSize(lcPaper, processLocale)
  {
    var supplied := paperFormat.Some? && paperFormat.value != "";
    if supplied {
      assert |Lower(paperFormat.value)| > 0;
    }
  }

  /** The three command-line choices select their own table entries. */
  lemma ChoosePaperExamples(lcPaper: Option<string>, processLocale: Option<string>)
    ensures ChoosePaper(Some("A4"), lcPaper, processLocale) == PaperChoice("a4", false)
    ensures ChoosePaper(Some("Letter"), lcPaper, processLocale) == PaperChoice("letter", false)
    ensures ChoosePaper(Some("Legal"), lcPaper, processLocale) == PaperChoice("legal", false)
    ensures ChoosePaper(Some("B5"), lcPaper, processLocale).warned
  {
    assert Lower("A4") == "a4";
    assert Lower("Letter") == "letter";
    assert Lower("Legal") == "legal";
    assert Lower("B5") == "b5";
  }

  // ---------------------------------------------------------------------
  // the settings __init__ derives from its arguments
  // ---------------------------------------------------------------------

  /** The parsed command line (argparse namespace), None for unset options. */
  datatype Args = Args(
    findScanners: bool,
    scanner: Option<string>,
    outputDir: Option<string>,
    outputFilename: Option<string>,
    adf: bool,
    colorMode: Option<string>,
    paperFormat: Option<string>,
    resolution: Option<string>,
    doubleSided: bool,
    multidoc: Option<string>)

  /** The fields SimpleCmdScan.__init__ sets. */
  datatype Config = Config(
    findScanners: bool,
    scanDevice: Option<string>,
    outputDir: string,
    outputFilename: string,
    adf: bool,
    colorMode: Option<string>,
    paperFormat: Option<string>,
    resolutionDpi: int,
    doubleSided: bool,
    multidoc: Option<string>)

  /** Python's `a or b` on an optional string. */
  function OrElse(value: Option<string>, fallback: string): string
  {
    if value.Some? && value.value != "" then value.value else fallback
  }

  /**
   * __init__: output directory defaults to the working directory `cwd`, the
   * file name template to DEFAULT_OUTPUT_FILENAME, the resolution to
   * ResolutionDpi; everything else is kept as given.
   */
  function Configure(args: Args, cwd: string): (cfg: Config)
    ensures cfg.resolutionDpi != 0
    ensures cfg.outputDir != "" || cwd == ""
    ensures cfg.outputFilename != ""
  {
    Config(args.findScanners, args.scanner, OrElse(args.outputDir, cwd),
           OrElse(args.outputFilename, DEFAULT_OUTPUT_FILENAME), args.adf, args.colorMode,
           args.paperFormat, ResolutionDpi(args.resolution), args.doubleSided, args.multidoc)
  }
}
