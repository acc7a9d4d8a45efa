/**
 * The stand-alone default-paper rule of `simple_cmd_scan/utils.py`, with the
 * `LC_PAPER` environment value and the process locale's language code passed
 * in as parameters (None where the environment has no value).
 */
module Utils {
  import opened Base
  import opened Strings

  /**
   * The name the rule looks at: the first `.`-separated piece of a non-empty
   * `LC_PAPER`, otherwise the language code of the process locale
   * ("" standing for a missing one, which Python treats alike).
   */
  function InspectedLocale(lcPaper: Option<string>, processLocale: Option<string>): string
  {
    if lcPaper.Some? && lcPaper.value != "" then Split(lcPaper.value, '.')[0]
    else processLocale.GetOr("")
  }

  /** get_default_paper_size: "letter" for US and Canadian locales, "a4" for all others. */
  function DefaultPaperSize(lcPaper: Option<string>, processLocale: Option<string>): (r: string)
    ensures r == "letter" || r == "a4"
  {
    var loc := InspectedLocale(lcPaper, processLocale);
    if loc != "" && (Contains(loc, "US") || Contains(loc, "CA")) then "letter" else "a4"
  }

  /** Region test on positions: "letter" exactly when `US` or `CA` occurs in the inspected name. */
  lemma DefaultPaperLetterIff(lcPaper: Option<string>, processLocale: Option<string>)
    ensures var loc := InspectedLocale(lcPaper, processLocale);
            DefaultPaperSize(lcPaper, processLocale) == "letter" <==>
              exists i: nat :: OccursAt(loc, "US", i) || OccursAt(loc, "CA", i)
    ensures var loc := InspectedLocale(lcPaper, processLocale);
            DefaultPaperSize(lcPaper, processLocale) == "a4" <==>
              forall i: nat :: !OccursAt(loc, "US", i) && !OccursAt(loc, "CA", i)
  {
    var loc := InspectedLocale(lcPaper, processLocale);
    ContainsIff(loc, "US");
    ContainsIff(loc, "CA");
  }

  /**
   * A non-empty LC_PAPER decides alone, and only its part before the first
   * `.` counts: it acts as if that part were the process locale.
   */
  lemma LcPaperTakesPrecedence(lcPaper: string, processLocale: Option<string>)
    requires lcPaper != ""
    ensures DefaultPaperSize(Some(lcPaper), processLocale) ==
            DefaultPaperSize(None, Some(UpTo(lcPaper, '.')))
  {
    SplitHead(lcPaper, '.');
  }

  /** An unset or empty LC_PAPER falls back to the process locale. */
  lemma EmptyLcPaperFallsBack(processLocale: Option<string>)
    ensures DefaultPaperSize(Some(""), processLocale) == DefaultPaperSize(None, processLocale)
    ensures DefaultPaperSize(None, processLocale) ==
            (if Contains(processLocale.GetOr(""), "US") || Contains(processLocale.GetOr(""), "CA")
             then "letter" else "a4")
  {
  }

  /** The inspected name of `a.b`-shaped LC_PAPER values is `a`. */
  lemma InspectedDotted(a: string, b: string, processLocale: Option<string>)
    requires '.' !in a
    ensures InspectedLocale(Some(a + ['.'] + b), processLocale) == a
  {
    SplitHead(a + ['.'] + b, '.');
    UpToFirst(a, b, '.');
  }

  /** A name without `U` and `C` names neither region. */
  lemma NoRegionLetters(loc: string)
    requires 'U' !in loc && 'C' !in loc
    ensures !Contains(loc, "US") && !Contains(loc, "CA")
  {
    NotContainsHead(loc, "US");
    NotContainsHead(loc, "CA");
  }

  /** A full LC_PAPER value: only `en_US` is inspected. */
  lemma UsLcPaperGivesLetter()
    ensures DefaultPaperSize(Some("en_US.UTF-8"), None) == "letter"
  {
    assert "en_US.UTF-8" == "en_US" + ['.'] + "UTF-8";
    InspectedDotted("en_US", "UTF-8", None);
    assert Contains("en_US", "US") by {
      assert OccursAt("en_US", "US", 3);
      ContainsIff("en_US", "US");
    }
  }

  /** A Canadian LC_PAPER gives "letter" whatever the process locale says. */
  lemma CanadianLcPaperOverridesLocale()
    ensures DefaultPaperSize(Some("fr_CA"), Some("de_DE")) == "letter"
  {
    assert InspectedLocale(Some("fr_CA"), Some("de_DE")) == "fr_CA" by {
      SplitHead("fr_CA", '.');
      UpToFirst("fr_CA", "", '.');
    }
    assert Contains("fr_CA", "CA") by {
      assert OccursAt("fr_CA", "CA", 3);
      ContainsIff("fr_CA", "CA");
    }
  }

  /** A German LC_PAPER gives "a4" even under a US process locale. */
  lemma GermanLcPaperOverridesLocale()
    ensures DefaultPaperSize(Some("de_DE.UTF-8"), Some("en_US")) == "a4"
  {
    assert "de_DE.UTF-8" == "de_DE" + ['.'] + "UTF-8";
    InspectedDotted("de_DE", "UTF-8", Some("en_US"));
    NoRegionLetters("de_DE");
  }

  /** A value starting with `.` has an empty first piece: "a4", without falling back. */
  lemma LeadingDotGivesA4()
    ensures DefaultPaperSize(Some(".UTF-8"), Some("en_US")) == "a4"
  {
    assert ".UTF-8" == "" + ['.'] + "UTF-8";
    InspectedDotted("", "UTF-8", Some("en_US"));
  }

  /** The region test is case-sensitive, and nothing set at all means "a4". */
  lemma LowerCaseRegionGivesA4()
    ensures DefaultPaperSize(Some("en_us"), None) == "a4"
    ensures DefaultPaperSize(None, None) == "a4"
  {
    assert InspectedLocale(Some("en_us"), None) == "en_us" by {
      SplitHead("en_us", '.');
      UpToFirst("en_us", "", '.');
    }
    NoRegionLetters("en_us");
  }
}
