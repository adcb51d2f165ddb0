/** Writing direction of a language (`i18n-macros/src/langid_to_dir.rs`):
    an exact, case-sensitive table from two-letter ISO-639 codes to "ltr",
    "rtl" or "auto". The crate root does not declare the file as a module, so
    the function stands alone. */
module WritingDir {
  import opened Base

  function LangIdToDir(langid: string): (r: string)
    ensures r == "ltr" || r == "rtl" || r == "auto"
  {
    match langid
    case "aa" => "ltr"
    case "ab" => "ltr"
    case "ae" => "ltr"
    case "af" => "ltr"
    case "ak" => "ltr"
    case "am" => "ltr"
    case "an" => "ltr"
    case "ar" => "rtl"
    case "as" => "ltr"
    case "av" => "ltr"
    case "ay" => "ltr"
    case "az" => "ltr"
    case "ba" => "ltr"
    case "be" => "ltr"
    case "bg" => "ltr"
    case "bi" => "ltr"
    case "bm" => "auto"
    case "bn" => "ltr"
    case "bo" => "ltr"
    case "br" => "ltr"
    case "bs" => "ltr"
    case "ca" => "ltr"
    case "ce" => "ltr"
    case "ch" => "ltr"
    case "co" => "ltr"
    case "cr" => "ltr"
    case "cs" => "ltr"
    case "cu" => "ltr"
    case "cv" => "ltr"
    case "cy" => "ltr"
    case "da" => "ltr"
    case "de" => "ltr"
    case "dv" => "rtl"
    case "dz" => "ltr"
    case "ee" => "ltr"
    case "el" => "ltr"
    case "en" => "ltr"
    case "eo" => "ltr"
    case "es" => "ltr"
    case "et" => "ltr"
    case "eu" => "ltr"
    case "fa" => "rtl"
    case "ff" => "ltr"
    case "fi" => "ltr"
    case "fj" => "ltr"
    case "fo" => "ltr"
    case "fr" => "ltr"
    case "fy" => "ltr"
    case "ga" => "ltr"
    case "gd" => "ltr"
    case "gl" => "ltr"
    case "gn" => "ltr"
    case "gu" => "ltr"
    case "gv" => "ltr"
    case "ha" => "ltr"
    case "he" => "rtl"
    case "hi" => "ltr"
    case "ho" => "ltr"
    case "hr" => "ltr"
    case "ht" => "ltr"
    case "hu" => "ltr"
    case "hy" => "ltr"
    case "hz" => "ltr"
    case "ia" => "ltr"
    case "id" => "ltr"
    case "ie" => "ltr"
    case "ig" => "ltr"
    case "ii" => "ltr"
    case "ik" => "ltr"
    case "io" => "ltr"
    case "is" => "ltr"
    case "it" => "ltr"
    case "iu" => "ltr"
    case "ja" => "auto"
    case "jv" => "ltr"
    case "ka" => "ltr"
    case "kg" => "ltr"
    case "ki" => "ltr"
    case "kj" => "ltr"
    case "kk" => "ltr"
    case "kl" => "ltr"
    case "km" => "ltr"
    case "kn" => "ltr"
    case "ko" => "auto"
    case "kr" => "ltr"
    case "ks" => "rtl"
    case "ku" => "rtl"
    case "kv" => "ltr"
    case "kw" => "ltr"
    case "ky" => "ltr"
    case "la" => "ltr"
    case "lb" => "ltr"
    case "lg" => "ltr"
    case "li" => "ltr"
    case "ln" => "ltr"
    case "lo" => "ltr"
    case "lt" => "ltr"
    case "lu" => "ltr"
    case "lv" => "ltr"
    case "mg" => "ltr"
    case "mh" => "ltr"
    case "mi" => "ltr"
    case "mk" => "ltr"
    case "ml" => "ltr"
    case "mn" => "auto"
    case "mr" => "ltr"
    case "ms" => "ltr"
    case "mt" => "ltr"
    case "my" => "ltr"
    case "na" => "ltr"
    case "nb" => "ltr"
    case "nd" => "ltr"
    case "ne" => "ltr"
    case "ng" => "ltr"
    case "nl" => "ltr"
    case "nn" => "ltr"
    case "no" => "ltr"
    case "nr" => "ltr"
    case "nv" => "ltr"
    case "ny" => "ltr"
    case "oc" => "ltr"
    case "oj" => "ltr"
    case "om" => "ltr"
    case "or" => "ltr"
    case "os" => "ltr"
    case "pa" => "rtl"
    case "pi" => "ltr"
    case "pl" => "ltr"
    case "ps" => "rtl"
    case "pt" => "ltr"
    case "qu" => "ltr"
    case "rm" => "ltr"
    case "rn" => "ltr"
    case "ro" => "ltr"
    case "ru" => "ltr"
    case "rw" => "ltr"
    case "sa" => "ltr"
    case "sc" => "ltr"
    case "sd" => "rtl"
    case "se" => "ltr"
    case "sg" => "ltr"
    case "si" => "ltr"
    case "sk" => "ltr"
    case "sl" => "ltr"
    case "sm" => "ltr"
    case "sn" => "ltr"
    case "so" => "ltr"
    case "sq" => "ltr"
    case "sr" => "ltr"
    case "ss" => "ltr"
    case "st" => "ltr"
    case "su" => "ltr"
    case "sv" => "ltr"
    case "sw" => "ltr"
    case "ta" => "ltr"
    case "te" => "ltr"
    case "tg" => "ltr"
    case "th" => "ltr"
    case "ti" => "ltr"
    case "tk" => "rtl"
    case "tl" => "ltr"
    case "tn" => "ltr"
    case "to" => "ltr"
    case "tr" => "ltr"
    case "ts" => "ltr"
    case "tt" => "ltr"
    case "tw" => "ltr"
    case "ty" => "ltr"
    case "ug" => "rtl"
    case "uk" => "ltr"
    case "ur" => "rtl"
    case "uz" => "ltr"
    case "ve" => "ltr"
    case "vi" => "auto"
    case "vo" => "ltr"
    case "wa" => "ltr"
    case "wo" => "ltr"
    case "xh" => "ltr"
    case "yi" => "rtl"
    case "yo" => "ltr"
    case "za" => "auto"
    case "zh" => "auto"
    case "zu" => "ltr"
    case _ => "auto"
  }

  /** The languages the table writes right to left. */
  const RightToLeft: set<string> := {"ar", "dv", "fa", "he", "ks", "ku", "pa", "ps", "sd", "tk", "ug", "ur", "yi"}

  /** The languages the table lists explicitly as "auto" (top to bottom scripts). */
  const ExplicitAuto: set<string> := {"bm", "ja", "ko", "mn", "vi", "za", "zh"}

  /** "rtl" is the answer exactly for the right-to-left languages. */
  lemma RtlExactly(langid: string)
    ensures LangIdToDir(langid) == "rtl" <==> langid in RightToLeft
  {
  }

  /** The table only lists two lower-case ASCII letters: anything else, such
      as an upper-case code or a full tag with a region, falls through to
      "auto". */
  lemma UnlistedIsAuto(langid: string)
    requires |langid| != 2 || !IsLowerAscii(langid[0]) || !IsLowerAscii(langid[1])
    ensures LangIdToDir(langid) == "auto"
  {
  }

  lemma ExplicitAutoEntries(langid: string)
    requires langid in ExplicitAuto
    ensures LangIdToDir(langid) == "auto"
  {
  }

  lemma ExampleLeftToRight()
    ensures LangIdToDir("en") == "ltr" && LangIdToDir("hr") == "ltr"
  {
  }

  lemma ExampleCaseSensitive()
    ensures LangIdToDir("EN") == "auto" && LangIdToDir("en-US") == "auto"
  {
    UnlistedIsAuto("EN");
    UnlistedIsAuto("en-US");
  }
}
