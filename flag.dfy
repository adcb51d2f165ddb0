/** Country flag of a language tag
    (`i18n-macros/src/langid_to_country_flag.rs`): the tag's country code,
    upper-cased, looked up in a table of ISO 3166-1 alpha-2 codes whose
    entries are pairs of Unicode regional-indicator symbols. The crate root
    does not declare the file as a module, so the function stands alone. */
module CountryFlag {
  import opened Base
  import opened LangIdUtils

  /** The regional-indicator symbol (U+1F1E6 .. U+1F1FF) for an ASCII capital. */
  function RegionalIndicator(c: char): (r: char)
    requires IsUpperAscii(c)
  {
    (0x1F1E6 + (c as int - 'A' as int)) as char
  }

  /** The table behind `langid_to_flag`, keyed by upper-case country code.
      The source matches the whole two-letter string; here the match is on
      its first letter, then its second, which selects the same entries. */
  function RegionFlag(code: string): (r: Option<string>)
    ensures r.Some? ==>
              && |code| == 2 && IsUpperAscii(code[0]) && IsUpperAscii(code[1])
              && r.value == [RegionalIndicator(code[0]), RegionalIndicator(code[1])]
  {
    if |code| != 2 then None
    else match code[0]
    case 'A' =>
      (match code[1]
      case 'D' => Some("\U{1F1E6}\U{1F1E9}")
      case 'E' => Some("\U{1F1E6}\U{1F1EA}")
      case 'F' => Some("\U{1F1E6}\U{1F1EB}")
      case 'G' => Some("\U{1F1E6}\U{1F1EC}")
      case 'I' => Some("\U{1F1E6}\U{1F1EE}")
      case 'L' => Some("\U{1F1E6}\U{1F1F1}")
      case 'M' => Some("\U{1F1E6}\U{1F1F2}")
      case 'O' => Some("\U{1F1E6}\U{1F1F4}")
      case 'Q' => Some("\U{1F1E6}\U{1F1F6}")
      case 'R' => Some("\U{1F1E6}\U{1F1F7}")
      case 'S' => Some("\U{1F1E6}\U{1F1F8}")
      case 'T' => Some("\U{1F1E6}\U{1F1F9}")
      case 'U' => Some("\U{1F1E6}\U{1F1FA}")
      case 'W' => Some("\U{1F1E6}\U{1F1FC}")
      case 'X' => Some("\U{1F1E6}\U{1F1FD}")
      case 'Z' => Some("\U{1F1E6}\U{1F1FF}")
      case _ => None)
    case 'B' =>
      (match code[1]
      case 'A' => Some("\U{1F1E7}\U{1F1E6}")
      case 'B' => Some("\U{1F1E7}\U{1F1E7}")
      case 'D' => Some("\U{1F1E7}\U{1F1E9}")
      case 'E' => Some("\U{1F1E7}\U{1F1EA}")
      case 'F' => Some("\U{1F1E7}\U{1F1EB}")
      case 'G' => Some("\U{1F1E7}\U{1F1EC}")
      case 'H' => Some("\U{1F1E7}\U{1F1ED}")
      case 'I' => Some("\U{1F1E7}\U{1F1EE}")
      case 'J' => Some("\U{1F1E7}\U{1F1EF}")
      case 'L' => Some("\U{1F1E7}\U{1F1F1}")
      case 'M' => Some("\U{1F1E7}\U{1F1F2}")
      case 'N' => Some("\U{1F1E7}\U{1F1F3}")
      case 'O' => Some("\U{1F1E7}\U{1F1F4}")
      case 'Q' => Some("\U{1F1E7}\U{1F1F6}")
      case 'R' => Some("\U{1F1E7}\U{1F1F7}")
      case 'S' => Some("\U{1F1E7}\U{1F1F8}")
      case 'T' => Some("\U{1F1E7}\U{1F1F9}")
      case 'V' => Some("\U{1F1E7}\U{1F1FB}")
      case 'W' => Some("\U{1F1E7}\U{1F1FC}")
      case 'Y' => Some("\U{1F1E7}\U{1F1FE}")
      case 'Z' => Some("\U{1F1E7}\U{1F1FF}")
      case _ => None)
    case 'C' =>
      (match code[1]
      case 'A' => Some("\U{1F1E8}\U{1F1E6}")
      case 'C' => Some("\U{1F1E8}\U{1F1E8}")
      case 'D' => Some("\U{1F1E8}\U{1F1E9}")
      case 'F' => Some("\U{1F1E8}\U{1F1EB}")
      case 'G' => Some("\U{1F1E8}\U{1F1EC}")
      case 'H' => Some("\U{1F1E8}\U{1F1ED}")
      case 'I' => Some("\U{1F1E8}\U{1F1EE}")
      case 'K' => Some("\U{1F1E8}\U{1F1F0}")
      case 'L' => Some("\U{1F1E8}\U{1F1F1}")
      case 'M' => Some("\U{1F1E8}\U{1F1F2}")
      case 'N' => Some("\U{1F1E8}\U{1F1F3}")
      case 'O' => Some("\U{1F1E8}\U{1F1F4}")
      case 'R' => Some("\U{1F1E8}\U{1F1F7}")
      case 'U' => Some("\U{1F1E8}\U{1F1FA}")
      case 'V' => Some("\U{1F1E8}\U{1F1FB}")
      case 'W' => Some("\U{1F1E8}\U{1F1FC}")
      case 'X' => Some("\U{1F1E8}\U{1F1FD}")
      case 'Y' => Some("\U{1F1E8}\U{1F1FE}")
      case 'Z' => Some("\U{1F1E8}\U{1F1FF}")
      case _ => None)
    case 'D' =>
      (match code[1]
      case 'E' => Some("\U{1F1E9}\U{1F1EA}")
      case 'J' => Some("\U{1F1E9}\U{1F1EF}")
      case 'K' => Some("\U{1F1E9}\U{1F1F0}")
      case 'M' => Some("\U{1F1E9}\U{1F1F2}")
      case 'O' => Some("\U{1F1E9}\U{1F1F4}")
      case 'Z' => Some("\U{1F1E9}\U{1F1FF}")
      case _ => None)
    case 'E' =>
      (match code[1]
      case 'C' => Some("\U{1F1EA}\U{1F1E8}")
      case 'E' => Some("\U{1F1EA}\U{1F1EA}")
      case 'G' => Some("\U{1F1EA}\U{1F1EC}")
      case 'H' => Some("\U{1F1EA}\U{1F1ED}")
      case 'R' => Some("\U{1F1EA}\U{1F1F7}")
      case 'S' => Some("\U{1F1EA}\U{1F1F8}")
      case 'T' => Some("\U{1F1EA}\U{1F1F9}")
      case _ => None)
    case 'F' =>
      (match code[1]
      case 'I' => Some("\U{1F1EB}\U{1F1EE}")
      case 'J' => Some("\U{1F1EB}\U{1F1EF}")
      case 'K' => Some("\U{1F1EB}\U{1F1F0}")
      case 'M' => Some("\U{1F1EB}\U{1F1F2}")
      case 'O' => Some("\U{1F1EB}\U{1F1F4}")
      case 'R' => Some("\U{1F1EB}\U{1F1F7}")
      case _ => None)
    case 'G' =>
      (match code[1]
      case 'A' => Some("\U{1F1EC}\U{1F1E6}")
      case 'B' => Some("\U{1F1EC}\U{1F1E7}")
      case 'D' => Some("\U{1F1EC}\U{1F1E9}")
      case 'E' => Some("\U{1F1EC}\U{1F1EA}")
      case 'F' => Some("\U{1F1EC}\U{1F1EB}")
      case 'G' => Some("\U{1F1EC}\U{1F1EC}")
      case 'H' => Some("\U{1F1EC}\U{1F1ED}")
      case 'I' => Some("\U{1F1EC}\U{1F1EE}")
      case 'L' => Some("\U{1F1EC}\U{1F1F1}")
      case 'M' => Some("\U{1F1EC}\U{1F1F2}")
      case 'N' => Some("\U{1F1EC}\U{1F1F3}")
      case 'P' => Some("\U{1F1EC}\U{1F1F5}")
      case 'Q' => Some("\U{1F1EC}\U{1F1F6}")
      case 'R' => Some("\U{1F1EC}\U{1F1F7}")
      case 'S' => Some("\U{1F1EC}\U{1F1F8}")
      case 'T' => Some("\U{1F1EC}\U{1F1F9}")
      case 'U' => Some("\U{1F1EC}\U{1F1FA}")
      case 'W' => Some("\U{1F1EC}\U{1F1FC}")
      case 'Y' => Some("\U{1F1EC}\U{1F1FE}")
      case _ => None)
    case 'H' =>
      (match code[1]
      case 'K' => Some("\U{1F1ED}\U{1F1F0}")
      case 'M' => Some("\U{1F1ED}\U{1F1F2}")
      case 'N' => Some("\U{1F1ED}\U{1F1F3}")
      case 'R' => Some("\U{1F1ED}\U{1F1F7}")
      case 'T' => Some("\U{1F1ED}\U{1F1F9}")
      case 'U' => Some("\U{1F1ED}\U{1F1FA}")
      case _ => None)
    case 'I' =>
      (match code[1]
      case 'D' => Some("\U{1F1EE}\U{1F1E9}")
      case 'E' => Some("\U{1F1EE}\U{1F1EA}")
      case 'L' => Some("\U{1F1EE}\U{1F1F1}")
      case 'M' => Some("\U{1F1EE}\U{1F1F2}")
      case 'N' => Some("\U{1F1EE}\U{1F1F3}")
      case 'O' => Some("\U{1F1EE}\U{1F1F4}")
      case 'Q' => Some("\U{1F1EE}\U{1F1F6}")
      case 'R' => Some("\U{1F1EE}\U{1F1F7}")
      case 'S' => Some("\U{1F1EE}\U{1F1F8}")
      case 'T' => Some("\U{1F1EE}\U{1F1F9}")
      case _ => None)
    case 'J' =>
      (match code[1]
      case 'E' => Some("\U{1F1EF}\U{1F1EA}")
      case 'M' => Some("\U{1F1EF}\U{1F1F2}")
      case 'O' => Some("\U{1F1EF}\U{1F1F4}")
      case 'P' => Some("\U{1F1EF}\U{1F1F5}")
      case _ => None)
    case 'K' =>
      (match code[1]
      case 'E' => Some("\U{1F1F0}\U{1F1EA}")
      case 'G' => Some("\U{1F1F0}\U{1F1EC}")
      case 'H' => Some("\U{1F1F0}\U{1F1ED}")
      case 'I' => Some("\U{1F1F0}\U{1F1EE}")
      case 'M' => Some("\U{1F1F0}\U{1F1F2}")
      case 'N' => Some("\U{1F1F0}\U{1F1F3}")
      case 'P' => Some("\U{1F1F0}\U{1F1F5}")
      case 'R' => Some("\U{1F1F0}\U{1F1F7}")
      case 'W' => Some("\U{1F1F0}\U{1F1FC}")
      case 'Y' => Some("\U{1F1F0}\U{1F1FE}")
      case 'Z' => Some("\U{1F1F0}\U{1F1FF}")
      case _ => None)
    case 'L' =>
      (match code[1]
      case 'A' => Some("\U{1F1F1}\U{1F1E6}")
      case 'B' => Some("\U{1F1F1}\U{1F1E7}")
      case 'C' => Some("\U{1F1F1}\U{1F1E8}")
      case 'I' => Some("\U{1F1F1}\U{1F1EE}")
      case 'K' => Some("\U{1F1F1}\U{1F1F0}")
      case 'R' => Some("\U{1F1F1}\U{1F1F7}")
      case 'S' => Some("\U{1F1F1}\U{1F1F8}")
      case 'T' => Some("\U{1F1F1}\U{1F1F9}")
      case 'U' => Some("\U{1F1F1}\U{1F1FA}")
      case 'V' => Some("\U{1F1F1}\U{1F1FB}")
      case 'Y' => Some("\U{1F1F1}\U{1F1FE}")
      case _ => None)
    case 'M' =>
      (match code[1]
      case 'A' => Some("\U{1F1F2}\U{1F1E6}")
      case 'C' => Some("\U{1F1F2}\U{1F1E8}")
      case 'D' => Some("\U{1F1F2}\U{1F1E9}")
      case 'E' => Some("\U{1F1F2}\U{1F1EA}")
      case 'F' => Some("\U{1F1F2}\U{1F1EB}")
      case 'G' => Some("\U{1F1F2}\U{1F1EC}")
      case 'H' => Some("\U{1F1F2}\U{1F1ED}")
      case 'K' => Some("\U{1F1F2}\U{1F1F0}")
      case 'L' => Some("\U{1F1F2}\U{1F1F1}")
      case 'M' => Some("\U{1F1F2}\U{1F1F2}")
      case 'N' => Some("\U{1F1F2}\U{1F1F3}")
      case 'O' => Some("\U{1F1F2}\U{1F1F4}")
      case 'P' => Some("\U{1F1F2}\U{1F1F5}")
      case 'Q' => Some("\U{1F1F2}\U{1F1F6}")
      case 'R' => Some("\U{1F1F2}\U{1F1F7}")
      case 'S' => Some("\U{1F1F2}\U{1F1F8}")
      case 'T' => Some("\U{1F1F2}\U{1F1F9}")
      case 'U' => Some("\U{1F1F2}\U{1F1FA}")
      case 'V' => Some("\U{1F1F2}\U{1F1FB}")
      case 'W' => Some("\U{1F1F2}\U{1F1FC}")
      case 'X' => Some("\U{1F1F2}\U{1F1FD}")
      case 'Y' => Some("\U{1F1F2}\U{1F1FE}")
      case 'Z' => Some("\U{1F1F2}\U{1F1FF}")
      case _ => None)
    case 'N' =>
      (match code[1]
      case 'A' => Some("\U{1F1F3}\U{1F1E6}")
      case 'C' => Some("\U{1F1F3}\U{1F1E8}")
      case 'E' => Some("\U{1F1F3}\U{1F1EA}")
      case 'F' => Some("\U{1F1F3}\U{1F1EB}")
      case 'G' => Some("\U{1F1F3}\U{1F1EC}")
      case 'I' => Some("\U{1F1F3}\U{1F1EE}")
      case 'L' => Some("\U{1F1F3}\U{1F1F1}")
      case 'O' => Some("\U{1F1F3}\U{1F1F4}")
      case 'P' => Some("\U{1F1F3}\U{1F1F5}")
      case 'R' => Some("\U{1F1F3}\U{1F1F7}")
      case 'U' => Some("\U{1F1F3}\U{1F1FA}")
      case 'Z' => Some("\U{1F1F3}\U{1F1FF}")
      case _ => None)
    case 'O' =>
      (match code[1]
      case 'M' => Some("\U{1F1F4}\U{1F1F2}")
      case _ => None)
    case 'P' =>
      (match code[1]
      case 'A' => Some("\U{1F1F5}\U{1F1E6}")
      case 'E' => Some("\U{1F1F5}\U{1F1EA}")
      case 'F' => Some("\U{1F1F5}\U{1F1EB}")
      case 'G' => Some("\U{1F1F5}\U{1F1EC}")
      case 'H' => Some("\U{1F1F5}\U{1F1ED}")
      case 'K' => Some("\U{1F1F5}\U{1F1F0}")
      case 'L' => Some("\U{1F1F5}\U{1F1F1}")
      case 'M' => Some("\U{1F1F5}\U{1F1F2}")
      case 'N' => Some("\U{1F1F5}\U{1F1F3}")
      case 'R' => Some("\U{1F1F5}\U{1F1F7}")
      case 'S' => Some("\U{1F1F5}\U{1F1F8}")
      case 'T' => Some("\U{1F1F5}\U{1F1F9}")
      case 'W' => Some("\U{1F1F5}\U{1F1FC}")
      case 'Y' => Some("\U{1F1F5}\U{1F1FE}")
      case _ => None)
    case 'Q' =>
      (match code[1]
      case 'A' => Some("\U{1F1F6}\U{1F1E6}")
      case _ => None)
    case 'R' =>
      (match code[1]
      case 'E' => Some("\U{1F1F7}\U{1F1EA}")
      case 'O' => Some("\U{1F1F7}\U{1F1F4}")
      case 'S' => Some("\U{1F1F7}\U{1F1F8}")
      case 'U' => Some("\U{1F1F7}\U{1F1FA}")
      case 'W' => Some("\U{1F1F7}\U{1F1FC}")
      case _ => None)
    case 'S' =>
      (match code[1]
      case 'A' => Some("\U{1F1F8}\U{1F1E6}")
      case 'B' => Some("\U{1F1F8}\U{1F1E7}")
      case 'C' => Some("\U{1F1F8}\U{1F1E8}")
      case 'D' => Some("\U{1F1F8}\U{1F1E9}")
      case 'E' => Some("\U{1F1F8}\U{1F1EA}")
      case 'G' => Some("\U{1F1F8}\U{1F1EC}")
      case 'H' => Some("\U{1F1F8}\U{1F1ED}")
      case 'I' => Some("\U{1F1F8}\U{1F1EE}")
      case 'J' => Some("\U{1F1F8}\U{1F1EF}")
      case 'K' => Some("\U{1F1F8}\U{1F1F0}")
      case 'L' => Some("\U{1F1F8}\U{1F1F1}")
      case 'M' => Some("\U{1F1F8}\U{1F1F2}")
      case 'N' => Some("\U{1F1F8}\U{1F1F3}")
      case 'O' => Some("\U{1F1F8}\U{1F1F4}")
      case 'R' => Some("\U{1F1F8}\U{1F1F7}")
      case 'S' => Some("\U{1F1F8}\U{1F1F8}")
      case 'T' => Some("\U{1F1F8}\U{1F1F9}")
      case 'V' => Some("\U{1F1F8}\U{1F1FB}")
      case 'X' => Some("\U{1F1F8}\U{1F1FD}")
      case 'Y' => Some("\U{1F1F8}\U{1F1FE}")
      case 'Z' => Some("\U{1F1F8}\U{1F1FF}")
      case _ => None)
    case 'T' =>
      (match code[1]
      case 'C' => Some("\U{1F1F9}\U{1F1E8}")
      case 'D' => Some("\U{1F1F9}\U{1F1E9}")
      case 'F' => Some("\U{1F1F9}\U{1F1EB}")
      case 'G' => Some("\U{1F1F9}\U{1F1EC}")
      case 'H' => Some("\U{1F1F9}\U{1F1ED}")
      case 'J' => Some("\U{1F1F9}\U{1F1EF}")
      case 'K' => Some("\U{1F1F9}\U{1F1F0}")
      case 'L' => Some("\U{1F1F9}\U{1F1F1}")
      case 'M' => Some("\U{1F1F9}\U{1F1F2}")
      case 'N' => Some("\U{1F1F9}\U{1F1F3}")
      case 'O' => Some("\U{1F1F9}\U{1F1F4}")
      case 'R' => Some("\U{1F1F9}\U{1F1F7}")
      case 'T' => Some("\U{1F1F9}\U{1F1F9}")
      case 'V' => Some("\U{1F1F9}\U{1F1FB}")
      case 'W' => Some("\U{1F1F9}\U{1F1FC}")
      case 'Z' => Some("\U{1F1F9}\U{1F1FF}")
      case _ => None)
    case 'U' =>
      (match code[1]
      case 'A' => Some("\U{1F1FA}\U{1F1E6}")
      case 'G' => Some("\U{1F1FA}\U{1F1EC}")
      case 'M' => Some("\U{1F1FA}\U{1F1F2}")
      case 'S' => Some("\U{1F1FA}\U{1F1F8}")
      case 'Y' => Some("\U{1F1FA}\U{1F1FE}")
      case 'Z' => Some("\U{1F1FA}\U{1F1FF}")
      case _ => None)
    case 'V' =>
      (match code[1]
      case 'A' => Some("\U{1F1FB}\U{1F1E6}")
      case 'C' => Some("\U{1F1FB}\U{1F1E8}")
      case 'E' => Some("\U{1F1FB}\U{1F1EA}")
      case 'G' => Some("\U{1F1FB}\U{1F1EC}")
      case 'I' => Some("\U{1F1FB}\U{1F1EE}")
      case 'N' => Some("\U{1F1FB}\U{1F1F3}")
      case 'U' => Some("\U{1F1FB}\U{1F1FA}")
      case _ => None)
    case 'W' =>
      (match code[1]
      case 'F' => Some("\U{1F1FC}\U{1F1EB}")
      case 'S' => Some("\U{1F1FC}\U{1F1F8}")
      case _ => None)
    case 'Y' =>
      (match code[1]
      case 'E' => Some("\U{1F1FE}\U{1F1EA}")
      case 'T' => Some("\U{1F1FE}\U{1F1F9}")
      case _ => None)
    case 'Z' =>
      (match code[1]
      case 'A' => Some("\U{1F1FF}\U{1F1E6}")
      case 'M' => Some("\U{1F1FF}\U{1F1F2}")
      case 'W' => Some("\U{1F1FF}\U{1F1FC}")
      case _ => None)
    case _ => None
  }

  /** `langid_to_flag` */
  function LangIdToFlag(langid: string): (r: Option<string>)
    ensures r.Some? ==> && LangIdToCountryCode(langid).Some?
                        && |LangIdToCountryCode(langid).value| == 2
                        && |r.value| == 2
  {
    match LangIdToCountryCode(langid)
    case None => None
    case Some(cc) => RegionFlag(Upper(cc))
  }

  /** A tag without either separator has no country code, hence no flag:
      a bare region such as "US" gives none. */
  lemma NoSeparatorNoFlag(langid: string)
    requires '_' !in langid && '-' !in langid
    ensures LangIdToFlag(langid) == None
  {
  }

  /** Only the segment after the separator matters: the language part is
      ignored. */
  lemma FlagIgnoresLanguage(lang1: string, lang2: string, region: string)
    requires '-' !in lang1 && '-' !in lang2
    requires '_' !in lang1 && '_' !in lang2 && '_' !in region
    ensures LangIdToFlag(lang1 + "-" + region) == LangIdToFlag(lang2 + "-" + region)
  {
    CountryCodeOfJoined(lang1, '-', region);
    CountryCodeOfJoined(lang2, '-', region);
  }

  /** The lookup is case-insensitive in the whole tag. */
  lemma FlagIgnoresCase(langid: string)
    ensures LangIdToFlag(Lower(langid)) == LangIdToFlag(langid)
  {
    CountryCodeOfLower(langid);
    match LangIdToCountryCode(langid)
    case None =>
    case Some(cc) => UpperIgnoresCase(cc);
  }

  /** Every flag is the regional-indicator pair of an upper-case two-letter
      code; any other code, such as a lower-case one, is not in the table. */
  lemma FlagIsIndicatorPair(langid: string)
    requires LangIdToFlag(langid).Some?
    ensures var cc := Upper(LangIdToCountryCode(langid).value);
            && |cc| == 2
            && LangIdToFlag(langid).value == [RegionalIndicator(cc[0]), RegionalIndicator(cc[1])]
  {
  }

  lemma UnknownCodes()
    ensures RegionFlag("us") == None && RegionFlag("USA") == None && RegionFlag("XX") == None
  {
  }

  /** For `lang-region` with a region free of separators, the flag is the
      table entry of the upper-cased region. */
  lemma FlagOfJoined(lang: string, region: string)
    requires '-' !in lang && '-' !in region
    requires '_' !in lang && '_' !in region
    ensures LangIdToFlag(lang + "-" + region) == RegionFlag(Upper(region))
  {
    CountryCodeOfJoined(lang, '-', region);
    assert lang + "-" + region == lang + ['-'] + region;
    assert Split(region, "-") == [region] by { FindChar(region, '-'); }
  }

  lemma ExampleUnitedStates()
    ensures LangIdToFlag("en-US") == Some("\U{1F1FA}\U{1F1F8}")
  {
    FlagOfJoined("en", "US");
    assert "en" + "-" + "US" == "en-US";
    assert Upper("US") == "US";
    assert RegionFlag("US") == Some("\U{1F1FA}\U{1F1F8}");
  }

  lemma ExampleSameRegion()
    ensures LangIdToFlag("es-US") == LangIdToFlag("en-US")
  {
    FlagIgnoresLanguage("es", "en", "US");
    assert "es" + "-" + "US" == "es-US";
    assert "en" + "-" + "US" == "en-US";
  }

  lemma ExampleBareRegion()
    ensures LangIdToFlag("US") == None
  {
    NoSeparatorNoFlag("US");
  }

  lemma ExampleCaseInsensitive()
    ensures LangIdToFlag("en-us") == LangIdToFlag("en-US")
  {
    FlagOfJoined("en", "us");
    FlagOfJoined("en", "US");
    assert "en" + "-" + "us" == "en-us";
    assert "en" + "-" + "US" == "en-US";
    assert Upper("us") == "US";
    assert Upper("US") == "US";
  }

  lemma ExampleCroatia()
    ensures LangIdToFlag("hr-HR") == Some("\U{1F1ED}\U{1F1F7}")
  {
    FlagOfJoined("hr", "HR");
    assert "hr" + "-" + "HR" == "hr-HR";
    assert Upper("HR") == "HR";
    assert RegionFlag("HR") == Some("\U{1F1ED}\U{1F1F7}");
  }
}
