/** The language-tag helpers of the macros crate
    (`i18n-macros/src/utils.rs`). The crate root does not declare the file as
    a module, so these stand alone. */
module LangIdUtils {
  import opened Base

  /** The separator both helpers split on: `'_'` when the tag has one,
      otherwise `'-'` when it has one, otherwise none. */
  function Splitter(langid: string): (r: Option<char>)
    ensures r == Some('_') <==> '_' in langid
    ensures r == Some('-') <==> '_' !in langid && '-' in langid
    ensures r.None? <==> '_' !in langid && '-' !in langid
  {
    if '_' in langid then Some('_')
    else if '-' in langid then Some('-')
    else None
  }

  /** `langid_to_iso639`: the language part of a tag. It is never longer
      than the tag and never holds an underscore. */
  function LangIdToIso639(langid: string): (r: string)
    ensures |r| <= |langid|
    ensures '_' !in r
  {
    match Splitter(langid)
    case None =>
      CaseKeepsSeparators(langid, '_');
      Lower(langid)
    case Some(c) =>
      FirstPieceOfCharSplit(langid, c);
      var piece := Split(langid, [c])[0];
      assert forall i :: 0 <= i < |piece| ==> piece[i] == langid[i];
      piece
  }

  /** `langid_to_country_code`: the region part of a tag, if it has one;
      it never holds the separator it was cut out with. */
  function LangIdToCountryCode(langid: string): (r: Option<string>)
    ensures r.Some? ==> Splitter(langid).Some? && Splitter(langid).value !in r.value
  {
    match Splitter(langid)
    case None => None
    case Some(c) =>
      var parts := Split(langid, [c]);
      SplitPiecesAvoidChar(langid, c);
      if |parts| >= 2 then Some(parts[1]) else None
  }

  /** Without a separator, the ISO-639 code is the whole tag, lower-cased. */
  lemma Iso639WithoutSeparator(langid: string)
    requires '_' !in langid && '-' !in langid
    ensures LangIdToIso639(langid) == Lower(langid)
  {
  }

  /** With a separator, the ISO-639 code is the text before its first
      occurrence, case untouched; `'_'` wins over `'-'`. It never contains
      the chosen separator. */
  lemma Iso639WithSeparator(langid: string)
    requires '_' in langid || '-' in langid
    ensures var sep := if '_' in langid then '_' else '-';
            var r := LangIdToIso639(langid);
            && r < langid
            && langid[|r|] == sep
            && sep !in r
  {
    var sep := if '_' in langid then '_' else '-';
    FirstPieceOfCharSplit(langid, sep);
  }

  /** A country code is found exactly when the tag has a separator. */
  lemma CountryCodePresence(langid: string)
    ensures LangIdToCountryCode(langid).Some? <==> ('_' in langid || '-' in langid)
  {
    match Splitter(langid)
    case None =>
    case Some(c) =>
      FindChar(langid, c);
      SplitHasSecond(langid, [c]);
  }

  /** The country code is the text between the first and the second
      occurrence of the chosen separator (or the end of the tag), unchanged. */
  lemma CountryCodeIsSecondSegment(langid: string)
    requires '_' in langid || '-' in langid
    ensures var sep := if '_' in langid then '_' else '-';
            var iso := LangIdToIso639(langid);
            var r := LangIdToCountryCode(langid);
            && |iso| < |langid|
            && var rest := langid[|iso| + 1..];
            && r.Some?
            && r.value <= rest
            && sep !in r.value
            && (|r.value| < |rest| ==> rest[|r.value|] == sep)
  {
    var sep := if '_' in langid then '_' else '-';
    FindChar(langid, sep);
    FirstPieceOfCharSplit(langid, sep);
    SplitFirstTwo(langid, [sep]);
    var i := Find(langid, [sep]).value;
    assert |LangIdToIso639(langid)| == i;
    FirstPieceOfCharSplit(langid[i + 1..], sep);
  }

  /** Lower-casing a tag lower-cases its country code and nothing else. */
  lemma CountryCodeOfLower(langid: string)
    ensures LangIdToCountryCode(Lower(langid)) ==
              match LangIdToCountryCode(langid)
              case None => None
              case Some(cc) => Some(Lower(cc))
  {
    CaseKeepsSeparators(langid, '_');
    CaseKeepsSeparators(langid, '-');
    match Splitter(langid)
    case None =>
    case Some(c) =>
      SplitLower(langid, c);
  }

  /** A tag built as language, separator, rest: the country code is the
      first piece of the rest, whatever the language part was. */
  lemma CountryCodeOfJoined(lang: string, sep: char, rest: string)
    requires sep == '_' || sep == '-'
    requires sep !in lang
    requires sep == '-' ==> '_' !in lang && '_' !in rest
    ensures LangIdToCountryCode(lang + [sep] + rest) == Some(Split(rest, [sep])[0])
  {
    var tag := lang + [sep] + rest;
    assert tag[|lang|] == sep;
    if sep == '-' {
      assert '_' !in tag by {
        assert forall i :: 0 <= i < |tag| ==> tag[i] == sep || tag[i] in lang || tag[i] in rest;
      }
    }
    assert Splitter(tag) == Some(sep);
    SplitAtFirst(lang, sep, rest);
  }

  lemma ExampleIso639()
    ensures LangIdToIso639("EN") == "en"
    ensures LangIdToIso639("EN-us") == "EN"
  {
    assert Splitter("EN") == None;
    assert Lower("EN") == "en";
    var tag := "EN-us";
    assert tag == "EN" + ['-'] + "us";
    assert Splitter(tag) == Some('-');
    SplitAtFirst("EN", '-', "us");
  }

  lemma ExampleCountryCode()
    ensures LangIdToIso639("en-US") == "en"
    ensures LangIdToCountryCode("en-US") == Some("US")
  {
    var tag := "en-US";
    assert tag == "en" + ['-'] + "US";
    assert Splitter(tag) == Some('-');
    SplitAtFirst("en", '-', "US");
    assert Split("US", "-") == ["US"] by { FindChar("US", '-'); }
    assert Split(tag, "-") == ["en", "US"];
  }

  lemma ExampleBareRegion()
    ensures LangIdToCountryCode("US") == None
  {
    assert Splitter("US") == None;
  }
}
