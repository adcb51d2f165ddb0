/** Language metadata (`i18n-lang/src/lib.rs`): `Lang::from` normalises a
    language identifier's text into `language-REGION` and looks up the
    language's display name, flag glyph and writing direction. The three
    lookups are passed in; the name table is not part of this model. */
module LangInfo {
  import opened Base
  import LangIdUtils
  import CountryFlag
  import WritingDir

  /** `Lang`; the derived equality compares all four fields. */
  datatype Lang = Lang(id: string, name: string, flag: string, dir: string)

  /** The tables `Lang::from` consults: name and direction by lower-case
      language code, flag by upper-case region code. */
  datatype Lookups = Lookups(
    nameOf: string -> string,
    flagOf: string -> Option<string>,
    dirOf: string -> string)

  /** The pattern `Lang::from` splits on: "_" if present, else "-" if
      present, else the whole text itself. */
  function SplitterOf(tag: string): (r: string)
    requires |tag| > 0
    ensures |r| > 0
  {
    if '_' in tag then "_" else if '-' in tag then "-" else tag
  }

  /** `Lang::from(LanguageIdentifier)`, given the identifier's text (never
      empty). */
  function FromLangId(tag: string, look: Lookups): (r: Lang)
    requires |tag| > 0
    ensures r.flag != "" ==> |Split(tag, SplitterOf(tag))| >= 2
  {
    var parts := Split(tag, SplitterOf(tag));
    var langid := Lower(parts[0]);
    var region := if |parts| >= 2 then Some(Upper(parts[1])) else None;
    var fullLangId := match region
      case Some(r) => langid + "-" + r
      case None => langid;
    var flag := match region
      case Some(r) => look.flagOf(r).GetOr("")
      case None => "";
    Lang(fullLangId, look.nameOf(langid), flag, look.dirOf(langid))
  }

  /** With a separator, `Lang::from` agrees with the macros crate's helpers:
      the id is the lower-cased language part, "-", and the upper-cased
      segment after the first separator ('_' preferred over '-'). The name
      and direction are looked up by the lower-cased language part, the flag
      by the upper-cased region, and a missing flag becomes "". */
  lemma FromLangIdWithSeparator(tag: string, look: Lookups)
    requires '_' in tag || '-' in tag
    ensures LangIdUtils.LangIdToCountryCode(tag).Some?
    ensures var l := FromLangId(tag, look);
            var lang := Lower(LangIdUtils.LangIdToIso639(tag));
            var region := Upper(LangIdUtils.LangIdToCountryCode(tag).value);
            && l.id == lang + "-" + region
            && l.name == look.nameOf(lang)
            && l.dir == look.dirOf(lang)
            && l.flag == look.flagOf(region).GetOr("")
  {
    var sep := if '_' in tag then '_' else '-';
    assert SplitterOf(tag) == [sep];
    LangIdUtils.CountryCodePresence(tag);
    FindChar(tag, sep);
    SplitHasSecond(tag, [sep]);
  }

  /** Segments after the second are dropped: "en-us-x" is "en-US". */
  lemma ExtraSegmentsDropped(lang: string, region: string, more: string, look: Lookups)
    requires '_' !in lang + region + more
    requires '-' !in lang && '-' !in region
    ensures FromLangId(lang + "-" + region + "-" + more, look).id == Lower(lang) + "-" + Upper(region)
  {
    var tag := lang + "-" + region + "-" + more;
    assert tag == lang + ['-'] + (region + ['-'] + more);
    assert '_' !in tag by {
      assert forall i :: 0 <= i < |tag| ==> tag[i] in lang + region + more || tag[i] == '-';
    }
    assert SplitterOf(tag) == "-";
    SplitAtFirst(lang, '-', region + ['-'] + more);
    SplitAtFirst(region, '-', more);
  }

  /** A tag with neither separator is split by itself: both pieces are empty,
      so the region is present but empty, the id is "-", and every lookup
      receives the empty string. */
  lemma FromLangIdWithoutSeparator(tag: string, look: Lookups)
    requires |tag| > 0 && '_' !in tag && '-' !in tag
    ensures FromLangId(tag, look) ==
              Lang("-", look.nameOf(""), look.flagOf("").GetOr(""), look.dirOf(""))
  {
    SplitBySelf(tag);
  }

  /** What `impl Hash for Lang` feeds the hasher: the id alone. */
  function HashFeed(l: Lang): string {
    l.id
  }

  /** Langs with equal ids hash alike whatever the hasher; Langs equal
      under the derived equality have equal ids, so `Hash` agrees with
      `Eq`. */
  lemma HashConsistentWithEq(a: Lang, b: Lang, hasher: string -> int)
    requires a.id == b.id
    ensures hasher(HashFeed(a)) == hasher(HashFeed(b))
  {
  }

  /** "en-US" under any lookups that know English, the US flag and
      left-to-right English. */
  lemma EnUsFromLookups(look: Lookups)
    requires look.nameOf("en") == "English"
    requires look.flagOf("US") == Some("\U{1F1FA}\U{1F1F8}")
    requires look.dirOf("en") == "ltr"
    ensures FromLangId("en-US", look) == Lang("en-US", "English", "\U{1F1FA}\U{1F1F8}", "ltr")
  {
    FromLangIdWithSeparator("en-US", look);
    LangIdUtils.ExampleCountryCode();
    assert Lower("en") == "en";
    assert Upper("US") == "US";
    assert "en" + "-" + "US" == "en-US";
  }

  /** "en-US", with the region table behind the macros crate's
      `langid_to_flag` (`CountryFlag.RegionFlag`, keyed by the bare region
      code; not the function `CountryFlag.LangIdToFlag`, which would find
      no separator in "US"), the direction table of the macros crate, and a
      name table mapping "en" to "English". */
  lemma ExampleEnUs(nameOf: string -> string)
    requires nameOf("en") == "English"
    ensures FromLangId("en-US", Lookups(nameOf, CountryFlag.RegionFlag, WritingDir.LangIdToDir))
            == Lang("en-US", "English", "\U{1F1FA}\U{1F1F8}", "ltr")
  {
    WritingDir.ExampleLeftToRight();
    assert CountryFlag.RegionFlag("US") == Some("\U{1F1FA}\U{1F1F8}");
    EnUsFromLookups(Lookups(nameOf, CountryFlag.RegionFlag, WritingDir.LangIdToDir));
  }
}
