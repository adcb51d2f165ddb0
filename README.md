# i18n: a Dafny model of the localisation core

This project models the core of the Rust workspace `i18n`:

- **`i18n-loader`**: the run-time message-resolution engine. A `Locale` holds one language's Fluent resources. `Locale::query` resolves a `Query` into a `Message` (id, formatted value, formatted attributes) or into the list of `FluentError`s it met. `Locales` is the registry keyed by language identifier, with a fallback language and an optional `on_error` hook.
- **`load!`** (`i18n-macros/src/load.rs`): the compile-time macro that builds the registry. It reads its parameters, collects the `.ftl` files of every locale directory, checks that locales sharing a file define the same keys, and then emits either compile errors or the registry.
- **Language-tag helpers** of the macros crate:
  - `langid_to_iso639` and `langid_to_country_code`;
  - the country-flag table `langid_to_flag`;
  - the writing-direction table `langid_to_dir`.
- **`Lang::from`** in `i18n-lang`: normalises a language identifier to `language-REGION` and looks up its name, flag and writing direction.

Files:

| file | module | models |
|---|---|---|
| `base.dfy` | `Base` | `Option`/`Result`, ASCII case mapping, `str::find`, `str::split` and the lemmas about splitting |
| `loader.dfy` | `Loader` | `i18n-loader/src/lib.rs` |
| `load.dfy` | `LoadMacro` | `i18n-macros/src/load.rs` |
| `utils.dfy` | `LangIdUtils` | `i18n-macros/src/utils.rs` |
| `flag.dfy` | `CountryFlag` | `i18n-macros/src/langid_to_country_flag.rs` |
| `dir.dfy` | `WritingDir` | `i18n-macros/src/langid_to_dir.rs` |
| `lang.dfy` | `LangInfo` | `i18n-lang/src/lib.rs` |

**Resolution: order and the formatter.** Resolution draws the attribute names it reports as not found from a hash set, in an unspecified order. `Loader.Resolve` takes that order as a parameter. `Loader.LocaleQuery` returns it as a ghost result, proved to list each unknown name exactly once. `Loader.ResolveOrderIrrelevant` shows that the order changes only the order of the errors. The Fluent formatter is a function value (`Loader.Formatter`) that the model never looks inside. It receives the locale's language with every call, as the bundle it stands for is built for that language (i18n-loader/src/lib.rs:86) and formats plurals and numbers by it.

**Resolution: what the engine does itself.** The engine's own logic is fully modelled:
- the missing-message short-circuit;
- `""` for a message without a value;
- value errors that do not stop attribute formatting;
- variable-reference errors of an attribute dropped when the query gave that attribute no arguments;
- one "not found" reference error per requested but undeclared attribute;
- the fallback locale when the language has none;
- the `on_error` call on failure.

**The `load!` macro.** The macro is modelled as loops over values:
- a token list for its input;
- a tree of directory items for the file system, each file carrying what reading and parsing it gave.

Each loop is proved against a specification function: a recursive one for the parameter, attribute and directory loops, the set comprehension `KeysOf` for the key loop of one file. The hash-map iterations of the key check are drawn with `:|` and specified by sets.

## Model

| member | source | states |
|---|---|---|
| `Loader.NewQuery` | i18n-loader/src/lib.rs:203-210 | a new query has the given id, no arguments, no attribute arguments, and fallback off |
| `Loader.WithArg` | i18n-loader/src/lib.rs:221-228 | the argument is set (a repeated name replaces); id, attribute arguments, flag and the other arguments are unchanged |
| `Loader.WithAttrArg` | i18n-loader/src/lib.rs:239-250 | the attribute's argument set is created if absent and the argument is set in it; other attributes' sets, other arguments of this one, id, arguments and flag are unchanged |
| `Loader.WithFallback` | i18n-loader/src/lib.rs:253-256 | only the flag changes |
| `Loader.AddEntriesAppend` | i18n-loader/src/lib.rs:87-91 | adding resources one after another is adding their concatenated entries |
| `Loader.AddEntriesMessageIds` | i18n-loader/src/lib.rs:87-91 | an id is a message of the bundle iff some added entry is a message with that id |
| `Loader.AddEntriesMessageValue` | i18n-loader/src/lib.rs:87-91 | a message entry whose id no earlier message entry took is the message the bundle holds under that id: a later entry never overrides it |
| `Loader.NewLocale` | i18n-loader/src/lib.rs:85-93 | when no two entries share an id (the source panics otherwise), the bundle holds exactly the message entries, each under its own id |
| `Loader.WithoutVariableRefs` | i18n-loader/src/lib.rs:139-149 | the loop keeps the attribute's errors minus the variable-reference ones, in order |
| `Loader.ReportUnknownAttrs` | i18n-loader/src/lib.rs:156-163 | one attribute-reference error per remaining name; the names are drawn as a permutation of the set |
| `Loader.FormatAttributes` | i18n-loader/src/lib.rs:125-154 | the attribute loop yields the attribute errors under the suppression rule, every attribute's text under its id, and the requested names minus the declared ones |
| `Loader.LocaleQuery` | i18n-loader/src/lib.rs:102-174 | a missing message gives exactly `[Reference(Message{id, None})]`; otherwise the result is `Resolve` for an order that lists each unknown attribute once |
| `Loader.DropVariableRefsCounts` | i18n-loader/src/lib.rs:139-149 | every variable-reference error is removed and every other error keeps its multiplicity |
| `Loader.KeptErrorsMembership` | i18n-loader/src/lib.rs:139-152 | an attribute error survives iff the attribute had arguments or the error is not a variable reference |
| `Loader.AttrErrorsMembership` | i18n-loader/src/lib.rs:127-154 | an error is reported for the attributes iff some declared attribute produced it and survives the suppression rule |
| `Loader.AttrValuesCoverDeclared` | i18n-loader/src/lib.rs:127-154 | `attrs` has exactly the declared attribute ids as keys, whether or not arguments were supplied; an id not repeated later carries that attribute's text |
| `Loader.AttrNotFoundCounts` | i18n-loader/src/lib.rs:156-163 | the trailing errors name each drawn attribute as often as it was drawn; all of them reference the queried message |
| `Loader.UnknownAttrReportedOnce` | i18n-loader/src/lib.rs:125-131 | a requested, undeclared attribute is reported exactly once; a declared or unrequested one never |
| `Loader.Resolve` | i18n-loader/src/lib.rs:102-174 | an `Ok` message exists in the bundle under the queried id and carries that id; an `Err` is never empty |
| `Loader.ResolveOkIff` | i18n-loader/src/lib.rs:165-173 | the result is `Ok` iff the value and the attributes formatted without kept errors and no unknown attribute was requested |
| `Loader.ResolveSuccess` | i18n-loader/src/lib.rs:117-123 | an `Ok` message carries the queried id, the formatted value (`""` when the message has none), and every declared attribute |
| `Loader.ResolveKeepsAllErrors` | i18n-loader/src/lib.rs:117-154 | value errors do not stop processing: every value error and every kept attribute error is in the final `Err` |
| `Loader.AttrNotFoundPermutes` | i18n-loader/src/lib.rs:156-163 | drawing the same names in another order permutes the trailing errors |
| `Loader.ResolveOrderIrrelevant` | i18n-loader/src/lib.rs:125-173 | the hash-set order changes neither the outcome nor an `Ok` message, and changes an `Err` only by permutation |
| `Loader.AttributesSeeOnlyAttrArgs` | i18n-loader/src/lib.rs:129-136 | attributes are formatted with the per-attribute arguments only, never the value's arguments |
| `Loader.UndeclaredAttrArgFails` | i18n-loader/src/lib.rs:156-163 | giving arguments to an undeclared attribute makes the query fail with a reference to that attribute |
| `Loader.ResolveIgnoresFallbackFlag` | i18n-loader/src/lib.rs:198 | the query's fallback flag never changes the result |
| `Loader.Locales.constructor` | i18n-loader/src/lib.rs:27-33 | a new registry has no locales and keeps the fallback language and the hook |
| `Loader.Locales.AddLocale` | i18n-loader/src/lib.rs:36-40 | the language maps to the new locale built from the resources, replacing an earlier one; every other language keeps its locale |
| `Loader.Locales.Query` | i18n-loader/src/lib.rs:47-68 | the language's own locale answers if present, else the fallback language's; the hook is called with the error list exactly when there is a hook and the result is `Err` |
| `LoadMacro.SetParam` | i18n-macros/src/load.rs:46-57 | setting a parameter succeeds only with a value, and never changes the path |
| `LoadMacro.ParamsFrom` | i18n-macros/src/load.rs:37-58 | the `, key = value` groups never change the path |
| `LoadMacro.Parse` | i18n-macros/src/load.rs:19-67 | a parsed configuration's path is the string literal the input starts with |
| `LoadMacro.ParseLoadInput` | i18n-macros/src/load.rs:19-67 | the parameter loop returns what the recursive reading `Parse` gives: usage error on empty input, a string literal path first, then `, key = value` groups, and nothing left over |
| `LoadMacro.DefaultsWhenOmitted` | i18n-macros/src/load.rs:32-35 | a bare path (with or without a trailing comma) gives no fallback language, `check_keys` true, name `LOCALES`, no `on_error` |
| `LoadMacro.SetParamAccepts` | i18n-macros/src/load.rs:46-57 | only `fallback_lang` (string), `check_keys` (bool), `name` (identifier) and `on_error` (expression) are accepted; any other name is `UnexpectedParameter`; a parameter changes only its own field |
| `LoadMacro.LaterSettingWins` | i18n-macros/src/load.rs:46-50 | setting a parameter twice keeps the later value |
| `LoadMacro.UnknownParameterRejected` | i18n-macros/src/load.rs:43-57 | an unknown parameter name is rejected wherever it appears, before its value is read |
| `LoadMacro.ParseRenderTail` | i18n-macros/src/load.rs:19-67 | after the fallback-language group, the `check_keys`, `name` and `on_error` groups set exactly those fields and end the input |
| `LoadMacro.ParseRender` | i18n-macros/src/load.rs:19-67 | parsing the input that spells out a configuration gives that configuration back |
| `LoadMacro.Extension` | i18n-macros/src/load.rs:137 | an extension is dot-free, follows a dot, and leaves at least one character before that dot |
| `LoadMacro.FtlExtension` | i18n-macros/src/load.rs:137-139 | a file has extension `ftl` iff its name ends in `.ftl` with something before the dot |
| `LoadMacro.FileKeys` | i18n-macros/src/load.rs:167-174 | the loop collects the ids of the message and term entries |
| `LoadMacro.KeysOfExactly` | i18n-macros/src/load.rs:167-174 | a key is in a file's set iff the file has a message or a term with that id; other entries are ignored |
| `LoadMacro.CollectFile` | i18n-macros/src/load.rs:135-183 | one file only appends errors and only adds locales and file names |
| `LoadMacro.CollectFiles` | i18n-macros/src/load.rs:134-184 | a directory only appends errors and only adds locales and file names |
| `LoadMacro.CollectDir` | i18n-macros/src/load.rs:124-133 | a top-level item only appends errors and only adds locales and file names |
| `LoadMacro.CollectAll` | i18n-macros/src/load.rs:123-185 | the whole collection only appends errors and only adds locales and file names |
| `LoadMacro.CollectLocale` | i18n-macros/src/load.rs:134-184 | the inner loop computes `CollectFiles`: failed items and non-`.ftl` files are skipped, read and parse failures add one error each, parsed files add their key set and their text |
| `LoadMacro.CollectLocales` | i18n-macros/src/load.rs:123-185 | the outer loop computes `CollectAll`: only top-level directories that can be listed are visited |
| `LoadMacro.CollectFileStep` | i18n-macros/src/load.rs:136-183 | what one file adds: a key set and a text if it is a parsed `.ftl` file, an error if it is a failed one, nothing otherwise |
| `LoadMacro.CollectFilesKeys` | i18n-macros/src/load.rs:167-179 | within a directory, a key set is recorded under a file name iff a parsed `.ftl` file has that name, and it is such a file's key set |
| `LoadMacro.CollectFilesContents` | i18n-macros/src/load.rs:180-183 | within a directory, the locale's contents are exactly the texts of its parsed `.ftl` files |
| `LoadMacro.CollectFileTexts` | i18n-macros/src/load.rs:180-183 | one file appends its text to its own locale's contents iff it is a parsed `.ftl` file; other locales are untouched |
| `LoadMacro.CollectFilesTexts` | i18n-macros/src/load.rs:134-183 | within a directory, the locale's contents grow by the texts of its parsed `.ftl` files in listing order, one per file |
| `LoadMacro.CollectFilesErrors` | i18n-macros/src/load.rs:147-165 | within a directory, the errors added are exactly those of the `.ftl` files that could not be read or parsed |
| `LoadMacro.CollectAllKeys` | i18n-macros/src/load.rs:123-179 | a locale has a key set for a file name iff its directory has that file parsed; a locale lacking the file has no entry for it |
| `LoadMacro.CollectAllContents` | i18n-macros/src/load.rs:123-183 | a locale has contents iff its directory has a parsed `.ftl` file, and the contents are the texts of those files |
| `LoadMacro.CollectAllTexts` | i18n-macros/src/load.rs:123-183 | across the top directory, each locale's contents grow by the texts of its directories' parsed `.ftl` files, in visit order |
| `LoadMacro.CollectAllErrors` | i18n-macros/src/load.rs:123-165 | the collection errors are exactly the read and parse failures of `.ftl` files in listable directories |
| `LoadMacro.RefKeys` | i18n-macros/src/load.rs:189-193 | the reference set contains every locale's key set for the file |
| `LoadMacro.MissingError` | i18n-macros/src/load.rs:194-205 | a locale's copy is reported iff it lacks a reference key; the report names that locale and file, and its keys are reference keys the copy lacks |
| `LoadMacro.MissingKeysExactly` | i18n-macros/src/load.rs:188-205 | a locale's copy of a file is reported iff another locale's copy defines a key it lacks, and the report lists exactly those keys |
| `LoadMacro.CheckFile` | i18n-macros/src/load.rs:189-206 | for one file name, one error per locale that lacks reference keys, and no other |
| `LoadMacro.CheckKeys` | i18n-macros/src/load.rs:187-208 | every missing-keys error the check can raise is raised exactly once, and nothing else |
| `LoadMacro.AgreeingLocalesPass` | i18n-macros/src/load.rs:188-206 | when all locales that share a file define the same keys in it, nothing is reported |
| `LoadMacro.CollectionErrorsAreFileErrors` | i18n-macros/src/load.rs:147-165 | collecting only ever raises read and parse errors |
| `LoadMacro.LoadImpl` | i18n-macros/src/load.rs:70-225 | bad input, an invalid fallback language or an unreadable directory gives one compile error. Otherwise the registry is emitted iff there are no collection errors and, with `check_keys`, no missing keys. Its locales are the collected contents and its fallback defaults to "en-US". Errors list the collection errors first, then the missing-key errors, and none of the latter without `check_keys` |
| `LoadMacro.RegisteredLocales` | i18n-macros/src/load.rs:180-183 | a locale is registered iff its directory has a parsed `.ftl` file; what it is registered with is the sequence of those files' texts in visit order, repeats included, and a text is in it iff such a file has it |
| `LangIdUtils.Splitter` | i18n-macros/src/utils.rs:3-9 | the separator is `'_'` iff the tag has one, `'-'` iff it has `'-'` but no `'_'`, none iff it has neither |
| `LangIdUtils.LangIdToIso639` | i18n-macros/src/utils.rs:2-16 | the language part is never longer than the tag and never holds `'_'` |
| `LangIdUtils.LangIdToCountryCode` | i18n-macros/src/utils.rs:19-29 | a country code is only found with a separator, and never holds the separator it was cut with |
| `LangIdUtils.Iso639WithoutSeparator` | i18n-macros/src/utils.rs:3-8 | with neither separator the ISO-639 code is the tag lower-cased |
| `LangIdUtils.Iso639WithSeparator` | i18n-macros/src/utils.rs:11-15 | with a separator the code is the prefix up to the first chosen separator, case unchanged, and never contains it |
| `LangIdUtils.CountryCodePresence` | i18n-macros/src/utils.rs:20-28 | a country code is returned iff the tag has `'_'` or `'-'` |
| `LangIdUtils.CountryCodeIsSecondSegment` | i18n-macros/src/utils.rs:28 | the country code is the text between the first and second separator (or the end), unchanged |
| `LangIdUtils.CountryCodeOfLower` | i18n-macros/src/utils.rs:19-29 | lower-casing the tag lower-cases the country code and changes nothing else |
| `LangIdUtils.CountryCodeOfJoined` | i18n-macros/src/utils.rs:19-29 | for `lang + sep + rest`, the country code is the first piece of `rest`, whatever `lang` is |
| `LangIdUtils.ExampleIso639` | i18n-macros/src/utils.rs:2-16 | "EN" gives "en"; "EN-us" gives "EN" |
| `LangIdUtils.ExampleCountryCode` | i18n-macros/src/utils.rs:19-29 | "en-US" gives "en" and "US" |
| `CountryFlag.RegionFlag` | i18n-macros/src/langid_to_country_flag.rs:4-255 | every flag in the table is the regional-indicator pair of its upper-case two-letter code |
| `CountryFlag.NoSeparatorNoFlag` | i18n-macros/src/langid_to_country_flag.rs:3 | a tag without separator, such as a bare "US", has no flag |
| `CountryFlag.FlagIgnoresLanguage` | i18n-macros/src/langid_to_country_flag.rs:3-4 | only the segment after the separator matters |
| `CountryFlag.FlagIgnoresCase` | i18n-macros/src/langid_to_country_flag.rs:4 | the lookup ignores the case of the tag |
| `CountryFlag.LangIdToFlag` | i18n-macros/src/langid_to_country_flag.rs:2-256 | a flag is only given for a tag whose country code has two letters, and is two code points long |
| `CountryFlag.FlagOfJoined` | i18n-macros/src/langid_to_country_flag.rs:3-4 | for a tag spelled language, `-`, region, the flag is the one of the upper-cased region alone |
| `CountryFlag.FlagIsIndicatorPair` | i18n-macros/src/langid_to_country_flag.rs:5-253 | every returned glyph is the indicator pair of the upper-cased country code |
| `CountryFlag.UnknownCodes` | i18n-macros/src/langid_to_country_flag.rs:254 | "us", "USA" and "XX" are not in the table |
| `CountryFlag.ExampleUnitedStates` | i18n-macros/src/langid_to_country_flag.rs:237 | "en-US" gives the US flag |
| `CountryFlag.ExampleSameRegion` | i18n-macros/src/langid_to_country_flag.rs:3-4 | "es-US" and "en-US" give the same flag |
| `CountryFlag.ExampleBareRegion` | i18n-macros/src/langid_to_country_flag.rs:3 | "US" gives no flag |
| `CountryFlag.ExampleCaseInsensitive` | i18n-macros/src/langid_to_country_flag.rs:4 | "en-us" and "en-US" give the same flag |
| `CountryFlag.ExampleCroatia` | i18n-macros/src/langid_to_country_flag.rs:102 | "hr-HR" gives the Croatian flag |
| `WritingDir.LangIdToDir` | i18n-macros/src/langid_to_dir.rs:2-189 | the direction is always "ltr", "rtl" or "auto" |
| `WritingDir.RtlExactly` | i18n-macros/src/langid_to_dir.rs:11-182 | "rtl" exactly for ar, dv, fa, he, ks, ku, pa, ps, sd, tk, ug, ur and yi |
| `WritingDir.UnlistedIsAuto` | i18n-macros/src/langid_to_dir.rs:187 | anything that is not two lower-case ASCII letters gives "auto" |
| `WritingDir.ExplicitAutoEntries` | i18n-macros/src/langid_to_dir.rs:20-185 | bm, ja, ko, mn, vi, za and zh are listed as "auto" |
| `WritingDir.ExampleLeftToRight` | i18n-macros/src/langid_to_dir.rs:40-62 | "en" and "hr" are left to right |
| `WritingDir.ExampleCaseSensitive` | i18n-macros/src/langid_to_dir.rs:3-187 | the match is exact: "EN" and "en-US" give "auto" |
| `LangInfo.FromLangId` | i18n-lang/src/lib.rs:28-61 | a non-empty flag is only found for a tag that splits into a language part and a region part |
| `LangInfo.FromLangIdWithSeparator` | i18n-lang/src/lib.rs:28-53 | the id is the lower-cased language part, "-", and the upper-cased segment after the first separator (`'_'` preferred). Name and direction are looked up by the language part, the flag by the region, and a missing flag becomes "" |
| `LangInfo.ExtraSegmentsDropped` | i18n-lang/src/lib.rs:37-47 | segments after the second are dropped |
| `LangInfo.FromLangIdWithoutSeparator` | i18n-lang/src/lib.rs:30-47 | without a separator the text is split by itself: empty language, empty region, id "-" |
| `LangInfo.HashConsistentWithEq` | i18n-lang/src/lib.rs:64-68 | the hash reads only the id, so equal `Lang`s hash alike |
| `LangInfo.EnUsFromLookups` | i18n-lang/src/lib.rs:73-83 | "en-US" gives id "en-US" and the looked-up name, flag and direction |
| `LangInfo.ExampleEnUs` | i18n-lang/src/lib.rs:73-83 | with the region table behind the macros crate's `langid_to_flag` (`CountryFlag.RegionFlag`, keyed by the bare region) and its direction table, "en-US" is English, 🇺🇸, "ltr" |
| `Base.SplitJoin` | i18n-macros/src/utils.rs:11-15 | `str::split` loses nothing: joining the pieces with the pattern gives the text back |
| `Base.SplitPiecesAvoidPattern` | i18n-macros/src/utils.rs:11-15 | no piece of a split contains the pattern |
| `Base.SplitBySelf` | i18n-lang/src/lib.rs:35-37 | a text split by itself gives two empty pieces |
| `Base.FirstPieceOfCharSplit` | i18n-macros/src/utils.rs:11-15 | the first piece is the longest prefix free of the character |
| `Base.SplitLower` | i18n-macros/src/langid_to_country_flag.rs:3-4 | splitting on a non-letter commutes with lower-casing |
| `Base.UpperIgnoresCase` | i18n-macros/src/langid_to_country_flag.rs:4 | upper-casing forgets the original case |

## Left out

- Fluent itself is not modelled: parsing `.ftl` text, `FluentBundle::get_message` and `format_pattern`. The formatter is a function value and patterns are opaque. A resource is given as its parsed entries. The `\u{2068}`/`\u{2069}` isolation marks come from the formatter.
- `FluentArgs` is a map in which setting a name again replaces the value. The library's own ordering of arguments is not modelled.
- Messages and terms live in separate maps of the store. A message id and a term id are assumed not to collide.
- `Loader.NewLocale`: the panic of `add_resource` on a duplicate id becomes a precondition, with no entries sharing an id.
- `Loader.Locales.Query`: the panic when neither the language nor the fallback language has a locale becomes a precondition. The `on_error` hook is a pure function value. Its call is recorded as the `hookCall` result, because its effect is outside the model.
- `Loader.Locales.AddLocale`: `lang_str.parse()` and its panic on an invalid identifier are not modelled. A language identifier is taken as its canonical text. `unic_langid` parsing and canonicalisation are a foreign library.
- `Message`'s derived traits are not modelled. `Locales::from_url` (network loading) is not part of this model.
- Case mapping is ASCII only. Rust's Unicode `to_lowercase`/`to_uppercase` agree with it on the ASCII letters that language tags use.
- `CountryFlag.RegionFlag`: the table matches the first letter, then the second. It selects the same 249 entries as the source's two-letter string match, in a form the verifier handles cheaply.
- `LangInfo`: the name table `langid_to_name` is not part of this model, nor are `i18n-lang`'s own flag and direction modules. `Lang::from` takes its three lookups as parameters. `LangInfo.ExampleEnUs` instantiates them with the macros crate's direction table and with `CountryFlag.RegionFlag`, the region-keyed table behind `langid_to_flag`, not the function `CountryFlag.LangIdToFlag` itself (which would give no flag for a bare "US").
- `LangInfo.HashConsistentWithEq`: the hasher is a function of the text fed to it; Rust's `Hasher` state is not modelled.
- `load!` tokens: `syn` token parsing is reduced to a list of token trees. An `on_error` expression is one token tree. Rust keywords are not told apart from identifiers. The span-carrying error messages are error constructors.
- `load!` file system: the directory read, `CARGO_MANIFEST_DIR`, `is_dir`, and reading and parsing each file are given as data (`readDir`, `DirItem`, `FileItem`, `FileContent`). Language-identifier validation of the fallback is the parameter `validTag`.
- `load!` order: the order of the missing keys inside one error is not modelled. They are a set, where the source joins them in hash-set order. Errors from the key check come in hash-map order, drawn with `:|`, and are specified as a set without duplicates.
- `load!` emission: the `quote!` output is not modelled, including the `include_str!` trackers, the `lazy_static` wrapper, and `FluentResource::try_new` in the emitted code. The outcome is the list of compile errors or the registry's parameters with one `add_locale` entry per locale. Those entries are a map, because the source emits them in hash-map order.
- The other proc macros (`tr.rs`, `attr.rs`, `langs/mod.rs`) and the facade crate `src/lib.rs` are not part of this model.

The model follows the code as written:
- a message without a value resolves to `""` (i18n-loader/src/lib.rs:122);
- attributes are formatted eagerly into plain strings: `Message.attrs` is a map from id to text (i18n-loader/src/lib.rs:185), with no lazy handle or cache;
- `with_fallback` is stored but never read (i18n-loader/src/lib.rs:198).
