/** The `load!` procedural macro, as data logic: reading its parameters,
    collecting the `.ftl` files of each locale directory, the key-parity
    check between locales, and what is emitted. Tokens, the directory tree
    and the Fluent parser's verdicts are given as values. */
module LoadMacro {
  import opened Base

  // ---------------------------------------------------------------------------
  // Macro input: `LoadMacroInput` and its `Parse` implementation
  // ---------------------------------------------------------------------------

  /** A token tree of the macro input. `Group` stands for any other token
      tree (a bracketed group, a number, punctuation other than `,` and `=`). */
  datatype Token = Str(text: string) | Bool(value: bool) | Ident(name: string) | Comma | Equals | Group(text: string)

  /** A token that parses as an expression for `on_error`. */
  predicate IsExpr(t: Token) {
    !t.Comma? && !t.Equals?
  }

  /** `LoadMacroInput` */
  datatype LoadInput = LoadInput(path: string, fallbackLang: Option<string>, checkKeys: bool, name: string, onError: Option<Token>)

  datatype ParseError =
    | Usage                             // empty input
    | ExpectedPath                      // the first token is not a string literal
    | ExpectedKey                       // a parameter name is not an identifier
    | ExpectedEquals                    // no `=` after a parameter name
    | UnexpectedParameter(key: string)  // not one of the four parameter names
    | ExpectedValue(key: string)        // the value has the wrong kind, or is missing
    | UnexpectedToken                   // input left over after the parameters

  /** The four parameter names the macro accepts. */
  const ParamNames: set<string> := {"fallback_lang", "check_keys", "name", "on_error"}

  /** The configuration before any parameter is read. */
  function Defaults(path: string): LoadInput {
    LoadInput(path, None, true, "LOCALES", None)
  }

  /** The `match` on the parameter name: sets the one field it names from
      the value token `v` (absent at the end of the input). */
  function SetParam(cfg: LoadInput, key: string, v: Option<Token>): (r: Result<LoadInput, ParseError>)
    ensures r.Success? ==> v.Some?
    ensures r.Success? ==> r.value.path == cfg.path
  {
    match key
    case "fallback_lang" =>
      if v.Some? && v.value.Str? then Success(cfg.(fallbackLang := Some(v.value.text))) else Failure(ExpectedValue(key))
    case "check_keys" =>
      if v.Some? && v.value.Bool? then Success(cfg.(checkKeys := v.value.value)) else Failure(ExpectedValue(key))
    case "name" =>
      if v.Some? && v.value.Ident? then Success(cfg.(name := v.value.name)) else Failure(ExpectedValue(key))
    case "on_error" =>
      if v.Some? && IsExpr(v.value) then Success(cfg.(onError := Some(v.value))) else Failure(ExpectedValue(key))
    case _ => Failure(UnexpectedParameter(key))
  }

  /** The parameter loop from token `i` on, with `cfg` read so far: while a
      comma follows, read `key = value` (a comma at the very end ends the
      loop); afterwards nothing may be left. */
  function ParamsFrom(input: seq<Token>, i: nat, cfg: LoadInput): (r: Result<LoadInput, ParseError>)
    requires i <= |input|
    ensures r.Success? ==> r.value.path == cfg.path
    decreases |input| - i
  {
    if i < |input| && input[i].Comma? then
      if i + 1 == |input| then Success(cfg)
      else if !input[i + 1].Ident? then Failure(ExpectedKey)
      else if i + 2 == |input| || !input[i + 2].Equals? then Failure(ExpectedEquals)
      else
        var v := if i + 3 < |input| then Some(input[i + 3]) else None;
        match SetParam(cfg, input[i + 1].name, v)
        case Failure(e) => Failure(e)
        case Success(next) => ParamsFrom(input, i + 4, next)
    else if i < |input| then Failure(UnexpectedToken)
    else Success(cfg)
  }

  /** `LoadMacroInput::parse`, followed by the check that every token was
      consumed. */
  function Parse(input: seq<Token>): (r: Result<LoadInput, ParseError>)
    ensures r.Success? ==> |input| > 0 && input[0] == Str(r.value.path)
  {
    if |input| == 0 then Failure(Usage)
    else if !input[0].Str? then Failure(ExpectedPath)
    else ParamsFrom(input, 1, Defaults(input[0].text))
  }

  /** `LoadMacroInput::parse` as the loop it is. */
  method ParseLoadInput(input: seq<Token>) returns (r: Result<LoadInput, ParseError>)
    ensures r == Parse(input)
  {
    if |input| == 0 {
      return Failure(Usage);
    }
    if !input[0].Str? {
      return Failure(ExpectedPath);
    }
    var cfg := Defaults(input[0].text);
    var i := 1;
    while i < |input| && input[i].Comma?
      invariant 1 <= i <= |input|
      invariant ParamsFrom(input, i, cfg) == Parse(input)
      decreases |input| - i
    {
      i := i + 1;
      if i == |input| {
        break;
      }
      if !input[i].Ident? {
        return Failure(ExpectedKey);
      }
      var key := input[i].name;
      i := i + 1;
      if i == |input| || !input[i].Equals? {
        return Failure(ExpectedEquals);
      }
      i := i + 1;
      var v := if i < |input| then Some(input[i]) else None;
      var next := SetParam(cfg, key, v);
      if next.Failure? {
        return Failure(next.error);
      }
      cfg := next.value;
      i := i + 1;
    }
    if i < |input| {
      return Failure(UnexpectedToken);
    }
    return Success(cfg);
  }

  /** A bare path, with or without a trailing comma, gives the defaults:
      no fallback language (later "en-US"), key checking on, the static
      named `LOCALES`, no error hook. */
  lemma DefaultsWhenOmitted(path: string)
    ensures Parse([Str(path)]) == Success(LoadInput(path, None, true, "LOCALES", None))
    ensures Parse([Str(path), Comma]) == Success(LoadInput(path, None, true, "LOCALES", None))
  {
  }

  /** Only the four parameter names are accepted, each with its own kind
      of value, and a parameter sets its own field and no other. */
  lemma SetParamAccepts(cfg: LoadInput, key: string, v: Option<Token>)
    ensures SetParam(cfg, key, v).Success? <==>
              || (key == "fallback_lang" && v.Some? && v.value.Str?)
              || (key == "check_keys" && v.Some? && v.value.Bool?)
              || (key == "name" && v.Some? && v.value.Ident?)
              || (key == "on_error" && v.Some? && IsExpr(v.value))
    ensures key !in ParamNames ==> SetParam(cfg, key, v) == Failure(UnexpectedParameter(key))
    ensures SetParam(cfg, key, v).Success? ==>
              var n := SetParam(cfg, key, v).value;
              && n.path == cfg.path
              && (key != "fallback_lang" ==> n.fallbackLang == cfg.fallbackLang)
              && (key != "check_keys" ==> n.checkKeys == cfg.checkKeys)
              && (key != "name" ==> n.name == cfg.name)
              && (key != "on_error" ==> n.onError == cfg.onError)
  {
  }

  /** Setting a parameter twice keeps the second value. */
  lemma LaterSettingWins(cfg: LoadInput, key: string, v1: Token, v2: Token)
    requires SetParam(cfg, key, Some(v1)).Success?
    ensures SetParam(SetParam(cfg, key, Some(v1)).value, key, Some(v2)) == SetParam(cfg, key, Some(v2))
  {
  }

  /** A parameter name outside the four is rejected wherever it appears,
      before its value is looked at. */
  lemma UnknownParameterRejected(input: seq<Token>, i: nat, cfg: LoadInput, key: string)
    requires i + 3 <= |input|
    requires input[i] == Comma && input[i + 1] == Ident(key) && input[i + 2] == Equals
    requires key !in ParamNames
    ensures ParamsFrom(input, i, cfg) == Failure(UnexpectedParameter(key))
  {
    var v := if i + 3 < |input| then Some(input[i + 3]) else None;
    assert SetParam(cfg, key, v) == Failure(UnexpectedParameter(key));
  }

  /** One `, key = value` group: the tokens a parameter is written as. */
  function ParamTokens(key: string, v: Token): seq<Token> {
    [Comma, Ident(key), Equals, v]
  }

  /** The macro input that spells out `cfg`: the path, then every
      parameter that differs from "absent". */
  function Render(cfg: LoadInput): seq<Token> {
    [Str(cfg.path)]
    + (if cfg.fallbackLang.Some? then ParamTokens("fallback_lang", Str(cfg.fallbackLang.value)) else [])
    + ParamTokens("check_keys", Bool(cfg.checkKeys))
    + ParamTokens("name", Ident(cfg.name))
    + (if cfg.onError.Some? then ParamTokens("on_error", cfg.onError.value) else [])
  }

  /** Reading one well-formed group moves four tokens on. */
  lemma ParamStep(pre: seq<Token>, key: string, v: Token, post: seq<Token>, cfg: LoadInput)
    requires |pre| > 0
    requires SetParam(cfg, key, Some(v)).Success?
    ensures ParamsFrom(pre + ParamTokens(key, v) + post, |pre|, cfg) ==
            ParamsFrom(pre + ParamTokens(key, v) + post, |pre| + 4, SetParam(cfg, key, Some(v)).value)
  {
    var input := pre + ParamTokens(key, v) + post;
    assert input[|pre|] == Comma && input[|pre| + 1] == Ident(key);
    assert input[|pre| + 2] == Equals && input[|pre| + 3] == v;
  }

  /** The groups after the fallback language: `check_keys`, `name` and,
      if present, `on_error` set the remaining fields and end the input. */
  lemma ParseRenderTail(pre: seq<Token>, c1: LoadInput, cfg: LoadInput)
    requires |pre| > 0
    requires c1.path == cfg.path && c1.fallbackLang == cfg.fallbackLang && c1.onError.None?
    requires cfg.onError.Some? ==> IsExpr(cfg.onError.value)
    ensures var oe := if cfg.onError.Some? then ParamTokens("on_error", cfg.onError.value) else [];
            var input := pre + ParamTokens("check_keys", Bool(cfg.checkKeys)) + ParamTokens("name", Ident(cfg.name)) + oe;
            ParamsFrom(input, |pre|, c1) == Success(cfg)
  {
    var ck := ParamTokens("check_keys", Bool(cfg.checkKeys));
    var nm := ParamTokens("name", Ident(cfg.name));
    var oe := if cfg.onError.Some? then ParamTokens("on_error", cfg.onError.value) else [];
    var input := pre + ck + nm + oe;
    var c2 := c1.(checkKeys := cfg.checkKeys);
    var c3 := c2.(name := cfg.name);
    ParamStep(pre, "check_keys", Bool(cfg.checkKeys), nm + oe, c1);
    assert pre + ck + (nm + oe) == input;
    ParamStep(pre + ck, "name", Ident(cfg.name), oe, c2);
    if cfg.onError.Some? {
      ParamStep(pre + ck + nm, "on_error", cfg.onError.value, [], c3);
      assert pre + ck + nm + oe + [] == input;
      assert c3.(onError := cfg.onError) == cfg;
    } else {
      assert c3 == cfg;
    }
  }

  /** Parsing the rendering of a configuration gives that configuration
      back. */
  lemma ParseRender(cfg: LoadInput)
    requires cfg.onError.Some? ==> IsExpr(cfg.onError.value)
    ensures Parse(Render(cfg)) == Success(cfg)
  {
    var head := [Str(cfg.path)];
    var fb := if cfg.fallbackLang.Some? then ParamTokens("fallback_lang", Str(cfg.fallbackLang.value)) else [];
    var ck := ParamTokens("check_keys", Bool(cfg.checkKeys));
    var nm := ParamTokens("name", Ident(cfg.name));
    var oe := if cfg.onError.Some? then ParamTokens("on_error", cfg.onError.value) else [];
    var input := head + fb + ck + nm + oe;
    assert Render(cfg) == input;
    var c0 := Defaults(cfg.path);
    var c1 := c0.(fallbackLang := cfg.fallbackLang);
    if cfg.fallbackLang.Some? {
      ParamStep(head, "fallback_lang", Str(cfg.fallbackLang.value), ck + nm + oe, c0);
      assert head + fb + (ck + nm + oe) == input;
    }
    ParseRenderTail(head + fb, c1, cfg);
  }

  // ---------------------------------------------------------------------------
  // Reading the locale directories
  // ---------------------------------------------------------------------------

  /** An entry of a parsed Fluent resource, as far as the key check cares. */
  datatype AstEntry = MessageDef(id: string) | TermDef(id: string) | OtherEntry

  /** What reading and parsing a file gave. */
  datatype FileContent = Unreadable | Unparsable | Parsed(text: string, body: seq<AstEntry>)

  /** An item of a locale directory's listing; `BadFileItem` is one the
      listing itself failed on. */
  datatype FileItem = BadFileItem | File(name: string, content: FileContent)

  /** An item of the top directory; `listing` is `None` when the directory
      cannot be listed. */
  datatype DirItem = BadDirItem | Dir(name: string, isDir: bool, listing: Option<seq<FileItem>>)

  datatype LoadError =
    | InvalidInput(error: ParseError)
    | InvalidFallback(lang: string)
    | MissingDirectory(path: string)
    | ReadFailed(locale: string, file: string)
    | ParseFailed(locale: string, file: string)
    | MissingKeys(locale: string, file: string, missing: set<string>)

  /** Index of the last `c` in `s`. */
  function LastIndexOf(s: string, c: char): (r: Option<nat>)
    ensures r.Some? ==> r.value < |s| && s[r.value] == c && c !in s[r.value + 1..]
    ensures r.None? ==> c !in s
    decreases |s|
  {
    if s == [] then None
    else if s[|s| - 1] == c then Some(|s| - 1)
    else
      var r := LastIndexOf(s[..|s| - 1], c);
      assert s == s[..|s| - 1] + [s[|s| - 1]];
      assert r.Some? ==> s[r.value + 1..] == s[..|s| - 1][r.value + 1..] + [s[|s| - 1]];
      r
  }

  /** `Path::extension` of a file name: the text after the last dot, unless
      there is no dot, the only dot leads the name, or the name is "..". */
  function Extension(name: string): (r: Option<string>)
    ensures r.Some? ==> '.' !in r.value && |r.value| + 2 <= |name| && name[|name| - |r.value| - 1] == '.'
  {
    if name == ".." then None
    else match LastIndexOf(name, '.')
      case None => None
      case Some(i) => if i == 0 then None else Some(name[i + 1..])
  }

  /** A file is a Fluent file exactly when its name ends in ".ftl" with
      something before the dot. */
  lemma FtlExtension(name: string)
    ensures Extension(name) == Some("ftl") <==> |name| > 4 && name[|name| - 4..] == ".ftl"
  {
    var last := LastIndexOf(name, '.');
    if Extension(name) == Some("ftl") {
      var i := last.value;
      assert name[i + 1..] == "ftl";
      assert name[|name| - 4..] == [name[i]] + name[i + 1..];
    }
    if |name| > 4 && name[|name| - 4..] == ".ftl" {
      assert name[|name| - 4] == '.';
      assert name != "..";
      assert name[|name| - 3..] == "ftl";
    }
  }

  /** A listing item the collection looks at: a readable entry named `*.ftl`. */
  predicate IsFtlFile(f: FileItem) {
    f.File? && Extension(f.name) == Some("ftl")
  }

  /** The ids a file defines: those of its messages and terms. */
  function KeysOf(body: seq<AstEntry>): set<string> {
    set e | e in body && !e.OtherEntry? :: e.id
  }

  /** The key-set loop: collects the id of every message and term. */
  method FileKeys(body: seq<AstEntry>) returns (keys: set<string>)
    ensures keys == KeysOf(body)
  {
    keys := {};
    for i := 0 to |body|
      invariant keys == KeysOf(body[..i])
    {
      assert body[..i + 1] == body[..i] + [body[i]];
      match body[i] {
        case MessageDef(id) => keys := keys + {id};
        case TermDef(id) => keys := keys + {id};
        case OtherEntry =>
      }
    }
    assert body[..|body|] == body;
  }

  /** A file's key set holds exactly the ids of its messages and terms. */
  lemma KeysOfExactly(body: seq<AstEntry>, k: string)
    ensures k in KeysOf(body) <==> MessageDef(k) in body || TermDef(k) in body
  {
    if MessageDef(k) in body {
      assert MessageDef(k).id == k;
    }
    if TermDef(k) in body {
      assert TermDef(k).id == k;
    }
  }

  /** The collection state: error messages, the contents of each locale's
      files in visit order, and per file name the key set of each locale
      that has it. */
  datatype Collected = Collected(
    errors: seq<LoadError>,
    contents: map<string, seq<string>>,
    fileKeys: map<string, map<string, set<string>>>)

  const NothingCollected := Collected([], map[], map[])

  /** The error reading or parsing a file adds, if any. */
  function FileError(locale: string, f: FileItem): Option<LoadError>
    requires f.File?
  {
    match f.content
    case Unreadable => Some(ReadFailed(locale, f.name))
    case Unparsable => Some(ParseFailed(locale, f.name))
    case Parsed(_, _) => None
  }

  /** One iteration of the inner loop: a file of the directory `locale`. */
  function CollectFile(c: Collected, locale: string, f: FileItem): (r: Collected)
    ensures c.errors <= r.errors
    ensures c.contents.Keys <= r.contents.Keys && c.fileKeys.Keys <= r.fileKeys.Keys
  {
    if !IsFtlFile(f) then c
    else match f.content
      case Unreadable => c.(errors := c.errors + [ReadFailed(locale, f.name)])
      case Unparsable => c.(errors := c.errors + [ParseFailed(locale, f.name)])
      case Parsed(text, body) =>
        var perLocale := if f.name in c.fileKeys then c.fileKeys[f.name] else map[];
        var before := if locale in c.contents then c.contents[locale] else [];
        c.(fileKeys := c.fileKeys[f.name := perLocale[locale := KeysOf(body)]],
           contents := c.contents[locale := before + [text]])
  }

  /** The inner loop over a directory's listing. */
  function CollectFiles(c: Collected, locale: string, files: seq<FileItem>): (r: Collected)
    ensures c.errors <= r.errors
    ensures c.contents.Keys <= r.contents.Keys && c.fileKeys.Keys <= r.fileKeys.Keys
    decreases |files|
  {
    if files == [] then c
    else CollectFile(CollectFiles(c, locale, files[..|files| - 1]), locale, files[|files| - 1])
  }

  /** One iteration of the outer loop: only directories whose listing can be
      read are looked into. */
  function CollectDir(c: Collected, d: DirItem): (r: Collected)
    ensures c.errors <= r.errors
    ensures c.contents.Keys <= r.contents.Keys && c.fileKeys.Keys <= r.fileKeys.Keys
  {
    if d.BadDirItem? || !d.isDir || d.listing.None? then c
    else CollectFiles(c, d.name, d.listing.value)
  }

  /** The outer loop over the top directory. */
  function CollectAll(c: Collected, root: seq<DirItem>): (r: Collected)
    ensures c.errors <= r.errors
    ensures c.contents.Keys <= r.contents.Keys && c.fileKeys.Keys <= r.fileKeys.Keys
    decreases |root|
  {
    if root == [] then c
    else CollectDir(CollectAll(c, root[..|root| - 1]), root[|root| - 1])
  }

  /** The inner loop of `load_impl`: the files of the directory `locale`.
      Items the listing failed on and files not named `*.ftl` are skipped; a
      file that cannot be read or parsed adds an error and nothing else. */
  method CollectLocale(locale: string, files: seq<FileItem>,
                       errors0: seq<LoadError>, contents0: map<string, seq<string>>,
                       fileKeys0: map<string, map<string, set<string>>>)
    returns (errors: seq<LoadError>, contents: map<string, seq<string>>, fileKeys: map<string, map<string, set<string>>>)
    ensures Collected(errors, contents, fileKeys) == CollectFiles(Collected(errors0, contents0, fileKeys0), locale, files)
  {
    errors, contents, fileKeys := errors0, contents0, fileKeys0;
    for j := 0 to |files|
      invariant Collected(errors, contents, fileKeys) == CollectFiles(Collected(errors0, contents0, fileKeys0), locale, files[..j])
    {
      assert files[..j + 1][..j] == files[..j];
      var file := files[j];
      if file.BadFileItem? {
        continue;
      }
      if Extension(file.name) != Some("ftl") {
        continue;
      }
      if file.content.Unreadable? {
        errors := errors + [ReadFailed(locale, file.name)];
        continue;
      }
      if file.content.Unparsable? {
        errors := errors + [ParseFailed(locale, file.name)];
        continue;
      }
      var keys := FileKeys(file.content.body);
      var perLocale := if file.name in fileKeys then fileKeys[file.name] else map[];
      fileKeys := fileKeys[file.name := perLocale[locale := keys]];
      var before := if locale in contents then contents[locale] else [];
      contents := contents[locale := before + [file.content.text]];
    }
    assert files[..|files|] == files;
  }

  /** The outer loop of `load_impl` over the top directory. */
  method CollectLocales(root: seq<DirItem>)
    returns (errors: seq<LoadError>, contents: map<string, seq<string>>, fileKeys: map<string, map<string, set<string>>>)
    ensures Collected(errors, contents, fileKeys) == CollectAll(NothingCollected, root)
  {
    errors, contents, fileKeys := [], map[], map[];
    for i := 0 to |root|
      invariant Collected(errors, contents, fileKeys) == CollectAll(NothingCollected, root[..i])
    {
      assert root[..i + 1][..i] == root[..i];
      var entry := root[i];
      if entry.BadDirItem? || !entry.isDir {
        continue;
      }
      if entry.listing.None? {
        continue;
      }
      errors, contents, fileKeys := CollectLocale(entry.name, entry.listing.value, errors, contents, fileKeys);
    }
    assert root[..|root|] == root;
  }

  // ---------------------------------------------------------------------------
  // What the collection gathers
  // ---------------------------------------------------------------------------

  /** The names of the `*.ftl` files of a listing that were read and parsed. */
  function ParsedNames(files: seq<FileItem>): set<string> {
    set f | f in files && IsFtlFile(f) && f.content.Parsed? :: f.name
  }

  /** Their texts. */
  function ParsedTexts(files: seq<FileItem>): set<string> {
    set f | f in files && IsFtlFile(f) && f.content.Parsed? :: f.content.text
  }

  /** The key sets of the parsed `*.ftl` files named `fname`. */
  function KeySets(files: seq<FileItem>, fname: string): set<set<string>> {
    set f | f in files && IsFtlFile(f) && f.content.Parsed? && f.name == fname :: KeysOf(f.content.body)
  }

  /** The errors of the `*.ftl` files that could not be read or parsed. */
  function FileErrors(locale: string, files: seq<FileItem>): set<LoadError> {
    set f | f in files && IsFtlFile(f) && !f.content.Parsed? :: FileError(locale, f).value
  }

  predicate HasKeys(c: Collected, fname: string, loc: string) {
    fname in c.fileKeys && loc in c.fileKeys[fname]
  }

  predicate HasText(c: Collected, loc: string, t: string) {
    loc in c.contents && t in c.contents[loc]
  }

  /** Membership in a listing grows by its last item. */
  lemma ListingMembers(files: seq<FileItem>)
    requires files != []
    ensures forall g :: g in files <==> g in files[..|files| - 1] || g == files[|files| - 1]
  {
    assert files == files[..|files| - 1] + [files[|files| - 1]];
  }

  /** How the parsed names and texts of a listing grow by one item. */
  lemma ParsedSnoc(files: seq<FileItem>)
    requires files != []
    ensures var init, f := files[..|files| - 1], files[|files| - 1];
            var parsed := IsFtlFile(f) && f.content.Parsed?;
            && ParsedNames(files) == ParsedNames(init) + (if parsed then {f.name} else {})
            && ParsedTexts(files) == ParsedTexts(init) + (if parsed then {f.content.text} else {})
  {
    ListingMembers(files);
  }

  /** How the key sets under one name grow by one item. */
  lemma KeySetsSnoc(files: seq<FileItem>, fname: string)
    requires files != []
    ensures var init, f := files[..|files| - 1], files[|files| - 1];
            var parsed := IsFtlFile(f) && f.content.Parsed?;
            KeySets(files, fname) == KeySets(init, fname) + (if parsed && f.name == fname then {KeysOf(f.content.body)} else {})
  {
    ListingMembers(files);
  }

  /** How the file errors grow by one item. */
  lemma FileErrorsSnoc(files: seq<FileItem>, locale: string)
    requires files != []
    ensures var init, f := files[..|files| - 1], files[|files| - 1];
            var parsed := IsFtlFile(f) && f.content.Parsed?;
            FileErrors(locale, files) == FileErrors(locale, init) + (if IsFtlFile(f) && !parsed then {FileError(locale, f).value} else {})
  {
    ListingMembers(files);
  }

  /** How the four views of a listing grow by one item. */
  lemma ListingSnoc(files: seq<FileItem>, locale: string, fname: string)
    requires files != []
    ensures var init, f := files[..|files| - 1], files[|files| - 1];
            var parsed := IsFtlFile(f) && f.content.Parsed?;
            && ParsedNames(files) == ParsedNames(init) + (if parsed then {f.name} else {})
            && ParsedTexts(files) == ParsedTexts(init) + (if parsed then {f.content.text} else {})
            && KeySets(files, fname) == KeySets(init, fname) + (if parsed && f.name == fname then {KeysOf(f.content.body)} else {})
            && FileErrors(locale, files) == FileErrors(locale, init) + (if IsFtlFile(f) && !parsed then {FileError(locale, f).value} else {})
  {
    ParsedSnoc(files);
    KeySetsSnoc(files, fname);
    FileErrorsSnoc(files, locale);
  }

  /** What one file adds to the collection. */
  lemma CollectFileStep(c: Collected, locale: string, f: FileItem, fname: string, loc: string)
    ensures var r, parsed := CollectFile(c, locale, f), IsFtlFile(f) && f.content.Parsed?;
            && (HasKeys(r, fname, loc) <==> HasKeys(c, fname, loc) || (loc == locale && parsed && f.name == fname))
            && (HasKeys(r, fname, loc) ==>
                  || (HasKeys(c, fname, loc) && r.fileKeys[fname][loc] == c.fileKeys[fname][loc])
                  || (loc == locale && parsed && f.name == fname && r.fileKeys[fname][loc] == KeysOf(f.content.body)))
            && (loc in r.contents <==> loc in c.contents || (loc == locale && parsed))
            && (forall t :: HasText(r, loc, t) <==> HasText(c, loc, t) || (loc == locale && parsed && t == f.content.text))
            && (forall e :: e in r.errors <==> e in c.errors || (IsFtlFile(f) && !parsed && e == FileError(locale, f).value))
  {
  }

  /** The inner loop gathers, for the directory `locale`, a key set under
      the name of each parsed `*.ftl` file; what was gathered before stays. */
  lemma {:induction false} CollectFilesKeys(c: Collected, locale: string, files: seq<FileItem>, fname: string, loc: string)
    ensures var r := CollectFiles(c, locale, files);
            HasKeys(r, fname, loc) <==> HasKeys(c, fname, loc) || (loc == locale && fname in ParsedNames(files))
    ensures var r := CollectFiles(c, locale, files);
            HasKeys(r, fname, loc) ==>
              || (HasKeys(c, fname, loc) && r.fileKeys[fname][loc] == c.fileKeys[fname][loc])
              || (loc == locale && r.fileKeys[fname][loc] in KeySets(files, fname))
    decreases |files|
  {
    if files != [] {
      var init, f := files[..|files| - 1], files[|files| - 1];
      CollectFilesKeys(c, locale, init, fname, loc);
      ListingSnoc(files, locale, fname);
      CollectFileStep(CollectFiles(c, locale, init), locale, f, fname, loc);
    }
  }

  /** The inner loop adds the text of each parsed `*.ftl` file to the
      contents of `locale`, and nothing else. */
  lemma {:induction false} CollectFilesContents(c: Collected, locale: string, files: seq<FileItem>, loc: string)
    ensures var r := CollectFiles(c, locale, files);
            loc in r.contents <==> loc in c.contents || (loc == locale && ParsedNames(files) != {})
    ensures var r := CollectFiles(c, locale, files);
            forall t :: HasText(r, loc, t) <==> HasText(c, loc, t) || (loc == locale && t in ParsedTexts(files))
    decreases |files|
  {
    if files != [] {
      var init, f := files[..|files| - 1], files[|files| - 1];
      CollectFilesContents(c, locale, init, loc);
      ListingSnoc(files, locale, "");
      CollectFileStep(CollectFiles(c, locale, init), locale, f, "", loc);
    }
  }

  /** The texts of the parsed `*.ftl` files of a listing, in listing order,
      one per file (two files with the same text give it twice). */
  function ParsedTextSeq(files: seq<FileItem>): seq<string>
    decreases |files|
  {
    if files == [] then []
    else
      var f := files[|files| - 1];
      ParsedTextSeq(files[..|files| - 1]) + (if IsFtlFile(f) && f.content.Parsed? then [f.content.text] else [])
  }

  /** The texts gathered so far for `loc`, none when it has no entry. */
  function TextsOf(c: Collected, loc: string): seq<string> {
    if loc in c.contents then c.contents[loc] else []
  }

  /** One file appends its text to its locale's contents when it is a
      parsed `*.ftl` file. */
  lemma CollectFileTexts(c: Collected, locale: string, f: FileItem, loc: string)
    ensures TextsOf(CollectFile(c, locale, f), loc)
         == TextsOf(c, loc) + (if loc == locale && IsFtlFile(f) && f.content.Parsed? then [f.content.text] else [])
  {
    if IsFtlFile(f) && f.content.Parsed? && loc != locale {
      assert CollectFile(c, locale, f).contents[loc := []] == c.contents[locale := TextsOf(c, locale) + [f.content.text]][loc := []];
    }
  }

  /** The inner loop appends the texts of the directory's parsed `*.ftl`
      files to that locale's contents, in listing order, and leaves every
      other locale's contents alone. */
  lemma {:induction false} CollectFilesTexts(c: Collected, locale: string, files: seq<FileItem>, loc: string)
    ensures TextsOf(CollectFiles(c, locale, files), loc) == TextsOf(c, loc) + (if loc == locale then ParsedTextSeq(files) else [])
    decreases |files|
  {
    if files != [] {
      var init, f := files[..|files| - 1], files[|files| - 1];
      CollectFilesTexts(c, locale, init, loc);
      var mid := CollectFiles(c, locale, init);
      var one := if IsFtlFile(f) && f.content.Parsed? then [f.content.text] else [];
      assert ParsedTextSeq(files) == ParsedTextSeq(init) + one;
      CollectFileTexts(mid, locale, f, loc);
      if loc == locale {
        assert TextsOf(c, loc) + ParsedTextSeq(files) == (TextsOf(c, loc) + ParsedTextSeq(init)) + one;
      }
    }
  }

  /** The inner loop adds an error for each `*.ftl` file that could not be
      read or parsed, and no other error. */
  lemma {:induction false} CollectFilesErrors(c: Collected, locale: string, files: seq<FileItem>)
    ensures forall e :: e in CollectFiles(c, locale, files).errors <==> e in c.errors || e in FileErrors(locale, files)
    decreases |files|
  {
    if files != [] {
      var init, f := files[..|files| - 1], files[|files| - 1];
      CollectFilesErrors(c, locale, init);
      ListingSnoc(files, locale, "");
      CollectFileStep(CollectFiles(c, locale, init), locale, f, "", "");
    }
  }

  /** A top-level item the outer loop looks into. */
  predicate ReadableDir(d: DirItem) {
    d.Dir? && d.isDir && d.listing.Some?
  }

  /** The directory `loc` has a parsed `*.ftl` file named `fname`. */
  predicate DirHasFile(d: DirItem, loc: string, fname: string) {
    ReadableDir(d) && d.name == loc && fname in ParsedNames(d.listing.value)
  }

  /** The directory `loc` has a parsed `*.ftl` file named `fname` whose key
      set is `keys`. */
  predicate DirHasKeySet(d: DirItem, loc: string, fname: string, keys: set<string>) {
    ReadableDir(d) && d.name == loc && keys in KeySets(d.listing.value, fname)
  }

  /** The directory `loc` has a parsed `*.ftl` file whose text is `t`. */
  predicate DirHasText(d: DirItem, loc: string, t: string) {
    ReadableDir(d) && d.name == loc && t in ParsedTexts(d.listing.value)
  }

  /** The directory `loc` has at least one parsed `*.ftl` file. */
  predicate DirHasParsed(d: DirItem, loc: string) {
    ReadableDir(d) && d.name == loc && ParsedNames(d.listing.value) != {}
  }

  /** Reading a `*.ftl` file of the directory gave the error `e`. */
  predicate DirHasError(d: DirItem, e: LoadError) {
    ReadableDir(d) && e in FileErrors(d.name, d.listing.value)
  }

  /** Across the top directory: `loc` has a key set for `fname` exactly when
      some readable directory named `loc` has a parsed `fname.ftl`, and that
      key set is the one of such a file. A locale that lacks the file has no
      entry for it. */
  lemma {:induction false} CollectAllKeys(c: Collected, root: seq<DirItem>, fname: string, loc: string)
    ensures var r := CollectAll(c, root);
            HasKeys(r, fname, loc) <==> HasKeys(c, fname, loc) || exists d :: d in root && DirHasFile(d, loc, fname)
    ensures var r := CollectAll(c, root);
            HasKeys(r, fname, loc) ==>
              || (HasKeys(c, fname, loc) && r.fileKeys[fname][loc] == c.fileKeys[fname][loc])
              || exists d :: d in root && DirHasKeySet(d, loc, fname, r.fileKeys[fname][loc])
    decreases |root|
  {
    if root != [] {
      var init, d := root[..|root| - 1], root[|root| - 1];
      assert root == init + [d];
      CollectAllKeys(c, init, fname, loc);
      var mid := CollectAll(c, init);
      if ReadableDir(d) {
        assert CollectAll(c, root) == CollectFiles(mid, d.name, d.listing.value);
        CollectFilesKeys(mid, d.name, d.listing.value, fname, loc);
        var r := CollectAll(c, root);
        if HasKeys(r, fname, loc) && !(HasKeys(mid, fname, loc) && r.fileKeys[fname][loc] == mid.fileKeys[fname][loc]) {
          assert DirHasKeySet(d, loc, fname, r.fileKeys[fname][loc]);
        }
        if loc == d.name && fname in ParsedNames(d.listing.value) {
          assert DirHasFile(d, loc, fname);
        }
      }
    }
  }

  /** What one top-level item adds to a locale's contents. */
  lemma CollectDirContents(c: Collected, d: DirItem, loc: string)
    ensures var r := CollectDir(c, d);
            loc in r.contents <==> loc in c.contents || DirHasParsed(d, loc)
    ensures var r := CollectDir(c, d);
            forall t :: HasText(r, loc, t) <==> HasText(c, loc, t) || DirHasText(d, loc, t)
  {
    if ReadableDir(d) {
      CollectFilesContents(c, d.name, d.listing.value, loc);
    }
  }

  /** Across the top directory: a locale has contents exactly when its
      directory has a parsed `*.ftl` file, and they are the texts of those
      files. */
  lemma {:induction false} CollectAllContents(c: Collected, root: seq<DirItem>, loc: string)
    ensures var r := CollectAll(c, root);
            loc in r.contents <==> loc in c.contents || exists d :: d in root && DirHasParsed(d, loc)
    ensures var r := CollectAll(c, root);
            forall t :: HasText(r, loc, t) <==> HasText(c, loc, t) || exists d :: d in root && DirHasText(d, loc, t)
    decreases |root|
  {
    if root != [] {
      var init, d := root[..|root| - 1], root[|root| - 1];
      assert root == init + [d];
      assert forall x :: x in root <==> x in init || x == d;
      CollectAllContents(c, init, loc);
      CollectDirContents(CollectAll(c, init), d, loc);
    }
  }

  /** The texts the directories named `loc` contribute, in visit order: the
      directories in listing order, each with its files in listing order. */
  function DirTexts(root: seq<DirItem>, loc: string): seq<string>
    decreases |root|
  {
    if root == [] then []
    else
      var d := root[|root| - 1];
      DirTexts(root[..|root| - 1], loc) + (if ReadableDir(d) && d.name == loc then ParsedTextSeq(d.listing.value) else [])
  }

  /** Across the top directory: each locale's contents grow by exactly the
      texts of its directories' parsed `*.ftl` files, in visit order. */
  lemma {:induction false} CollectAllTexts(c: Collected, root: seq<DirItem>, loc: string)
    ensures TextsOf(CollectAll(c, root), loc) == TextsOf(c, loc) + DirTexts(root, loc)
    decreases |root|
  {
    if root != [] {
      var init, d := root[..|root| - 1], root[|root| - 1];
      CollectAllTexts(c, init, loc);
      var mid := CollectAll(c, init);
      var added := if ReadableDir(d) && d.name == loc then ParsedTextSeq(d.listing.value) else [];
      assert DirTexts(root, loc) == DirTexts(init, loc) + added;
      assert TextsOf(CollectAll(c, root), loc) == TextsOf(mid, loc) + added by {
        if ReadableDir(d) {
          assert CollectAll(c, root) == CollectFiles(mid, d.name, d.listing.value);
          CollectFilesTexts(mid, d.name, d.listing.value, loc);
        } else {
          assert CollectAll(c, root) == mid;
        }
      }
    }
  }

  /** Across the top directory: the errors are exactly those of the
      `*.ftl` files that could not be read or parsed. */
  lemma {:induction false} CollectAllErrors(c: Collected, root: seq<DirItem>)
    ensures forall e :: e in CollectAll(c, root).errors <==> e in c.errors || exists d :: d in root && DirHasError(d, e)
    decreases |root|
  {
    if root != [] {
      var init, d := root[..|root| - 1], root[|root| - 1];
      assert root == init + [d];
      CollectAllErrors(c, init);
      var mid := CollectAll(c, init);
      if ReadableDir(d) {
        assert CollectAll(c, root) == CollectFiles(mid, d.name, d.listing.value);
        CollectFilesErrors(mid, d.name, d.listing.value);
        forall e | e in FileErrors(d.name, d.listing.value) ensures DirHasError(d, e) {
        }
      }
    }
  }

  // ---------------------------------------------------------------------------
  // The key-parity check (`check_keys`)
  // ---------------------------------------------------------------------------

  /** The reference key set of one file name: every key any locale that has
      the file defines in it. */
  function RefKeys(keysets: map<string, set<string>>): (r: set<string>)
    ensures forall loc :: loc in keysets ==> keysets[loc] <= r
  {
    set loc, k | loc in keysets && k in keysets[loc] :: k
  }

  /** The error the check raises for `locale`'s copy of `fname`: the
      reference keys it lacks, when there are any. */
  function MissingError(fname: string, keysets: map<string, set<string>>, locale: string): (r: Option<LoadError>)
    requires locale in keysets
    ensures r.Some? <==> !(RefKeys(keysets) <= keysets[locale])
    ensures r.Some? ==> && r.value.MissingKeys?
                        && r.value.locale == locale && r.value.file == fname
                        && r.value.missing <= RefKeys(keysets)
                        && r.value.missing !! keysets[locale]
  {
    var missing := RefKeys(keysets) - keysets[locale];
    if missing != {} then Some(MissingKeys(locale, fname, missing))
    else
      assert RefKeys(keysets) <= keysets[locale] by {
        forall k | k in RefKeys(keysets) ensures k in keysets[locale] {
          assert k !in missing;
        }
      }
      None
  }

  /** `e` is an error the check raises for the collected key sets. */
  predicate Reported(fileKeys: map<string, map<string, set<string>>>, e: LoadError) {
    && e.MissingKeys?
    && e.file in fileKeys
    && e.locale in fileKeys[e.file]
    && MissingError(e.file, fileKeys[e.file], e.locale) == Some(e)
  }

  /** A locale's copy of a file is reported exactly when some other locale's
      copy defines a key it lacks, and the report lists exactly those keys. */
  lemma MissingKeysExactly(fname: string, keysets: map<string, set<string>>, locale: string)
    requires locale in keysets
    ensures MissingError(fname, keysets, locale).Some? <==>
              exists other, k :: other in keysets && k in keysets[other] && k !in keysets[locale]
    ensures MissingError(fname, keysets, locale).Some? ==>
              var e := MissingError(fname, keysets, locale).value;
              && e.locale == locale && e.file == fname
              && forall k :: k in e.missing <==> k !in keysets[locale] && exists other :: other in keysets && k in keysets[other]
  {
    if exists other, k :: other in keysets && k in keysets[other] && k !in keysets[locale] {
      var other, k :| other in keysets && k in keysets[other] && k !in keysets[locale];
      assert k in RefKeys(keysets) - keysets[locale];
    }
  }

  /** The inner loop of the check: one file name, its locales drawn in
      hash-map order. */
  method CheckFile(fname: string, keysets: map<string, set<string>>) returns (errs: seq<LoadError>)
    ensures forall e :: e in errs <==>
              e.MissingKeys? && e.file == fname && e.locale in keysets && MissingError(fname, keysets, e.locale) == Some(e)
    ensures forall i, j :: 0 <= i < j < |errs| ==> errs[i] != errs[j]
  {
    var allKeys := RefKeys(keysets);
    errs := [];
    var left := keysets.Keys;
    while left != {}
      invariant left <= keysets.Keys
      invariant forall e :: e in errs <==>
                  e.MissingKeys? && e.file == fname && e.locale in keysets && e.locale !in left &&
                  MissingError(fname, keysets, e.locale) == Some(e)
      invariant forall i, j :: 0 <= i < j < |errs| ==> errs[i].locale != errs[j].locale
      decreases |left|
    {
      var locale :| locale in left;
      var missing := allKeys - keysets[locale];
      if missing != {} {
        errs := errs + [MissingKeys(locale, fname, missing)];
      }
      left := left - {locale};
    }
  }

  /** `if check_keys { … }`: every file name, drawn in hash-map order. Each
      error the check can raise is raised, once, and no other. */
  method CheckKeys(fileKeys: map<string, map<string, set<string>>>) returns (errs: seq<LoadError>)
    ensures forall e :: e in errs <==> Reported(fileKeys, e)
    ensures forall i, j :: 0 <= i < j < |errs| ==> errs[i] != errs[j]
  {
    errs := [];
    var left := fileKeys.Keys;
    while left != {}
      invariant left <= fileKeys.Keys
      invariant forall e :: e in errs <==> Reported(fileKeys, e) && e.file !in left
      invariant forall i, j :: 0 <= i < j < |errs| ==> errs[i] != errs[j]
      decreases |left|
    {
      var fname :| fname in left;
      var more := CheckFile(fname, fileKeys[fname]);
      forall i, j | 0 <= i < |errs| && 0 <= j < |more| ensures errs[i] != more[j] {
        assert errs[i] in errs && more[j] in more;
      }
      errs := errs + more;
      left := left - {fname};
    }
  }

  // ---------------------------------------------------------------------------
  // `load_impl`
  // ---------------------------------------------------------------------------

  /** What the macro expands to: `compile_error!` invocations, or the
      registry with one `add_locale` call per locale, carrying that locale's
      file contents in visit order. */
  datatype Outcome =
    | CompileErrors(errors: seq<LoadError>)
    | Registry(name: string, fallbackLang: string, onError: Option<Token>, locales: map<string, seq<string>>)

  /** Every error the collection raises is about reading or parsing a file. */
  lemma CollectionErrorsAreFileErrors(root: seq<DirItem>)
    ensures forall e :: e in CollectAll(NothingCollected, root).errors ==> e.ReadFailed? || e.ParseFailed?
  {
    CollectAllErrors(NothingCollected, root);
    forall e | e in CollectAll(NothingCollected, root).errors ensures e.ReadFailed? || e.ParseFailed? {
      var d :| d in root && DirHasError(d, e);
      FileErrorKinds(d.name, d.listing.value, e);
    }
  }

  /** A file error is a read or a parse failure. */
  lemma FileErrorKinds(locale: string, files: seq<FileItem>, e: LoadError)
    requires e in FileErrors(locale, files)
    ensures e.ReadFailed? || e.ParseFailed?
  {
    var f :| f in files && IsFtlFile(f) && !f.content.Parsed? && e == FileError(locale, f).value;
  }

  /** `load_impl`. `validTag` says whether a string parses as a language
      identifier; `readDir` lists the directory a path names, relative to the
      crate root, or gives `None` when it cannot be read. */
  method LoadImpl(input: seq<Token>, validTag: string -> bool, readDir: string -> Option<seq<DirItem>>) returns (r: Outcome)
    ensures Parse(input).Failure? ==> r == CompileErrors([InvalidInput(Parse(input).error)])
    ensures Parse(input).Success? ==>
              var cfg := Parse(input).value;
              if cfg.fallbackLang.Some? && !validTag(cfg.fallbackLang.value) then
                r == CompileErrors([InvalidFallback(cfg.fallbackLang.value)])
              else if readDir(cfg.path).None? then
                r == CompileErrors([MissingDirectory(cfg.path)])
              else
                var c := CollectAll(NothingCollected, readDir(cfg.path).value);
                && (r.Registry? <==> c.errors == [] && (cfg.checkKeys ==> forall e :: !Reported(c.fileKeys, e)))
                && (r.Registry? ==> r == Registry(cfg.name, cfg.fallbackLang.GetOr("en-US"), cfg.onError, c.contents))
                && (r.CompileErrors? ==>
                      && c.errors <= r.errors
                      && (forall e :: e in r.errors <==> e in c.errors || (cfg.checkKeys && Reported(c.fileKeys, e)))
                      && (!cfg.checkKeys ==> forall e :: e in r.errors ==> !e.MissingKeys?))
  {
    var parsed := ParseLoadInput(input);
    if parsed.Failure? {
      return CompileErrors([InvalidInput(parsed.error)]);
    }
    var cfg := parsed.value;
    var fallbackLang := "en-US";
    if cfg.fallbackLang.Some? {
      if !validTag(cfg.fallbackLang.value) {
        return CompileErrors([InvalidFallback(cfg.fallbackLang.value)]);
      }
      fallbackLang := cfg.fallbackLang.value;
    }
    var entries := readDir(cfg.path);
    if entries.None? {
      return CompileErrors([MissingDirectory(cfg.path)]);
    }
    var errors, contents, fileKeys := CollectLocales(entries.value);
    CollectionErrorsAreFileErrors(entries.value);
    if cfg.checkKeys {
      var missing := CheckKeys(fileKeys);
      assert missing != [] ==> missing[0] in missing;
      errors := errors + missing;
    }
    if errors != [] {
      return CompileErrors(errors);
    }
    return Registry(cfg.name, fallbackLang, cfg.onError, contents);
  }

  /** The registry registers exactly the locales whose directory holds at
      least one `*.ftl` file that was read and parsed, each with the texts of
      those files in visit order, repeated texts included. */
  lemma RegisteredLocales(root: seq<DirItem>, loc: string, t: string)
    ensures var c := CollectAll(NothingCollected, root);
            && (loc in c.contents <==> exists d :: d in root && DirHasParsed(d, loc))
            && (loc in c.contents ==> c.contents[loc] == DirTexts(root, loc))
            && (loc in c.contents && t in c.contents[loc] <==> exists d :: d in root && DirHasText(d, loc, t))
  {
    CollectAllContents(NothingCollected, root, loc);
    CollectAllTexts(NothingCollected, root, loc);
    assert HasText(CollectAll(NothingCollected, root), loc, t) <==> exists d :: d in root && DirHasText(d, loc, t);
  }

  /** With every locale defining the same keys in each file they share, the
      check raises nothing; a locale that lacks a file altogether is never
      held to it. */
  lemma AgreeingLocalesPass(fileKeys: map<string, map<string, set<string>>>)
    requires forall fname, l1, l2 :: fname in fileKeys && l1 in fileKeys[fname] && l2 in fileKeys[fname] ==>
               fileKeys[fname][l1] == fileKeys[fname][l2]
    ensures forall e :: !Reported(fileKeys, e)
  {
    forall e | Reported(fileKeys, e) ensures false {
      MissingKeysExactly(e.file, fileKeys[e.file], e.locale);
    }
  }
}
