/** The message-resolution engine (`i18n-loader/src/lib.rs`).

    A `Locale` owns one language's merged resources; `LocaleQuery` resolves a
    `Query` against it into a `Message` or the list of errors met on the way.
    `Locales` is the registry keyed by language identifier, with a fallback
    language and an optional error hook.

    The Fluent formatter (`FluentBundle::format_pattern`) is a foreign
    library: it is a `Formatter` value handed to the registry, and patterns
    are opaque to this model. */
module Loader {
  import opened Base

  // ---------------------------------------------------------------------------
  // Data model
  // ---------------------------------------------------------------------------

  /** A language identifier in its parsed, canonical text form. */
  type LangId = string

  /** An argument value (`FluentValue`). */
  datatype Value = Text(text: string) | Number(n: int)

  /** `FluentArgs`: setting an existing name replaces its value. */
  type Args = map<string, Value>

  /** A parsed Fluent pattern, opaque here. */
  datatype Pattern = Pattern(source: string)

  datatype Attribute = Attribute(id: string, value: Pattern)

  /** A message or term as the bundle stores it: an optional value pattern
      and its attributes in declaration order. */
  datatype Msg = Msg(value: Option<Pattern>, attributes: seq<Attribute>)

  /** An entry of a parsed resource (`.ftl` file). */
  datatype Entry = MessageEntry(id: string, msg: Msg) | TermEntry(id: string, term: Msg) | CommentEntry

  datatype Resource = Resource(entries: seq<Entry>)

  /** `FluentError`, as far as the engine tells kinds apart: a reference to a
      missing message or message attribute, a reference to a missing
      variable, and everything else. */
  datatype FluentError =
    | MessageRef(id: string, attribute: Option<string>)
    | VariableRef(name: string)
    | OtherError(description: string)

  /** What `format_pattern` produces: the text and the errors it pushed. */
  datatype Formatted = Formatted(text: string, errors: seq<FluentError>)

  /** The entries of a `FluentBundle`: messages and terms by id. */
  datatype Store = Store(messages: map<string, Msg>, terms: map<string, Msg>)

  /** `FluentBundle::format_pattern`: formats a pattern for the bundle's
      language (which picks plural categories and number formats), against
      the store it resolves references in, with optional arguments. */
  type Formatter = (LangId, Store, Pattern, Option<Args>) -> Formatted

  /** `Locale`: one language and its bundle. Immutable once built. */
  datatype Locale = Locale(lang: LangId, store: Store, format: Formatter)

  /** The resolved message: `Message { id, value, attrs }`. */
  datatype Message = Message(id: string, value: string, attrs: map<string, string>)

  /** `Query`: the message id, arguments for the value, arguments per
      attribute, and a fallback flag that nothing reads. */
  datatype Query = Query(id: string, args: Args, attrArgs: map<string, Args>, withFallback: bool)

  /** The `on_error` hook, `fn(&[FluentError])`: called for its effect only. */
  type ErrorHook = seq<FluentError> -> ()

  // ---------------------------------------------------------------------------
  // Query builder
  // ---------------------------------------------------------------------------

  /** `Query::new`: no arguments, no attribute arguments, fallback off. */
  function NewQuery(id: string): (q: Query)
    ensures q.id == id && |q.args| == 0 && |q.attrArgs| == 0 && !q.withFallback
  {
    Query(id, map[], map[], false)
  }

  /** `Query::with_arg`: sets one argument of the value, replacing an earlier
      one of the same name; nothing else changes. */
  function WithArg(q: Query, name: string, v: Value): (r: Query)
    ensures r.id == q.id && r.attrArgs == q.attrArgs && r.withFallback == q.withFallback
    ensures name in r.args && r.args[name] == v
    ensures r.args.Keys == q.args.Keys + {name}
    ensures forall n :: n in q.args && n != name ==> r.args[n] == q.args[n]
  {
    q.(args := q.args[name := v])
  }

  /** `Query::with_attr_arg`: sets one argument of one attribute, creating
      that attribute's argument set if it had none; nothing else changes. */
  function WithAttrArg(q: Query, attr: string, name: string, v: Value): (r: Query)
    ensures r.id == q.id && r.args == q.args && r.withFallback == q.withFallback
    ensures r.attrArgs.Keys == q.attrArgs.Keys + {attr}
    ensures name in r.attrArgs[attr] && r.attrArgs[attr][name] == v
    ensures attr in q.attrArgs ==>
              && r.attrArgs[attr].Keys == q.attrArgs[attr].Keys + {name}
              && forall n :: n in q.attrArgs[attr] && n != name ==> r.attrArgs[attr][n] == q.attrArgs[attr][n]
    ensures attr !in q.attrArgs ==> r.attrArgs[attr].Keys == {name}
    ensures forall a :: a in q.attrArgs && a != attr ==> r.attrArgs[a] == q.attrArgs[a]
  {
    var existing := if attr in q.attrArgs then q.attrArgs[attr] else map[];
    q.(attrArgs := q.attrArgs[attr := existing[name := v]])
  }

  /** `Query::with_fallback`: stores the flag, which resolution never reads
      (see `ResolveIgnoresFallbackFlag`). */
  function WithFallback(q: Query, enable: bool): (r: Query)
    ensures r.withFallback == enable
    ensures r.id == q.id && r.args == q.args && r.attrArgs == q.attrArgs
  {
    q.(withFallback := enable)
  }

  // ---------------------------------------------------------------------------
  // Building a locale: `Locale::new` and `add_resource`
  // ---------------------------------------------------------------------------

  const EmptyStore := Store(map[], map[])

  /** The id an entry occupies in the bundle, if any. */
  function EntryId(e: Entry): Option<string> {
    match e
    case MessageEntry(id, _) => Some(id)
    case TermEntry(id, _) => Some(id)
    case CommentEntry => None
  }

  /** The entries of several resources, in order. */
  function AllEntries(resources: seq<Resource>): (r: seq<Entry>)
    decreases |resources|
  {
    if resources == [] then []
    else AllEntries(resources[..|resources| - 1]) + resources[|resources| - 1].entries
  }

  /** `add_resource` would panic on no input: no two entries share an id. */
  predicate NoDuplicateIds(resources: seq<Resource>) {
    var es := AllEntries(resources);
    forall i, j :: 0 <= i < j < |es| && EntryId(es[i]).Some? ==> EntryId(es[i]) != EntryId(es[j])
  }

  /** One entry of `add_resource`. An id already taken keeps its first
      entry (the library reports `Overriding` for the newcomer, which
      `Locale::new` turns into a panic, so under `NoDuplicateIds` this case
      never arises). The library keeps messages and terms under one id
      space; the two maps here differ from it only on input that
      `NoDuplicateIds` excludes. */
  function AddEntry(s: Store, e: Entry): Store {
    match e
    case MessageEntry(id, msg) => if id in s.messages then s else s.(messages := s.messages[id := msg])
    case TermEntry(id, term) => if id in s.terms then s else s.(terms := s.terms[id := term])
    case CommentEntry => s
  }

  /** The store after adding entries one by one. */
  function AddEntries(s: Store, es: seq<Entry>): Store
    decreases |es|
  {
    if es == [] then s else AddEntry(AddEntries(s, es[..|es| - 1]), es[|es| - 1])
  }

  /** `FluentBundle::add_resource` on a resource whose ids are all new. */
  function AddResource(s: Store, r: Resource): Store {
    AddEntries(s, r.entries)
  }

  lemma {:induction false} AddEntriesAppend(s: Store, a: seq<Entry>, b: seq<Entry>)
    ensures AddEntries(s, a + b) == AddEntries(AddEntries(s, a), b)
    decreases |b|
  {
    if b == [] {
      assert a + b == a;
    } else {
      assert (a + b)[..|a + b| - 1] == a + b[..|b| - 1];
      AddEntriesAppend(s, a, b[..|b| - 1]);
    }
  }

  /** An entry list holds a message entry with the id `id`. */
  predicate HasMessageEntry(es: seq<Entry>, id: string) {
    exists k :: 0 <= k < |es| && es[k].MessageEntry? && es[k].id == id
  }

  /** The ids of the store's messages are exactly those of the message
      entries. */
  lemma {:induction false} AddEntriesMessageIds(es: seq<Entry>, id: string)
    ensures id in AddEntries(EmptyStore, es).messages <==> HasMessageEntry(es, id)
    decreases |es|
  {
    if es != [] {
      var init := es[..|es| - 1];
      AddEntriesMessageIds(init, id);
      if HasMessageEntry(init, id) {
        var k :| 0 <= k < |init| && init[k].MessageEntry? && init[k].id == id;
        assert es[k] == init[k];
      }
      if HasMessageEntry(es, id) {
        var k :| 0 <= k < |es| && es[k].MessageEntry? && es[k].id == id;
        if k < |init| {
          assert init[k] == es[k];
        }
      }
    }
  }

  /** A message entry whose id no earlier message entry took is what the
      store holds under that id: later entries never override it. */
  lemma {:induction false} AddEntriesMessageValue(es: seq<Entry>, k: nat)
    requires k < |es| && es[k].MessageEntry?
    requires forall j :: 0 <= j < k ==> !(es[j].MessageEntry? && es[j].id == es[k].id)
    ensures es[k].id in AddEntries(EmptyStore, es).messages
    ensures AddEntries(EmptyStore, es).messages[es[k].id] == es[k].msg
    decreases |es|
  {
    var init := es[..|es| - 1];
    if k < |es| - 1 {
      assert init[k] == es[k];
      assert forall j :: 0 <= j < k ==> init[j] == es[j];
      AddEntriesMessageValue(init, k);
    } else {
      AddEntriesMessageIds(init, es[k].id);
    }
  }

  /** `Locale::new`: the bundle gets every resource in turn. The source
      panics on a duplicate id, so callers must not supply one. Afterwards
      the bundle's messages are exactly the message entries, each under its
      own id. */
  method NewLocale(lang: LangId, resources: seq<Resource>, format: Formatter) returns (l: Locale)
    requires NoDuplicateIds(resources)
    ensures l.lang == lang && l.format == format
    ensures l.store == AddEntries(EmptyStore, AllEntries(resources))
    ensures forall id :: id in l.store.messages <==> HasMessageEntry(AllEntries(resources), id)
    ensures forall k :: 0 <= k < |AllEntries(resources)| && AllEntries(resources)[k].MessageEntry? ==>
                          && AllEntries(resources)[k].id in l.store.messages
                          && l.store.messages[AllEntries(resources)[k].id] == AllEntries(resources)[k].msg
  {
    var store := EmptyStore;
    for i := 0 to |resources|
      invariant store == AddEntries(EmptyStore, AllEntries(resources[..i]))
    {
      assert resources[..i + 1][..i] == resources[..i];
      AddEntriesAppend(EmptyStore, AllEntries(resources[..i]), resources[i].entries);
      store := AddResource(store, resources[i]);
    }
    assert resources[..|resources|] == resources;
    l := Locale(lang, store, format);
    var es := AllEntries(resources);
    forall id ensures id in l.store.messages <==> HasMessageEntry(es, id) {
      AddEntriesMessageIds(es, id);
    }
    forall k | 0 <= k < |es| && es[k].MessageEntry?
      ensures es[k].id in l.store.messages && l.store.messages[es[k].id] == es[k].msg
    {
      forall j | 0 <= j < k ensures !(es[j].MessageEntry? && es[j].id == es[k].id) {
        assert EntryId(es[k]) == Some(es[k].id);
      }
      AddEntriesMessageValue(es, k);
    }
  }

  // ---------------------------------------------------------------------------
  // Resolving a query: the specification
  // ---------------------------------------------------------------------------

  /** `query.attr_args.get(id)` */
  function AttrArgsFor(q: Query, attrId: string): (r: Option<Args>)
    ensures r.Some? <==> attrId in q.attrArgs
  {
    if attrId in q.attrArgs then Some(q.attrArgs[attrId]) else None
  }

  /** The errors of a formatting pass without the variable-reference ones. */
  function DropVariableRefs(errs: seq<FluentError>): seq<FluentError>
    decreases |errs|
  {
    if errs == [] then []
    else
      var last := errs[|errs| - 1];
      DropVariableRefs(errs[..|errs| - 1]) + (if last.VariableRef? then [] else [last])
  }

  /** The errors kept from formatting one attribute: all of them when the
      query supplied arguments for it, all but variable-reference errors
      otherwise. */
  function KeptErrors(errs: seq<FluentError>, supplied: bool): seq<FluentError> {
    if supplied then errs else DropVariableRefs(errs)
  }

  /** The main value and its errors: the pattern formatted with the query's
      arguments, or "" with no errors for a message without a value. */
  function ValueOf(l: Locale, msg: Msg, q: Query): Formatted {
    match msg.value
    case Some(p) => l.format(l.lang, l.store, p, Some(q.args))
    case None => Formatted("", [])
  }

  /** Formatting one attribute with the arguments the query has for it. */
  function FormatAttr(l: Locale, a: Attribute, q: Query): Formatted {
    l.format(l.lang, l.store, a.value, AttrArgsFor(q, a.id))
  }

  /** The errors the attributes contribute, in declaration order. */
  function AttrErrors(l: Locale, attrs: seq<Attribute>, q: Query): seq<FluentError>
    decreases |attrs|
  {
    if attrs == [] then []
    else
      var last := attrs[|attrs| - 1];
      AttrErrors(l, attrs[..|attrs| - 1], q) + KeptErrors(FormatAttr(l, last, q).errors, last.id in q.attrArgs)
  }

  /** The `attrs` map: each attribute's formatted text under its id, a later
      attribute of the same id replacing an earlier one. */
  function AttrValues(l: Locale, attrs: seq<Attribute>, q: Query): map<string, string>
    decreases |attrs|
  {
    if attrs == [] then map[]
    else
      var last := attrs[|attrs| - 1];
      AttrValues(l, attrs[..|attrs| - 1], q)[last.id := FormatAttr(l, last, q).text]
  }

  function DeclaredIds(attrs: seq<Attribute>): set<string> {
    set a | a in attrs :: a.id
  }

  /** The attributes the query gave arguments for that the message does not
      declare. */
  function UnknownAttrs(msg: Msg, q: Query): set<string> {
    q.attrArgs.Keys - DeclaredIds(msg.attributes)
  }

  /** One "attribute not found" reference error per name, in the given order. */
  function AttrNotFoundErrors(id: string, names: seq<string>): seq<FluentError>
    decreases |names|
  {
    if names == [] then []
    else AttrNotFoundErrors(id, names[..|names| - 1]) + [MessageRef(id, Some(names[|names| - 1]))]
  }

  /** What `Locale::query` returns, once the order in which the unknown
      attribute names come out of their hash set is fixed as `order`. */
  function Resolve(l: Locale, q: Query, order: seq<string>): (r: Result<Message, seq<FluentError>>)
    ensures r.Success? ==> q.id in l.store.messages && r.value.id == q.id
    ensures r.Failure? ==> |r.error| > 0
  {
    if q.id !in l.store.messages then Failure([MessageRef(q.id, None)])
    else
      var msg := l.store.messages[q.id];
      var value := ValueOf(l, msg, q);
      var errors := value.errors + AttrErrors(l, msg.attributes, q) + AttrNotFoundErrors(q.id, order);
      if |errors| > 0 then Failure(errors)
      else Success(Message(q.id, value.text, AttrValues(l, msg.attributes, q)))
  }

  // ---------------------------------------------------------------------------
  // Resolving a query: `Locale::query`
  // ---------------------------------------------------------------------------

  /** The loop of `Locale::query` that copies an attribute's errors, skipping
      variable-reference errors. */
  method WithoutVariableRefs(errs: seq<FluentError>) returns (kept: seq<FluentError>)
    ensures kept == DropVariableRefs(errs)
  {
    kept := [];
    for j := 0 to |errs|
      invariant kept == DropVariableRefs(errs[..j])
    {
      assert errs[..j + 1][..j] == errs[..j];
      var err := errs[j];
      if err.VariableRef? {
        continue;
      }
      kept := kept + [err];
    }
    assert errs[..|errs|] == errs;
  }

  /** The last loop of `Locale::query`: one "attribute not found" error for
      each name left in the set, drawn in an unspecified order. */
  method ReportUnknownAttrs(id: string, names: set<string>) returns (errs: seq<FluentError>, ghost order: seq<string>)
    ensures multiset(order) == multiset(names)
    ensures errs == AttrNotFoundErrors(id, order)
  {
    errs, order := [], [];
    var left := names;
    while left != {}
      invariant left <= names
      invariant multiset(order) + multiset(left) == multiset(names)
      invariant errs == AttrNotFoundErrors(id, order)
      decreases |left|
    {
      var name :| name in left;
      errs := errs + [MessageRef(id, Some(name))];
      assert multiset(left) == multiset(left - {name}) + multiset{name};
      left := left - {name};
      order := order + [name];
      assert order[..|order| - 1] + [name] == order;
    }
  }

  /** The attribute loop of `Locale::query`: formats every declared
      attribute, keeps its errors by the suppression rule, records its text,
      and strikes each attribute that has arguments off the requested set. */
  method FormatAttributes(l: Locale, q: Query, attributes: seq<Attribute>)
    returns (errors: seq<FluentError>, attrs: map<string, string>, queryAttrs: set<string>)
    ensures errors == AttrErrors(l, attributes, q)
    ensures attrs == AttrValues(l, attributes, q)
    ensures queryAttrs == q.attrArgs.Keys - DeclaredIds(attributes)
  {
    errors := [];
    queryAttrs := q.attrArgs.Keys;
    attrs := map[];
    for i := 0 to |attributes|
      invariant errors == AttrErrors(l, attributes[..i], q)
      invariant attrs == AttrValues(l, attributes[..i], q)
      invariant queryAttrs == q.attrArgs.Keys - DeclaredIds(attributes[..i])
    {
      var attr := attributes[i];
      assert attributes[..i + 1][..i] == attributes[..i];
      assert DeclaredIds(attributes[..i + 1]) == DeclaredIds(attributes[..i]) + {attr.id} by {
        assert attributes[..i + 1] == attributes[..i] + [attr];
      }
      var attrArgs := if attr.id in q.attrArgs then Some(q.attrArgs[attr.id]) else None;
      if attrArgs.Some? {
        queryAttrs := queryAttrs - {attr.id};
      }
      var out := l.format(l.lang, l.store, attr.value, attrArgs);
      assert out == FormatAttr(l, attr, q);

      // variable errors are dropped when no arguments were supplied
      if attrArgs.None? {
        var kept := WithoutVariableRefs(out.errors);
        errors := errors + kept;
      } else {
        errors := errors + out.errors;
      }
      attrs := attrs[attr.id := out.text];
    }
    assert attributes[..|attributes|] == attributes;
  }

  /** `Locale::query`. The ghost `order` is the order in which the unknown
      attribute names were drawn from their set: each exactly once. */
  method LocaleQuery(l: Locale, q: Query) returns (r: Result<Message, seq<FluentError>>, ghost order: seq<string>)
    ensures q.id !in l.store.messages ==> r == Failure([MessageRef(q.id, None)])
    ensures q.id in l.store.messages ==> multiset(order) == multiset(UnknownAttrs(l.store.messages[q.id], q))
    ensures r == Resolve(l, q, order)
  {
    order := [];
    var errors: seq<FluentError> := [];
    if q.id !in l.store.messages {
      errors := errors + [MessageRef(q.id, None)];
      assert errors == [MessageRef(q.id, None)];
      return Failure(errors), order;
    }
    var msg := l.store.messages[q.id];

    var value := "";
    match msg.value {
      case Some(pattern) =>
        var out := l.format(l.lang, l.store, pattern, Some(q.args));
        value := out.text;
        errors := errors + out.errors;
      case None =>
    }

    assert value == ValueOf(l, msg, q).text && errors == ValueOf(l, msg, q).errors;
    var attrErrors, attrs, queryAttrs := FormatAttributes(l, q, msg.attributes);
    errors := errors + attrErrors;
    assert queryAttrs == UnknownAttrs(msg, q);
    var notFound;
    notFound, order := ReportUnknownAttrs(q.id, queryAttrs);
    errors := errors + notFound;

    if |errors| > 0 {
      return Failure(errors), order;
    }
    return Success(Message(q.id, value, attrs)), order;
  }

  // ---------------------------------------------------------------------------
  // Properties of resolution
  // ---------------------------------------------------------------------------

  /** Dropping variable-reference errors removes every one of them and keeps
      every other error as often as it occurred. */
  lemma {:induction false} DropVariableRefsCounts(errs: seq<FluentError>)
    ensures forall e :: multiset(DropVariableRefs(errs))[e] == if e.VariableRef? then 0 else multiset(errs)[e]
    decreases |errs|
  {
    if errs != [] {
      var init := errs[..|errs| - 1];
      DropVariableRefsCounts(init);
      assert errs == init + [errs[|errs| - 1]];
    }
  }

  /** An attribute's formatting error `e` survives the suppression rule:
      the query gave the attribute arguments, or `e` is not a variable
      reference. */
  predicate KeepsError(l: Locale, a: Attribute, q: Query, e: FluentError) {
    e in FormatAttr(l, a, q).errors && (a.id in q.attrArgs || !e.VariableRef?)
  }

  /** Variable-reference errors are dropped exactly when no arguments were
      supplied; nothing else is. */
  lemma KeptErrorsMembership(errs: seq<FluentError>, supplied: bool, e: FluentError)
    ensures e in KeptErrors(errs, supplied) <==> e in errs && (supplied || !e.VariableRef?)
  {
    if !supplied {
      DropVariableRefsCounts(errs);
      assert multiset(DropVariableRefs(errs))[e] > 0 <==> e in DropVariableRefs(errs);
      assert multiset(errs)[e] > 0 <==> e in errs;
    }
  }

  /** The suppression rule, error by error: an error is reported for the
      attributes exactly when some declared attribute produced it and either
      the query gave that attribute arguments or the error is not a
      variable reference. */
  lemma {:induction false} AttrErrorsMembership(l: Locale, attrs: seq<Attribute>, q: Query, e: FluentError)
    ensures e in AttrErrors(l, attrs, q) <==> exists k :: 0 <= k < |attrs| && KeepsError(l, attrs[k], q, e)
    decreases |attrs|
  {
    if attrs != [] {
      var init := attrs[..|attrs| - 1];
      var last := attrs[|attrs| - 1];
      AttrErrorsMembership(l, init, q, e);
      KeptErrorsMembership(FormatAttr(l, last, q).errors, last.id in q.attrArgs, e);
      assert AttrErrors(l, attrs, q) == AttrErrors(l, init, q) + KeptErrors(FormatAttr(l, last, q).errors, last.id in q.attrArgs);
      if exists k :: 0 <= k < |init| && KeepsError(l, init[k], q, e) {
        var k :| 0 <= k < |init| && KeepsError(l, init[k], q, e);
        assert attrs[k] == init[k];
      }
      if exists k :: 0 <= k < |attrs| && KeepsError(l, attrs[k], q, e) {
        var k :| 0 <= k < |attrs| && KeepsError(l, attrs[k], q, e);
        if k < |init| { assert init[k] == attrs[k]; }
      }
    }
  }

  /** Every declared attribute appears in `attrs` under its id, and nothing
      else does; an attribute whose id no later attribute repeats carries its
      own formatted text. */
  lemma {:induction false} AttrValuesCoverDeclared(l: Locale, attrs: seq<Attribute>, q: Query)
    ensures AttrValues(l, attrs, q).Keys == DeclaredIds(attrs)
    ensures forall k :: 0 <= k < |attrs| && (forall j :: k < j < |attrs| ==> attrs[j].id != attrs[k].id) ==>
                          AttrValues(l, attrs, q)[attrs[k].id] == FormatAttr(l, attrs[k], q).text
    decreases |attrs|
  {
    if attrs != [] {
      var init := attrs[..|attrs| - 1];
      AttrValuesCoverDeclared(l, init, q);
      assert attrs == init + [attrs[|attrs| - 1]];
      assert DeclaredIds(attrs) == DeclaredIds(init) + {attrs[|attrs| - 1].id};
      forall k | 0 <= k < |attrs| - 1 && (forall j :: k < j < |attrs| ==> attrs[j].id != attrs[k].id)
        ensures AttrValues(l, attrs, q)[attrs[k].id] == FormatAttr(l, attrs[k], q).text
      {
        assert init[k] == attrs[k];
        assert forall j :: k < j < |init| ==> init[j] == attrs[j];
      }
    }
  }

  /** The trailing errors name each drawn attribute as often as it was
      drawn, and are all attribute references of the queried message. */
  lemma {:induction false} AttrNotFoundCounts(id: string, names: seq<string>)
    ensures forall name :: multiset(AttrNotFoundErrors(id, names))[MessageRef(id, Some(name))] == multiset(names)[name]
    ensures forall e :: e in AttrNotFoundErrors(id, names) ==> e.MessageRef? && e.id == id && e.attribute.Some?
    ensures |AttrNotFoundErrors(id, names)| == |names|
    decreases |names|
  {
    if names != [] {
      var init := names[..|names| - 1];
      AttrNotFoundCounts(id, init);
      assert names == init + [names[|names| - 1]];
    }
  }

  /** Each attribute name the query asks about that the message does not
      declare is reported exactly once at the end of the error list; a
      declared name, or one never asked about, is not reported there. */
  lemma UnknownAttrReportedOnce(l: Locale, q: Query, order: seq<string>, name: string)
    requires q.id in l.store.messages
    requires multiset(order) == multiset(UnknownAttrs(l.store.messages[q.id], q))
    ensures var msg := l.store.messages[q.id];
            multiset(AttrNotFoundErrors(q.id, order))[MessageRef(q.id, Some(name))] ==
              if name in q.attrArgs && name !in DeclaredIds(msg.attributes) then 1 else 0
  {
    AttrNotFoundCounts(q.id, order);
  }

  /** The result is `Ok` exactly when nothing went wrong: the value and the
      attributes formatted cleanly (up to suppressed variable errors) and no
      unknown attribute was asked for. */
  lemma ResolveOkIff(l: Locale, q: Query, order: seq<string>)
    requires q.id in l.store.messages
    requires multiset(order) == multiset(UnknownAttrs(l.store.messages[q.id], q))
    ensures var msg := l.store.messages[q.id];
            Resolve(l, q, order).Success? <==>
              ValueOf(l, msg, q).errors == [] && AttrErrors(l, msg.attributes, q) == [] &&
              UnknownAttrs(msg, q) == {}
  {
    AttrNotFoundCounts(q.id, order);
    var u := UnknownAttrs(l.store.messages[q.id], q);
    if u != {} {
      var x :| x in u;
      assert multiset(order)[x] == 1;
    }
  }

  /** An `Ok` message carries the queried id, the formatted main value ("" for
      a message without one) and every declared attribute under its id. */
  lemma ResolveSuccess(l: Locale, q: Query, order: seq<string>)
    requires Resolve(l, q, order).Success?
    ensures q.id in l.store.messages
    ensures var msg := l.store.messages[q.id];
            var m := Resolve(l, q, order).value;
            && m.id == q.id
            && m.value == ValueOf(l, msg, q).text
            && (msg.value.None? ==> m.value == "")
            && m.attrs.Keys == DeclaredIds(msg.attributes)
  {
    AttrValuesCoverDeclared(l, l.store.messages[q.id].attributes, q);
  }

  /** Errors in the main value do not stop processing: every error of the
      value, and every error an attribute produced that the suppression rule
      keeps, is in the final list. */
  lemma ResolveKeepsAllErrors(l: Locale, q: Query, order: seq<string>, e: FluentError)
    requires q.id in l.store.messages
    requires var msg := l.store.messages[q.id];
             || e in ValueOf(l, msg, q).errors
             || exists k :: 0 <= k < |msg.attributes| && KeepsError(l, msg.attributes[k], q, e)
    ensures Resolve(l, q, order).Failure? && e in Resolve(l, q, order).error
  {
    AttrErrorsMembership(l, l.store.messages[q.id].attributes, q, e);
  }

  /** Drawing the same names in another order permutes the trailing errors. */
  lemma AttrNotFoundPermutes(id: string, o1: seq<string>, o2: seq<string>)
    requires multiset(o1) == multiset(o2)
    ensures multiset(AttrNotFoundErrors(id, o1)) == multiset(AttrNotFoundErrors(id, o2))
  {
    AttrNotFoundCounts(id, o1);
    AttrNotFoundCounts(id, o2);
    var a := AttrNotFoundErrors(id, o1);
    var b := AttrNotFoundErrors(id, o2);
    forall e: FluentError ensures multiset(a)[e] == multiset(b)[e] {
      if e.MessageRef? && e.id == id && e.attribute.Some? {
        assert e == MessageRef(id, Some(e.attribute.value));
      } else {
        assert e !in a && e !in b;
      }
    }
  }

  /** The order the unknown names are drawn in changes only the order of the
      errors: the outcome, a successful message, and the multiset of errors
      are the same for every drawing order. */
  lemma ResolveOrderIrrelevant(l: Locale, q: Query, o1: seq<string>, o2: seq<string>)
    requires multiset(o2) == multiset(o1)
    ensures Resolve(l, q, o1).Success? == Resolve(l, q, o2).Success?
    ensures Resolve(l, q, o1).Success? ==> Resolve(l, q, o1) == Resolve(l, q, o2)
    ensures Resolve(l, q, o1).Failure? ==> multiset(Resolve(l, q, o1).error) == multiset(Resolve(l, q, o2).error)
  {
    AttrNotFoundPermutes(q.id, o1, o2);
    AttrNotFoundCounts(q.id, o1);
    AttrNotFoundCounts(q.id, o2);
    assert |o1| == |o2| by {
      assert |multiset(o1)| == |o1| && |multiset(o2)| == |o2|;
    }
  }

  /** The attributes see only the query's per-attribute arguments: two
      queries that agree on those format the attributes identically, whatever
      their message arguments. */
  lemma {:induction false} AttributesSeeOnlyAttrArgs(l: Locale, attrs: seq<Attribute>, q1: Query, q2: Query)
    requires q1.attrArgs == q2.attrArgs
    ensures AttrErrors(l, attrs, q1) == AttrErrors(l, attrs, q2)
    ensures AttrValues(l, attrs, q1) == AttrValues(l, attrs, q2)
    decreases |attrs|
  {
    if attrs != [] {
      AttributesSeeOnlyAttrArgs(l, attrs[..|attrs| - 1], q1, q2);
      var last := attrs[|attrs| - 1];
      assert FormatAttr(l, last, q1) == FormatAttr(l, last, q2);
    }
  }

  /** Giving arguments to an attribute the message does not declare makes
      the query fail with an "attribute not found" reference to it. */
  lemma UndeclaredAttrArgFails(l: Locale, q: Query, attr: string, name: string, v: Value, order: seq<string>)
    requires q.id in l.store.messages
    requires attr !in DeclaredIds(l.store.messages[q.id].attributes)
    requires multiset(order) == multiset(UnknownAttrs(l.store.messages[q.id], WithAttrArg(q, attr, name, v)))
    ensures Resolve(l, WithAttrArg(q, attr, name, v), order).Failure?
    ensures MessageRef(q.id, Some(attr)) in Resolve(l, WithAttrArg(q, attr, name, v), order).error
  {
    var q' := WithAttrArg(q, attr, name, v);
    UnknownAttrReportedOnce(l, q', order, attr);
    assert MessageRef(q.id, Some(attr)) in AttrNotFoundErrors(q.id, order);
  }

  /** The fallback flag of a query is never read. */
  lemma ResolveIgnoresFallbackFlag(l: Locale, q: Query, enable: bool, order: seq<string>)
    ensures Resolve(l, WithFallback(q, enable), order) == Resolve(l, q, order)
  {
    var q' := WithFallback(q, enable);
    if q.id in l.store.messages {
      var msg := l.store.messages[q.id];
      assert ValueOf(l, msg, q') == ValueOf(l, msg, q);
      AttributesSeeOnlyAttrArgs(l, msg.attributes, q', q);
    }
  }

  // ---------------------------------------------------------------------------
  // The registry: `Locales`
  // ---------------------------------------------------------------------------

  /** `Locales`: the locales by language, the fallback language, the error
      hook, and the formatter every locale's bundle uses. */
  class Locales {
    var locales: map<LangId, Locale>
    const fallbackLang: LangId
    const onError: Option<ErrorHook>
    const format: Formatter

    /** `Locales::new`: no locales yet. */
    constructor (fallbackLang: LangId, onError: Option<ErrorHook>, format: Formatter)
      ensures locales == map[]
      ensures this.fallbackLang == fallbackLang && this.onError == onError && this.format == format
    {
      this.locales := map[];
      this.fallbackLang := fallbackLang;
      this.onError := onError;
      this.format := format;
    }

    /** `Locales::add_locale`: builds the locale and inserts it, replacing
        any earlier locale of the same language; the others stay. */
    method AddLocale(lang: LangId, resources: seq<Resource>)
      requires NoDuplicateIds(resources)
      modifies this
      ensures locales.Keys == old(locales.Keys) + {lang}
      ensures locales[lang].lang == lang && locales[lang].format == format
      ensures locales[lang].store == AddEntries(EmptyStore, AllEntries(resources))
      ensures forall other :: other in old(locales) && other != lang ==> locales[other] == old(locales[other])
    {
      var locale := NewLocale(lang, resources, format);
      locales := locales[lang := locale];
    }

    /** The locale `query` resolves against: the language's own, or the
        fallback language's when the language has none. */
    function LocaleFor(lang: LangId): Locale
      reads this
      requires lang in locales || fallbackLang in locales
    {
      if lang in locales then locales[lang] else locales[fallbackLang]
    }

    /** `Locales::query`. The source panics when neither the language nor the
        fallback language has a locale. `hookCall` is the argument the
        `on_error` hook was called with, if it was called. */
    method Query(lang: LangId, q: Query)
      returns (r: Result<Message, seq<FluentError>>, hookCall: Option<seq<FluentError>>, ghost order: seq<string>)
      requires lang in locales || fallbackLang in locales
      ensures lang in locales ==> r == Resolve(locales[lang], q, order)
      ensures lang !in locales ==> r == Resolve(locales[fallbackLang], q, order)
      ensures var l := LocaleFor(lang);
              q.id in l.store.messages ==> multiset(order) == multiset(UnknownAttrs(l.store.messages[q.id], q))
      ensures hookCall.Some? <==> onError.Some? && r.Failure?
      ensures hookCall.Some? ==> hookCall.value == r.error
    {
      var locale := LocaleFor(lang);
      r, order := LocaleQuery(locale, q);
      hookCall := None;
      if onError.Some? && r.Failure? {
        var _ := onError.value(r.error);
        hookCall := Some(r.error);
      }
    }
  }
}
