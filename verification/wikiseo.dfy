/**
 * The WikiSEO orchestrator: it turns the attributes of a `<seo>` tag or a
 * `{{#seo:}}` parser function into validated page metadata, rewrites the page
 * title, instantiates and dispatches the metadata generators, persists the
 * metadata as a page property, and reports problems as an error box.
 *
 * The PHP object's mutable fields become the immutable record `Seo`; every
 * method of the class becomes a function (or a method, where the source
 * loops) from one record to the next. Collaborators whose code is not part
 * of this model are the function-valued fields of `Host`.
 */
module WikiSEO {
  import opened Wrappers
  import opened Php

  /** Attribute name → value, the PHP array handed to and returned by the validator. */
  type Metadata = map<string, Value>

  /** The entry point that created the orchestrator; it selects the empty-attributes message. */
  datatype Mode = Tag | Parser {
    function Name(): string
    {
      match this
      case Tag => "tag"
      case Parser => "parser"
    }
  }

  /** Name of the page property holding the persisted metadata. */
  const PagePropName: string := "WikiSEO"
  const DefaultTitleMode: Value := Str("replace")
  const DefaultTitleSeparator: string := " - "
  const ErrorSeparator: string := "<br>"
  const ErrorBoxOpen: string := "<div class=\"errorbox\">"
  const ErrorBoxClose: string := "</div>"
  /** What the page-props fallback decodes when nothing is stored. */
  const EmptyBlob: string := "{}"

  /** An interface message by key and parameters, as built by `wfMessage`. */
  datatype Message = Message(key: string, params: seq<string>)

  function EmptyAttributesMessage(mode: Mode): Message
  {
    Message("wiki-seo-empty-attr-" + mode.Name(), [])
  }

  function InvalidGeneratorMessage(name: string): Message
  {
    Message("wiki-seo-invalid-generator", [name])
  }

  const MissingPageTitleMessage: Message := Message("wiki-seo-missing-page-title", [])

  /** A generator instance: the mandatory `MetaTag` or a plugin class under `Generator\Plugins`. */
  datatype Generator = MetaTag | Plugin(name: string)

  /**
   * One call the orchestrator makes on a generator instance: `init` receives
   * the metadata and the page it writes to.
   */
  datatype Call = Init(generator: Generator, metadata: Metadata, page: OutputPage) | AddMetadata(generator: Generator)

  /** The request scheme reported by `WebRequest::getProtocol`. */
  datatype Protocol = Http | Https {
    function Name(): string
    {
      match this
      case Http => "http"
      case Https => "https"
    }
  }

  /**
   * Host configuration and the collaborators whose code is not modelled,
   * each as an uninterpreted function value.
   */
  datatype Host = Host(
    validateParams: Metadata -> Metadata,  // Validator::validateParams
    parseTag: string -> Metadata,          // TagParser::parseText followed by expandWikiTextTagArray
    parseArgs: seq<string> -> Metadata,    // TagParser::parseArgs
    expand: string -> string,              // PPFrame::expand
    entityDecode: string -> string,        // html_entity_decode
    jsonEncode: Metadata -> string,        // json_encode
    jsonDecode: string -> Metadata,        // json_decode( …, true )
    messageText: Message -> string,        // a wfMessage rendered as text
    pluginClasses: set<string>,            // plugin names reflection can instantiate
    hasScheme: string -> bool,             // parse_url( $url, PHP_URL_SCHEME ) !== null
    metadataGenerators: seq<string>        // $wgMetadataGenerators
  )

  /** The parts of MediaWiki's OutputPage the orchestrator reads or writes. */
  datatype OutputPage = OutputPage(
    articleId: Option<int>,            // getTitle()->getArticleID(), None when getTitle() is null
    pageTitle: string,                 // getPageTitle()
    htmlTitle: Option<string>,         // set by setHTMLTitle
    properties: map<string, string>    // getProperty
  )

  /** The page properties a ParserOutput carries to the page_props table. */
  datatype ParserOutput = ParserOutput(properties: map<string, string>)

  /** The page_props table: page id → property name → stored value. */
  type PageProps = map<int, map<string, string>>

  /** The fields of one WikiSEO object. */
  datatype Seo = Seo(
    mode: Mode,
    titleMode: Value,
    titleSeparator: string,
    generators: seq<string>,
    instances: seq<Generator>,
    errors: seq<Message>,
    metadata: Metadata
  )

  /** The constructor: defaults for the title policy, generator names from configuration. */
  function NewSeo(mode: Mode, host: Host): Seo
  {
    Seo(mode, DefaultTitleMode, DefaultTitleSeparator, host.metadataGenerators, [], [], map[])
  }

  // ---------------------------------------------------------------------
  // setMetadata
  // ---------------------------------------------------------------------

  /** The entries of `m` whose value PHP does not consider empty. */
  function KeepNonEmpty(m: Metadata): Metadata
  {
    map k | k in m && !IsEmpty(m[k]) :: m[k]
  }

  /** Metadata holding no value that PHP's `empty` accepts. */
  predicate NoEmptyValues(m: Metadata)
  {
    forall k :: k in m ==> !IsEmpty(m[k])
  }

  /**
   * Validates `raw` and stores the validator's non-empty entries, unchanged,
   * as the metadata; every other field keeps its value.
   */
  function SetMetadata(s: Seo, host: Host, raw: Metadata): (r: Seo)
    ensures r == s.(metadata := r.metadata)
    ensures forall k :: k in r.metadata <==>
      k in host.validateParams(raw) && !IsEmpty(host.validateParams(raw)[k])
    ensures forall k :: k in r.metadata ==> r.metadata[k] == host.validateParams(raw)[k]
  {
    s.(metadata := KeepNonEmpty(host.validateParams(raw)))
  }

  /** Some entry of `m` is not empty. */
  predicate HasNonEmpty(m: Metadata)
  {
    exists k :: k in m && !IsEmpty(m[k])
  }

  /** Filtering leaves something exactly when some entry is non-empty. */
  lemma KeepNonEmptyNotEmpty(m: Metadata)
    ensures |KeepNonEmpty(m)| > 0 <==> HasNonEmpty(m)
  {
    if HasNonEmpty(m) {
      var k :| k in m && !IsEmpty(m[k]);
      assert k in KeepNonEmpty(m);
    }
  }

  // ---------------------------------------------------------------------
  // modifyPageTitle
  // ---------------------------------------------------------------------

  datatype TitleMode = Replace | Append | Prepend

  /**
   * The `switch` on the title mode: only the strings "append" and "prepend"
   * select those policies; "replace" and every other value replace.
   */
  function TitleModeOf(v: Value): TitleMode
  {
    match v
    case Str(m) => if m == "append" then Append else if m == "prepend" then Prepend else Replace
    case _ => Replace
  }

  /**
   * The title before line breaks are stripped: replacing yields the meta
   * title; appending puts the page title first, then the separator, then the
   * meta title; prepending puts the meta title first.
   */
  function ComposeTitle(mode: TitleMode, sep: string, metaTitle: string, pageTitle: string): (t: string)
    ensures mode == Replace ==> t == metaTitle
    ensures mode != Replace ==> |t| == |pageTitle| + |sep| + |metaTitle|
    ensures mode == Append ==>
      t[..|pageTitle|] == pageTitle && t[|pageTitle|..|pageTitle| + |sep|] == sep
      && t[|pageTitle| + |sep|..] == metaTitle
    ensures mode == Prepend ==>
      t[..|metaTitle|] == metaTitle && t[|metaTitle|..|metaTitle| + |sep|] == sep
      && t[|metaTitle| + |sep|..] == pageTitle
  {
    match mode
    case Append => pageTitle + sep + metaTitle
    case Prepend => metaTitle + sep + pageTitle
    case Replace => metaTitle
  }

  /** The separator in force: the entity-decoded `title_separator` if given, else the object's. */
  function SeparatorIn(s: Seo, host: Host): string
  {
    if "title_separator" in s.metadata
    then host.entityDecode(ToText(s.metadata["title_separator"]))
    else s.titleSeparator
  }

  /** The title mode in force: `title_mode` if given, else the object's. */
  function TitleModeIn(s: Seo): Value
  {
    if "title_mode" in s.metadata then s.metadata["title_mode"] else s.titleMode
  }

  /**
   * With no `title` in the metadata nothing changes. Otherwise
   * `title_separator` (entity-decoded) and `title_mode` override the object's
   * policy, and the page's HTML title becomes the composed title without CR
   * or LF; nothing else of the page changes.
   */
  function ModifyPageTitle(s: Seo, host: Host, out: OutputPage): (r: (Seo, OutputPage))
    ensures "title" !in s.metadata ==> r.0 == s && r.1 == out
    ensures r.0 == s.(titleMode := r.0.titleMode, titleSeparator := r.0.titleSeparator)
    ensures r.1 == out.(htmlTitle := r.1.htmlTitle)
    ensures "title" in s.metadata ==>
      r.0.titleSeparator == SeparatorIn(s, host) && r.0.titleMode == TitleModeIn(s)
    ensures "title" in s.metadata ==> r.1.htmlTitle.Some? && NoLineBreaks(r.1.htmlTitle.value)
  {
    if "title" !in s.metadata then (s, out)
    else
      var metaTitle := ToText(s.metadata["title"]);
      var sep := SeparatorIn(s, host);
      var mode := TitleModeIn(s);
      var title := ComposeTitle(TitleModeOf(mode), sep, metaTitle, out.pageTitle);
      (s.(titleMode := mode, titleSeparator := sep), out.(htmlTitle := Some(StripLineBreaks(title))))
  }

  // ---------------------------------------------------------------------
  // instantiateMetadataPlugins
  // ---------------------------------------------------------------------

  /** The configured names reflection can instantiate, in configuration order. */
  function Resolvable(names: seq<string>, classes: set<string>): seq<string>
  {
    if |names| == 0 then []
    else
      var last := names[|names| - 1];
      Resolvable(names[..|names| - 1], classes) + (if last in classes then [last] else [])
  }

  /** The configured names reflection cannot instantiate, in configuration order. */
  function Unresolvable(names: seq<string>, classes: set<string>): seq<string>
  {
    if |names| == 0 then []
    else
      var last := names[|names| - 1];
      Unresolvable(names[..|names| - 1], classes) + (if last in classes then [] else [last])
  }

  function Plugins(names: seq<string>): seq<Generator>
  {
    if |names| == 0 then [] else Plugins(names[..|names| - 1]) + [Plugin(names[|names| - 1])]
  }

  function InvalidGeneratorMessages(names: seq<string>): seq<Message>
  {
    if |names| == 0 then []
    else InvalidGeneratorMessages(names[..|names| - 1]) + [InvalidGeneratorMessage(names[|names| - 1])]
  }

  /**
   * Every configured name lands in exactly one of the two lists: together
   * they hold each name as often as the configuration does, a known name is
   * in the first and an unknown one in the second.
   */
  lemma {:induction false} ResolvablePartition(names: seq<string>, classes: set<string>)
    ensures |Resolvable(names, classes)| + |Unresolvable(names, classes)| == |names|
    ensures multiset(Resolvable(names, classes)) + multiset(Unresolvable(names, classes))
      == multiset(names)
    ensures forall i :: 0 <= i < |names| && names[i] in classes ==>
      names[i] in Resolvable(names, classes)
    ensures forall i :: 0 <= i < |names| && names[i] !in classes ==>
      names[i] in Unresolvable(names, classes)
    decreases |names|
  {
    if |names| > 0 {
      var init := names[..|names| - 1];
      ResolvablePartition(init, classes);
      assert names == init + [names[|names| - 1]];
      forall i | 0 <= i < |names| - 1
        ensures names[i] in classes ==> names[i] in Resolvable(names, classes)
        ensures names[i] !in classes ==> names[i] in Unresolvable(names, classes)
      {
        assert names[i] == init[i];
      }
    }
  }

  /** Resolving a concatenated configuration resolves each part in turn, so order is kept. */
  lemma {:induction false} ResolvableAppend(a: seq<string>, b: seq<string>, classes: set<string>)
    ensures Resolvable(a + b, classes) == Resolvable(a, classes) + Resolvable(b, classes)
    decreases |b|
  {
    if |b| > 0 {
      var init := b[..|b| - 1];
      assert (a + b)[..|a + b| - 1] == a + init;
      ResolvableAppend(a, init, classes);
    } else {
      assert a + b == a;
    }
  }

  /**
   * The first list holds only configured, instantiable names and the second
   * only configured names that cannot be instantiated.
   */
  lemma {:induction false} ResolvableMembers(names: seq<string>, classes: set<string>)
    ensures forall n :: n in Resolvable(names, classes) ==> n in classes && n in names
    ensures forall n :: n in Unresolvable(names, classes) ==> n !in classes && n in names
    decreases |names|
  {
    if |names| > 0 {
      var init := names[..|names| - 1];
      ResolvableMembers(init, classes);
      assert names == init + [names[|names| - 1]];
    }
  }

  /** When every configured name can be instantiated, no error is recorded. */
  lemma {:induction false} AllResolvable(names: seq<string>, classes: set<string>)
    requires forall i :: 0 <= i < |names| ==> names[i] in classes
    ensures Resolvable(names, classes) == names
    ensures Unresolvable(names, classes) == []
    decreases |names|
  {
    if |names| > 0 {
      var init := names[..|names| - 1];
      assert forall i :: 0 <= i < |init| ==> init[i] == names[i];
      AllResolvable(init, classes);
      assert names == init + [names[|names| - 1]];
    }
  }

  /** Extending the configuration by one name extends exactly one of the two lists by it. */
  lemma ResolvableStep(names: seq<string>, i: nat, classes: set<string>)
    requires i < |names|
    ensures Resolvable(names[..i + 1], classes) ==
      Resolvable(names[..i], classes) + (if names[i] in classes then [names[i]] else [])
    ensures Unresolvable(names[..i + 1], classes) ==
      Unresolvable(names[..i], classes) + (if names[i] in classes then [] else [names[i]])
  {
    assert names[..i + 1][..i] == names[..i];
  }

  lemma PluginsSnoc(names: seq<string>, name: string)
    ensures Plugins(names + [name]) == Plugins(names) + [Plugin(name)]
  {
    assert (names + [name])[..|names|] == names;
  }

  lemma InvalidGeneratorMessagesSnoc(names: seq<string>, name: string)
    ensures InvalidGeneratorMessages(names + [name]) ==
      InvalidGeneratorMessages(names) + [InvalidGeneratorMessage(name)]
  {
    assert (names + [name])[..|names|] == names;
  }

  /**
   * Appends `MetaTag` and then one plugin per instantiable configured name,
   * in configuration order; each other name appends exactly one
   * "invalid generator" error naming it.
   */
  method InstantiateMetadataPlugins(s: Seo, host: Host) returns (r: Seo)
    ensures r == s.(instances := r.instances, errors := r.errors)
    ensures r.instances ==
      s.instances + [MetaTag] + Plugins(Resolvable(s.generators, host.pluginClasses))
    ensures r.errors ==
      s.errors + InvalidGeneratorMessages(Unresolvable(s.generators, host.pluginClasses))
    ensures |r.instances| - |s.instances| == 1 + |s.generators| - (|r.errors| - |s.errors|)
  {
    var names := s.generators;
    var classes := host.pluginClasses;
    var plugins: seq<Generator> := [];
    var failures: seq<Message> := [];
    var i := 0;
    while i < |names|
      invariant 0 <= i <= |names|
      invariant plugins == Plugins(Resolvable(names[..i], classes))
      invariant failures == InvalidGeneratorMessages(Unresolvable(names[..i], classes))
    {
      ResolvableStep(names, i, classes);
      var generator := names[i];
      if generator in classes {
        PluginsSnoc(Resolvable(names[..i], classes), generator);
        assert Unresolvable(names[..i + 1], classes) == Unresolvable(names[..i], classes);
        plugins := plugins + [Plugin(generator)];
      } else {
        InvalidGeneratorMessagesSnoc(Unresolvable(names[..i], classes), generator);
        assert Resolvable(names[..i + 1], classes) == Resolvable(names[..i], classes);
        failures := failures + [InvalidGeneratorMessage(generator)];
      }
      i := i + 1;
    }
    assert names[..i] == names;
    ResolvablePartition(names, classes);
    PluginsLength(Resolvable(names, classes));
    InvalidGeneratorMessagesLength(Unresolvable(names, classes));
    r := s.(instances := s.instances + [MetaTag] + plugins, errors := s.errors + failures);
  }

  lemma PluginsLength(names: seq<string>)
    ensures |Plugins(names)| == |names|
  {
  }

  lemma InvalidGeneratorMessagesLength(names: seq<string>)
    ensures |InvalidGeneratorMessages(names)| == |names|
  {
  }

  // ---------------------------------------------------------------------
  // addMetadataToPage
  // ---------------------------------------------------------------------

  /** Calls `init` with the metadata and then `addMetadata` on each instance, in list order. */
  method Dispatch(instances: seq<Generator>, metadata: Metadata, page: OutputPage) returns (calls: seq<Call>)
    ensures |calls| == 2 * |instances|
    ensures forall i :: 0 <= i < |instances| ==>
      calls[2 * i] == Init(instances[i], metadata, page) && calls[2 * i + 1] == AddMetadata(instances[i])
  {
    calls := [];
    var i := 0;
    while i < |instances|
      invariant 0 <= i <= |instances|
      invariant |calls| == 2 * i
      invariant forall j :: 0 <= j < i ==>
        calls[2 * j] == Init(instances[j], metadata, page) && calls[2 * j + 1] == AddMetadata(instances[j])
    {
      calls := calls + [Init(instances[i], metadata, page), AddMetadata(instances[i])];
      i := i + 1;
    }
  }

  /**
   * Rewrites the title, instantiates the generators, then runs each one on
   * the same metadata and the retitled page: `MetaTag` before every
   * configured plugin, the plugins in configuration order.
   */
  method AddMetadataToPage(s: Seo, host: Host, out: OutputPage)
    returns (r: Seo, page: OutputPage, calls: seq<Call>)
    ensures page == ModifyPageTitle(s, host, out).1
    ensures r == ModifyPageTitle(s, host, out).0.(instances := r.instances, errors := r.errors)
    ensures r.metadata == s.metadata && r.mode == s.mode
    ensures r.instances ==
      s.instances + [MetaTag] + Plugins(Resolvable(s.generators, host.pluginClasses))
    ensures r.errors ==
      s.errors + InvalidGeneratorMessages(Unresolvable(s.generators, host.pluginClasses))
    ensures |calls| == 2 * |r.instances|
    ensures forall i :: 0 <= i < |r.instances| ==>
      calls[2 * i] == Init(r.instances[i], s.metadata, page) && calls[2 * i + 1] == AddMetadata(r.instances[i])
    ensures |s.instances| == 0 ==>
      calls[0] == Init(MetaTag, s.metadata, page) && calls[1] == AddMetadata(MetaTag)
  {
    var titled := ModifyPageTitle(s, host, out);
    page := titled.1;
    r := InstantiateMetadataPlugins(titled.0, host);
    calls := Dispatch(r.instances, r.metadata, page);
    if |s.instances| == 0 {
      assert r.instances[0] == MetaTag;
    }
  }

  // ---------------------------------------------------------------------
  // finalize, makeErrorHtml, saveMetadataToProps
  // ---------------------------------------------------------------------

  function MessageTexts(errors: seq<Message>, host: Host): (texts: seq<string>)
    ensures |texts| == |errors|
  {
    if |errors| == 0 then []
    else MessageTexts(errors[..|errors| - 1], host) + [host.messageText(errors[|errors| - 1])]
  }

  /**
   * The error box: the opening `errorbox` div, the error texts separated by
   * `<br>`, the closing div. The last error's text sits right before the
   * closing tag.
   */
  function MakeErrorHtml(s: Seo, host: Host): (html: string)
    ensures |html| >= |ErrorBoxOpen| + |ErrorBoxClose|
    ensures html[..|ErrorBoxOpen|] == ErrorBoxOpen
    ensures html[|html| - |ErrorBoxClose|..] == ErrorBoxClose
    ensures |s.errors| == 0 ==> html == ErrorBoxOpen + ErrorBoxClose
    ensures |s.errors| == 1 ==> html == ErrorBoxOpen + host.messageText(s.errors[0]) + ErrorBoxClose
    ensures |s.errors| > 0 ==>
      var last := host.messageText(s.errors[|s.errors| - 1]);
      && |html| >= |ErrorBoxOpen| + |last| + |ErrorBoxClose|
      && html[|html| - |ErrorBoxClose| - |last|..|html| - |ErrorBoxClose|] == last
  {
    var texts := MessageTexts(s.errors, host);
    var body := Implode(ErrorSeparator, texts);
    var html := ErrorBoxOpen + body + ErrorBoxClose;
    assert html[..|ErrorBoxOpen|] == ErrorBoxOpen;
    assert html[|html| - |ErrorBoxClose|..] == ErrorBoxClose;
    if |s.errors| > 0 then
      var last := host.messageText(s.errors[|s.errors| - 1]);
      assert texts[|texts| - 1] == last;
      ImplodeEndsWithLast(ErrorSeparator, texts);
      assert html[|html| - |ErrorBoxClose| - |last|..|html| - |ErrorBoxClose|] == body[|body| - |last|..];
      html
    else
      html
  }

  /** Stores the encoded metadata under `WikiSEO`; no other property changes. */
  function SaveMetadataToProps(s: Seo, host: Host, po: ParserOutput): (r: ParserOutput)
    ensures PagePropName in r.properties
    ensures r.properties[PagePropName] == host.jsonEncode(s.metadata)
    ensures forall k :: k != PagePropName ==>
      (k in r.properties <==> k in po.properties)
      && (k in po.properties ==> r.properties[k] == po.properties[k])
  {
    po.(properties := po.properties[PagePropName := host.jsonEncode(s.metadata)])
  }

  /**
   * With no metadata: one mode-specific error is appended, nothing is
   * persisted and the error box is returned. Otherwise the metadata is
   * persisted and the result is the empty string.
   */
  function Finalize(s: Seo, host: Host, po: ParserOutput): (r: (Seo, ParserOutput, string))
    ensures r.2 == "" <==> |s.metadata| > 0
    ensures |s.metadata| == 0 ==>
      r.0 == s.(errors := s.errors + [EmptyAttributesMessage(s.mode)])
      && r.1 == po
      && r.2 == ErrorBoxOpen + Implode(ErrorSeparator, MessageTexts(r.0.errors, host)) + ErrorBoxClose
    ensures |s.metadata| > 0 ==>
      r.0 == s && r.1.properties == po.properties[PagePropName := host.jsonEncode(s.metadata)]
  {
    if |s.metadata| == 0 then
      var failed := s.(errors := s.errors + [EmptyAttributesMessage(s.mode)]);
      (failed, po, MakeErrorHtml(failed, host))
    else
      (s, SaveMetadataToProps(s, host, po), "")
  }

  // ---------------------------------------------------------------------
  // Entry points: fromTag, fromParserFunction, setMetadataFromPageProps
  // ---------------------------------------------------------------------

  /**
   * `array_merge` of the parsed tag body with the tag's attributes: an
   * attribute overrides a body entry of the same name, every other entry of
   * either side is kept.
   */
  function MergeTagAttributes(body: Metadata, args: Metadata): (r: Metadata)
    ensures forall k :: k in r <==> k in body || k in args
    ensures forall k :: k in r ==> r[k] == (if k in args then args[k] else body[k])
  {
    body + args
  }

  /** The error box holding the single empty-attributes message for `mode`. */
  function EmptyAttributesBox(host: Host, mode: Mode): string
  {
    ErrorBoxOpen + host.messageText(EmptyAttributesMessage(mode)) + ErrorBoxClose
  }

  /**
   * The `<seo>` tag: the merged attributes are validated; if nothing
   * survives, the page gets the tag-mode error box and nothing is persisted,
   * otherwise the filtered metadata is persisted and the tag renders as "".
   */
  function FromTag(input: string, args: Metadata, host: Host, po: ParserOutput): (r: (ParserOutput, string))
    ensures var v := host.validateParams(MergeTagAttributes(host.parseTag(input), args));
      && (r.1 == "" <==> HasNonEmpty(v))
      && (r.1 != "" ==> r.0 == po && r.1 == EmptyAttributesBox(host, Tag))
      && (r.1 == "" ==> r.0.properties == po.properties[PagePropName := host.jsonEncode(KeepNonEmpty(v))])
  {
    var s := SetMetadata(NewSeo(Tag, host), host, MergeTagAttributes(host.parseTag(input), args));
    var f := Finalize(s, host, po);
    KeepNonEmptyNotEmpty(host.validateParams(MergeTagAttributes(host.parseTag(input), args)));
    if |s.metadata| == 0 then
      assert MessageTexts(f.0.errors, host) == [host.messageText(EmptyAttributesMessage(Tag))];
      (f.1, f.2)
    else
      (f.1, f.2)
  }

  /** Each argument of the parser function, expanded and trimmed. */
  function ExpandArgs(args: seq<string>, host: Host): (expanded: seq<string>)
    ensures |expanded| == |args|
    ensures forall i :: 0 <= i < |args| ==> expanded[i] == Trim(host.expand(args[i]))
  {
    if |args| == 0 then []
    else ExpandArgs(args[..|args| - 1], host) + [Trim(host.expand(args[|args| - 1]))]
  }

  /**
   * The `{{#seo:}}` parser function: like the tag, but with parser-mode
   * messages. `Some(html)` stands for the non-empty result array carrying the
   * error box, `None` for the empty array returned on success.
   */
  function FromParserFunction(args: seq<string>, host: Host, po: ParserOutput): (r: (ParserOutput, Option<string>))
    ensures r.1.None? <==> HasNonEmpty(host.validateParams(host.parseArgs(ExpandArgs(args, host))))
    ensures r.1.Some? ==> r.0 == po && r.1 == Some(EmptyAttributesBox(host, Parser))
    ensures var v := host.validateParams(host.parseArgs(ExpandArgs(args, host)));
      r.1.None? ==> r.0.properties == po.properties[PagePropName := host.jsonEncode(KeepNonEmpty(v))]
  {
    var raw := host.parseArgs(ExpandArgs(args, host));
    var s := SetMetadata(NewSeo(Parser, host), host, raw);
    var f := Finalize(s, host, po);
    assert s.metadata == KeepNonEmpty(host.validateParams(raw));
    KeepNonEmptyNotEmpty(host.validateParams(raw));
    if |s.metadata| == 0 then
      assert MessageTexts(f.0.errors, host) == [host.messageText(EmptyAttributesMessage(Parser))];
      (f.1, Some(f.2))
    else
      (f.1, None)
  }

  /**
   * The stored blob for page `id`: the page_props row if there is one, else
   * the OutputPage property, else the empty JSON object.
   */
  function StoredBlob(out: OutputPage, db: PageProps, id: int): string
  {
    if id in db && PagePropName in db[id] then db[id][PagePropName]
    else if PagePropName in out.properties then out.properties[PagePropName]
    else EmptyBlob
  }

  /**
   * Replays persisted metadata. Without a page title one error is recorded
   * and the metadata is left alone; otherwise the database row wins over the
   * OutputPage copy, which wins over the empty object, and the decoded blob
   * goes through `SetMetadata`.
   */
  function SetMetadataFromPageProps(s: Seo, host: Host, out: OutputPage, db: PageProps): (r: Seo)
    ensures out.articleId.None? ==>
      r == s.(errors := s.errors + [MissingPageTitleMessage])
    ensures out.articleId.Some? ==> r == s.(metadata := r.metadata)
    ensures out.articleId.Some? ==>
      var id := out.articleId.value;
      var blob :=
        if id in db && PagePropName in db[id] then db[id][PagePropName]
        else if PagePropName in out.properties then out.properties[PagePropName]
        else EmptyBlob;
      r.metadata == KeepNonEmpty(host.validateParams(host.jsonDecode(blob)))
  {
    if out.articleId.None? then s.(errors := s.errors + [MissingPageTitleMessage])
    else SetMetadata(s, host, host.jsonDecode(StoredBlob(out, db, out.articleId.value)))
  }

  // ---------------------------------------------------------------------
  // protocolizeUrl
  // ---------------------------------------------------------------------

  /**
   * A URL without a scheme gets the request's protocol and ":" in front; a
   * URL with a scheme is returned unchanged. Either way the URL ends the result.
   */
  function ProtocolizeUrl(url: string, protocol: Protocol, host: Host): (r: string)
    ensures host.hasScheme(url) ==> r == url
    ensures |r| >= |url| && r[|r| - |url|..] == url
    ensures !host.hasScheme(url) ==> r[..|r| - |url|] == protocol.Name() + ":"
  {
    if host.hasScheme(url) then url else protocol.Name() + ":" + url
  }
}
