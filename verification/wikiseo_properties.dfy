/**
 * Properties of the WikiSEO orchestrator that relate several of its
 * operations: the title policy end to end, the error box across several
 * errors, the persisted metadata replayed from the page properties, and the
 * URL helper applied twice.
 */
module WikiSEOProperties {
  import opened Wrappers
  import opened Php
  import opened WikiSEO

  // ---------------------------------------------------------------------
  // Title policy
  // ---------------------------------------------------------------------

  /** Replacing (also the outcome of an unknown mode) keeps only the meta title, stripped of CR/LF. */
  lemma ReplaceTitle(s: Seo, host: Host, out: OutputPage)
    requires "title" in s.metadata
    requires TitleModeOf(TitleModeIn(s)) == Replace
    ensures ModifyPageTitle(s, host, out).1.htmlTitle ==
      Some(StripLineBreaks(ToText(s.metadata["title"])))
  {
  }

  /**
   * Appending puts the page title, then the separator, then the meta title,
   * each stripped of CR/LF on its own.
   */
  lemma AppendTitle(s: Seo, host: Host, out: OutputPage)
    requires "title" in s.metadata
    requires TitleModeOf(TitleModeIn(s)) == Append
    ensures ModifyPageTitle(s, host, out).1.htmlTitle ==
      Some(StripLineBreaks(out.pageTitle) + StripLineBreaks(SeparatorIn(s, host))
        + StripLineBreaks(ToText(s.metadata["title"])))
  {
    var sep := SeparatorIn(s, host);
    StripLineBreaksAppend(out.pageTitle + sep, ToText(s.metadata["title"]));
    StripLineBreaksAppend(out.pageTitle, sep);
  }

  /**
   * Prepending puts the meta title, then the separator, then the page title,
   * each stripped of CR/LF on its own.
   */
  lemma PrependTitle(s: Seo, host: Host, out: OutputPage)
    requires "title" in s.metadata
    requires TitleModeOf(TitleModeIn(s)) == Prepend
    ensures ModifyPageTitle(s, host, out).1.htmlTitle ==
      Some(StripLineBreaks(ToText(s.metadata["title"]))
        + StripLineBreaks(SeparatorIn(s, host)) + StripLineBreaks(out.pageTitle))
  {
    var sep := SeparatorIn(s, host);
    StripLineBreaksAppend(ToText(s.metadata["title"]) + sep, out.pageTitle);
    StripLineBreaksAppend(ToText(s.metadata["title"]), sep);
  }

  /**
   * A fresh object replaces the title by default: with `title` but neither
   * `title_mode` nor `title_separator` given, the HTML title is the meta
   * title, and the policy keeps its defaults.
   */
  lemma DefaultPolicyReplaces(host: Host, mode: Mode, out: OutputPage, m: Metadata, title: string)
    requires "title" in m && m["title"] == Str(title)
    requires "title_mode" !in m && "title_separator" !in m
    requires NoLineBreaks(title)
    ensures var r := ModifyPageTitle(NewSeo(mode, host).(metadata := m), host, out);
      && r.1.htmlTitle == Some(title)
      && r.0.titleMode == DefaultTitleMode
      && r.0.titleSeparator == DefaultTitleSeparator
  {
    var s := NewSeo(mode, host).(metadata := m);
    assert TitleModeOf(TitleModeIn(s)) == Replace;
    ReplaceTitle(s, host, out);
    StripLineBreaksIdentity(title);
  }

  /**
   * With `title_mode` "append", a separator given as `title_separator` and
   * no line breaks anywhere, the HTML title is the page title, the decoded
   * separator and the meta title, in that order (so "Bar", "::" and "Foo"
   * give "Bar::Foo").
   */
  lemma AppendWithSeparator(s: Seo, host: Host, out: OutputPage, title: string, sep: string)
    requires "title" in s.metadata && s.metadata["title"] == Str(title)
    requires "title_mode" in s.metadata && s.metadata["title_mode"] == Str("append")
    requires "title_separator" in s.metadata && s.metadata["title_separator"] == Str(sep)
    requires NoLineBreaks(title) && NoLineBreaks(out.pageTitle)
    requires NoLineBreaks(host.entityDecode(sep))
    ensures ModifyPageTitle(s, host, out).1.htmlTitle ==
      Some(out.pageTitle + host.entityDecode(sep) + title)
  {
    AppendTitle(s, host, out);
    StripLineBreaksIdentity(title);
    StripLineBreaksIdentity(out.pageTitle);
    StripLineBreaksIdentity(host.entityDecode(sep));
  }

  /** Without a `title`, a fresh object leaves the page alone and keeps the default policy. */
  lemma NoTitleKeepsDefaults(host: Host, mode: Mode, out: OutputPage, m: Metadata)
    requires "title" !in m
    ensures var r := ModifyPageTitle(NewSeo(mode, host).(metadata := m), host, out);
      && r.1 == out
      && r.0.titleMode == DefaultTitleMode
      && r.0.titleSeparator == DefaultTitleSeparator
  {
  }

  // ---------------------------------------------------------------------
  // Error box
  // ---------------------------------------------------------------------

  /**
   * One more error adds `<br>` and its text just before the closing tag;
   * the earlier part of the box is unchanged.
   */
  lemma ErrorBoxGrows(s: Seo, host: Host, m: Message)
    requires |s.errors| > 0
    ensures var before := MakeErrorHtml(s, host);
      MakeErrorHtml(s.(errors := s.errors + [m]), host) ==
        before[..|before| - |ErrorBoxClose|] + ErrorSeparator + host.messageText(m) + ErrorBoxClose
  {
    var texts := MessageTexts(s.errors, host);
    var grown := s.errors + [m];
    assert grown[..|grown| - 1] == s.errors;
    assert MessageTexts(grown, host) == texts + [host.messageText(m)];
    ImplodeConcat(ErrorSeparator, texts, [host.messageText(m)]);
    var before := MakeErrorHtml(s, host);
    assert before[..|before| - |ErrorBoxClose|] == ErrorBoxOpen + Implode(ErrorSeparator, texts);
  }

  /**
   * Errors already on the object appear in the box ahead of the
   * empty-attributes message, separated by `<br>`. In the PHP `finalize` is
   * called only on a fresh object, whose error list is empty, so this state
   * is not reached there; the lemma states how the box would grow.
   */
  lemma {:induction false} FinalizeKeepsEarlierErrors(s: Seo, host: Host, po: ParserOutput)
    requires |s.metadata| == 0 && |s.errors| > 0
    ensures var before := MakeErrorHtml(s, host);
      Finalize(s, host, po).2 ==
        before[..|before| - |ErrorBoxClose|] + ErrorSeparator
        + host.messageText(EmptyAttributesMessage(s.mode)) + ErrorBoxClose
  {
    ErrorBoxGrows(s, host, EmptyAttributesMessage(s.mode));
  }

  // ---------------------------------------------------------------------
  // Persistence and replay
  // ---------------------------------------------------------------------

  /** Filtering already filtered metadata changes nothing. */
  lemma KeepNonEmptyIdempotent(m: Metadata)
    requires NoEmptyValues(m)
    ensures KeepNonEmpty(m) == m
  {
  }

  /**
   * Metadata persisted by `Finalize` comes back unchanged when the page is
   * rendered later, provided JSON decoding inverts encoding on it and the
   * validator leaves already validated metadata alone.
   */
  lemma PersistedMetadataReplays(
    s: Seo, host: Host, raw: Metadata, po: ParserOutput,
    later: Seo, out: OutputPage, db: PageProps, id: int)
    requires s.metadata == SetMetadata(s, host, raw).metadata
    requires |s.metadata| > 0
    requires host.jsonDecode(host.jsonEncode(s.metadata)) == s.metadata
    requires host.validateParams(s.metadata) == s.metadata
    requires out.articleId == Some(id)
    requires id in db && db[id] == Finalize(s, host, po).1.properties
    ensures SetMetadataFromPageProps(later, host, out, db).metadata == s.metadata
  {
    assert NoEmptyValues(s.metadata);
    KeepNonEmptyIdempotent(s.metadata);
  }

  /**
   * With no stored row and no OutputPage copy the replay decodes "{}", so
   * when that decodes to nothing and the validator adds nothing, the
   * metadata is empty.
   */
  lemma AbsentPropsGiveEmptyMetadata(s: Seo, host: Host, out: OutputPage, db: PageProps)
    requires out.articleId.Some?
    requires out.articleId.value !in db || PagePropName !in db[out.articleId.value]
    requires PagePropName !in out.properties
    requires host.jsonDecode(EmptyBlob) == map[]
    requires host.validateParams(map[]) == map[]
    ensures SetMetadataFromPageProps(s, host, out, db).metadata == map[]
    ensures SetMetadataFromPageProps(s, host, out, db).errors == s.errors
  {
  }

  // ---------------------------------------------------------------------
  // protocolizeUrl
  // ---------------------------------------------------------------------

  /**
   * Applying the helper twice is applying it once, as long as the scheme
   * test recognises the scheme the helper itself adds. That assumption does
   * not always hold: `parse_url("http:80")` reads host `http` and port `80`
   * with no scheme, so `"80"` becomes `"http:80"` and then `"http:http:80"`.
   */
  lemma ProtocolizeUrlIdempotent(url: string, protocol: Protocol, host: Host)
    requires host.hasScheme(protocol.Name() + ":" + url)
    ensures ProtocolizeUrl(ProtocolizeUrl(url, protocol, host), protocol, host)
      == ProtocolizeUrl(url, protocol, host)
    ensures host.hasScheme(ProtocolizeUrl(url, protocol, host))
  {
  }
}
