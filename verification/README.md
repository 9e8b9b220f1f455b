# WikiSEO orchestrator in Dafny

This project models the orchestration core of the MediaWiki extension WikiSEO, the class
`WikiSEO` in `includes/WikiSEO.php`. The class takes the attributes of a `<seo>` tag or a
`{{#seo:}}` parser function and passes them through the validator. It keeps the non-empty
results as the page metadata. On success it persists that metadata, JSON-encoded, as the page
property `WikiSEO`. When nothing survives validation it renders an `errorbox` div instead. When
the page is displayed, the metadata is read back from the page properties. The HTML title is
then rewritten under the replace/append/prepend policy. Last, the `MetaTag` generator and the
configured generator plugins are instantiated and run.

Layout:

- `wrappers.dfy` — module `Wrappers`: `Option`, for absent values.
- `php.dfy` — module `Php`: the PHP built-ins the class relies on, as pure functions. These are
  `empty` (`IsEmpty`), string conversion (`ToText`), `trim`, `implode`, and
  `preg_replace("/\r|\n/", '', …)` (`StripLineBreaks`), with their lemmas.
- `wikiseo.dfy` — module `WikiSEO`: the object's fields become the immutable record `Seo`, and
  each PHP method becomes a function or method from one record to the next. The OutputPage and
  ParserOutput parts it touches become records too. Collaborators whose code is not part of
  this model are the function-valued fields of `Host`. Those are the validator, the tag parser,
  frame expansion, `html_entity_decode`, JSON, message rendering and the `parse_url` scheme
  test. `Host` also holds the set of plugin names reflection can instantiate, and the
  `$wgMetadataGenerators` configuration.
- `wikiseo_properties.dfy` — module `WikiSEOProperties`: lemmas that relate several
  operations. They cover the title policy end to end, error-box growth, persist-then-replay, and
  the absent-property fallback.

Generator dispatch is recorded as the sequence of calls the orchestrator makes
(`Init(generator, metadata, page)` then `AddMetadata(generator)`), where `page` is the page
after the title rewrite. PHP hands every generator the same `OutputPage` object, so a later
generator sees what earlier ones wrote to it. The model does not track those writes: every
`Init` records the page as it was before any generator ran.

## Model

| member | source | states |
|---|---|---|
| `WikiSEO.SetMetadata` | includes/WikiSEO.php:143-154 | a key is stored iff the validator returned it with a value PHP's `empty` rejects not; stored values equal the validator's; no other field changes |
| `WikiSEO.KeepNonEmptyNotEmpty` | includes/WikiSEO.php:147-151 | the stored metadata is non-empty exactly when the validator returned some non-empty value |
| `WikiSEOProperties.KeepNonEmptyIdempotent` | includes/WikiSEO.php:147-151 | filtering metadata that holds no empty value leaves it unchanged |
| `WikiSEO.ComposeTitle` | includes/WikiSEO.php:224-234 | replace yields the meta title; append is page title, separator, meta title as consecutive slices; prepend is meta title, separator, page title; lengths add up |
| `WikiSEO.ModifyPageTitle` | includes/WikiSEO.php:209-239 | without `title` neither the object nor the page changes; otherwise `title_separator` (entity-decoded) and `title_mode` override the policy, only the HTML title of the page changes, and it holds no CR or LF |
| `WikiSEOProperties.ReplaceTitle` | includes/WikiSEO.php:231-238 | under `replace` or any unrecognised mode, the HTML title is the meta title with CR and LF removed |
| `WikiSEOProperties.AppendTitle` | includes/WikiSEO.php:225-227 | under `append`, the HTML title is page title ++ separator ++ meta title, each part stripped of CR/LF on its own |
| `WikiSEOProperties.PrependTitle` | includes/WikiSEO.php:228-230 | under `prepend`, the HTML title is meta title ++ separator ++ page title, each part stripped of CR/LF on its own |
| `WikiSEOProperties.NoTitleKeepsDefaults` | includes/WikiSEO.php:209-212 | a fresh object given metadata without `title` leaves the page as it was and keeps mode `replace` and separator `" - "` (lines 48 and 55) |
| `WikiSEOProperties.DefaultPolicyReplaces` | includes/WikiSEO.php:220-234 | with `title` but neither `title_mode` nor `title_separator`, a fresh object sets the HTML title to the meta title and keeps mode `replace` and separator `" - "` |
| `WikiSEOProperties.AppendWithSeparator` | includes/WikiSEO.php:216-226 | with mode `append` and a separator, the HTML title is page title ++ decoded separator ++ meta title when no part holds a line break |
| `Php.StripLineBreaks` | includes/WikiSEO.php:236 | the result holds no CR or LF and is no longer than the input |
| `Php.StripLineBreaksKeepsOthers` | includes/WikiSEO.php:236 | every character other than CR and LF occurs in the result as often as in the input |
| `Php.StripLineBreaksAppend` | includes/WikiSEO.php:236 | stripping distributes over concatenation, so the surviving characters keep their order |
| `Php.StripLineBreaksKeepsClean` | includes/WikiSEO.php:236 | a string without CR or LF is returned unchanged |
| `Php.StripLineBreaksIdentity` | includes/WikiSEO.php:236 | stripping leaves a string unchanged iff it holds no CR or LF |
| `Php.StripLineBreaksIdempotent` | includes/WikiSEO.php:236 | stripping twice equals stripping once |
| `WikiSEO.InstantiateMetadataPlugins` | includes/WikiSEO.php:159-172 | appends `MetaTag`, then one plugin per instantiable configured name in configuration order; appends one invalid-generator error per other name; instances added + errors added = 1 + configured names |
| `WikiSEO.ResolvablePartition` | includes/WikiSEO.php:162-171 | the instantiated and the reported names together are the configured names, with multiplicity; each known configured name is instantiated and each unknown one reported |
| `WikiSEO.ResolvableAppend` | includes/WikiSEO.php:162-171 | the names instantiated for a concatenated configuration are those of the first part followed by those of the second, so configuration order is kept |
| `WikiSEO.ResolvableMembers` | includes/WikiSEO.php:162-171 | instantiated names are configured and known classes; reported names are configured and unknown |
| `WikiSEO.AllResolvable` | includes/WikiSEO.php:162-171 | when every configured name is a known class, all are instantiated in order and no error is recorded |
| `WikiSEO.Dispatch` | includes/WikiSEO.php:130-133 | for each instance in list order, exactly `init` with the metadata and the page, followed by `addMetadata` |
| `WikiSEO.AddMetadataToPage` | includes/WikiSEO.php:126-134 | the title is rewritten first, and every generator's `init` receives the retitled page and the same, unchanged metadata; on a fresh object `MetaTag` is initialised and run first; apart from the title policy, only the instances and errors of the object change |
| `WikiSEO.MakeErrorHtml` | includes/WikiSEO.php:198-202 | the result opens with `<div class="errorbox">` and closes with `</div>`; with no errors it is just those; with one error it is that error's text between them; otherwise the last error's text sits right before `</div>` |
| `WikiSEOProperties.ErrorBoxGrows` | includes/WikiSEO.php:198-202 | one more error inserts `<br>` and its text just before `</div>`, leaving the earlier part unchanged |
| `WikiSEO.SaveMetadataToProps` | includes/WikiSEO.php:246-248 | the property `WikiSEO` holds the encoded metadata; every other property is unchanged |
| `WikiSEO.Finalize` | includes/WikiSEO.php:182-193 | returns `""` iff the metadata is non-empty; empty metadata appends `wiki-seo-empty-attr-<mode>`, writes no property and returns the error box over all errors; otherwise only `WikiSEO` is written |
| `WikiSEOProperties.FinalizeKeepsEarlierErrors` | includes/WikiSEO.php:182-188 | errors already on the object stay in the box, ahead of the empty-attributes message and separated from it by `<br>`; `finalize` is only called on fresh objects, so in the PHP this list is always empty |
| `WikiSEO.MergeTagAttributes` | includes/WikiSEO.php:264-266 | the merged keys are the union; an attribute wins over a body entry of the same name; other body entries are kept |
| `WikiSEO.FromTag` | includes/WikiSEO.php:260-271 | the tag renders `""` iff validation of the merged input leaves a non-empty value; then the filtered metadata is persisted; otherwise the output is the box with the single `wiki-seo-empty-attr-tag` message and nothing is persisted |
| `WikiSEO.ExpandArgs` | includes/WikiSEO.php:285-287 | one argument out per argument in, each the trimmed expansion of its input |
| `WikiSEO.FromParserFunction` | includes/WikiSEO.php:282-304 | the empty result array iff validation leaves a non-empty value (then the metadata is persisted); otherwise the box with the single `wiki-seo-empty-attr-parser` message and nothing persisted |
| `Php.LeadingTrimCount` | includes/WikiSEO.php:286 | the count covers only trim characters and stops at the first other character |
| `Php.TrailingTrimCount` | includes/WikiSEO.php:286 | the count covers only trailing trim characters and stops at the last other character |
| `Php.Trim` | includes/WikiSEO.php:286 | the result is a slice of the input that neither starts nor ends with a trim character, and everything removed on either side is trim characters |
| `Php.Implode` | includes/WikiSEO.php:199 | no parts give `""`; otherwise the length is the parts' total plus one separator between each neighbouring pair |
| `Php.ImplodeConcat` | includes/WikiSEO.php:199 | imploding two non-empty lists is imploding each and joining them with the separator |
| `Php.ImplodeEndsWithLast` | includes/WikiSEO.php:199 | the last part ends the imploded string |
| `WikiSEO.SetMetadataFromPageProps` | includes/WikiSEO.php:96-119 | no page title records `wiki-seo-missing-page-title` and keeps the metadata; otherwise the page_props row wins over the OutputPage property, which wins over `"{}"`, and the decoded blob goes through `SetMetadata` |
| `WikiSEOProperties.PersistedMetadataReplays` | includes/WikiSEO.php:108-118 | metadata persisted by `Finalize` is read back unchanged by a later replay, provided decoding inverts encoding and the validator leaves validated metadata alone |
| `WikiSEOProperties.AbsentPropsGiveEmptyMetadata` | includes/WikiSEO.php:113-118 | with no row and no OutputPage property, the replay gives empty metadata and no error, provided `"{}"` decodes to nothing and the validator adds nothing |
| `WikiSEO.ProtocolizeUrl` | includes/WikiSEO.php:314-320 | a URL with a scheme is returned unchanged; otherwise the request protocol and `:` are put in front; either way the URL ends the result |
| `WikiSEOProperties.ProtocolizeUrlIdempotent` | includes/WikiSEO.php:314-320 | applying the helper twice equals applying it once, given that the scheme test recognises the added prefix; `parse_url("http:80")` yields no scheme (host `http`, port `80`), so for `"80"` the assumption fails and a second call gives `"http:http:80"` |

## Left out

- The generators `MetaTag` and `OpenGraph`: their code is not part of this model. The model
  records only the calls made on them, not what they write to the page. That includes the
  verification tag names and the Open Graph head items their tests expect.
- `Validator::validateParams`, `TagParser`, `PPFrame::expand`, `html_entity_decode`,
  `json_encode`/`json_decode`, `wfMessage` and `parse_url` are uninterpreted fields of `Host`.
  Lemmas that depend on their behaviour name the assumption in their `requires`.
- Reflection in `instantiateMetadataPlugins` is a membership test against `Host.pluginClasses`.
- The page_props query is a lookup in a `PageProps` map. The database connection and the
  replica choice are I/O.
- PHP array order: metadata is a Dafny `map`. The order in which the validator returns entries
  matters only to the JSON text, which is opaque here.
- `array_merge` renumbers integer-like keys instead of overriding them. `MergeTagAttributes`
  treats every key as a string key.
- Booleans, numbers and floats as attribute values are not modelled. `switch` compares them
  loosely with `'append'` and `'prepend'`, and the result depends on the PHP version.
- An array-valued `title` or `title_separator` is converted to the text `"Array"`. PHP passes
  the array itself to `preg_replace` and `setHTMLTitle` in replace mode, and
  `html_entity_decode` rejects it.
- `json_decode` returning `null` for an unreadable blob is not modelled. PHP would then fail
  with a type error inside `setMetadata`.
- The `noparse`/`isHTML` flags of the parser function's result array: `FromParserFunction`
  returns `Some(html)` for the non-empty array and `None` for `[]`.

## Behaviour worth noting

The model keeps these behaviours of the PHP as written:

- A value is dropped only when PHP's `empty` holds for it: `""`, `"0"`, `null` or `[]`. Blank
  strings of spaces are kept.
- The tag and parser-function paths validate, persist and finalise only. Title rewriting and
  generator dispatch happen later, when the page is displayed, from the replayed metadata.
- `finalize` renders the error box only when the metadata is empty. With non-empty metadata
  it returns `""` even when errors were recorded.
- Invalid-generator errors are recorded on the display-time object. Neither `finalize` nor
  `makeErrorHtml` is called on that object, so they are never rendered.
