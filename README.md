# wagtail-asset-publisher: the inline asset pipeline, in Dafny

This project models the inline asset pipeline of wagtail-asset-publisher. At
publish time the pipeline finds the inline `<style>` and `<script>` blocks in
a page's rendered StreamField values. It fingerprints each block with a
truncated SHA-256 digest and builds the blocks into one stylesheet artifact
and one script artifact per loading strategy. It then records each artifact's
URL together with the fingerprints of the blocks it holds. At serve time the
middleware removes the inline copies whose fingerprints were published and
injects references to the artifacts.

The modules follow the package's files:

- `Text` (text.dfy): the Python string operations the package relies on, as
  functions with contracts. They cover `str.strip`, `str.find`, `str.replace`,
  `str.lstrip`, `str.lower`, `"sep".join` and `str(int)`.
- `Html` (html.dfy): the callback stream that `html.parser.HTMLParser`
  delivers. It also gives a view of that stream as segments: a
  `<style>`/`<script>` block, or any other single token.
- `Extractors` (extractors.dfy): `compute_content_hash`, the `AssetExtractor`
  class and its callbacks, `extract_assets` and `extract_assets_from_page`.
- `Middleware` (middleware.dfy): the `_TagStripper` class,
  `_strip_matching_tags`, `_escape_attr`, `_process_html`,
  `_is_preview_request`, and the per-page cache behind
  `_get_published_assets` and `invalidate_cache`.
- `Agreement` (agreement.dfy): the guarantee that ties extraction to
  stripping. Every block the extractor publishes under a fingerprint is
  removed by the stripper once that fingerprint is in the published set.
- `Conf` (conf.py → conf.dfy): `DEFAULTS` and `get_setting`.
- `Preview` (preview.dfy): `is_tailwind_builder` and
  `get_tailwind_cdn_script`.
- `Builders` (builders.dfy): `RawAssetBuilder.build`,
  `TailwindCSSBuilder.build`, `_build_input_css`, `_build_command` and
  `_get_cli_path`.
- `Publish` (publish.dfy): the orchestrator in `utils.py`, as a `Publisher`
  class. Its fields are the `PublishedAsset` table (a map keyed by page,
  asset type and loading strategy) and the storage backend's files (a set of
  paths). It also holds the middleware's cache.

Each stateful operation is a method whose contract ties the new state to a
specification function. For example, `ProcessJs` leaves exactly
`AfterJs(old state, …)`. The properties are proved as lemmas about those
functions.

The source and its description disagree in places. The model follows the
source:

- `ExtractedAsset` has only `content` and `content_hash`, yet `_process_js`
  reads `script.loading`. The extractor shown classifies no script by
  `type`/`async`/`defer`. Each script's loading strategy is therefore an
  input, `loadings`, and is blocking (`""`) past its end.
- `_process_html` injects one `<script src>` for `assets["js"]`, as a single
  entry. It does not inject one reference per loading strategy in a fixed
  order.
- The `PublishedAsset` schema declares `(page, asset_type)` unique, while
  `_process_js` keeps one row per page and loading strategy. The modelled
  table is keyed `(page, kind, loading)`, and stylesheet rows carry the
  loading strategy `""`.

## Model

| member | source | states |
|---|---|---|
| Text.TrimStartShape | src/wagtail_asset_publisher/extractors.py:73 | `strip`'s left half removes exactly a run of Python whitespace: the result is a suffix starting with a non-space |
| Text.TrimEndShape | src/wagtail_asset_publisher/extractors.py:73 | `strip`'s right half removes exactly a trailing run of whitespace: the result is a prefix ending with a non-space |
| Text.TrimEmptyIffAllSpace | src/wagtail_asset_publisher/extractors.py:73-74 | a body strips to `""` exactly when it is all whitespace; a non-empty stripped body starts and ends with a non-space |
| Text.TrimIdempotent | src/wagtail_asset_publisher/middleware.py:210 | stripping an already stripped body changes nothing |
| Text.ConcatAppend | src/wagtail_asset_publisher/middleware.py:187-188 | `"".join` of two buffers appended is the join of each, concatenated |
| Text.JoinLength | src/wagtail_asset_publisher/builders/raw.py:23 | a join of n items has the items' total length plus n-1 separators |
| Text.Find | src/wagtail_asset_publisher/utils.py:229 | `str.find`: the index of the first occurrence, and `None` exactly when the pattern occurs nowhere |
| Text.ReplaceFirstInserts | src/wagtail_asset_publisher/middleware.py:140 | `replace(marker, extra + marker, 1)` leaves a string without the marker unchanged and otherwise inserts `extra` right before the first marker |
| Text.LStrip | src/wagtail_asset_publisher/utils.py:221 | `lstrip("/")` removes exactly the leading slashes |
| Text.Lower | src/wagtail_asset_publisher/preview.py:18 | lower-casing maps each character and keeps the length |
| Text.NatToString | src/wagtail_asset_publisher/utils.py:60 | a page key prints as one or more decimal digits |
| Text.IntToStringInjective | src/wagtail_asset_publisher/utils.py:60 | different page keys print differently |
| Html.LeadingTexts | src/wagtail_asset_publisher/extractors.py:60-66 | the run of character data at the head of a stream, and the token that ends it |
| Html.BlockAt | src/wagtail_asset_publisher/extractors.py:41-87 | a `<style>`/`<script>` start tag, its data and its end tag when that comes next, form one block covering exactly those tokens |
| Html.NextSegment | src/wagtail_asset_publisher/middleware.py:190-258 | the first segment of a stream covers a non-empty prefix of it; a block is a style/script, and any other segment is not such a start tag |
| Html.SegmentsPartition | src/wagtail_asset_publisher/middleware.py:190-258 | cutting a stream into segments loses and reorders no token |
| Html.SegmentsCons | src/wagtail_asset_publisher/middleware.py:190-258 | a tokenised stream is its first segment followed by a tokenised rest; a block left open runs to the end |
| Extractors.Sha256HexShape | src/wagtail_asset_publisher/extractors.py:92 | a SHA-256 hex digest is 64 lowercase hexadecimal characters |
| Extractors.ContentHash | src/wagtail_asset_publisher/extractors.py:90-92 | the first `length` hex digits of the content's SHA-256 digest; its shape and truncation are stated by `ContentHashShape` and `ContentHashTruncates` |
| Extractors.ContentHashShape | src/wagtail_asset_publisher/extractors.py:90-92 | the fingerprint is a prefix of the digest, `min(length, 64)` long for a non-negative length (`[:length]` for a negative one), and made of `0-9a-f` only |
| Extractors.ContentHashTruncates | src/wagtail_asset_publisher/extractors.py:90-92 | the default length is 8; a shorter fingerprint is a prefix of a longer one |
| Extractors.OnStartTag | src/wagtail_asset_publisher/extractors.py:41-58 | a non-style/script tag changes nothing; a style/script tag opens a block that collects its data exactly when it is not exempt |
| Extractors.OnData | src/wagtail_asset_publisher/extractors.py:60-66 | data is buffered only inside an open block that is neither skipped nor external, and nothing else changes |
| Extractors.OnEndTag | src/wagtail_asset_publisher/extractors.py:68-87 | a different end tag changes nothing; the open block's end tag appends its trimmed body, when non-empty, to its own list and resets every per-block field |
| Extractors.RunAppend | src/wagtail_asset_publisher/extractors.py:104-105 | feeding two streams one after the other equals feeding their concatenation |
| Extractors.RunKeepsWellFormed | src/wagtail_asset_publisher/extractors.py:72-82 | emitted assets only accumulate, each well formed |
| Extractors.ExtractedAreWellFormed | src/wagtail_asset_publisher/extractors.py:73-78 | every asset has a non-empty, already trimmed body whose fingerprint is its 8-character hash |
| Extractors.OpenBlockRun | src/wagtail_asset_publisher/extractors.py:41-66 | a style/script start tag and its data emit nothing yet and buffer the body exactly when the block is not exempt |
| Extractors.SegmentRun | src/wagtail_asset_publisher/extractors.py:41-87 | from an idle extractor, one segment's tokens emit exactly what the segment yields |
| Extractors.ClosedBlockRun | src/wagtail_asset_publisher/extractors.py:41-87 | a whole closed block emits what it yields and leaves the extractor idle |
| Extractors.RunBySegments | src/wagtail_asset_publisher/extractors.py:41-87 | over a tokenised stream the styles and scripts grow by exactly the yields of the style and script blocks, in order |
| Extractors.ExtractedBySegments | src/wagtail_asset_publisher/extractors.py:95-106 | `extract_assets` returns the trimmed bodies of the closed style blocks and of the closed script blocks, in document order, leaving out exempt and blank blocks |
| Extractors.ExtractedAppend | src/wagtail_asset_publisher/extractors.py:84-87 | blocks do not interfere: after a prefix that leaves the extractor idle, the rest adds what it adds on its own |
| Extractors.RunShift | src/wagtail_asset_publisher/extractors.py:79-82 | earlier emissions are carried along unchanged by any later callbacks |
| Extractors.OnlyExemptionAttributesMatter | src/wagtail_asset_publisher/extractors.py:45-58 | no attribute but `data-no-extract` and, for a script, `src` affects a start tag |
| Extractors.AssetExtractor.HandleStartTag | src/wagtail_asset_publisher/extractors.py:41-58 | the object's fields become `OnStartTag` of their old values |
| Extractors.AssetExtractor.HandleData | src/wagtail_asset_publisher/extractors.py:60-66 | the object's fields become `OnData` of their old values |
| Extractors.AssetExtractor.HandleEndTag | src/wagtail_asset_publisher/extractors.py:68-87 | the object's fields become `OnEndTag` of their old values |
| Extractors.AssetExtractor.Feed | src/wagtail_asset_publisher/extractors.py:105 | feeding a stream runs the callbacks in order |
| Extractors.ExtractAssets | src/wagtail_asset_publisher/extractors.py:95-106 | returns the styles and scripts of the fold over the page's callback stream |
| Extractors.PageExtractedAppend | src/wagtail_asset_publisher/extractors.py:119-133 | extraction from a page is the concatenation, in field order, of the extractions from its parts |
| Extractors.ExtractAssetsFromPage | src/wagtail_asset_publisher/extractors.py:109-133 | the loop returns the field-by-field concatenation, skipping falsy values |
| Middleware.OnStripStartTag | src/wagtail_asset_publisher/middleware.py:190-206 | inside a candidate start tags are dropped; outside, a non-exempt style/script is held back as a candidate, and every other tag is copied as its raw text |
| Middleware.EndTagOutcome | src/wagtail_asset_publisher/middleware.py:208-225 | outside a candidate the end tag is copied; another tag inside a candidate is dropped; the candidate's own end tag drops the block exactly when the fingerprint of its trimmed body is in its tag's set, else writes start text, untrimmed body and `</tag>` |
| Middleware.OnStripText | src/wagtail_asset_publisher/middleware.py:227-245 | data and references go to the candidate's buffer when one is open, else to the output |
| Middleware.StripRunAppend | src/wagtail_asset_publisher/middleware.py:268 | feeding two streams in turn equals feeding their concatenation |
| Middleware.StepCopiesOutside | src/wagtail_asset_publisher/middleware.py:205-258 | outside a candidate, every token but a candidate's start tag is written back as it came |
| Middleware.RunCopiesOutside | src/wagtail_asset_publisher/middleware.py:224-258 | a stream without candidate start tags is copied whole, in order |
| Middleware.TagStripper.HandleStartTag | src/wagtail_asset_publisher/middleware.py:190-206 | the fields become `OnStripStartTag` of their old values |
| Middleware.TagStripper.HandleEndTag | src/wagtail_asset_publisher/middleware.py:208-225 | the fields become `OnStripEndTag` of their old values |
| Middleware.TagStripper.HandleData | src/wagtail_asset_publisher/middleware.py:227-231 | the fields become `OnStripText` of their old values |
| Middleware.TagStripper.HandleEntityRef | src/wagtail_asset_publisher/middleware.py:233-238 | `&name;` is buffered or copied like data |
| Middleware.TagStripper.HandleCharRef | src/wagtail_asset_publisher/middleware.py:240-245 | `&#name;` is buffered or copied like data |
| Middleware.TagStripper.HandleComment | src/wagtail_asset_publisher/middleware.py:247-249 | a comment is copied outside a candidate and dropped inside |
| Middleware.TagStripper.HandleDecl | src/wagtail_asset_publisher/middleware.py:251-252 | a declaration is always copied |
| Middleware.TagStripper.HandlePI | src/wagtail_asset_publisher/middleware.py:254-255 | a processing instruction is always copied |
| Middleware.TagStripper.UnknownDecl | src/wagtail_asset_publisher/middleware.py:257-258 | an unknown declaration is always copied |
| Middleware.TagStripper.Feed | src/wagtail_asset_publisher/middleware.py:268 | feeding a stream runs the callbacks in order |
| Middleware.StripMatchingTags | src/wagtail_asset_publisher/middleware.py:261-269 | returns the joined output of the stripper fed the page's stream |
| Middleware.EscChars | src/wagtail_asset_publisher/middleware.py:150-157 | escaping character by character leaves no `"`, `<` or `>` |
| Middleware.EscapeAttr | src/wagtail_asset_publisher/middleware.py:150-157 | the four chained replacements, `&` first; `EscapeAttrByChars`, `EscapedIsAttributeSafe`, `EscapeAttrIdentity` and `UnescapeEscapeAttr` state what it guarantees |
| Middleware.EscapeAttrByChars | src/wagtail_asset_publisher/middleware.py:150-157 | the four chained replacements, `&` first, act on each character on its own |
| Middleware.EscapedIsAttributeSafe | src/wagtail_asset_publisher/middleware.py:150-157 | an escaped value contains no `"`, `<` or `>` |
| Middleware.EscapeAttrIdentity | src/wagtail_asset_publisher/middleware.py:150-157 | a value free of `&"<>` is left as it is |
| Middleware.UnescapeEscapeAttr | src/wagtail_asset_publisher/middleware.py:150-157 | undoing the four replacements in the same chained way, `&amp;` last, gives the value back, so escaping loses nothing |
| Middleware.ProcessHtml | src/wagtail_asset_publisher/middleware.py:125-147 | strip only when some fingerprint is published, then inject the stylesheet link before the first `</head>` and the script before the first `</body>`; stated by `ProcessHtmlWithoutAssets`, `EmptySetsSkipStripper`, `CssInjectedBeforeHead` and `JsInjectedBeforeBody` |
| Middleware.ProcessHtmlWithoutAssets | src/wagtail_asset_publisher/middleware.py:125-147 | a page without published assets is served unchanged |
| Middleware.EmptySetsSkipStripper | src/wagtail_asset_publisher/middleware.py:134-135 | with both fingerprint sets empty the stripper is not run; only the references are injected |
| Middleware.CssInjectedBeforeHead | src/wagtail_asset_publisher/middleware.py:137-140 | the escaped `<link rel="stylesheet">` and a newline go right before the first `</head>`; without one the page is unchanged |
| Middleware.JsInjectedBeforeBody | src/wagtail_asset_publisher/middleware.py:142-145 | the escaped `<script src>` and a newline go right before the first `</body>`; without one the page is unchanged |
| Middleware.IsPreviewRequest | src/wagtail_asset_publisher/middleware.py:59-68 | a preview request is flagged, or its path contains `/edit/preview/` or ends with `/preview/` |
| Middleware.CacheKey | src/wagtail_asset_publisher/middleware.py:107 | the prefix followed by the page id, the same text `invalidate_cache` deletes; `CacheKeyInjective` states that pages never share one |
| Middleware.CacheKeyInjective | src/wagtail_asset_publisher/middleware.py:272-279 | different pages never share a cache key |
| Middleware.AssetsFromKeys | src/wagtail_asset_publisher/middleware.py:114-119 | the map a miss builds has exactly the asset types of the page's rows |
| Middleware.AssetsFromLastWins | src/wagtail_asset_publisher/middleware.py:115-119 | a later row of a type overwrites an earlier one: each type maps to its last row |
| Middleware.AssetCache.GetPublishedAssets | src/wagtail_asset_publisher/middleware.py:105-122 | a hit returns the stored map and changes nothing; a miss builds the map from the rows, stores it under the page's key and returns it |
| Middleware.AssetCache.InvalidateCache | src/wagtail_asset_publisher/middleware.py:272-279 | drops the page's entry and keeps every other page's |
| Agreement.CopyDataRun | src/wagtail_asset_publisher/middleware.py:227-231 | data outside a candidate goes to the output, chunk by chunk |
| Agreement.HoldDataRun | src/wagtail_asset_publisher/middleware.py:227-229 | data inside a candidate goes to its buffer, chunk by chunk |
| Agreement.ExemptBlockStrip | src/wagtail_asset_publisher/middleware.py:191-199 | an exempt block is copied whole |
| Agreement.CandidateBlockStrip | src/wagtail_asset_publisher/middleware.py:200-223 | a candidate block writes only what its end tag decides; left open it writes nothing |
| Agreement.StripBySegments | src/wagtail_asset_publisher/middleware.py:190-258 | the stripper's output over a tokenised stream is what its segments write, in order |
| Agreement.StrippedBySegments | src/wagtail_asset_publisher/middleware.py:261-269 | `_strip_matching_tags` is the join of the segments' outputs |
| Agreement.YieldsOfOrigin | src/wagtail_asset_publisher/extractors.py:79-82 | every extracted asset comes from a block of the page with that tag that yields exactly it |
| Agreement.YieldStripped | src/wagtail_asset_publisher/middleware.py:209-214 | a block whose asset's fingerprint is in its tag's set writes nothing, because both scanners trim and fingerprint alike |
| Agreement.PublishedBlocksAreStripped | src/wagtail_asset_publisher/middleware.py:193-214 | every style (script) that `extract_assets` returns with a fingerprint in the CSS (JS) set comes from a block the stripper leaves out entirely |
| Agreement.FieldBlocksAreStripped | src/wagtail_asset_publisher/extractors.py:123-128 | with the extractor reading one field's markup alone and the stripper the whole response around it, the field's part of the stripped response is its segments' outputs, and each published style or script extracted from the field comes from a block whose output there is empty |
| Agreement.RenderAllAppend | src/wagtail_asset_publisher/middleware.py:224-258 | a copied stream renders piece by piece |
| Agreement.SegmentRendered | src/wagtail_asset_publisher/middleware.py:214-218 | every segment but a matching or unclosed candidate is written back exactly as its tokens render |
| Agreement.UnmatchedPageCopied | src/wagtail_asset_publisher/middleware.py:214-218 | when no closed candidate matches, the page is written back whole |
| Agreement.EmptySetsKeepPage | src/wagtail_asset_publisher/middleware.py:214-218 | with both sets empty, a page whose candidate blocks are all closed comes back as it went in |
| Conf.GetSetting | src/wagtail_asset_publisher/conf.py:37-41 | a user value wins; else an explicit default (even `None`); else the package default; else `None` |
| Conf.UserValueWins | src/wagtail_asset_publisher/conf.py:41 | a user value wins even when it is falsy |
| Conf.MissingSettingsAreEmpty | src/wagtail_asset_publisher/conf.py:39 | without the project attribute, lookups behave as with an empty dictionary |
| Conf.DefaultLayout | src/wagtail_asset_publisher/conf.py:7-31 | the defaults: 8-character fingerprints, `page-assets/css/` and `page-assets/js/`, the raw builder, minified CSS and no obfuscation |
| Preview.IsTailwindPath | src/wagtail_asset_publisher/preview.py:18 | true exactly when the lower-cased path contains `tailwind` |
| Preview.CaseInsensitive | src/wagtail_asset_publisher/preview.py:18 | any mix of upper and lower case spelling `tailwind` makes the test true |
| Preview.IsTailwindBuilder | src/wagtail_asset_publisher/preview.py:15-18 | `IsTailwindPath` of the `CSS_BUILDER` setting, which that function's contract states is true exactly when the lower-cased path contains `tailwind` |
| Preview.UpperCaseNameIsTailwind | src/wagtail_asset_publisher/preview.py:18 | a path containing `TAILWIND` is a Tailwind builder path |
| Preview.CdnScriptTag | src/wagtail_asset_publisher/preview.py:24 | the tag starts with `<script src="`, ends with `"></script>` and holds the URL verbatim between them |
| Preview.CdnScriptTagInjective | src/wagtail_asset_publisher/preview.py:24 | different URLs give different tags |
| Preview.TailwindCdnScript | src/wagtail_asset_publisher/preview.py:21-24 | the tag holds the configured URL's text verbatim |
| Preview.DefaultCdnScript | src/wagtail_asset_publisher/conf.py:30 | with no project setting the tag points at the package's default CDN URL |
| Builders.RawBuild | src/wagtail_asset_publisher/builders/raw.py:15-23 | `""` for no items, the item itself for one; otherwise the items' total length plus 2 per separator, non-empty when every item is |
| Builders.RawIgnoresPageAndType | src/wagtail_asset_publisher/builders/raw.py:15-23 | the result depends on neither the page markup nor the asset type |
| Builders.JoinIsInterleaved | src/wagtail_asset_publisher/builders/raw.py:23 | the join is the first item followed by `"\n\n"` and each further item, in order |
| Builders.TailwindBuild | src/wagtail_asset_publisher/builders/tailwind.py:32-52 | its three branches are stated by `TailwindJoinsNonCss`, `TailwindNothingToScan` and `TailwindFallback` |
| Builders.TailwindJoinsNonCss | src/wagtail_asset_publisher/builders/tailwind.py:38-41 | for a non-CSS asset the result is the raw join, whatever the CLI would do |
| Builders.TailwindNothingToScan | src/wagtail_asset_publisher/builders/tailwind.py:43-46 | CSS with no markup and nothing extracted is `""` without running the CLI |
| Builders.TailwindFallback | src/wagtail_asset_publisher/builders/tailwind.py:43-52 | otherwise the CLI's output is the result; a subprocess, file-not-found or OS error falls back to the stripped custom stylesheet; any other exception propagates |
| Builders.TailwindBuilder | src/wagtail_asset_publisher/builders/tailwind.py:30 | the Tailwind builder asks for the page markup |
| Builders.InputCssShape | src/wagtail_asset_publisher/builders/tailwind.py:75-86 | the input starts with its base (`@import "tailwindcss";` by default, the file's text when configured, whose read error propagates) and adds `"\n"+custom+"\n"` only for non-empty custom styles |
| Builders.BuildCommand | src/wagtail_asset_publisher/builders/tailwind.py:88-111 | exactly the eight fixed arguments, followed by `--config` and its path only when `TAILWIND_CONFIG` is truthy |
| Builders.GetCliPath | src/wagtail_asset_publisher/builders/tailwind.py:54-73 | the configured path, else the optional package's path, else `tailwindcss` |
| Publish.DefaultConfig | src/wagtail_asset_publisher/conf.py:14-26 | the orchestrator's defaults: `page-assets/` prefixes, 8-character fingerprints, minified CSS, unobfuscated JS |
| Publish.FromFirst | src/wagtail_asset_publisher/utils.py:229-231 | `path[idx:]` is a tail of the path that starts with the prefix |
| Publish.ExtractPathFromUrl | src/wagtail_asset_publisher/utils.py:218-232 | the URL path without leading slashes when it starts with a prefix, else its tail from the first prefix found, else `""`; stated by `StoragePathShape` and `StoredNameRecovered` |
| Publish.StoragePathShape | src/wagtail_asset_publisher/utils.py:218-232 | the result is `""` or a tail of the URL's path starting with a prefix; a path already starting with one is kept whole; a non-empty path gives `""` exactly when neither prefix occurs |
| Publish.StoredNameRecovered | src/wagtail_asset_publisher/utils.py:218-225 | a URL whose path is `/` and a stored name with a prefix gives that name back |
| Publish.CssFilename | src/wagtail_asset_publisher/utils.py:58-60 | the stylesheet name starts with the CSS prefix and ends with `.css` |
| Publish.JsFilename | src/wagtail_asset_publisher/utils.py:103-106 | a script name starts with the JS prefix and ends with `.js` |
| Publish.JsFilenameInjective | src/wagtail_asset_publisher/utils.py:103-106 | with fingerprints of one length, one page's script names coincide only for the same fingerprint and loading strategy |
| Publish.JsArtifactsApart | src/wagtail_asset_publisher/utils.py:103-106 | groups with different loading strategies never share an artifact name |
| Publish.ClearOneMore | src/wagtail_asset_publisher/utils.py:199-215 | deleting one more row removes that row and, when its path is non-empty, its file |
| Publish.FirstSeen | src/wagtail_asset_publisher/utils.py:82-84 | the groups' keys: each loading strategy of the scripts exactly once |
| Publish.Group | src/wagtail_asset_publisher/utils.py:82-84 | a group holds only scripts with its loading strategy |
| Publish.GroupOfUnseen | src/wagtail_asset_publisher/utils.py:82-84 | a strategy no script has has an empty group |
| Publish.GroupsPartition | src/wagtail_asset_publisher/utils.py:82-84 | the groups together hold every script exactly once |
| Publish.AtMostOneCssRow | src/wagtail_asset_publisher/utils.py:193-204 | a page has at most one stylesheet row, so `get` never sees two |
| Publish.ClearNothing | src/wagtail_asset_publisher/utils.py:203-204 | clearing no rows changes nothing |
| Publish.CssTouchesOnlyCssSlot | src/wagtail_asset_publisher/utils.py:34-72 | `_process_css` keeps the page's script rows and every other page's rows |
| Publish.CssSlotOutcome | src/wagtail_asset_publisher/utils.py:44-70 | a failed build changes nothing; an empty build leaves no stylesheet row (no change when there was none); otherwise exactly one row, with all extracted styles' fingerprints in order, and the artifact stored |
| Publish.WriteGroupsOthers | src/wagtail_asset_publisher/utils.py:92-121 | the group loop touches only the rows of its groups |
| Publish.WriteGroupsRows | src/wagtail_asset_publisher/utils.py:92-115 | each group has a row exactly when its build is non-empty, with its own artifact's URL and its own scripts' fingerprints |
| Publish.WriteGroupsFiles | src/wagtail_asset_publisher/utils.py:92-108 | the group loop adds exactly the published artifacts to storage |
| Publish.JsRecordsExactly | src/wagtail_asset_publisher/utils.py:75-123 | after `_process_js` the page's script rows are exactly its published groups, each with its own fingerprints; other rows are untouched; the old files are gone and the new artifacts stored |
| Publish.GroupByLoading | src/wagtail_asset_publisher/utils.py:82-84 | the loop builds one group per strategy, keyed in first-seen order, each group in document order; no scripts gives no groups |
| Publish.Publisher.Save | src/wagtail_asset_publisher/utils.py:64 | the file is stored and its URL returned; rows unchanged |
| Publish.Publisher.ClearAsset | src/wagtail_asset_publisher/utils.py:193-204 | with more than one row `get` raises and nothing changes; else the row (if any) and its file are deleted |
| Publish.Publisher.ClearJsAssets | src/wagtail_asset_publisher/utils.py:207-215 | the loop deletes every script row of the page with its file |
| Publish.Publisher.ProcessCss | src/wagtail_asset_publisher/utils.py:34-72 | the new state is `AfterCss` of the old one; the cache entry is dropped on both normal exits and kept when the build raises |
| Publish.Publisher.PublishCss | src/wagtail_asset_publisher/utils.py:55-70 | minify, fingerprint, clear, save and upsert leave `WriteCss` of the old state |
| Publish.Publisher.ProcessJs | src/wagtail_asset_publisher/utils.py:75-123 | the new state is `AfterJs` of the old one; the cache entry is dropped on both normal exits and kept when a build raises |
| Publish.Publisher.PublishGroups | src/wagtail_asset_publisher/utils.py:92-121 | the loop over the groups leaves `WriteGroups` of the old state |
| Publish.Publisher.BuildPageAssets | src/wagtail_asset_publisher/utils.py:27-31 | stylesheets, then scripts, and a raised exception stops the rest |

## Left out

- HTML tokenisation is not modelled. Both scanners run over an abstract callback stream (`Html.Tokenize`). It is only assumed to deliver a style/script start tag's content as character data up to its own end tag. Nothing is claimed about byte-level fidelity to the raw input.
- The extractor's parser converts character references (`convert_charrefs=True`) and the stripper's does not. The model gives both one stream, with references as separate tokens. The extractor ignores references, which only occur outside raw-text blocks, where it collects nothing.
- SHA-256 is an uninterpreted function whose results are 64 lowercase hexadecimal characters. Collision resistance is not modelled: different content may share a fingerprint.
- Agreement.FieldBlocksAreStripped: the extractor parses each StreamField's `str(stream_value)` on its own, and the stripper parses the whole response. The lemma assumes that the field's markup appears verbatim in the response and tokenises there as it does alone. It also assumes that the response before the field leaves no style/script candidate open. Template markup that breaks either assumption is not covered.
- `urlparse(url).path` is an uninterpreted function (`Publish.UrlPath`).
- `_run_tailwind`, `_minify_css`, `_optimize_js` and `_find_terser` run subprocesses. They are parameters: a `TailwindRun` that may raise, and `minifyCss`/`optimizeJs` in `Publish.Env`. The django-tailwind-cli probe is the `packagePath` parameter of `GetCliPath`.
- `Path.read_text` in `_build_input_css` is the `readFile` parameter.
- Storage is a set of file paths. File contents, name-collision renaming by the Django storage backend and the storage classes themselves are not modelled. `Save` stores the name it is given, and its URL is `Env.urlOf`.
- The class reflection of `get_builder`, `get_storage` and `import_class` is not modelled. The builder instance and the configuration are parameters.
- Django and Wagtail plumbing is not modelled: `AssetPublisherMiddleware.__call__`, `_handle_preview`, `_get_page`, signals, hooks and the management command.
- `get_page_html_for_tailwind` renders a template. Its result is the `pageHtml` parameter.
- The cache's five-minute expiry is not modelled. The cache is a map with explicit invalidation only.
- The `PublishedAsset` schema's `(page, asset_type)` uniqueness is stale (see above). Only the stylesheet half of it is kept, as `Publisher.Valid`.
- Each script's loading strategy is an input, because `ExtractedAsset` has no `loading` field.
- Publish.Publisher.PublishGroups: when a group's build raises, the model states the rows already written, the ones `WriteGroups` gives, and that the exception propagates. The Django transaction behaviour around that exception is not modelled.
- Publish.Publisher.ClearAsset: `MultipleObjectsReturned` is reported as `raised` rather than propagated. The callers only call it when the page has at most one stylesheet row, so it never happens there.
- `Text.Lower` folds ASCII letters only. Python's `str.lower` also lower-cases other scripts, which does not affect the test for `tailwind`.
- Preview.TailwindCdnScript: a list-valued `TAILWIND_CDN_URL` is excluded by its `requires`. For other values, the f-string's rendering of a value is modelled by `Show`.
- Middleware.TagStripper: the fingerprint function is a field that the constructor sets to `_compute_hash`. This keeps the stripper's own proofs free of the digest.
- The test that different content gives different fingerprints is probabilistic and is not stated.
