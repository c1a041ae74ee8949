/** Build orchestration (`utils.py`): extract a page's inline assets, build
    them, publish the artifacts to storage and record them, per page, in the
    `PublishedAsset` table. The table is a map keyed by page, asset type and
    loading strategy; storage is the set of stored paths; builders, minifiers,
    the storage URL scheme and URL parsing are abstract. */
module Publish {
  import opened Text
  import opened Conf
  import opened Html
  import opened Extractors
  import opened Builders
  import opened Middleware

  /** The settings the orchestrator reads through `get_setting`. */
  datatype Config = Config(
    cssPrefix: string,
    jsPrefix: string,
    hashLength: int,
    minifyCss: bool,
    obfuscateJs: bool)

  /** The settings have the types the orchestrator uses them at. */
  predicate WellTypedSettings(settings: Settings) {
    GetSetting(settings, "CSS_PREFIX").Str? &&
    GetSetting(settings, "JS_PREFIX").Str? &&
    GetSetting(settings, "HASH_LENGTH").Int?
  }

  function ConfigOf(settings: Settings): Config
    requires WellTypedSettings(settings)
  {
    Config(
      GetSetting(settings, "CSS_PREFIX").s,
      GetSetting(settings, "JS_PREFIX").s,
      GetSetting(settings, "HASH_LENGTH").i,
      Truthy(GetSetting(settings, "MINIFY_CSS")),
      Truthy(GetSetting(settings, "OBFUSCATE_JS")))
  }

  /** A project without settings publishes under `page-assets/`, with 8
      character fingerprints, minified CSS and unobfuscated scripts. */
  lemma DefaultConfig()
    ensures WellTypedSettings(None)
    ensures ConfigOf(None) == Config("page-assets/css/", "page-assets/js/", 8, true, false)
  {
  }

  /** The pieces outside this package: the settings, the URL the storage
      backend returns for a saved name, and the CSS minifier and JS optimiser
      (each the identity when its tool is missing). */
  datatype Env = Env(
    cfg: Config,
    urlOf: string -> string,
    minifyCss: string -> string,
    optimizeJs: string -> string)

  /** `urlparse(url).path`, left uninterpreted. */
  type UrlParser = f: string -> string | true
    witness (url: string) => url

  const UrlPath: UrlParser

  /** The path part of a URL without its leading slashes. */
  function PathPart(url: string): string {
    LStrip(UrlPath(url), '/')
  }

  /** The search `_extract_path_from_url` makes in a URL's path: the path
      itself when it starts with one of the two prefixes, else the rest of
      the path from the first occurrence of the CSS prefix, else from the
      first occurrence of the JS prefix, else `""`. */
  function StoragePathIn(path: string, cfg: Config): string {
    if StartsWith(path, cfg.cssPrefix) || StartsWith(path, cfg.jsPrefix) then
      path
    else if Find(path, cfg.cssPrefix).Some? then
      FromFirst(path, cfg.cssPrefix)
    else if Find(path, cfg.jsPrefix).Some? then
      FromFirst(path, cfg.jsPrefix)
    else
      ""
  }

  /** The rest of `s` from the first occurrence of `pat`. */
  function FromFirst(s: string, pat: string): (r: string)
    requires Find(s, pat).Some?
    ensures EndsWith(s, r) && StartsWith(r, pat)
  {
    var i := Find(s, pat).value;
    assert s[i..][..|pat|] == s[i..i + |pat|];
    s[i..]
  }

  /** `_extract_path_from_url(url)`. */
  function ExtractPathFromUrl(url: string, cfg: Config): string {
    StoragePathIn(PathPart(url), cfg)
  }

  /** The storage path is `""` or a tail of the URL's path that starts with
      one of the prefixes; a path that already starts with one is kept
      whole; `""` comes back exactly when neither prefix occurs (for a
      non-empty path). */
  lemma StoragePathShape(path: string, cfg: Config)
    ensures var r := StoragePathIn(path, cfg);
      r != "" ==> EndsWith(path, r) && (StartsWith(r, cfg.cssPrefix) || StartsWith(r, cfg.jsPrefix))
    ensures StartsWith(path, cfg.cssPrefix) || StartsWith(path, cfg.jsPrefix) ==> StoragePathIn(path, cfg) == path
    ensures StoragePathIn(path, cfg) == "" && path != "" ==>
      forall j :: !OccursAt(path, cfg.cssPrefix, j) && !OccursAt(path, cfg.jsPrefix, j)
    ensures (forall j :: !OccursAt(path, cfg.cssPrefix, j) && !OccursAt(path, cfg.jsPrefix, j)) ==>
      StoragePathIn(path, cfg) == ""
  {
    if StartsWith(path, cfg.cssPrefix) {
      assert OccursAt(path, cfg.cssPrefix, 0);
      assert path[|path| - |path|..] == path;
    } else if StartsWith(path, cfg.jsPrefix) {
      assert OccursAt(path, cfg.jsPrefix, 0);
      assert path[|path| - |path|..] == path;
    }
  }

  /** A URL whose path is a slash and then a stored name that starts with
      one of the prefixes gives that name back. */
  lemma {:induction false} StoredNameRecovered(url: string, cfg: Config, name: string)
    requires UrlPath(url) == "/" + name
    requires name != "" && name[0] != '/'
    requires StartsWith(name, cfg.cssPrefix) || StartsWith(name, cfg.jsPrefix)
    ensures ExtractPathFromUrl(url, cfg) == name
  {
    var s := UrlPath(url);
    var r := PathPart(url);
    assert s[1..] == name;
    assert r == s[1..];
    assert StoragePathIn(r, cfg) == r;
  }

  /** The `-<loading>` part of a script artifact's name, absent for the
      blocking group. */
  function LoadingSuffix(loading: string): string {
    if loading != "" then "-" + loading else ""
  }

  /** `{CSS_PREFIX}{pk}-{hash}.css`. */
  function CssFilename(cfg: Config, pk: int, h: string): (r: string)
    ensures StartsWith(r, cfg.cssPrefix) && EndsWith(r, ".css")
  {
    var r := cfg.cssPrefix + IntToString(pk) + "-" + h + ".css";
    assert r == cfg.cssPrefix + (IntToString(pk) + "-" + h + ".css");
    r
  }

  /** `{JS_PREFIX}{pk}-{hash}{-loading}.js`. */
  function JsFilename(cfg: Config, pk: int, h: string, loading: string): (r: string)
    ensures StartsWith(r, cfg.jsPrefix) && EndsWith(r, ".js")
  {
    var r := cfg.jsPrefix + IntToString(pk) + "-" + h + LoadingSuffix(loading) + ".js";
    assert r == cfg.jsPrefix + (IntToString(pk) + "-" + h + LoadingSuffix(loading) + ".js");
    r
  }

  /** Two script artifacts of one page with fingerprints of one length have
      the same name only for the same fingerprint and loading strategy, so
      loading groups never overwrite each other's file. */
  lemma JsFilenameInjective(cfg: Config, pk: int, h1: string, h2: string, l1: string, l2: string)
    requires |h1| == |h2|
    requires JsFilename(cfg, pk, h1, l1) == JsFilename(cfg, pk, h2, l2)
    ensures h1 == h2 && l1 == l2
  {
    var p := cfg.jsPrefix + IntToString(pk) + "-";
    var n1, n2 := JsFilename(cfg, pk, h1, l1), JsFilename(cfg, pk, h2, l2);
    var t1, t2 := LoadingSuffix(l1) + ".js", LoadingSuffix(l2) + ".js";
    assert n1 == p + (h1 + t1) by {
      SeqAssoc(p, h1, LoadingSuffix(l1));
      SeqAssoc(p + h1, LoadingSuffix(l1), ".js");
      SeqAssoc(p, h1 + LoadingSuffix(l1), ".js");
      SeqAssoc(h1, LoadingSuffix(l1), ".js");
    }
    assert n2 == p + (h2 + t2) by {
      SeqAssoc(p, h2, LoadingSuffix(l2));
      SeqAssoc(p + h2, LoadingSuffix(l2), ".js");
      SeqAssoc(p, h2 + LoadingSuffix(l2), ".js");
      SeqAssoc(h2, LoadingSuffix(l2), ".js");
    }
    assert n1[|p|..] == h1 + t1 && n2[|p|..] == h2 + t2;
    assert h1 == (h1 + t1)[..|h1|] && h2 == (h2 + t2)[..|h2|];
    assert t1 == (h1 + t1)[|h1|..] && t2 == (h2 + t2)[|h2|..];
    assert LoadingSuffix(l1) == t1[..|t1| - 3] && LoadingSuffix(l2) == t2[..|t2| - 3];
    if l1 != "" && l2 != "" {
      assert l1 == LoadingSuffix(l1)[1..] && l2 == LoadingSuffix(l2)[1..];
    }
  }

  /** Script artifacts of one page, fingerprinted at one length, differ
      whenever their loading strategies differ. */
  lemma JsArtifactsApart(cfg: Config, pk: int, c1: string, c2: string, l1: string, l2: string)
    requires l1 != l2
    ensures JsFilename(cfg, pk, ContentHash(c1, cfg.hashLength), l1) != JsFilename(cfg, pk, ContentHash(c2, cfg.hashLength), l2)
  {
    ContentHashShape(c1, cfg.hashLength);
    ContentHashShape(c2, cfg.hashLength);
    if JsFilename(cfg, pk, ContentHash(c1, cfg.hashLength), l1) == JsFilename(cfg, pk, ContentHash(c2, cfg.hashLength), l2) {
      JsFilenameInjective(cfg, pk, ContentHash(c1, cfg.hashLength), ContentHash(c2, cfg.hashLength), l1, l2);
    }
  }

  /** A `PublishedAsset` row's key: page, asset type and loading strategy
      (`""` for stylesheets and for blocking scripts). */
  datatype RecordKey = RecordKey(page: int, kind: string, loading: string)

  /** The rest of a row: the artifact's URL and the fingerprints of the
      inline blocks it replaces, in document order. */
  datatype Record = Record(url: string, contentHashes: seq<string>)

  /** The record table and the stored files. */
  datatype Store = Store(records: map<RecordKey, Record>, files: set<string>)

  /** The keys of one page's rows of one asset type. */
  function KeysOf(records: map<RecordKey, Record>, page: int, kind: string): (ks: set<RecordKey>)
    ensures ks <= records.Keys
    ensures forall k :: k in ks <==> k in records && k.page == page && k.kind == kind
  {
    set k | k in records && k.page == page && k.kind == kind
  }

  /** The storage paths behind some rows. */
  function PathsOf(records: map<RecordKey, Record>, ks: set<RecordKey>, cfg: Config): set<string>
    requires ks <= records.Keys
  {
    set k | k in ks :: ExtractPathFromUrl(records[k].url, cfg)
  }

  /** Deleting rows: each row's file goes when its path is non-empty (and
      present), and the row goes in any case. */
  function ClearKeys(st: Store, ks: set<RecordKey>, cfg: Config): Store
    requires ks <= st.records.Keys
  {
    Store(st.records - ks, st.files - (PathsOf(st.records, ks, cfg) - {""}))
  }

  /** The paths behind one more row. */
  lemma PathsOfOneMore(records: map<RecordKey, Record>, done: set<RecordKey>, k: RecordKey, cfg: Config)
    requires done <= records.Keys && k in records
    ensures PathsOf(records, done + {k}, cfg) == PathsOf(records, done, cfg) + {ExtractPathFromUrl(records[k].url, cfg)}
  {
    var before, after := PathsOf(records, done, cfg), PathsOf(records, done + {k}, cfg);
    forall p | p in after ensures p in before || p == ExtractPathFromUrl(records[k].url, cfg) {
      var k' :| k' in done + {k} && p == ExtractPathFromUrl(records[k'].url, cfg);
    }
  }

  lemma DropOneMore(files: set<string>, paths: set<string>, path: string)
    ensures files - (paths + {path} - {""}) ==
      if path != "" then (files - (paths - {""})) - {path} else files - (paths - {""})
  {
  }

  /** Deleting one more row after some others. */
  lemma ClearOneMore(st: Store, done: set<RecordKey>, k: RecordKey, cfg: Config)
    requires done <= st.records.Keys && k in st.records && k !in done
    ensures var path := ExtractPathFromUrl(st.records[k].url, cfg);
      var before := ClearKeys(st, done, cfg);
      ClearKeys(st, done + {k}, cfg) ==
        Store(before.records - {k}, if path != "" then before.files - {path} else before.files)
  {
    PathsOfOneMore(st.records, done, k, cfg);
    DropOneMore(st.files, PathsOf(st.records, done, cfg), ExtractPathFromUrl(st.records[k].url, cfg));
    assert st.records - (done + {k}) == (st.records - done) - {k};
  }

  /** An inline script together with the loading strategy it is published
      under. */
  datatype Script = Script(asset: ExtractedAsset, loading: string)

  /** The extracted scripts paired with their loading strategies; a script
      without one is blocking (`""`). */
  function WithLoading(scripts: seq<ExtractedAsset>, loadings: seq<string>): (r: seq<Script>)
    ensures |r| == |scripts|
    ensures forall i :: 0 <= i < |r| ==> r[i].asset == scripts[i]
  {
    seq(|scripts|, i requires 0 <= i < |scripts| => Script(scripts[i], if i < |loadings| then loadings[i] else ""))
  }

  function ContentsOf(group: seq<Script>): (r: seq<string>)
    ensures |r| == |group| && forall i :: 0 <= i < |group| ==> r[i] == group[i].asset.content
  {
    seq(|group|, i requires 0 <= i < |group| => group[i].asset.content)
  }

  function HashesOf(group: seq<Script>): (r: seq<string>)
    ensures |r| == |group| && forall i :: 0 <= i < |group| ==> r[i] == group[i].asset.contentHash
  {
    seq(|group|, i requires 0 <= i < |group| => group[i].asset.contentHash)
  }

  predicate Distinct(order: seq<string>) {
    forall i, j :: 0 <= i < j < |order| ==> order[i] != order[j]
  }

  /** The loading strategies of the scripts, each once, in the order they
      are first seen (the key order of the source's `groups` dict). */
  function FirstSeen(scripts: seq<Script>): (order: seq<string>)
    ensures Distinct(order)
    ensures forall l :: l in order <==> exists i :: 0 <= i < |scripts| && scripts[i].loading == l
  {
    if scripts == [] then []
    else
      var init := scripts[..|scripts| - 1];
      var last := scripts[|scripts| - 1];
      var order := FirstSeen(init);
      assert forall i :: 0 <= i < |init| ==> init[i] == scripts[i];
      if last.loading in order then order else order + [last.loading]
  }

  /** The scripts with one loading strategy, in document order. */
  function Group(scripts: seq<Script>, loading: string): (g: seq<Script>)
    ensures forall i :: 0 <= i < |g| ==> g[i].loading == loading
    ensures |g| <= |scripts|
  {
    if scripts == [] then []
    else
      var init := Group(scripts[..|scripts| - 1], loading);
      if scripts[|scripts| - 1].loading == loading then init + [scripts[|scripts| - 1]] else init
  }

  /** A loading strategy no script has has an empty group. */
  lemma {:induction false} GroupOfUnseen(scripts: seq<Script>, loading: string)
    requires forall i :: 0 <= i < |scripts| ==> scripts[i].loading != loading
    ensures Group(scripts, loading) == []
  {
    if scripts != [] {
      GroupOfUnseen(scripts[..|scripts| - 1], loading);
    }
  }

  /** The groups of some loading strategies, one after the other. */
  function Flatten(scripts: seq<Script>, order: seq<string>): seq<Script> {
    if order == [] then []
    else Flatten(scripts, order[..|order| - 1]) + Group(scripts, order[|order| - 1])
  }

  /** One more script lands in its own group, and in no other. */
  lemma {:induction false} FlattenSnoc(scripts: seq<Script>, x: Script, order: seq<string>)
    requires Distinct(order)
    ensures multiset(Flatten(scripts + [x], order)) ==
      multiset(Flatten(scripts, order)) + if x.loading in order then multiset{x} else multiset{}
  {
    var s := scripts + [x];
    assert s[..|s| - 1] == scripts;
    if order != [] {
      var init, l := order[..|order| - 1], order[|order| - 1];
      assert Distinct(init);
      FlattenSnoc(scripts, x, init);
      assert x.loading in order <==> x.loading in init || x.loading == l;
      assert l !in init;
    }
  }

  /** The groups partition the scripts: together they hold every script
      exactly once. */
  lemma {:induction false} GroupsPartition(scripts: seq<Script>)
    ensures multiset(Flatten(scripts, FirstSeen(scripts))) == multiset(scripts)
  {
    if scripts != [] {
      var init, x := scripts[..|scripts| - 1], scripts[|scripts| - 1];
      assert scripts == init + [x];
      GroupsPartition(init);
      var order := FirstSeen(init);
      FlattenSnoc(init, x, order);
      if x.loading !in order {
        assert forall i :: 0 <= i < |init| ==> init[i].loading != x.loading;
        GroupOfUnseen(init, x.loading);
        var order' := order + [x.loading];
        assert order'[..|order'| - 1] == order;
        assert Group(scripts, x.loading) == [x];
      }
    }
  }

  /** Stylesheet rows carry the blank loading strategy, so a page has at most
      one: the table's uniqueness of page and asset type, as far as
      stylesheets go. */
  predicate CssSlotsUnique(records: map<RecordKey, Record>) {
    forall k :: k in records && k.kind == "css" ==> k.loading == ""
  }

  function CssKey(page: int): RecordKey {
    RecordKey(page, "css", "")
  }

  function JsKey(page: int, loading: string): RecordKey {
    RecordKey(page, "js", loading)
  }

  lemma AtMostOneCssRow(records: map<RecordKey, Record>, page: int)
    requires CssSlotsUnique(records)
    ensures |KeysOf(records, page, "css")| <= 1
  {
    var ks := KeysOf(records, page, "css");
    assert ks <= {CssKey(page)};
    if CssKey(page) in ks {
      assert ks == {CssKey(page)};
    } else {
      assert ks == {};
    }
  }

  lemma ClearNothing(st: Store, cfg: Config)
    ensures ClearKeys(st, {}, cfg) == st
  {
    assert PathsOf(st.records, {}, cfg) == {};
  }

  function StyleContents(styles: seq<ExtractedAsset>): (r: seq<string>)
    ensures |r| == |styles| && forall i :: 0 <= i < |styles| ==> r[i] == styles[i].content
  {
    seq(|styles|, i requires 0 <= i < |styles| => styles[i].content)
  }

  function StyleHashes(styles: seq<ExtractedAsset>): (r: seq<string>)
    ensures |r| == |styles| && forall i :: 0 <= i < |styles| ==> r[i] == styles[i].contentHash
  {
    seq(|styles|, i requires 0 <= i < |styles| => styles[i].contentHash)
  }

  /** The CSS builder's call, with the rendered page only for a builder that
      asks for it. */
  function BuildCss(b: AssetBuilder, styles: seq<ExtractedAsset>, pageHtml: string): Result<string> {
    if b.requiresHtmlContent then b.build(Some(pageHtml), StyleContents(styles), "css")
    else b.build(None, StyleContents(styles), "css")
  }

  /** The stylesheet's file name, fingerprinting the (minified) output. */
  function CssArtifact(page: int, built: string, env: Env): string {
    var final := if env.cfg.minifyCss then env.minifyCss(built) else built;
    CssFilename(env.cfg, page, ContentHash(final, env.cfg.hashLength))
  }

  /** What `_process_css` leaves behind: on a build failure nothing changes
      and the exception propagates; an empty build clears the page's CSS
      slot; otherwise the slot is cleared, the artifact saved and the slot
      refilled with the fingerprints of all extracted styles. */
  function AfterCss(st: Store, page: int, styles: seq<ExtractedAsset>, b: AssetBuilder, pageHtml: string, env: Env): Result<Store> {
    match BuildCss(b, styles, pageHtml)
    case Err(e) => Err(e)
    case Ok(built) =>
      if built == "" then Ok(ClearKeys(st, KeysOf(st.records, page, "css"), env.cfg))
      else Ok(WriteCss(st, page, styles, built, env))
  }

  /** Clearing the page's CSS slot, saving the artifact and filling the slot. */
  function WriteCss(st: Store, page: int, styles: seq<ExtractedAsset>, built: string, env: Env): Store {
    var cleared := ClearKeys(st, KeysOf(st.records, page, "css"), env.cfg);
    var name := CssArtifact(page, built, env);
    Store(cleared.records[CssKey(page) := Record(env.urlOf(name), StyleHashes(styles))], cleared.files + {name})
  }

  function BuildJs(b: AssetBuilder, group: seq<Script>): Result<string> {
    b.build(None, ContentsOf(group), "js")
  }

  /** A group is published when its build succeeds with some output. */
  predicate Published(b: AssetBuilder, group: seq<Script>) {
    BuildJs(b, group).Ok? && BuildJs(b, group).value != ""
  }

  /** A script group's file name, fingerprinting the (optimised) output. */
  function JsArtifact(page: int, loading: string, built: string, env: Env): string {
    var final := if env.cfg.obfuscateJs then env.optimizeJs(built) else built;
    JsFilename(env.cfg, page, ContentHash(final, env.cfg.hashLength), loading)
  }

  /** Saving a group's artifact and writing its row. */
  function WriteGroup(st: Store, page: int, loading: string, group: seq<Script>, built: string, env: Env): Store {
    var name := JsArtifact(page, loading, built, env);
    Store(st.records[JsKey(page, loading) := Record(env.urlOf(name), HashesOf(group))], st.files + {name})
  }

  /** The loop of `_process_js` over the groups in `order`: the store it
      leaves and the exception that stopped it, if any. */
  function WriteGroups(st: Store, page: int, scripts: seq<Script>, order: seq<string>, b: AssetBuilder, env: Env): (Store, Option<Exception>)
    decreases |order|
  {
    if order == [] then (st, None)
    else
      var group := Group(scripts, order[0]);
      match BuildJs(b, group)
      case Err(e) => (st, Some(e))
      case Ok(built) =>
        var next := if built == "" then st else WriteGroup(st, page, order[0], group, built, env);
        WriteGroups(next, page, scripts, order[1..], b, env)
  }

  /** What `_process_js` leaves behind: every JS row of the page deleted,
      then one artifact and row per loading group with output. */
  function AfterJs(st: Store, page: int, scripts: seq<Script>, b: AssetBuilder, env: Env): (Store, Option<Exception>) {
    WriteGroups(ClearKeys(st, KeysOf(st.records, page, "js"), env.cfg), page, scripts, FirstSeen(scripts), b, env)
  }

  /** `_process_css` touches no row but the page's stylesheet row: the
      page's script rows and every other page's rows keep their values. */
  lemma CssTouchesOnlyCssSlot(st: Store, page: int, styles: seq<ExtractedAsset>, b: AssetBuilder, pageHtml: string, env: Env)
    ensures var after := AfterCss(st, page, styles, b, pageHtml, env);
      after.Ok? ==> forall k: RecordKey :: !(k.page == page && k.kind == "css") ==>
        (k in after.value.records <==> k in st.records) &&
        (k in st.records ==> after.value.records[k] == st.records[k])
  {
  }

  /** A failed build changes nothing; an empty build leaves the page without
      a stylesheet row (changing nothing when there was none); otherwise the
      page has exactly one, listing the fingerprints of all extracted styles
      in order, and its artifact is stored. */
  lemma CssSlotOutcome(st: Store, page: int, styles: seq<ExtractedAsset>, b: AssetBuilder, pageHtml: string, env: Env)
    ensures AfterCss(st, page, styles, b, pageHtml, env).Err? <==> BuildCss(b, styles, pageHtml).Err?
    ensures var built, after := BuildCss(b, styles, pageHtml), AfterCss(st, page, styles, b, pageHtml, env);
      built.Ok? && built.value == "" ==>
        KeysOf(after.value.records, page, "css") == {} &&
        (KeysOf(st.records, page, "css") == {} ==> after.value == st)
    ensures var built, after := BuildCss(b, styles, pageHtml), AfterCss(st, page, styles, b, pageHtml, env);
      built.Ok? && built.value != "" ==>
        KeysOf(after.value.records, page, "css") == {CssKey(page)} &&
        after.value.records[CssKey(page)].contentHashes == StyleHashes(styles) &&
        CssArtifact(page, built.value, env) in after.value.files
  {
    var built := BuildCss(b, styles, pageHtml);
    if built.Ok? {
      var ks := KeysOf(st.records, page, "css");
      var cleared := ClearKeys(st, ks, env.cfg);
      assert KeysOf(cleared.records, page, "css") == {};
      if ks == {} {
        ClearNothing(st, env.cfg);
      }
      if built.value != "" {
        var out := WriteCss(st, page, styles, built.value, env);
        assert CssKey(page) in KeysOf(out.records, page, "css");
      }
    }
  }

  /** The artifacts the groups in `order` publish. */
  function JsArtifacts(page: int, scripts: seq<Script>, order: seq<string>, b: AssetBuilder, env: Env): set<string> {
    set l | l in order && Published(b, Group(scripts, l)) :: JsArtifact(page, l, BuildJs(b, Group(scripts, l)).value, env)
  }

  lemma JsArtifactsCons(page: int, scripts: seq<Script>, order: seq<string>, b: AssetBuilder, env: Env)
    requires order != []
    ensures var g := Group(scripts, order[0]);
      JsArtifacts(page, scripts, order, b, env) ==
        JsArtifacts(page, scripts, order[1..], b, env) +
        if Published(b, g) then {JsArtifact(page, order[0], BuildJs(b, g).value, env)} else {}
  {
    var g := Group(scripts, order[0]);
    var whole, rest := JsArtifacts(page, scripts, order, b, env), JsArtifacts(page, scripts, order[1..], b, env);
    forall n | n in whole
      ensures n in rest || (Published(b, g) && n == JsArtifact(page, order[0], BuildJs(b, g).value, env))
    {
      var l :| l in order && Published(b, Group(scripts, l)) && n == JsArtifact(page, l, BuildJs(b, Group(scripts, l)).value, env);
      if l != order[0] {
        assert l in order[1..];
      }
    }
    forall n | n in rest ensures n in whole {
      var l :| l in order[1..] && Published(b, Group(scripts, l)) && n == JsArtifact(page, l, BuildJs(b, Group(scripts, l)).value, env);
      assert l in order;
    }
  }

  /** A run of the group loop that raised nothing touches only the rows of
      the groups in `order`. */
  lemma {:induction false} WriteGroupsOthers(st: Store, page: int, scripts: seq<Script>, order: seq<string>, b: AssetBuilder, env: Env)
    requires WriteGroups(st, page, scripts, order, b, env).1.None?
    ensures var out := WriteGroups(st, page, scripts, order, b, env).0;
      forall k: RecordKey :: !(k.page == page && k.kind == "js" && k.loading in order) ==>
        (k in out.records <==> k in st.records) && (k in st.records ==> out.records[k] == st.records[k])
    decreases |order|
  {
    if order != [] {
      var g := Group(scripts, order[0]);
      var built := BuildJs(b, g);
      var next := if built.value == "" then st else WriteGroup(st, page, order[0], g, built.value, env);
      WriteGroupsOthers(next, page, scripts, order[1..], b, env);
      assert forall l :: l in order[1..] ==> l in order;
    }
  }

  /** In a run that raised nothing, each group in `order` has a row exactly
      when it is published, holding the URL of its own artifact and its own
      scripts' fingerprints. */
  lemma {:induction false} WriteGroupsRows(st: Store, page: int, scripts: seq<Script>, order: seq<string>, b: AssetBuilder, env: Env)
    requires Distinct(order)
    requires forall l :: l in order ==> JsKey(page, l) !in st.records
    requires WriteGroups(st, page, scripts, order, b, env).1.None?
    ensures var out := WriteGroups(st, page, scripts, order, b, env).0;
      forall l :: l in order ==> (JsKey(page, l) in out.records <==> Published(b, Group(scripts, l)))
    ensures var out := WriteGroups(st, page, scripts, order, b, env).0;
      forall l :: l in order && JsKey(page, l) in out.records ==>
        out.records[JsKey(page, l)] ==
          Record(env.urlOf(JsArtifact(page, l, BuildJs(b, Group(scripts, l)).value, env)), HashesOf(Group(scripts, l)))
    decreases |order|
  {
    if order != [] {
      var l0 := order[0];
      var g := Group(scripts, l0);
      var built := BuildJs(b, g);
      var next := if built.value == "" then st else WriteGroup(st, page, l0, g, built.value, env);
      var rest := order[1..];
      assert Distinct(rest);
      assert forall l :: l in rest ==> l != l0 && l in order;
      WriteGroupsRows(next, page, scripts, rest, b, env);
      WriteGroupsOthers(next, page, scripts, rest, b, env);
      assert l0 !in rest;
    }
  }

  /** A run that raised nothing adds the published artifacts to storage. */
  lemma {:induction false} WriteGroupsFiles(st: Store, page: int, scripts: seq<Script>, order: seq<string>, b: AssetBuilder, env: Env)
    requires WriteGroups(st, page, scripts, order, b, env).1.None?
    ensures WriteGroups(st, page, scripts, order, b, env).0.files == st.files + JsArtifacts(page, scripts, order, b, env)
    decreases |order|
  {
    if order == [] {
      assert JsArtifacts(page, scripts, order, b, env) == {};
    } else {
      var g := Group(scripts, order[0]);
      var built := BuildJs(b, g);
      var next := if built.value == "" then st else WriteGroup(st, page, order[0], g, built.value, env);
      WriteGroupsFiles(next, page, scripts, order[1..], b, env);
      JsArtifactsCons(page, scripts, order, b, env);
    }
  }

  /** What a run of `_process_js` that raised nothing leaves: the page's
      script rows are exactly its published loading groups, each listing its
      own scripts' fingerprints in document order; the page's stylesheet row
      and every other page's rows are untouched; storage has lost the files
      of the page's old script rows and gained the new artifacts. */
  lemma JsRecordsExactly(st: Store, page: int, scripts: seq<Script>, b: AssetBuilder, env: Env)
    requires AfterJs(st, page, scripts, b, env).1.None?
    ensures var out := AfterJs(st, page, scripts, b, env).0;
      forall l :: JsKey(page, l) in out.records <==> l in FirstSeen(scripts) && Published(b, Group(scripts, l))
    ensures var out := AfterJs(st, page, scripts, b, env).0;
      forall l :: JsKey(page, l) in out.records ==> out.records[JsKey(page, l)].contentHashes == HashesOf(Group(scripts, l))
    ensures var out := AfterJs(st, page, scripts, b, env).0;
      forall k: RecordKey :: !(k.page == page && k.kind == "js") ==>
        (k in out.records <==> k in st.records) && (k in st.records ==> out.records[k] == st.records[k])
    ensures var out := AfterJs(st, page, scripts, b, env).0;
      var previous := KeysOf(st.records, page, "js");
      out.files == (st.files - (PathsOf(st.records, previous, env.cfg) - {""})) + JsArtifacts(page, scripts, FirstSeen(scripts), b, env)
  {
    var cleared := ClearKeys(st, KeysOf(st.records, page, "js"), env.cfg);
    var order := FirstSeen(scripts);
    assert forall l :: JsKey(page, l) !in cleared.records;
    WriteGroupsOthers(cleared, page, scripts, order, b, env);
    WriteGroupsRows(cleared, page, scripts, order, b, env);
    WriteGroupsFiles(cleared, page, scripts, order, b, env);
  }

  /** The first loop of `_process_js`: `groups.setdefault(loading,
      []).append(script)`, with the dict's key order kept in `order`. */
  method GroupByLoading(scripts: seq<Script>) returns (order: seq<string>, groups: map<string, seq<Script>>)
    ensures order == FirstSeen(scripts)
    ensures forall l :: l in groups <==> l in order
    ensures forall l :: l in groups ==> groups[l] == Group(scripts, l)
    ensures groups == map[] <==> order == []
  {
    order, groups := [], map[];
    for i := 0 to |scripts|
      invariant order == FirstSeen(scripts[..i])
      invariant forall l :: l in groups <==> l in order
      invariant forall l :: l in groups ==> groups[l] == Group(scripts[..i], l)
    {
      var prefix := scripts[..i + 1];
      assert prefix[..i] == scripts[..i];
      var loading := scripts[i].loading;
      if loading !in groups {
        assert forall j :: 0 <= j < i ==> scripts[..i][j].loading != loading;
        GroupOfUnseen(scripts[..i], loading);
        order := order + [loading];
        groups := groups[loading := []];
      }
      groups := groups[loading := groups[loading] + [scripts[i]]];
    }
    assert scripts[..|scripts|] == scripts;
    if order != [] {
      assert order[0] in groups;
    } else {
      assert groups.Keys == {};
    }
  }

  /** The orchestrator's state: the `PublishedAsset` table, the storage
      backend's files and the middleware's cache. */
  class Publisher {
    var records: map<RecordKey, Record>
    var files: set<string>
    const cache: AssetCache
    const env: Env

    function Current(): Store
      reads this
    {
      Store(records, files)
    }

    predicate Valid()
      reads this
    {
      CssSlotsUnique(records)
    }

    constructor (cache: AssetCache, env: Env)
      ensures records == map[] && files == {} && this.cache == cache && this.env == env
      ensures Valid()
    {
      records := map[];
      files := {};
      this.cache := cache;
      this.env := env;
    }

    /** `storage.save(name, content)`: the file is stored and its URL
        returned. */
    method Save(name: string) returns (url: string)
      modifies this
      ensures url == env.urlOf(name)
      ensures records == old(records) && files == old(files) + {name}
    {
      files := files + {name};
      url := env.urlOf(name);
    }

    /** `_clear_asset(page, asset_type)`: `get` finds the page's one row of
        that type (`DoesNotExist` is swallowed, `MultipleObjectsReturned`
        reported as `raised`); its file is deleted when its path is
        non-empty and stored, and the row is deleted. */
    method ClearAsset(page: int, kind: string) returns (raised: bool)
      modifies this
      ensures var ks := KeysOf(old(records), page, kind);
        raised == (|ks| > 1) &&
        (raised ==> Current() == old(Current())) &&
        (!raised ==> Current() == ClearKeys(old(Current()), ks, env.cfg))
    {
      var ks := KeysOf(records, page, kind);
      if |ks| > 1 {
        return true;
      }
      raised := false;
      ClearNothing(Current(), env.cfg);
      if ks == {} {
        return;
      }
      var k :| k in ks;
      assert ks == {k} by {
        assert |ks - {k}| == |ks| - 1 == 0;
      }
      ClearOneMore(Current(), {}, k, env.cfg);
      assert {} + {k} == ks;
      var path := ExtractPathFromUrl(records[k].url, env.cfg);
      if path != "" && path in files {
        files := files - {path};
      }
      records := records - {k};
    }

    /** `_clear_js_assets(page)`: every JS row of the page, each with its
        file when the path is non-empty and stored. */
    method ClearJsAssets(page: int)
      modifies this
      ensures Current() == ClearKeys(old(Current()), KeysOf(old(records), page, "js"), env.cfg)
    {
      ghost var start := Current();
      var pending := KeysOf(records, page, "js");
      ghost var all := pending;
      ClearNothing(start, env.cfg);
      assert all - pending == {};
      while pending != {}
        invariant pending <= all
        invariant all == KeysOf(start.records, page, "js")
        invariant Current() == ClearKeys(start, all - pending, env.cfg)
        decreases |pending|
      {
        var k :| k in pending;
        ClearOneMore(start, all - pending, k, env.cfg);
        assert (all - pending) + {k} == all - (pending - {k});
        var path := ExtractPathFromUrl(records[k].url, env.cfg);
        if path != "" && path in files {
          files := files - {path};
        }
        records := records - {k};
        pending := pending - {k};
      }
      assert all - pending == all;
    }
  
    /** `_process_css(page, storage)`. */
    method ProcessCss(page: int, fields: seq<Option<string>>, builder: AssetBuilder, pageHtml: string)
      returns (error: Option<Exception>)
      requires Valid()
      modifies this, cache
      ensures Valid()
      ensures var after := AfterCss(old(Current()), page, PageExtracted(fields).0, builder, pageHtml, env);
        if after.Err? then
          error == Some(after.error) && Current() == old(Current()) && cache.entries == old(cache.entries)
        else
          error.None? && Current() == after.value && cache.entries == old(cache.entries) - {CacheKey(page)}
    {
      var styles, scripts := ExtractAssetsFromPage(fields);
      var extractedCss := StyleContents(styles);
      var built: Result<string>;
      if builder.requiresHtmlContent {
        built := builder.build(Some(pageHtml), extractedCss, "css");
      } else {
        built := builder.build(None, extractedCss, "css");
      }
      if built.Err? {
        return Some(built.error);
      }
      if built.value == "" {
        AtMostOneCssRow(records, page);
        var raised := ClearAsset(page, "css");
        cache.InvalidateCache(page);
        return None;
      }
      PublishCss(page, styles, built.value);
      cache.InvalidateCache(page);
      return None;
    }

    /** The publishing half of `_process_css`: minify, fingerprint, clear the
        old slot, save the artifact and upsert the page's CSS row. */
    method PublishCss(page: int, styles: seq<ExtractedAsset>, built: string)
      requires Valid()
      modifies this
      ensures Valid()
      ensures Current() == WriteCss(old(Current()), page, styles, built, env)
    {
      var css := built;
      if env.cfg.minifyCss {
        css := env.minifyCss(css);
      }
      var cssHash := ContentHash(css, env.cfg.hashLength);
      var filename := CssFilename(env.cfg, page, cssHash);
      AtMostOneCssRow(records, page);
      var raised := ClearAsset(page, "css");
      var url := Save(filename);
      records := records[CssKey(page) := Record(url, StyleHashes(styles))];
    }

    /** `_process_js(page, storage)`; `loadings` gives each extracted script
        its loading strategy, blocking (`""`) past its end. */
    method ProcessJs(page: int, fields: seq<Option<string>>, loadings: seq<string>, builder: AssetBuilder)
      returns (error: Option<Exception>)
      modifies this, cache
      ensures old(Valid()) ==> Valid()
      ensures (Current(), error) == AfterJs(old(Current()), page, WithLoading(PageExtracted(fields).1, loadings), builder, env)
      ensures error.None? ==> cache.entries == old(cache.entries) - {CacheKey(page)}
      ensures error.Some? ==> cache.entries == old(cache.entries)
    {
      var styles, extracted := ExtractAssetsFromPage(fields);
      var scripts := WithLoading(extracted, loadings);
      var order, groups := GroupByLoading(scripts);
      ClearJsAssets(page);
      if groups == map[] {
        cache.InvalidateCache(page);
        return None;
      }
      error := PublishGroups(page, scripts, order, groups, builder);
      if error.Some? {
        return;
      }
      cache.InvalidateCache(page);
    }

    /** The loop of `_process_js` over the loading groups in key order:
        build each group, skip an empty output, save the artifact and upsert
        the group's row; an exception stops the loop. */
    method PublishGroups(page: int, scripts: seq<Script>, order: seq<string>, groups: map<string, seq<Script>>, builder: AssetBuilder)
      returns (error: Option<Exception>)
      requires forall l :: l in order ==> l in groups && groups[l] == Group(scripts, l)
      modifies this
      ensures old(Valid()) ==> Valid()
      ensures (Current(), error) == WriteGroups(old(Current()), page, scripts, order, builder, env)
    {
      for i := 0 to |order|
        invariant WriteGroups(Current(), page, scripts, order[i..], builder, env) == WriteGroups(old(Current()), page, scripts, order, builder, env)
        invariant old(Valid()) ==> Valid()
      {
        var loading := order[i];
        var group := groups[loading];
        assert order[i..][0] == loading && order[i..][1..] == order[i + 1..];
        var built := builder.build(None, ContentsOf(group), "js");
        if built.Err? {
          return Some(built.error);
        }
        if built.value != "" {
          var js := built.value;
          if env.cfg.obfuscateJs {
            js := env.optimizeJs(js);
          }
          var jsHash := ContentHash(js, env.cfg.hashLength);
          var filename := JsFilename(env.cfg, page, jsHash, loading);
          var url := Save(filename);
          records := records[JsKey(page, loading) := Record(url, HashesOf(group))];
        }
      }
      assert order[|order|..] == [];
      return None;
    }

    /** `build_page_assets(page)`: stylesheets, then scripts; an exception
        from the first stops the second. */
    method BuildPageAssets(page: int, fields: seq<Option<string>>, loadings: seq<string>,
                           cssBuilder: AssetBuilder, jsBuilder: AssetBuilder, pageHtml: string)
      returns (error: Option<Exception>)
      requires Valid()
      modifies this, cache
      ensures Valid()
      ensures var css := AfterCss(old(Current()), page, PageExtracted(fields).0, cssBuilder, pageHtml, env);
        if css.Err? then
          error == Some(css.error) && Current() == old(Current())
        else
          (Current(), error) == AfterJs(css.value, page, WithLoading(PageExtracted(fields).1, loadings), jsBuilder, env)
      ensures error.None? ==> cache.entries == old(cache.entries) - {CacheKey(page)}
    {
      error := ProcessCss(page, fields, cssBuilder, pageHtml);
      if error.Some? {
        return;
      }
      error := ProcessJs(page, fields, loadings, jsBuilder);
    }
  }
}
