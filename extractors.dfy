/** Extraction of inline `<style>` and `<script>` blocks from page markup
    (`extractors.py`): the content fingerprint, the `AssetExtractor` state
    machine driven by the parser's callbacks, and the per-page concatenation
    over StreamField values. */
module Extractors {
  import opened Text
  import opened Html

  predicate IsHexDigit(c: char) {
    '0' <= c <= '9' || 'a' <= c <= 'f'
  }

  predicate IsHexDigest(d: string) {
    |d| == 64 && forall i :: 0 <= i < |d| ==> IsHexDigit(d[i])
  }

  const ZeroDigest: string := seq(64, _ => '0')

  /** A digest function over strings, left uninterpreted. */
  type Digester = f: string -> string | true
    witness (content: string) => ZeroDigest

  /** SHA-256 (FIPS 180-4, section 6.2) of the UTF-8 bytes of a string, as
      `hexdigest()` renders it; which function it is stays open. */
  const RawDigest: Digester

  /** `hashlib.sha256(content.encode("utf-8")).hexdigest()`: the
      uninterpreted digest, taken as it is whenever it has the shape of a
      hex digest, which a SHA-256 hex digest always has. */
  function Sha256Hex(content: string): string {
    var d := RawDigest(content);
    if IsHexDigest(d) then d else ZeroDigest
  }

  /** Every digest is 64 lowercase hexadecimal characters. */
  lemma Sha256HexShape(content: string)
    ensures IsHexDigest(Sha256Hex(content))
  {
    if !IsHexDigest(RawDigest(content)) {
      assert forall i :: 0 <= i < |ZeroDigest| ==> ZeroDigest[i] == '0';
    }
  }

  const DefaultHashLength: int := 8

  function Min(a: int, b: int): int { if a <= b then a else b }
  function Max(a: int, b: int): int { if a <= b then b else a }

  /** `compute_content_hash(content, length)`: the digest cut with Python's
      `[:length]`, which for a negative `length` drops that many characters
      from the end. */
  function ContentHash(content: string, length: int := DefaultHashLength): string {
    var digest := Sha256Hex(content);
    if length >= 0 then digest[..Min(length, 64)] else digest[..Max(0, 64 + length)]
  }

  /** The fingerprint is a prefix of the digest, `min(length, 64)` long for a
      non-negative `length`, and made of lowercase hexadecimal digits only. */
  lemma ContentHashShape(content: string, length: int)
    ensures |ContentHash(content, length)| == if length >= 0 then Min(length, 64) else Max(0, 64 + length)
    ensures forall i :: 0 <= i < |ContentHash(content, length)| ==> IsHexDigit(ContentHash(content, length)[i])
    ensures StartsWith(Sha256Hex(content), ContentHash(content, length))
  {
    var r := ContentHash(content, length);
    var digest := Sha256Hex(content);
    Sha256HexShape(content);
    assert r == digest[..|r|];
    forall i | 0 <= i < |r| ensures IsHexDigit(r[i]) {
      assert r[i] == digest[i];
    }
  }

  /** A fingerprint at the default length is the first eight characters of the
      digest, and a shorter fingerprint is a prefix of a longer one. */
  lemma ContentHashTruncates(content: string, m: int, n: int)
    requires 0 <= m <= n
    ensures |ContentHash(content)| == 8
    ensures StartsWith(ContentHash(content, n), ContentHash(content, m))
  {
    ContentHashShape(content, DefaultHashLength);
    assert ContentHash(content, m) == Sha256Hex(content)[..Min(m, 64)];
    assert ContentHash(content, n) == Sha256Hex(content)[..Min(n, 64)];
  }

  /** `ExtractedAsset`: a trimmed block body and its fingerprint. */
  datatype ExtractedAsset = ExtractedAsset(content: string, contentHash: string)

  /** The asset `extract_assets` makes of a block body. */
  function AssetOf(content: string): ExtractedAsset {
    ExtractedAsset(content, ContentHash(content))
  }

  /** What every emitted asset satisfies: a non-empty, already trimmed body
      carrying its own fingerprint. */
  predicate WellFormedAsset(a: ExtractedAsset) {
    a.content != "" && Trim(a.content) == a.content && a.contentHash == ContentHash(a.content)
  }

  predicate AllWellFormed(assets: seq<ExtractedAsset>) {
    forall i :: 0 <= i < |assets| ==> WellFormedAsset(assets[i])
  }

  /** The fields of an `AssetExtractor`. */
  datatype ExtractorState = ExtractorState(
    styles: seq<ExtractedAsset>,
    scripts: seq<ExtractedAsset>,
    currentTag: Option<string>,
    currentContent: seq<string>,
    skipCurrent: bool,
    isExternalScript: bool)

  /** A freshly constructed extractor. */
  const Initial := ExtractorState([], [], None, [], false, false)

  /** No block is open. */
  predicate Idle(s: ExtractorState) {
    s.currentTag == None && s.currentContent == [] && !s.skipCurrent && !s.isExternalScript
  }

  /** The extractor gathers the character data it sees. */
  predicate Collecting(s: ExtractorState) {
    s.currentTag.Some? && s.currentTag.value != "" && !s.skipCurrent && !s.isExternalScript
  }

  /** `handle_starttag`. A `style`/`script` start tag opens a block, marked to
      be skipped under `data-no-extract` or, for a script, external under
      `src`; any other tag changes nothing. */
  function OnStartTag(s: ExtractorState, tag: string, attrs: seq<Attr>): (r: ExtractorState)
    ensures !IsAssetTag(tag) ==> r == s
    ensures IsAssetTag(tag) ==>
      && r.currentTag == Some(tag) && r.currentContent == []
      && r.styles == s.styles && r.scripts == s.scripts
    ensures IsAssetTag(tag) && Idle(s) ==> (Collecting(r) <==> !Exempt(tag, attrs))
  {
    if !IsAssetTag(tag) then s
    else
      var entered := s.(currentTag := Some(tag), currentContent := []);
      if HasAttr(attrs, "data-no-extract") then entered.(skipCurrent := true)
      else if tag == "script" && HasAttr(attrs, "src") then entered.(isExternalScript := true)
      else entered.(skipCurrent := false, isExternalScript := false)
  }

  /** `handle_data`: character data is kept only inside an open block that is
      neither skipped nor external. */
  function OnData(s: ExtractorState, data: string): (r: ExtractorState)
    ensures r.currentContent == if Collecting(s) then s.currentContent + [data] else s.currentContent
    ensures r == s.(currentContent := r.currentContent)
  {
    if Collecting(s) then s.(currentContent := s.currentContent + [data]) else s
  }

  /** `handle_endtag`. The end tag of the open block emits its trimmed body,
      when there is one and the block is neither skipped nor external, into
      the list for its tag, and then closes the block; any other end tag
      changes nothing. */
  function OnEndTag(s: ExtractorState, tag: string): (r: ExtractorState)
    ensures s.currentTag != Some(tag) ==> r == s
    ensures s.currentTag == Some(tag) ==> Idle(r)
    ensures s.currentTag == Some(tag) ==>
      var content := Trim(Concat(s.currentContent));
      var emits := !s.skipCurrent && !s.isExternalScript && content != "";
      && r.styles == s.styles + (if emits && tag == "style" then [AssetOf(content)] else [])
      && r.scripts == s.scripts + (if emits && tag == "script" then [AssetOf(content)] else [])
  {
    if s.currentTag != Some(tag) then s
    else
      var content := Trim(Concat(s.currentContent));
      var emitted :=
        if !s.skipCurrent && !s.isExternalScript && content != "" then
          if tag == "style" then s.(styles := s.styles + [AssetOf(content)])
          else if tag == "script" then s.(scripts := s.scripts + [AssetOf(content)])
          else s
        else s;
      emitted.(currentTag := None, currentContent := [], skipCurrent := false, isExternalScript := false)
  }

  /** What the end tag of the open block appends to the list for `kind`. */
  function Emitted(s: ExtractorState, tag: string, kind: string): seq<ExtractedAsset> {
    var content := Trim(Concat(s.currentContent));
    if !s.skipCurrent && !s.isExternalScript && content != "" && tag == kind then [AssetOf(content)] else []
  }

  lemma ClosingBlock(s: ExtractorState, tag: string)
    requires s.currentTag == Some(tag)
    ensures OnEndTag(s, tag) ==
      ExtractorState(s.styles + Emitted(s, tag, "style"), s.scripts + Emitted(s, tag, "script"), None, [], false, false)
  {
  }

  /** One parser callback. The extractor's parser converts entity and
      character references into character data, and its other callbacks are
      `HTMLParser`'s no-op defaults. */
  function Step(s: ExtractorState, t: Token): ExtractorState {
    match t
    case StartTag(name, attrs, _) => OnStartTag(s, name, attrs)
    case EndTag(name) => OnEndTag(s, name)
    case Data(text) => OnData(s, text)
    case _ => s
  }

  /** The extractor after feeding it a stream of callbacks. */
  function Run(s: ExtractorState, toks: seq<Token>): ExtractorState
    decreases |toks|
  {
    if toks == [] then s else Run(Step(s, toks[0]), toks[1..])
  }

  lemma {:induction false} RunAppend(s: ExtractorState, a: seq<Token>, b: seq<Token>)
    ensures Run(s, a + b) == Run(Run(s, a), b)
    decreases |a|
  {
    if a != [] {
      assert (a + b)[0] == a[0] && (a + b)[1..] == a[1..] + b;
      assert Run(s, a + b) == Run(Step(s, a[0]), a[1..] + b);
      assert Run(s, a) == Run(Step(s, a[0]), a[1..]);
      RunAppend(Step(s, a[0]), a[1..], b);
    } else {
      assert a + b == b;
    }
  }

  /** `extract_assets` over a callback stream: the styles and the scripts. */
  function ExtractedFrom(toks: seq<Token>): (seq<ExtractedAsset>, seq<ExtractedAsset>) {
    var s := Run(Initial, toks);
    (s.styles, s.scripts)
  }

  lemma AppendWellFormed(assets: seq<ExtractedAsset>, extra: seq<ExtractedAsset>)
    requires AllWellFormed(assets) && AllWellFormed(extra)
    ensures AllWellFormed(assets + extra)
  {
    forall i | 0 <= i < |assets + extra| ensures WellFormedAsset((assets + extra)[i]) {
      if i < |assets| {
        assert (assets + extra)[i] == assets[i];
      } else {
        assert (assets + extra)[i] == extra[i - |assets|];
      }
    }
  }

  lemma EmittedWellFormed(s: ExtractorState, tag: string, kind: string)
    ensures AllWellFormed(Emitted(s, tag, kind))
  {
    var content := Trim(Concat(s.currentContent));
    if Emitted(s, tag, kind) != [] {
      TrimIdempotent(Concat(s.currentContent));
      assert WellFormedAsset(AssetOf(content));
    }
  }

  lemma StepKeepsWellFormed(s: ExtractorState, t: Token)
    requires AllWellFormed(s.styles) && AllWellFormed(s.scripts)
    ensures AllWellFormed(Step(s, t).styles) && AllWellFormed(Step(s, t).scripts)
  {
    if t.EndTag? && s.currentTag == Some(t.name) {
      ClosingBlock(s, t.name);
      EmittedWellFormed(s, t.name, "style");
      EmittedWellFormed(s, t.name, "script");
      AppendWellFormed(s.styles, Emitted(s, t.name, "style"));
      AppendWellFormed(s.scripts, Emitted(s, t.name, "script"));
    }
  }

  /** Emitted assets only ever accumulate, each of them well formed. */
  lemma {:induction false} RunKeepsWellFormed(s: ExtractorState, toks: seq<Token>)
    requires AllWellFormed(s.styles) && AllWellFormed(s.scripts)
    ensures AllWellFormed(Run(s, toks).styles) && AllWellFormed(Run(s, toks).scripts)
    decreases |toks|
  {
    if toks != [] {
      var s' := Step(s, toks[0]);
      assert Run(s, toks) == Run(s', toks[1..]);
      StepKeepsWellFormed(s, toks[0]);
      RunKeepsWellFormed(s', toks[1..]);
    }
  }

  /** Every asset `extract_assets` returns has a non-empty trimmed body, and
      its fingerprint is that body's 8-character hash. */
  lemma ExtractedAreWellFormed(toks: seq<Token>)
    ensures AllWellFormed(ExtractedFrom(toks).0) && AllWellFormed(ExtractedFrom(toks).1)
  {
    RunKeepsWellFormed(Initial, toks);
  }

  /** The asset a segment yields: only a closed, non-exempt block whose
      trimmed body is not empty yields one. */
  function Yield(seg: Segment): Option<ExtractedAsset> {
    if seg.Block? && seg.closed && !Exempt(seg.name, seg.attrs) && Trim(Concat(seg.body)) != "" then
      Some(AssetOf(Trim(Concat(seg.body))))
    else None
  }

  /** The assets of the blocks named `tag`, in document order. */
  function YieldsOf(segs: seq<Segment>, tag: string): seq<ExtractedAsset> {
    if segs == [] then []
    else
      (if segs[0].Block? && segs[0].name == tag && Yield(segs[0]).Some? then [Yield(segs[0]).value] else [])
      + YieldsOf(segs[1..], tag)
  }

  lemma RunCons(s: ExtractorState, t: Token, rest: seq<Token>)
    ensures Run(s, [t] + rest) == Run(Step(s, t), rest)
  {
    var toks := [t] + rest;
    assert toks[0] == t && toks[1..] == rest;
  }

  lemma {:induction false} DataRun(s: ExtractorState, body: seq<string>)
    requires s.currentTag.Some? && s.currentTag.value != ""
    ensures Run(s, DataTokens(body)) ==
      s.(currentContent := s.currentContent + (if Collecting(s) then body else []))
    decreases |body|
  {
    if body == [] {
      assert DataTokens(body) == [];
      assert s.currentContent + [] == s.currentContent;
    } else {
      assert DataTokens(body) == [Data(body[0])] + DataTokens(body[1..]);
      RunCons(s, Data(body[0]), DataTokens(body[1..]));
      if Collecting(s) {
        var s' := s.(currentContent := s.currentContent + [body[0]]);
        assert Step(s, Data(body[0])) == s';
        DataRun(s', body[1..]);
        SeqAssoc(s.currentContent, [body[0]], body[1..]);
        assert [body[0]] + body[1..] == body;
      } else {
        assert Step(s, Data(body[0])) == s;
        DataRun(s, body[1..]);
        assert s.currentContent + [] == s.currentContent;
      }
    }
  }

  /** A `<style>`/`<script>` start tag and the data after it, from an idle
      extractor: nothing is emitted yet, and the body is buffered exactly
      when the block is not exempt. */
  lemma OpenBlockRun(s: ExtractorState, name: string, attrs: seq<Attr>, raw: string, body: seq<string>)
    requires Idle(s) && IsAssetTag(name)
    ensures var r := Run(s, [StartTag(name, attrs, raw)] + DataTokens(body));
      && r.styles == s.styles && r.scripts == s.scripts && r.currentTag == Some(name)
      && (Exempt(name, attrs) ==> r.skipCurrent || r.isExternalScript)
      && (!Exempt(name, attrs) ==> !r.skipCurrent && !r.isExternalScript && r.currentContent == body)
  {
    var start := [StartTag(name, attrs, raw)];
    var s1 := OnStartTag(s, name, attrs);
    assert Run(s, start) == Run(s1, []);
    DataRun(s1, body);
    RunAppend(s, start, DataTokens(body));
  }

  /** From an idle extractor, the tokens of one segment emit exactly what the
      segment yields; a closed block or any other token leaves the extractor
      idle again. */
  lemma SegmentRun(s: ExtractorState, seg: Segment)
    requires Idle(s)
    requires seg.Block? ==> IsAssetTag(seg.name)
    requires seg.Other? && seg.token.StartTag? ==> !IsAssetTag(seg.token.name)
    ensures var r := Run(s, TokensOf(seg));
      && (seg.Other? || seg.closed ==> Idle(r))
      && r.styles == s.styles + YieldsOf([seg], "style")
      && r.scripts == s.scripts + YieldsOf([seg], "script")
  {
    assert YieldsOf([seg], "style") ==
      (if seg.Block? && seg.name == "style" && Yield(seg).Some? then [Yield(seg).value] else []);
    assert YieldsOf([seg], "script") ==
      (if seg.Block? && seg.name == "script" && Yield(seg).Some? then [Yield(seg).value] else []);
    match seg
    case Other(t) =>
      assert Run(s, [t]) == Run(Step(s, t), []);
    case Block(name, attrs, raw, body, closed) =>
      if closed {
        ClosedBlockRun(s, name, attrs, raw, body);
      } else {
        OpenBlockRun(s, name, attrs, raw, body);
        assert TokensOf(seg) == [StartTag(name, attrs, raw)] + DataTokens(body);
        assert Yield(seg) == None;
      }
  }

  /** A whole closed block from an idle extractor emits what it yields and
      leaves the extractor idle. */
  lemma ClosedBlockRun(s: ExtractorState, name: string, attrs: seq<Attr>, raw: string, body: seq<string>)
    requires Idle(s) && IsAssetTag(name)
    ensures var seg := Block(name, attrs, raw, body, true);
      var r := Run(s, TokensOf(seg));
      && Idle(r)
      && r.styles == s.styles + (if name == "style" && Yield(seg).Some? then [Yield(seg).value] else [])
      && r.scripts == s.scripts + (if name == "script" && Yield(seg).Some? then [Yield(seg).value] else [])
  {
    var seg := Block(name, attrs, raw, body, true);
    var opening := [StartTag(name, attrs, raw)] + DataTokens(body);
    OpenBlockRun(s, name, attrs, raw, body);
    var s2 := Run(s, opening);
    assert TokensOf(seg) == opening + [EndTag(name)];
    RunAppend(s, opening, [EndTag(name)]);
    assert Run(s2, [EndTag(name)]) == Run(OnEndTag(s2, name), []);
    ClosingBlock(s2, name);
    assert Yield(seg).Some? <==> !Exempt(name, attrs) && Trim(Concat(body)) != "";
  }

  lemma YieldsOfCons(seg: Segment, rest: seq<Segment>, tag: string)
    ensures YieldsOf([seg] + rest, tag) == YieldsOf([seg], tag) + YieldsOf(rest, tag)
  {
    assert ([seg] + rest)[0] == seg && ([seg] + rest)[1..] == rest;
    assert YieldsOf([seg], tag) ==
      (if seg.Block? && seg.name == tag && Yield(seg).Some? then [Yield(seg).value] else []);
  }

  lemma {:induction false} RunBySegments(s: ExtractorState, toks: seq<Token>)
    requires Idle(s) && Tokenised(toks)
    ensures Run(s, toks).styles == s.styles + YieldsOf(Segments(toks), "style")
    ensures Run(s, toks).scripts == s.scripts + YieldsOf(Segments(toks), "script")
    decreases |toks|
  {
    if toks == [] {
      assert Segments(toks) == [];
    } else {
      SegmentsCons(toks);
      var next := NextSegment(toks);
      var seg, rest := next.0, toks[next.1..];
      YieldsOfCons(seg, Segments(rest), "style");
      YieldsOfCons(seg, Segments(rest), "script");
      RunAppend(s, TokensOf(seg), rest);
      SegmentRun(s, seg);
      var s' := Run(s, TokensOf(seg));
      if seg.Other? || seg.closed {
        RunBySegments(s', rest);
      } else {
        assert Segments(rest) == [];
      }
      SeqAssoc(s.styles, YieldsOf([seg], "style"), YieldsOf(Segments(rest), "style"));
      SeqAssoc(s.scripts, YieldsOf([seg], "script"), YieldsOf(Segments(rest), "script"));
    }
  }

  /** What `extract_assets` returns, block by block: the styles are the
      trimmed bodies of the closed `<style>` blocks and the scripts those of
      the closed `<script>` blocks, in document order, leaving out exempt
      blocks and blocks whose body is only whitespace. */
  lemma ExtractedBySegments(toks: seq<Token>)
    requires Tokenised(toks)
    ensures ExtractedFrom(toks).0 == YieldsOf(Segments(toks), "style")
    ensures ExtractedFrom(toks).1 == YieldsOf(Segments(toks), "script")
  {
    RunBySegments(Initial, toks);
    assert Initial.styles == [] && Initial.scripts == [];
    var r := Run(Initial, toks);
    assert r.styles == [] + YieldsOf(Segments(toks), "style");
    assert r.scripts == [] + YieldsOf(Segments(toks), "script");
  }

  /** Blocks do not interfere: after a prefix that leaves the extractor idle,
      the rest of the stream adds what it would add on its own. */
  lemma ExtractedAppend(a: seq<Token>, b: seq<Token>)
    requires Idle(Run(Initial, a))
    ensures ExtractedFrom(a + b) ==
      (ExtractedFrom(a).0 + ExtractedFrom(b).0, ExtractedFrom(a).1 + ExtractedFrom(b).1)
  {
    var mid := Run(Initial, a);
    RunAppend(Initial, a, b);
    assert mid == Shifted(mid.styles, mid.scripts, Initial);
    RunShift(mid.styles, mid.scripts, Initial, b);
  }

  /** The state `s` with `ps` and `pj` emitted before everything it holds. */
  function Shifted(ps: seq<ExtractedAsset>, pj: seq<ExtractedAsset>, s: ExtractorState): ExtractorState {
    s.(styles := ps + s.styles, scripts := pj + s.scripts)
  }

  lemma EndTagShift(ps: seq<ExtractedAsset>, pj: seq<ExtractedAsset>, s: ExtractorState, name: string)
    ensures OnEndTag(Shifted(ps, pj, s), name) == Shifted(ps, pj, OnEndTag(s, name))
  {
    var r, r' := OnEndTag(s, name), OnEndTag(Shifted(ps, pj, s), name);
    if s.currentTag == Some(name) {
      var content := Trim(Concat(s.currentContent));
      var emits := !s.skipCurrent && !s.isExternalScript && content != "";
      var extraS: seq<ExtractedAsset> := if emits && name == "style" then [AssetOf(content)] else [];
      var extraJ: seq<ExtractedAsset> := if emits && name == "script" then [AssetOf(content)] else [];
      assert r.styles == s.styles + extraS && r.scripts == s.scripts + extraJ;
      assert r'.styles == ps + s.styles + extraS && r'.scripts == pj + s.scripts + extraJ;
      SeqAssoc(ps, s.styles, extraS);
      SeqAssoc(pj, s.scripts, extraJ);
      assert Idle(r) && Idle(r');
    }
  }

  /** Earlier emissions are carried along unchanged. */
  lemma StepShift(ps: seq<ExtractedAsset>, pj: seq<ExtractedAsset>, s: ExtractorState, t: Token)
    ensures Step(Shifted(ps, pj, s), t) == Shifted(ps, pj, Step(s, t))
  {
    match t
    case EndTag(name) => EndTagShift(ps, pj, s, name);
    case StartTag(name, attrs, _) =>
    case Data(text) =>
    case _ =>
  }

  lemma {:induction false} RunShift(ps: seq<ExtractedAsset>, pj: seq<ExtractedAsset>, s: ExtractorState, toks: seq<Token>)
    ensures Run(Shifted(ps, pj, s), toks) == Shifted(ps, pj, Run(s, toks))
    decreases |toks|
  {
    if toks == [] {
      assert Run(Shifted(ps, pj, s), toks) == Shifted(ps, pj, s);
      assert Run(s, toks) == s;
    } else {
      var t := toks[0];
      var s' := Step(s, t);
      StepShift(ps, pj, s, t);
      assert Run(Shifted(ps, pj, s), toks) == Run(Step(Shifted(ps, pj, s), t), toks[1..]);
      assert Run(s, toks) == Run(s', toks[1..]);
      RunShift(ps, pj, s', toks[1..]);
    }
  }

  /** Whether a start tag opens a collected block depends on no attribute but
      `data-no-extract` and, for a script, `src`. */
  lemma OnlyExemptionAttributesMatter(s: ExtractorState, tag: string, a1: seq<Attr>, a2: seq<Attr>)
    requires HasAttr(a1, "data-no-extract") == HasAttr(a2, "data-no-extract")
    requires HasAttr(a1, "src") == HasAttr(a2, "src")
    ensures OnStartTag(s, tag, a1) == OnStartTag(s, tag, a2)
  {
  }

  /** `AssetExtractor`: an `HTMLParser` whose callbacks update these fields. */
  class AssetExtractor {
    var styles: seq<ExtractedAsset>
    var scripts: seq<ExtractedAsset>
    var currentTag: Option<string>
    var currentContent: seq<string>
    var skipCurrent: bool
    var isExternalScript: bool

    function State(): ExtractorState
      reads this
    {
      ExtractorState(styles, scripts, currentTag, currentContent, skipCurrent, isExternalScript)
    }

    constructor ()
      ensures State() == Initial
    {
      styles := [];
      scripts := [];
      currentTag := None;
      currentContent := [];
      skipCurrent := false;
      isExternalScript := false;
    }

    method HandleStartTag(tag: string, attrs: seq<Attr>)
      modifies this
      ensures State() == OnStartTag(old(State()), tag, attrs)
    {
      if !IsAssetTag(tag) {
        return;
      }
      currentTag := Some(tag);
      currentContent := [];
      if HasAttr(attrs, "data-no-extract") {
        skipCurrent := true;
        return;
      }
      if tag == "script" && HasAttr(attrs, "src") {
        isExternalScript := true;
        return;
      }
      skipCurrent := false;
      isExternalScript := false;
    }

    method HandleData(data: string)
      modifies this
      ensures State() == OnData(old(State()), data)
    {
      if currentTag.Some? && currentTag.value != "" && !skipCurrent && !isExternalScript {
        currentContent := currentContent + [data];
      }
    }

    method HandleEndTag(tag: string)
      modifies this
      ensures State() == OnEndTag(old(State()), tag)
    {
      if currentTag != Some(tag) {
        return;
      }
      ClosingBlock(State(), tag);
      if !skipCurrent && !isExternalScript {
        var content := Trim(Concat(currentContent));
        if content != "" {
          var asset := ExtractedAsset(content, ContentHash(content));
          if tag == "style" {
            styles := styles + [asset];
          } else if tag == "script" {
            scripts := scripts + [asset];
          }
        }
      }
      currentTag := None;
      currentContent := [];
      skipCurrent := false;
      isExternalScript := false;
    }

    /** `feed`: the parser's callbacks for a stream, in order. */
    method Feed(toks: seq<Token>)
      modifies this
      ensures State() == Run(old(State()), toks)
    {
      for i := 0 to |toks|
        invariant State() == Run(old(State()), toks[..i])
      {
        RunAppend(old(State()), toks[..i], [toks[i]]);
        assert toks[..i + 1] == toks[..i] + [toks[i]];
        match toks[i]
        case StartTag(name, attrs, _) => HandleStartTag(name, attrs);
        case EndTag(name) => HandleEndTag(name);
        case Data(text) => HandleData(text);
        case _ =>
      }
      assert toks[..|toks|] == toks;
    }
  }

  /** `extract_assets(html)`. */
  method ExtractAssets(html: string) returns (styles: seq<ExtractedAsset>, scripts: seq<ExtractedAsset>)
    ensures (styles, scripts) == ExtractedFrom(Tokenize(html))
  {
    var extractor := new AssetExtractor();
    extractor.Feed(Tokenize(html));
    styles, scripts := extractor.styles, extractor.scripts;
  }

  /** `extract_assets_from_page` over the page's StreamField values in field
      order; `None` stands for a missing or empty (falsy) value and `Some(h)`
      for a value rendering to `h`. */
  function PageExtracted(fields: seq<Option<string>>): (seq<ExtractedAsset>, seq<ExtractedAsset>) {
    if fields == [] then ([], [])
    else
      var rest := PageExtracted(fields[..|fields| - 1]);
      match fields[|fields| - 1]
      case None => rest
      case Some(html) =>
        var here := ExtractedFrom(Tokenize(html));
        (rest.0 + here.0, rest.1 + here.1)
  }

  /** Extraction from a page is the concatenation of the extractions from its
      parts, so fields without a value contribute nothing. */
  lemma PageExtractedSnoc(fields: seq<Option<string>>, last: Option<string>)
    ensures PageExtracted(fields + [last]) ==
      match last
      case None => PageExtracted(fields)
      case Some(html) =>
        (PageExtracted(fields).0 + ExtractedFrom(Tokenize(html)).0,
         PageExtracted(fields).1 + ExtractedFrom(Tokenize(html)).1)
  {
    var f := fields + [last];
    assert f[..|f| - 1] == fields;
    assert f[|f| - 1] == last;
  }

  lemma {:induction false} PageExtractedAppend(a: seq<Option<string>>, b: seq<Option<string>>)
    ensures PageExtracted(a + b) == (PageExtracted(a).0 + PageExtracted(b).0, PageExtracted(a).1 + PageExtracted(b).1)
    decreases |b|
  {
    var pa := PageExtracted(a);
    if b == [] {
      assert a + b == a;
      assert PageExtracted(b) == ([], []);
      assert pa.0 + [] == pa.0 && pa.1 + [] == pa.1;
    } else {
      var b' := b[..|b| - 1];
      var last := b[|b| - 1];
      assert b == b' + [last];
      assert a + b == (a + b') + [last];
      PageExtractedAppend(a, b');
      PageExtractedSnoc(a + b', last);
      PageExtractedSnoc(b', last);
      var pb' := PageExtracted(b');
      match last
      case None =>
      case Some(html) =>
        var here := ExtractedFrom(Tokenize(html));
        SeqAssoc(pa.0, pb'.0, here.0);
        SeqAssoc(pa.1, pb'.1, here.1);
    }
  }

  method ExtractAssetsFromPage(fields: seq<Option<string>>)
    returns (allStyles: seq<ExtractedAsset>, allScripts: seq<ExtractedAsset>)
    ensures (allStyles, allScripts) == PageExtracted(fields)
  {
    allStyles, allScripts := [], [];
    for i := 0 to |fields|
      invariant (allStyles, allScripts) == PageExtracted(fields[..i])
    {
      assert fields[..i + 1][..i] == fields[..i];
      if fields[i].None? {
        continue;
      }
      var styles, scripts := ExtractAssets(fields[i].value);
      allStyles := allStyles + styles;
      allScripts := allScripts + scripts;
    }
    assert fields[..|fields|] == fields;
  }
}
