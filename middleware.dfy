/** Serving side (`middleware.py`): the `_TagStripper` that removes inline
    blocks already published as static files, the reference injection of
    `_process_html`, attribute escaping, the preview test and the per-page
    read-through cache of published assets. */
module Middleware {
  import opened Text
  import opened Html
  import opened Extractors

  // ---------------------------------------------------------------------
  // The tag stripper
  // ---------------------------------------------------------------------

  /** The fields of a `_TagStripper` that change while it is fed. The two
      hash sets it was built with, and the fingerprint function it compares
      against them, are passed alongside, so the state machine's lemmas hold
      for any fingerprint; `Stripped` fixes it to `ComputeHash`. */
  datatype StripperState = StripperState(
    output: seq<string>,
    stripping: bool,
    stripTag: Option<string>,
    stripContent: seq<string>,
    stripStartText: string)

  /** A freshly constructed stripper. */
  const Fresh := StripperState([], false, None, [], "")

  /** No candidate block is open and no per-block state is left over. */
  predicate Passing(s: StripperState) {
    !s.stripping && s.stripTag == None && s.stripContent == [] && s.stripStartText == ""
  }

  /** `_compute_hash`: the extractor's fingerprint at its default length. */
  function ComputeHash(content: string): string {
    ContentHash(content)
  }

  /** The fingerprints a block is compared against: the CSS set for a
      `<style>`, the JS set for anything else. */
  function HashesFor(tag: string, css: set<string>, js: set<string>): set<string> {
    if tag == "style" then css else js
  }

  /** A start tag that opens a candidate: a `<style>`/`<script>` that is not
      exempt. */
  predicate OpensCandidate(name: string, attrs: seq<Attr>) {
    IsAssetTag(name) && !Exempt(name, attrs)
  }

  function EndTagText(name: string): string {
    "</" + name + ">"
  }

  /** `get_starttag_text() or f"<{tag}>"`. */
  function StartText(raw: string, name: string): string {
    if raw != "" then raw else "<" + name + ">"
  }

  function Emit(s: StripperState, text: string): StripperState {
    s.(output := s.output + [text])
  }

  /** `handle_starttag`. Outside a candidate every start tag is copied,
      except a non-exempt `<style>`/`<script>`, which opens a candidate and
      is held back; inside a candidate start tags are dropped. */
  function OnStripStartTag(s: StripperState, name: string, attrs: seq<Attr>, raw: string): (r: StripperState)
    ensures s.stripping ==> r == s
    ensures !s.stripping && !OpensCandidate(name, attrs) ==> r == Emit(s, raw)
    ensures !s.stripping && OpensCandidate(name, attrs) ==>
      && r.stripping && r.stripTag == Some(name) && r.stripContent == []
      && r.output == s.output && r.stripStartText == StartText(raw, name)
  {
    if IsAssetTag(name) && !s.stripping then
      if HasAttr(attrs, "data-no-extract") then Emit(s, raw)
      else if name == "script" && HasAttr(attrs, "src") then Emit(s, raw)
      else s.(stripping := true, stripTag := Some(name), stripContent := [], stripStartText := StartText(raw, name))
    else if !s.stripping then Emit(s, raw)
    else s
  }

  /** `handle_endtag`. The end tag of the open candidate drops the block when
      the fingerprint of its trimmed body is in the set for its tag, and
      otherwise emits the held start tag, the untrimmed body and `</tag>`;
      either way the per-block state is reset. Outside a candidate the end
      tag is re-emitted as `</tag>`; any other end tag inside a candidate is
      dropped. */
  function OnStripEndTag(s: StripperState, name: string, css: set<string>, js: set<string>, hash: string -> string): StripperState {
    if s.stripping && s.stripTag == Some(name) then StripperState(s.output + KeptText(s, name, css, js, hash), false, None, [], "")
    else if !s.stripping then Emit(s, EndTagText(name))
    else s
  }

  /** What the end tag of the open candidate adds to the output. */
  function KeptText(s: StripperState, name: string, css: set<string>, js: set<string>, hash: string -> string): seq<string> {
    if hash(Trim(Concat(s.stripContent))) in HashesFor(name, css, js) then []
    else [s.stripStartText, Concat(s.stripContent), EndTagText(name)]
  }

  /** The three outcomes of an end tag: outside a candidate it is copied,
      inside a candidate for another tag it is dropped, and closing the
      candidate drops the block exactly when its fingerprint matches. */
  lemma EndTagOutcome(s: StripperState, name: string, css: set<string>, js: set<string>, hash: string -> string)
    ensures !s.stripping ==> OnStripEndTag(s, name, css, js, hash) == Emit(s, EndTagText(name))
    ensures s.stripping && s.stripTag != Some(name) ==> OnStripEndTag(s, name, css, js, hash) == s
    ensures s.stripping && s.stripTag == Some(name) ==>
      && Passing(OnStripEndTag(s, name, css, js, hash))
      && (OnStripEndTag(s, name, css, js, hash).output == s.output <==> hash(Trim(Concat(s.stripContent))) in HashesFor(name, css, js))
      && (hash(Trim(Concat(s.stripContent))) !in HashesFor(name, css, js) ==>
            OnStripEndTag(s, name, css, js, hash).output == s.output + [s.stripStartText, Concat(s.stripContent), EndTagText(name)])
  {
    if s.stripping && s.stripTag == Some(name) {
      var r := OnStripEndTag(s, name, css, js, hash);
      if hash(Trim(Concat(s.stripContent))) !in HashesFor(name, css, js) {
        assert |r.output| == |s.output| + 3;
      } else {
        assert KeptText(s, name, css, js, hash) == [];
        assert r.output == s.output + [];
      }
    }
  }

  /** `handle_data`, `handle_entityref` and `handle_charref`: the text goes
      into the candidate's buffer when one is open, to the output otherwise. */
  function OnStripText(s: StripperState, text: string): (r: StripperState)
    ensures s.stripping ==> r == s.(stripContent := s.stripContent + [text])
    ensures !s.stripping ==> r == Emit(s, text)
  {
    if s.stripping then s.(stripContent := s.stripContent + [text]) else Emit(s, text)
  }

  /** How the stripper writes a token back out when no candidate is open. */
  function Render(t: Token): string {
    match t
    case StartTag(_, _, raw) => raw
    case EndTag(name) => EndTagText(name)
    case Data(text) => text
    case EntityRef(name) => "&" + name + ";"
    case CharRef(name) => "&#" + name + ";"
    case Comment(text) => "<!--" + text + "-->"
    case Decl(text) => "<!" + text + ">"
    case PI(text) => "<?" + text + ">"
    case UnknownDecl(text) => "<![" + text + "]>"
  }

  /** One parser callback. Comments are dropped inside a candidate, while
      declarations and processing instructions are always copied. */
  function StripStep(s: StripperState, t: Token, css: set<string>, js: set<string>, hash: string -> string): StripperState {
    match t
    case StartTag(name, attrs, raw) => OnStripStartTag(s, name, attrs, raw)
    case EndTag(name) => OnStripEndTag(s, name, css, js, hash)
    case Data(text) => OnStripText(s, text)
    case EntityRef(_) => OnStripText(s, Render(t))
    case CharRef(_) => OnStripText(s, Render(t))
    case Comment(_) => if s.stripping then s else Emit(s, Render(t))
    case _ => Emit(s, Render(t))
  }

  /** The stripper after feeding it a stream of callbacks. */
  function StripRun(s: StripperState, toks: seq<Token>, css: set<string>, js: set<string>, hash: string -> string): StripperState
    decreases |toks|
  {
    if toks == [] then s else StripRun(StripStep(s, toks[0], css, js, hash), toks[1..], css, js, hash)
  }

  lemma {:induction false} StripRunAppend(s: StripperState, a: seq<Token>, b: seq<Token>, css: set<string>, js: set<string>, hash: string -> string)
    ensures StripRun(s, a + b, css, js, hash) == StripRun(StripRun(s, a, css, js, hash), b, css, js, hash)
    decreases |a|
  {
    if a != [] {
      assert (a + b)[0] == a[0] && (a + b)[1..] == a[1..] + b;
      assert StripRun(s, a + b, css, js, hash) == StripRun(StripStep(s, a[0], css, js, hash), a[1..] + b, css, js, hash);
      assert StripRun(s, a, css, js, hash) == StripRun(StripStep(s, a[0], css, js, hash), a[1..], css, js, hash);
      StripRunAppend(StripStep(s, a[0], css, js, hash), a[1..], b, css, js, hash);
    } else {
      assert a + b == b;
    }
  }

  /** `_strip_matching_tags` over a callback stream. */
  function Stripped(toks: seq<Token>, css: set<string>, js: set<string>): string {
    Concat(StripRun(Fresh, toks, css, js, ComputeHash).output)
  }

  /** Outside a candidate, every token but a candidate's start tag is written
      back out as it came and nothing else changes. */
  lemma StepCopiesOutside(s: StripperState, t: Token, css: set<string>, js: set<string>, hash: string -> string)
    requires !s.stripping
    requires t.StartTag? ==> !OpensCandidate(t.name, t.attrs)
    ensures StripStep(s, t, css, js, hash) == Emit(s, Render(t))
  {
  }

  /** The stripper's text for a stream copied token by token. */
  function RenderAll(toks: seq<Token>): string {
    if toks == [] then "" else Render(toks[0]) + RenderAll(toks[1..])
  }

  /** A stream without candidate start tags is copied whole, in order. */
  lemma {:induction false} RunCopiesOutside(s: StripperState, toks: seq<Token>, css: set<string>, js: set<string>, hash: string -> string)
    requires !s.stripping
    requires forall i :: 0 <= i < |toks| && toks[i].StartTag? ==> !OpensCandidate(toks[i].name, toks[i].attrs)
    ensures !StripRun(s, toks, css, js, hash).stripping
    ensures Concat(StripRun(s, toks, css, js, hash).output) == Concat(s.output) + RenderAll(toks)
    decreases |toks|
  {
    if toks == [] {
      assert StripRun(s, toks, css, js, hash) == s;
    } else {
      var s' := Emit(s, Render(toks[0]));
      StepCopiesOutside(s, toks[0], css, js, hash);
      assert StripRun(s, toks, css, js, hash) == StripRun(s', toks[1..], css, js, hash);
      assert forall i :: 0 <= i < |toks[1..]| ==> toks[1..][i] == toks[i + 1];
      RunCopiesOutside(s', toks[1..], css, js, hash);
      var a, r, b := Concat(s.output), Render(toks[0]), RenderAll(toks[1..]);
      ConcatSnoc(s.output, r);
      assert RenderAll(toks) == r + b;
      StringAssoc(a, r, b);
    }
  }

  /** `_TagStripper`: an `HTMLParser` whose callbacks update these fields. */
  class TagStripper {
    const cssHashes: set<string>
    const jsHashes: set<string>
    /** The fingerprint the stripper compares, `_compute_hash`. */
    const hash: string -> string
    var output: seq<string>
    var stripping: bool
    var stripTag: Option<string>
    var stripContent: seq<string>
    var stripStartText: string

    function State(): StripperState
      reads this
    {
      StripperState(output, stripping, stripTag, stripContent, stripStartText)
    }

    constructor (css: set<string>, js: set<string>)
      ensures cssHashes == css && jsHashes == js && hash == ComputeHash
      ensures State() == Fresh
    {
      cssHashes := css;
      jsHashes := js;
      hash := ComputeHash;
      output := [];
      stripping := false;
      stripTag := None;
      stripContent := [];
      stripStartText := "";
    }

    /** `get_output`. */
    function GetOutput(): string
      reads this
    {
      Concat(output)
    }

    method HandleStartTag(tag: string, attrs: seq<Attr>, starttagText: string)
      modifies this
      ensures State() == OnStripStartTag(old(State()), tag, attrs, starttagText)
    {
      if IsAssetTag(tag) && !stripping {
        if HasAttr(attrs, "data-no-extract") {
          output := output + [starttagText];
          return;
        }
        if tag == "script" && HasAttr(attrs, "src") {
          output := output + [starttagText];
          return;
        }
        stripping := true;
        stripTag := Some(tag);
        stripContent := [];
        stripStartText := StartText(starttagText, tag);
        return;
      }
      if !stripping {
        output := output + [starttagText];
      }
    }

    method HandleEndTag(tag: string)
      modifies this
      ensures State() == OnStripEndTag(old(State()), tag, cssHashes, jsHashes, hash)
    {
      ghost var s0 := State();
      if stripping && stripTag == Some(tag) {
        var content := Trim(Concat(stripContent));
        var contentHash := hash(content);
        var hashes := if tag == "style" then cssHashes else jsHashes;
        // A block whose hash does not match is kept as it came.
        var kept := if contentHash in hashes then [] else [stripStartText, Concat(stripContent), EndTagText(tag)];
        assert kept == KeptText(s0, tag, cssHashes, jsHashes, hash);
        output, stripping, stripTag, stripContent, stripStartText := output + kept, false, None, [], "";
      } else if !stripping {
        output := output + [EndTagText(tag)];
        assert State() == Emit(s0, EndTagText(tag));
      } else {
        assert State() == s0;
      }
    }

    method HandleData(data: string)
      modifies this
      ensures State() == OnStripText(old(State()), data)
    {
      if stripping {
        stripContent := stripContent + [data];
      } else {
        output := output + [data];
      }
    }

    method HandleEntityRef(name: string)
      modifies this
      ensures State() == OnStripText(old(State()), Render(EntityRef(name)))
    {
      var text := "&" + name + ";";
      if stripping {
        stripContent := stripContent + [text];
      } else {
        output := output + [text];
      }
    }

    method HandleCharRef(name: string)
      modifies this
      ensures State() == OnStripText(old(State()), Render(CharRef(name)))
    {
      var text := "&#" + name + ";";
      if stripping {
        stripContent := stripContent + [text];
      } else {
        output := output + [text];
      }
    }

    method HandleComment(data: string)
      modifies this
      ensures State() == if old(stripping) then old(State()) else Emit(old(State()), Render(Comment(data)))
    {
      if !stripping {
        output := output + ["<!--" + data + "-->"];
      }
    }

    method HandleDecl(decl: string)
      modifies this
      ensures State() == Emit(old(State()), Render(Decl(decl)))
    {
      output := output + ["<!" + decl + ">"];
    }

    method HandlePI(data: string)
      modifies this
      ensures State() == Emit(old(State()), Render(PI(data)))
    {
      output := output + ["<?" + data + ">"];
    }

    method UnknownDecl(data: string)
      modifies this
      ensures State() == Emit(old(State()), Render(Html.UnknownDecl(data)))
    {
      output := output + ["<![" + data + "]>"];
    }

    /** `feed`: the parser's callbacks for a stream, in order. */
    method Feed(toks: seq<Token>)
      modifies this
      ensures State() == StripRun(old(State()), toks, cssHashes, jsHashes, hash)
    {
      for i := 0 to |toks|
        invariant State() == StripRun(old(State()), toks[..i], cssHashes, jsHashes, hash)
      {
        StripRunAppend(old(State()), toks[..i], [toks[i]], cssHashes, jsHashes, hash);
        assert toks[..i + 1] == toks[..i] + [toks[i]];
        assert StripRun(State(), [toks[i]], cssHashes, jsHashes, hash) == StripStep(State(), toks[i], cssHashes, jsHashes, hash);
        HandleToken(toks[i]);
      }
      assert toks[..|toks|] == toks;
    }

    /** The callback `HTMLParser` makes for one token. */
    method HandleToken(t: Token)
      modifies this
      ensures State() == StripStep(old(State()), t, cssHashes, jsHashes, hash)
    {
      match t
      case StartTag(name, attrs, raw) => HandleStartTag(name, attrs, raw);
      case EndTag(name) => HandleEndTag(name);
      case Data(text) => HandleData(text);
      case EntityRef(name) => HandleEntityRef(name);
      case CharRef(name) => HandleCharRef(name);
      case Comment(text) => HandleComment(text);
      case Decl(text) => HandleDecl(text);
      case PI(text) => HandlePI(text);
      case UnknownDecl(text) => UnknownDecl(text);
    }
  }

  /** `_strip_matching_tags(html, css_hashes, js_hashes)`. */
  method StripMatchingTags(html: string, css: set<string>, js: set<string>) returns (r: string)
    ensures r == Stripped(Tokenize(html), css, js)
  {
    var stripper := new TagStripper(css, js);
    stripper.Feed(Tokenize(html));
    r := stripper.GetOutput();
  }

  // ---------------------------------------------------------------------
  // Attribute escaping
  // ---------------------------------------------------------------------

  /** `_escape_attr`: four replacements, `&` first. */
  function EscapeAttr(value: string): string {
    ReplaceAll(ReplaceAll(ReplaceAll(ReplaceAll(value, "&", "&amp;"), "\"", "&quot;"), "<", "&lt;"), ">", "&gt;")
  }

  /** What the four replacements do to one character. */
  function EscChar(c: char): string {
    if c == '&' then "&amp;"
    else if c == '"' then "&quot;"
    else if c == '<' then "&lt;"
    else if c == '>' then "&gt;"
    else [c]
  }

  /** Escaping character by character. */
  function EscChars(value: string): (r: string)
    ensures forall i :: 0 <= i < |r| ==> r[i] != '"' && r[i] != '<' && r[i] != '>'
  {
    if value == [] then []
    else
      var head := EscChar(value[0]);
      assert forall i :: 0 <= i < |head| ==> head[i] != '"' && head[i] != '<' && head[i] != '>';
      head + EscChars(value[1..])
  }

  /** Replacing a character in a one-character string. */
  lemma ReplaceOne(c: char, p: char, rep: string)
    ensures ReplaceAll([c], [p], rep) == if c == p then rep else [c]
  {
    assert [c][..1] == [c] && [c][1..] == [];
    assert ReplaceAll([], [p], rep) == [];
    assert rep + [] == rep && [c] + [] == [c];
  }

  lemma EscapeOneChar(c: char)
    ensures EscapeAttr([c]) == EscChar(c)
  {
    ReplaceOne(c, '&', "&amp;");
    if c == '&' {
      ReplaceFreeOf("&amp;", '"', "&quot;");
      ReplaceFreeOf("&amp;", '<', "&lt;");
      ReplaceFreeOf("&amp;", '>', "&gt;");
    } else {
      ReplaceOne(c, '"', "&quot;");
      if c == '"' {
        ReplaceFreeOf("&quot;", '<', "&lt;");
        ReplaceFreeOf("&quot;", '>', "&gt;");
      } else {
        ReplaceOne(c, '<', "&lt;");
        if c == '<' {
          ReplaceFreeOf("&lt;", '>', "&gt;");
        } else {
          ReplaceOne(c, '>', "&gt;");
        }
      }
    }
  }


  /** Replacing a character that does not occur changes nothing. */
  lemma {:induction false} ReplaceFreeOf(s: string, c: char, rep: string)
    requires forall i :: 0 <= i < |s| ==> s[i] != c
    ensures ReplaceAll(s, [c], rep) == s
    decreases |s|
  {
    if s != [] {
      assert s[..1] == [s[0]] && s[..1] != [c];
      ReplaceFreeOf(s[1..], c, rep);
      assert [s[0]] + s[1..] == s;
    }
  }

  /** The four replacements act on each character on its own. */
  lemma {:induction false} EscapeAttrByChars(value: string)
    ensures EscapeAttr(value) == EscChars(value)
    decreases |value|
  {
    if value == [] {
      assert EscapeAttr(value) == [];
    } else {
      var c, rest := value[0], value[1..];
      assert value == [c] + rest;
      ReplaceCharAppend([c], rest, '&', "&amp;");
      var a1, b1 := ReplaceAll([c], "&", "&amp;"), ReplaceAll(rest, "&", "&amp;");
      ReplaceCharAppend(a1, b1, '"', "&quot;");
      var a2, b2 := ReplaceAll(a1, "\"", "&quot;"), ReplaceAll(b1, "\"", "&quot;");
      ReplaceCharAppend(a2, b2, '<', "&lt;");
      var a3, b3 := ReplaceAll(a2, "<", "&lt;"), ReplaceAll(b2, "<", "&lt;");
      ReplaceCharAppend(a3, b3, '>', "&gt;");
      assert EscapeAttr(value) == EscapeAttr([c]) + EscapeAttr(rest);
      EscapeOneChar(c);
      EscapeAttrByChars(rest);
    }
  }

  /** An escaped value cannot end the attribute or open a tag. */
  lemma EscapedIsAttributeSafe(value: string)
    ensures forall i :: 0 <= i < |EscapeAttr(value)| ==>
      EscapeAttr(value)[i] != '"' && EscapeAttr(value)[i] != '<' && EscapeAttr(value)[i] != '>'
  {
    EscapeAttrByChars(value);
  }

  /** A value without `&`, `"`, `<` or `>` is left as it is. */
  lemma {:induction false} EscapeAttrIdentity(value: string)
    requires forall i :: 0 <= i < |value| ==> value[i] !in "&\"<>"
    ensures EscapeAttr(value) == value
    decreases |value|
  {
    EscapeAttrByChars(value);
    EscCharsIdentity(value);
  }

  lemma {:induction false} EscCharsIdentity(value: string)
    requires forall i :: 0 <= i < |value| ==> value[i] !in "&\"<>"
    ensures EscChars(value) == value
    decreases |value|
  {
    if value != [] {
      assert value[0] !in "&\"<>";
      assert EscChar(value[0]) == [value[0]];
      EscCharsIdentity(value[1..]);
      assert [value[0]] + value[1..] == value;
    }
  }

  /** Undoing the four replacements with the same chained `str.replace`,
      `&amp;` last. */
  function Unescape(s: string): string {
    ReplaceAll(ReplaceAll(ReplaceAll(ReplaceAll(s, "&quot;", "\""), "&lt;", "<"), "&gt;", ">"), "&amp;", "&")
  }

  /** The four entities `_escape_attr` writes. */
  predicate IsEntity(p: string) {
    p == "&quot;" || p == "&lt;" || p == "&gt;" || p == "&amp;"
  }

  /** The entity undone by the `k`-th replacement of `Unescape`, and the
      character it stands for. */
  function EntityAt(k: nat): string
    requires 1 <= k <= 4
  {
    if k == 1 then "&quot;" else if k == 2 then "&lt;" else if k == 3 then "&gt;" else "&amp;"
  }

  function DecodedAt(k: nat): char
    requires 1 <= k <= 4
  {
    if k == 1 then '"' else if k == 2 then '<' else if k == 3 then '>' else '&'
  }

  /** A character whose entity the first `k` replacements have undone. */
  predicate DecodedBy(c: char, k: nat) {
    (c == '"' && k >= 1) || (c == '<' && k >= 2) || (c == '>' && k >= 3) || (c == '&' && k >= 4)
  }

  /** What one escaped character has become after `k` replacements. */
  function Piece(c: char, k: nat): string {
    if DecodedBy(c, k) then [c] else EscChar(c)
  }

  /** An escaped value after the first `k` replacements of `Unescape`. */
  function Stage(value: string, k: nat): string {
    if value == [] then [] else Piece(value[0], k) + Stage(value[1..], k)
  }

  /** Text without `&` passes any entity replacement unchanged. */
  lemma {:induction false} PlainPrefix(a: string, rest: string, pat: string, rep: string)
    requires |pat| > 0 && pat[0] == '&'
    requires forall i :: 0 <= i < |a| ==> a[i] != '&'
    ensures ReplaceAll(a + rest, pat, rep) == a + ReplaceAll(rest, pat, rep)
    decreases |a|
  {
    var s := a + rest;
    if a == [] {
      assert s == rest;
    } else if |s| < |pat| {
      assert ReplaceAll(rest, pat, rep) == rest;
    } else {
      assert s[..|pat|][0] == a[0];
      assert s[1..] == a[1..] + rest;
      PlainPrefix(a[1..], rest, pat, rep);
      assert [a[0]] + a[1..] == a;
    }
  }

  /** Two different entities already differ in their second character, and
      none holds a second `&`. */
  lemma EntityShape(p: string, pat: string)
    requires IsEntity(p) && IsEntity(pat)
    ensures |p| >= 4 && p[0] == '&'
    ensures forall i :: 1 <= i < |p| ==> p[i] != '&'
    ensures p != pat ==> p[1] != pat[1]
  {
  }

  /** An entity at the front is replaced when it is the pattern and passes
      through whole otherwise. */
  lemma EntityPrefix(p: string, rest: string, pat: string, rep: string)
    requires IsEntity(p) && IsEntity(pat)
    ensures ReplaceAll(p + rest, pat, rep) == if p == pat then rep + ReplaceAll(rest, pat, rep) else p + ReplaceAll(rest, pat, rep)
  {
    EntityShape(p, pat);
    EntityShape(pat, pat);
    var s := p + rest;
    if p == pat {
      assert s[..|pat|] == pat && s[|pat|..] == rest;
    } else {
      OtherEntityPrefix(p, rest, pat, rep);
    }
  }

  lemma OtherEntityPrefix(p: string, rest: string, pat: string, rep: string)
    requires |p| >= 2 && |pat| >= 2 && pat[0] == '&' && p[1] != pat[1]
    requires forall i :: 1 <= i < |p| ==> p[i] != '&'
    ensures ReplaceAll(p + rest, pat, rep) == p + ReplaceAll(rest, pat, rep)
  {
    var s := p + rest;
    if |s| < |pat| {
      assert ReplaceAll(rest, pat, rep) == rest;
    } else {
      assert s[..|pat|][1] == p[1];
      assert s[1..] == p[1..] + rest;
      PlainPrefix(p[1..], rest, pat, rep);
      assert [p[0]] + p[1..] == p;
    }
  }

  /** The `k+1`-th replacement of `Unescape` turns stage `k` into stage
      `k+1`. */
  lemma {:induction false} StageStep(value: string, k: nat)
    requires k < 4
    ensures ReplaceAll(Stage(value, k), EntityAt(k + 1), [DecodedAt(k + 1)]) == Stage(value, k + 1)
    decreases |value|
  {
    var pat, rep := EntityAt(k + 1), [DecodedAt(k + 1)];
    if value == [] {
      assert ReplaceAll([], pat, rep) == [];
    } else {
      var c, rest := value[0], value[1..];
      StageStep(rest, k);
      if DecodedBy(c, k) || !(c in "&\"<>") {
        PlainPrefix([c], Stage(rest, k), pat, rep);
      } else {
        EntityPrefix(EscChar(c), Stage(rest, k), pat, rep);
      }
    }
  }

  /** Before any replacement the stages are the escaped value, and after
      all four they are the value itself. */
  lemma {:induction false} StageEnds(value: string)
    ensures Stage(value, 0) == EscChars(value)
    ensures Stage(value, 4) == value
    decreases |value|
  {
    if value != [] {
      StageEnds(value[1..]);
      assert [value[0]] + value[1..] == value;
    }
  }

  /** Escaping loses nothing: undoing the four replacements, `&amp;` last,
      gives the value back, so distinct URLs give distinct attribute
      texts. */
  lemma UnescapeEscapeAttr(value: string)
    ensures Unescape(EscapeAttr(value)) == value
  {
    EscapeAttrByChars(value);
    StageEnds(value);
    StageStep(value, 0);
    StageStep(value, 1);
    StageStep(value, 2);
    StageStep(value, 3);
  }

  // ---------------------------------------------------------------------
  // Reference injection
  // ---------------------------------------------------------------------

  /** What `_get_published_assets` yields per asset type: the artifact's URL
      and the fingerprints of the blocks it holds. */
  datatype AssetInfo = AssetInfo(url: string, hashes: set<string>)

  function CssTag(url: string): string {
    "<link rel=\"stylesheet\" href=\"" + EscapeAttr(url) + "\">"
  }

  function JsTag(url: string): string {
    "<script src=\"" + EscapeAttr(url) + "\"></script>"
  }

  function CssHashes(assets: map<string, AssetInfo>): set<string> {
    if "css" in assets then assets["css"].hashes else {}
  }

  function JsHashes(assets: map<string, AssetInfo>): set<string> {
    if "js" in assets then assets["js"].hashes else {}
  }

  /** The stripping phase of `_process_html`: the stripper runs only when one
      of the two sets is non-empty. */
  function StripPhase(html: string, assets: map<string, AssetInfo>): string {
    if CssHashes(assets) != {} || JsHashes(assets) != {} then
      Stripped(Tokenize(html), CssHashes(assets), JsHashes(assets))
    else html
  }

  function InjectCss(html: string, assets: map<string, AssetInfo>): string {
    if "css" in assets then ReplaceFirst(html, "</head>", CssTag(assets["css"].url) + "\n</head>") else html
  }

  function InjectJs(html: string, assets: map<string, AssetInfo>): string {
    if "js" in assets then ReplaceFirst(html, "</body>", JsTag(assets["js"].url) + "\n</body>") else html
  }

  /** `_process_html(html, assets)`. */
  function ProcessHtml(html: string, assets: map<string, AssetInfo>): string {
    InjectJs(InjectCss(StripPhase(html, assets), assets), assets)
  }

  /** A page without published assets is served as it is. */
  lemma ProcessHtmlWithoutAssets(html: string)
    ensures ProcessHtml(html, map[]) == html
  {
  }

  /** With both fingerprint sets empty the stripper is never run: only the
      references are injected. */
  lemma EmptySetsSkipStripper(html: string, assets: map<string, AssetInfo>)
    requires CssHashes(assets) == {} && JsHashes(assets) == {}
    ensures ProcessHtml(html, assets) == InjectJs(InjectCss(html, assets), assets)
  {
  }

  /** The stylesheet link goes right before the first `</head>`, followed by
      a newline; without a `</head>` nothing is inserted. */
  lemma CssInjectedBeforeHead(html: string, assets: map<string, AssetInfo>)
    requires "css" in assets
    ensures Find(html, "</head>").None? ==> InjectCss(html, assets) == html
    ensures Find(html, "</head>").Some? ==>
      var i := Find(html, "</head>").value;
      InjectCss(html, assets) == html[..i] + CssTag(assets["css"].url) + "\n" + html[i..]
  {
    ReplaceFirstInserts(html, "</head>", CssTag(assets["css"].url) + "\n");
    assert CssTag(assets["css"].url) + "\n" + "</head>" == CssTag(assets["css"].url) + "\n</head>";
  }

  /** The script reference goes right before the first `</body>`, followed by
      a newline; without a `</body>` nothing is inserted. */
  lemma JsInjectedBeforeBody(html: string, assets: map<string, AssetInfo>)
    requires "js" in assets
    ensures Find(html, "</body>").None? ==> InjectJs(html, assets) == html
    ensures Find(html, "</body>").Some? ==>
      var i := Find(html, "</body>").value;
      InjectJs(html, assets) == html[..i] + JsTag(assets["js"].url) + "\n" + html[i..]
  {
    ReplaceFirstInserts(html, "</body>", JsTag(assets["js"].url) + "\n");
    assert JsTag(assets["js"].url) + "\n" + "</body>" == JsTag(assets["js"].url) + "\n</body>";
  }

  /** `_is_preview_request`: Wagtail flagged the request as a preview, or its
      path contains `/edit/preview/` or ends with `/preview/`. */
  function IsPreviewRequest(isPreview: bool, path: string): (r: bool)
    ensures r <==> isPreview || (exists j :: OccursAt(path, "/edit/preview/", j)) || EndsWith(path, "/preview/")
  {
    isPreview || Contains(path, "/edit/preview/") || EndsWith(path, "/preview/")
  }

  // ---------------------------------------------------------------------
  // The per-page cache
  // ---------------------------------------------------------------------

  const CacheKeyPrefix: string := "wap:"

  function CacheKey(pageId: int): string {
    CacheKeyPrefix + IntToString(pageId)
  }

  /** Different pages never share a cache entry. */
  lemma CacheKeyInjective(p: int, q: int)
    requires p != q
    ensures CacheKey(p) != CacheKey(q)
  {
    if CacheKey(p) == CacheKey(q) {
      assert CacheKey(p)[4..] == IntToString(p);
      assert CacheKey(q)[4..] == IntToString(q);
      IntToStringInjective(p, q);
    }
  }

  /** One `PublishedAsset` row of the page, in query order. */
  datatype AssetRow = AssetRow(assetType: string, url: string, contentHashes: seq<string>)

  function HashSet(hashes: seq<string>): (r: set<string>)
    ensures forall h :: h in r <==> exists i :: 0 <= i < |hashes| && hashes[i] == h
  {
    set i | 0 <= i < |hashes| :: hashes[i]
  }

  function InfoOf(row: AssetRow): AssetInfo {
    AssetInfo(row.url, HashSet(row.contentHashes))
  }

  /** The map a cache miss builds: one entry per asset type, a later row of
      a type overwriting an earlier one. */
  function AssetsFrom(rows: seq<AssetRow>): map<string, AssetInfo> {
    if rows == [] then map[]
    else AssetsFrom(rows[..|rows| - 1])[rows[|rows| - 1].assetType := InfoOf(rows[|rows| - 1])]
  }

  /** The asset types in the map are exactly those of the rows. */
  lemma {:induction false} AssetsFromKeys(rows: seq<AssetRow>)
    ensures forall k :: k in AssetsFrom(rows) <==> exists i :: 0 <= i < |rows| && rows[i].assetType == k
    decreases |rows|
  {
    if rows != [] {
      var init := rows[..|rows| - 1];
      var last := rows[|rows| - 1];
      AssetsFromKeys(init);
      assert AssetsFrom(rows) == AssetsFrom(init)[last.assetType := InfoOf(last)];
      forall k ensures k in AssetsFrom(rows) <==> exists i :: 0 <= i < |rows| && rows[i].assetType == k {
        if k in AssetsFrom(rows) && k != last.assetType {
          var i :| 0 <= i < |init| && init[i].assetType == k;
          assert rows[i] == init[i];
        }
        if exists i :: 0 <= i < |rows| && rows[i].assetType == k {
          var i :| 0 <= i < |rows| && rows[i].assetType == k;
          if i < |rows| - 1 {
            assert init[i] == rows[i];
          }
        }
      }
    }
  }

  /** A later row of the same asset type overwrites an earlier one: each type
      maps to its last row. */
  lemma {:induction false} AssetsFromLastWins(rows: seq<AssetRow>, i: nat)
    requires i < |rows|
    requires forall j :: i < j < |rows| ==> rows[j].assetType != rows[i].assetType
    ensures rows[i].assetType in AssetsFrom(rows)
    ensures AssetsFrom(rows)[rows[i].assetType] == InfoOf(rows[i])
    decreases |rows|
  {
    var init := rows[..|rows| - 1];
    var last := rows[|rows| - 1];
    assert AssetsFrom(rows) == AssetsFrom(init)[last.assetType := InfoOf(last)];
    if i < |rows| - 1 {
      assert rows[i] == init[i];
      assert last.assetType != rows[i].assetType;
      forall j | i < j < |init| ensures init[j].assetType != init[i].assetType {
        assert init[j] == rows[j];
      }
      AssetsFromLastWins(init, i);
    }
  }

  /** Django's cache, as far as this middleware uses it: entries keyed by
      `wap:<page id>`, with explicit invalidation only. */
  class AssetCache {
    var entries: map<string, map<string, AssetInfo>>

    constructor ()
      ensures entries == map[]
    {
      entries := map[];
    }

    /** `_get_published_assets(page_id)`, given the page's `PublishedAsset`
        rows. A hit returns the stored map and changes nothing; a miss builds
        the map from the rows, stores it and returns it. */
    method GetPublishedAssets(pageId: int, rows: seq<AssetRow>) returns (assets: map<string, AssetInfo>)
      modifies this
      ensures CacheKey(pageId) in old(entries) ==>
        assets == old(entries)[CacheKey(pageId)] && entries == old(entries)
      ensures CacheKey(pageId) !in old(entries) ==>
        assets == AssetsFrom(rows) && entries == old(entries)[CacheKey(pageId) := assets]
    {
      var cacheKey := CacheKey(pageId);
      if cacheKey in entries {
        return entries[cacheKey];
      }
      assets := map[];
      for i := 0 to |rows|
        invariant assets == AssetsFrom(rows[..i])
      {
        assert rows[..i + 1][..i] == rows[..i];
        assets := assets[rows[i].assetType := AssetInfo(rows[i].url, HashSet(rows[i].contentHashes))];
      }
      assert rows[..|rows|] == rows;
      entries := entries[cacheKey := assets];
    }

    /** `invalidate_cache(page_id)`: drops that page's entry and no other. */
    method InvalidateCache(pageId: int)
      modifies this
      ensures entries == old(entries) - {CacheKey(pageId)}
      ensures forall q :: q != pageId && CacheKey(q) in old(entries) ==>
        CacheKey(q) in entries && entries[CacheKey(q)] == old(entries)[CacheKey(q)]
    {
      forall q | q != pageId ensures CacheKey(q) != CacheKey(pageId) {
        CacheKeyInjective(q, pageId);
      }
      entries := entries - {CacheKey(pageId)};
    }
  }
}
