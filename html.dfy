/** The token stream both scanners consume, as Python's `html.parser` delivers
    it through its callbacks, and a view of that stream as a sequence of
    segments: a `<style>`/`<script>` block with the character data inside it,
    or any other single token. */
module Html {
  import opened Text

  /** One `(name, value)` pair of a start tag; a bare attribute has no value. */
  type Attr = (string, Option<string>)

  /** The callbacks of `HTMLParser`, one constructor per handler. `raw` is the
      text `get_starttag_text()` returns for that start tag. */
  datatype Token =
    | StartTag(name: string, attrs: seq<Attr>, raw: string)
    | EndTag(name: string)
    | Data(text: string)
    | EntityRef(name: string)
    | CharRef(name: string)
    | Comment(text: string)
    | Decl(text: string)
    | PI(text: string)
    | UnknownDecl(text: string)

  /** `key in dict(attrs)`. */
  predicate HasAttr(attrs: seq<Attr>, key: string) {
    exists i :: 0 <= i < |attrs| && attrs[i].0 == key
  }

  /** The two elements both scanners look at. `html.parser` reads their
      content as raw text. */
  predicate IsAssetTag(name: string) {
    name == "style" || name == "script"
  }

  /** The blocks both scanners leave alone: any block marked
      `data-no-extract`, and a `<script>` with a `src`. */
  predicate Exempt(name: string, attrs: seq<Attr>) {
    HasAttr(attrs, "data-no-extract") || (name == "script" && HasAttr(attrs, "src"))
  }

  /** A `<style>`/`<script>` start tag, the character data after it and, when
      `closed`, its matching end tag; or any other single token. */
  datatype Segment =
    | Block(name: string, attrs: seq<Attr>, raw: string, body: seq<string>, closed: bool)
    | Other(token: Token)

  function DataTokens(body: seq<string>): (r: seq<Token>)
    ensures |r| == |body|
    ensures forall i :: 0 <= i < |body| ==> r[i] == Data(body[i])
  {
    if body == [] then [] else [Data(body[0])] + DataTokens(body[1..])
  }

  /** The tokens a segment stands for. */
  function TokensOf(seg: Segment): seq<Token> {
    match seg
    case Other(t) => [t]
    case Block(name, attrs, raw, body, closed) =>
      [StartTag(name, attrs, raw)] + DataTokens(body) + (if closed then [EndTag(name)] else [])
  }

  /** The first token of a stream, then the rest, with `k` tokens of the rest. */
  lemma PrefixSplit(toks: seq<Token>, k: nat)
    requires k < |toks|
    ensures toks[..k + 1] == [toks[0]] + toks[1..][..k]
  {
    assert forall i :: 0 <= i < k + 1 ==> toks[..k + 1][i] == ([toks[0]] + toks[1..][..k])[i];
  }

  /** The texts of the `Data` tokens at the head of a stream. */
  function LeadingTexts(toks: seq<Token>): (body: seq<string>)
    ensures |body| <= |toks|
    ensures DataTokens(body) == toks[..|body|]
    ensures |body| < |toks| ==> !toks[|body|].Data?
  {
    if toks != [] && toks[0].Data? then
      var rest := LeadingTexts(toks[1..]);
      PrefixSplit(toks, |rest|);
      assert ([toks[0].text] + rest)[1..] == rest;
      [toks[0].text] + rest
    else []
  }

  /** The `<style>`/`<script>` block a stream starts with: its start tag,
      the data after it and, when it comes next, its own end tag. */
  function BlockAt(toks: seq<Token>): (r: (Segment, nat))
    requires toks != [] && toks[0].StartTag? && IsAssetTag(toks[0].name)
    ensures 1 <= r.1 <= |toks|
    ensures TokensOf(r.0) == toks[..r.1]
    ensures r.0.Block? && r.0.name == toks[0].name
  {
    var name := toks[0].name;
    var body := LeadingTexts(toks[1..]);
    var n := |body|;
    PrefixSplit(toks, n);
    if 1 + n < |toks| && toks[1 + n] == EndTag(name) then
      assert toks[..2 + n] == toks[..1 + n] + [toks[1 + n]];
      (Block(name, toks[0].attrs, toks[0].raw, body, true), 2 + n)
    else
      (Block(name, toks[0].attrs, toks[0].raw, body, false), 1 + n)
  }

  /** The first segment of a non-empty stream and the number of tokens it
      covers. */
  function NextSegment(toks: seq<Token>): (r: (Segment, nat))
    requires toks != []
    ensures 1 <= r.1 <= |toks|
    ensures TokensOf(r.0) == toks[..r.1]
    ensures r.0.Block? ==> IsAssetTag(r.0.name)
    ensures r.0.Other? && r.0.token.StartTag? ==> !IsAssetTag(r.0.token.name)
  {
    if toks[0].StartTag? && IsAssetTag(toks[0].name) then BlockAt(toks)
    else
      assert toks[..1] == [toks[0]];
      (Other(toks[0]), 1)
  }

  /** The stream cut into segments, left to right. */
  function Segments(toks: seq<Token>): seq<Segment>
    decreases |toks|
  {
    if toks == [] then []
    else
      var next := NextSegment(toks);
      [next.0] + Segments(toks[next.1..])
  }

  function Unsegment(segs: seq<Segment>): seq<Token> {
    if segs == [] then [] else TokensOf(segs[0]) + Unsegment(segs[1..])
  }

  lemma UnsegmentCons(seg: Segment, rest: seq<Segment>)
    ensures Unsegment([seg] + rest) == TokensOf(seg) + Unsegment(rest)
  {
    assert ([seg] + rest)[1..] == rest;
  }

  /** Cutting a stream into segments loses and reorders nothing. */
  lemma {:induction false} SegmentsPartition(toks: seq<Token>)
    ensures Unsegment(Segments(toks)) == toks
    decreases |toks|
  {
    if toks != [] {
      var r := NextSegment(toks);
      var rest := toks[r.1..];
      assert Segments(toks) == [r.0] + Segments(rest);
      SegmentsPartition(rest);
      UnsegmentCons(r.0, Segments(rest));
      TakeDrop(toks, r.1);
    }
  }

  /** What `html.parser` guarantees of the stream it delivers: a `<style>` or
      `<script>` start tag puts the parser in raw-text mode, so it is followed
      only by `Data` up to its own end tag, or up to the end of the input when
      that end tag is missing; and the text of every such start tag is the
      non-empty markup it was read from. */
  predicate Tokenised(toks: seq<Token>)
    decreases |toks|
  {
    toks == [] ||
    var next := NextSegment(toks);
    && (next.0.Block? ==> next.0.raw != "" && (next.0.closed || next.1 == |toks|))
    && Tokenised(toks[next.1..])
  }

  /** A tokenised stream is its first segment followed by a tokenised rest;
      a block left open runs to the end of the stream. */
  lemma SegmentsCons(toks: seq<Token>)
    requires toks != [] && Tokenised(toks)
    ensures var next := NextSegment(toks);
      && toks == TokensOf(next.0) + toks[next.1..]
      && Segments(toks) == [next.0] + Segments(toks[next.1..])
      && Tokenised(toks[next.1..])
      && (next.0.Block? ==> next.0.raw != "")
      && (next.0.Block? && !next.0.closed ==> toks[next.1..] == [])
  {
    var next := NextSegment(toks);
    assert toks == toks[..next.1] + toks[next.1..];
  }

  /** `html.parser` itself, which is not part of this model: the callbacks it
      makes for a document. Both scanners see the stream this delivers. */
  type Tokenizer = f: string -> seq<Token> | forall html :: Tokenised(f(html))
    witness (html: string) => []

  const Tokenize: Tokenizer
}
