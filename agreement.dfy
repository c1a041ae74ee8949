/** How the two scanners of one page relate. `AssetExtractor` (publishing)
    and `_TagStripper` (serving) read the same parser callbacks, share the
    exemptions (`data-no-extract`, a script with `src`), trim block bodies
    the same way and fingerprint them with the same default-length hash.
    Both are described here segment by segment (see `Html.Segments`), which
    yields the guarantee the pipeline rests on: every block published with a
    fingerprint in the page's set is cut out of the served page, and nothing
    else is. */
module Agreement {
  import opened Text
  import opened Html
  import opened Extractors
  import opened Middleware

  // ---------------------------------------------------------------------
  // The stripper, segment by segment
  // ---------------------------------------------------------------------

  /** What the stripper writes for one segment that it reaches outside a
      candidate: any other token is copied; an exempt block is copied with
      its body; a candidate block left open writes nothing; a closed
      candidate writes nothing when the fingerprint of its trimmed body is in
      the set for its tag, and otherwise its start-tag text, untrimmed body
      and end tag. */
  function SegmentOutput(seg: Segment, css: set<string>, js: set<string>, hash: string -> string): seq<string> {
    match seg
    case Other(t) => [Render(t)]
    case Block(name, attrs, raw, body, closed) =>
      if Exempt(name, attrs) then [raw] + body + (if closed then [EndTagText(name)] else [])
      else if !closed then []
      else if hash(Trim(Concat(body))) in HashesFor(name, css, js) then []
      else [StartText(raw, name), Concat(body), EndTagText(name)]
  }

  function SegmentsOutput(segs: seq<Segment>, css: set<string>, js: set<string>, hash: string -> string): seq<string> {
    if segs == [] then [] else SegmentOutput(segs[0], css, js, hash) + SegmentsOutput(segs[1..], css, js, hash)
  }

  lemma SegmentsOutputCons(seg: Segment, rest: seq<Segment>, css: set<string>, js: set<string>, hash: string -> string)
    ensures SegmentsOutput([seg] + rest, css, js, hash) == SegmentOutput(seg, css, js, hash) + SegmentsOutput(rest, css, js, hash)
  {
    assert ([seg] + rest)[0] == seg && ([seg] + rest)[1..] == rest;
  }

  lemma StripRunCons(s: StripperState, t: Token, rest: seq<Token>, css: set<string>, js: set<string>, hash: string -> string)
    ensures StripRun(s, [t] + rest, css, js, hash) == StripRun(StripStep(s, t, css, js, hash), rest, css, js, hash)
  {
    assert ([t] + rest)[0] == t && ([t] + rest)[1..] == rest;
  }

  /** Character data outside a candidate goes to the output, chunk by chunk. */
  lemma {:induction false} CopyDataRun(s: StripperState, body: seq<string>, css: set<string>, js: set<string>, hash: string -> string)
    requires !s.stripping
    ensures StripRun(s, DataTokens(body), css, js, hash) == s.(output := s.output + body)
    decreases |body|
  {
    if body == [] {
      assert DataTokens(body) == [];
      assert s.output + body == s.output;
    } else {
      var s' := Emit(s, body[0]);
      assert DataTokens(body) == [Data(body[0])] + DataTokens(body[1..]);
      StripRunCons(s, Data(body[0]), DataTokens(body[1..]), css, js, hash);
      CopyDataRun(s', body[1..], css, js, hash);
      SeqAssoc(s.output, [body[0]], body[1..]);
      assert [body[0]] + body[1..] == body;
    }
  }

  /** Character data inside a candidate goes to its buffer, chunk by chunk. */
  lemma {:induction false} HoldDataRun(s: StripperState, body: seq<string>, css: set<string>, js: set<string>, hash: string -> string)
    requires s.stripping
    ensures StripRun(s, DataTokens(body), css, js, hash) == s.(stripContent := s.stripContent + body)
    decreases |body|
  {
    if body == [] {
      assert DataTokens(body) == [];
      assert s.stripContent + body == s.stripContent;
    } else {
      var s' := s.(stripContent := s.stripContent + [body[0]]);
      assert DataTokens(body) == [Data(body[0])] + DataTokens(body[1..]);
      StripRunCons(s, Data(body[0]), DataTokens(body[1..]), css, js, hash);
      HoldDataRun(s', body[1..], css, js, hash);
      SeqAssoc(s.stripContent, [body[0]], body[1..]);
      assert [body[0]] + body[1..] == body;
    }
  }

  /** A token that is not the start of a block is copied. */
  lemma OtherStrip(s: StripperState, t: Token, css: set<string>, js: set<string>, hash: string -> string)
    requires Passing(s)
    requires t.StartTag? ==> !IsAssetTag(t.name)
    ensures StripRun(s, [t], css, js, hash) == Emit(s, Render(t))
  {
    StripRunCons(s, t, [], css, js, hash);
    assert [t] + [] == [t];
    StepCopiesOutside(s, t, css, js, hash);
  }

  /** An exempt block is copied whole. */
  lemma ExemptBlockStrip(s: StripperState, name: string, attrs: seq<Attr>, raw: string, body: seq<string>, closed: bool,
                         css: set<string>, js: set<string>, hash: string -> string)
    requires Passing(s) && Exempt(name, attrs)
    ensures var r := StripRun(s, TokensOf(Block(name, attrs, raw, body, closed)), css, js, hash);
      Passing(r) && r.output == s.output + ([raw] + body + (if closed then [EndTagText(name)] else []))
  {
    var s1 := Emit(s, raw);
    var tail := if closed then [EndTag(name)] else [];
    StripRunCons(s, StartTag(name, attrs, raw), DataTokens(body) + tail, css, js, hash);
    assert TokensOf(Block(name, attrs, raw, body, closed)) == [StartTag(name, attrs, raw)] + (DataTokens(body) + tail);
    StripRunAppend(s1, DataTokens(body), tail, css, js, hash);
    CopyDataRun(s1, body, css, js, hash);
    var s2 := s1.(output := s1.output + body);
    SeqAssoc(s.output, [raw], body);
    if closed {
      StripRunCons(s2, EndTag(name), [], css, js, hash);
      assert [EndTag(name)] + [] == [EndTag(name)];
      SeqAssoc(s.output, [raw] + body, [EndTagText(name)]);
    } else {
      assert s.output + ([raw] + body + []) == s.output + ([raw] + body);
    }
  }

  /** The state right after a candidate's start tag and body. */
  function Holding(s: StripperState, name: string, raw: string, body: seq<string>): StripperState {
    StripperState(s.output, true, Some(name), body, StartText(raw, name))
  }

  lemma CandidateOpens(s: StripperState, name: string, attrs: seq<Attr>, raw: string, body: seq<string>,
                       css: set<string>, js: set<string>, hash: string -> string)
    requires Passing(s) && IsAssetTag(name) && !Exempt(name, attrs)
    ensures StripRun(s, [StartTag(name, attrs, raw)] + DataTokens(body), css, js, hash) == Holding(s, name, raw, body)
  {
    var s1 := s.(stripping := true, stripTag := Some(name), stripContent := [], stripStartText := StartText(raw, name));
    StripRunCons(s, StartTag(name, attrs, raw), DataTokens(body), css, js, hash);
    HoldDataRun(s1, body, css, js, hash);
    assert [] + body == body;
  }

  /** A candidate block writes only what its end tag decides; left open it
      writes nothing. */
  lemma CandidateBlockStrip(s: StripperState, name: string, attrs: seq<Attr>, raw: string, body: seq<string>, closed: bool,
                            css: set<string>, js: set<string>, hash: string -> string)
    requires Passing(s) && IsAssetTag(name) && !Exempt(name, attrs)
    ensures var r := StripRun(s, TokensOf(Block(name, attrs, raw, body, closed)), css, js, hash);
      && r.output == s.output + SegmentOutput(Block(name, attrs, raw, body, closed), css, js, hash)
      && (closed ==> Passing(r))
  {
    var head := [StartTag(name, attrs, raw)] + DataTokens(body);
    CandidateOpens(s, name, attrs, raw, body, css, js, hash);
    var h := Holding(s, name, raw, body);
    if closed {
      assert TokensOf(Block(name, attrs, raw, body, closed)) == head + [EndTag(name)];
      StripRunAppend(s, head, [EndTag(name)], css, js, hash);
      StripRunCons(h, EndTag(name), [], css, js, hash);
      assert [EndTag(name)] + [] == [EndTag(name)];
      if hash(Trim(Concat(body))) in HashesFor(name, css, js) {
        assert KeptText(h, name, css, js, hash) == [];
      } else {
        assert KeptText(h, name, css, js, hash) == [StartText(raw, name), Concat(body), EndTagText(name)];
      }
    } else {
      assert TokensOf(Block(name, attrs, raw, body, closed)) == head;
      assert SegmentOutput(Block(name, attrs, raw, body, closed), css, js, hash) == [];
      assert s.output + [] == s.output;
    }
  }

  /** One segment, reached outside a candidate. */
  lemma SegmentStrip(s: StripperState, seg: Segment, css: set<string>, js: set<string>, hash: string -> string)
    requires Passing(s)
    requires seg.Block? ==> IsAssetTag(seg.name)
    requires seg.Other? && seg.token.StartTag? ==> !IsAssetTag(seg.token.name)
    ensures var r := StripRun(s, TokensOf(seg), css, js, hash);
      && r.output == s.output + SegmentOutput(seg, css, js, hash)
      && (seg.Other? || seg.closed || Exempt(seg.name, seg.attrs) ==> Passing(r))
  {
    match seg
    case Other(t) =>
      OtherStrip(s, t, css, js, hash);
    case Block(name, attrs, raw, body, closed) =>
      if Exempt(name, attrs) {
        ExemptBlockStrip(s, name, attrs, raw, body, closed, css, js, hash);
      } else {
        CandidateBlockStrip(s, name, attrs, raw, body, closed, css, js, hash);
      }
  }

  /** The stripper's output over a tokenised stream is what its segments
      write, in order. */
  lemma {:induction false} StripBySegments(s: StripperState, toks: seq<Token>, css: set<string>, js: set<string>, hash: string -> string)
    requires Passing(s) && Tokenised(toks)
    ensures StripRun(s, toks, css, js, hash).output == s.output + SegmentsOutput(Segments(toks), css, js, hash)
    decreases |toks|
  {
    if toks == [] {
      assert Segments(toks) == [];
      assert s.output + [] == s.output;
    } else {
      SegmentsCons(toks);
      var next := NextSegment(toks);
      var seg, rest := next.0, toks[next.1..];
      SegmentsOutputCons(seg, Segments(rest), css, js, hash);
      StripRunAppend(s, TokensOf(seg), rest, css, js, hash);
      SegmentStrip(s, seg, css, js, hash);
      var s' := StripRun(s, TokensOf(seg), css, js, hash);
      if seg.Other? || seg.closed || Exempt(seg.name, seg.attrs) {
        StripBySegments(s', rest, css, js, hash);
      } else {
        assert rest == [] && Segments(rest) == [];
        assert s'.output + SegmentsOutput(Segments(rest), css, js, hash) == s'.output;
      }
      SeqAssoc(s.output, SegmentOutput(seg, css, js, hash), SegmentsOutput(Segments(rest), css, js, hash));
    }
  }

  /** `_strip_matching_tags` over a tokenised stream, segment by segment. */
  lemma StrippedBySegments(toks: seq<Token>, css: set<string>, js: set<string>)
    requires Tokenised(toks)
    ensures Stripped(toks, css, js) == Concat(SegmentsOutput(Segments(toks), css, js, ComputeHash))
  {
    StripBySegments(Fresh, toks, css, js, ComputeHash);
    assert [] + SegmentsOutput(Segments(toks), css, js, ComputeHash) == SegmentsOutput(Segments(toks), css, js, ComputeHash);
  }

  // ---------------------------------------------------------------------
  // Published blocks are stripped
  // ---------------------------------------------------------------------

  /** Every asset in `YieldsOf(segs, tag)` comes from a block of `segs`
      named `tag` that yields exactly that asset. */
  lemma {:induction false} YieldsOfOrigin(segs: seq<Segment>, tag: string, i: nat)
    requires i < |YieldsOf(segs, tag)|
    ensures exists k :: 0 <= k < |segs| && segs[k].Block? && segs[k].name == tag && Yield(segs[k]) == Some(YieldsOf(segs, tag)[i])
    decreases |segs|
  {
    var head := if segs[0].Block? && segs[0].name == tag && Yield(segs[0]).Some? then [Yield(segs[0]).value] else [];
    assert YieldsOf(segs, tag) == head + YieldsOf(segs[1..], tag);
    if i < |head| {
      assert YieldsOf(segs, tag)[i] == Yield(segs[0]).value;
    } else {
      YieldsOfOrigin(segs[1..], tag, i - |head|);
      var k :| 0 <= k < |segs[1..]| && segs[1..][k].Block? && segs[1..][k].name == tag
        && Yield(segs[1..][k]) == Some(YieldsOf(segs[1..], tag)[i - |head|]);
      assert segs[k + 1] == segs[1..][k];
    }
  }

  /** A block that yields an asset whose fingerprint is in the set for its
      tag writes nothing: the stripper trims and fingerprints the body
      exactly as the extractor did. */
  lemma YieldStripped(seg: Segment, css: set<string>, js: set<string>)
    requires seg.Block? && Yield(seg).Some? && Yield(seg).value.contentHash in HashesFor(seg.name, css, js)
    ensures SegmentOutput(seg, css, js, ComputeHash) == []
  {
    var content := Trim(Concat(seg.body));
    assert Yield(seg).value == AssetOf(content);
    assert ComputeHash(content) == AssetOf(content).contentHash;
  }

  /** The guarantee the pipeline rests on: every style that `extract_assets`
      returns with a fingerprint in the CSS set, and every script with a
      fingerprint in the JS set, is the asset of a block of the page that
      `_strip_matching_tags` leaves out of its output entirely. */
  lemma PublishedBlocksAreStripped(toks: seq<Token>, css: set<string>, js: set<string>)
    requires Tokenised(toks)
    ensures Stripped(toks, css, js) == Concat(SegmentsOutput(Segments(toks), css, js, ComputeHash))
    ensures forall i :: 0 <= i < |ExtractedFrom(toks).0| && ExtractedFrom(toks).0[i].contentHash in css ==>
      exists k :: 0 <= k < |Segments(toks)| && Segments(toks)[k].Block? && Segments(toks)[k].name == "style"
        && Yield(Segments(toks)[k]) == Some(ExtractedFrom(toks).0[i])
        && SegmentOutput(Segments(toks)[k], css, js, ComputeHash) == []
    ensures forall i :: 0 <= i < |ExtractedFrom(toks).1| && ExtractedFrom(toks).1[i].contentHash in js ==>
      exists k :: 0 <= k < |Segments(toks)| && Segments(toks)[k].Block? && Segments(toks)[k].name == "script"
        && Yield(Segments(toks)[k]) == Some(ExtractedFrom(toks).1[i])
        && SegmentOutput(Segments(toks)[k], css, js, ComputeHash) == []
  {
    StrippedBySegments(toks, css, js);
    ExtractedBySegments(toks);
    var segs := Segments(toks);
    forall i | 0 <= i < |ExtractedFrom(toks).0| && ExtractedFrom(toks).0[i].contentHash in css
      ensures exists k :: 0 <= k < |segs| && segs[k].Block? && segs[k].name == "style"
                && Yield(segs[k]) == Some(ExtractedFrom(toks).0[i]) && SegmentOutput(segs[k], css, js, ComputeHash) == []
    {
      YieldsOfOrigin(segs, "style", i);
      var k :| 0 <= k < |segs| && segs[k].Block? && segs[k].name == "style" && Yield(segs[k]) == Some(YieldsOf(segs, "style")[i]);
      YieldStripped(segs[k], css, js);
    }
    forall i | 0 <= i < |ExtractedFrom(toks).1| && ExtractedFrom(toks).1[i].contentHash in js
      ensures exists k :: 0 <= k < |segs| && segs[k].Block? && segs[k].name == "script"
                && Yield(segs[k]) == Some(ExtractedFrom(toks).1[i]) && SegmentOutput(segs[k], css, js, ComputeHash) == []
    {
      YieldsOfOrigin(segs, "script", i);
      var k :| 0 <= k < |segs| && segs[k].Block? && segs[k].name == "script" && Yield(segs[k]) == Some(YieldsOf(segs, "script")[i]);
      YieldStripped(segs[k], css, js);
    }
  }

  /** The stripper only ever appends to its output. */
  lemma StepGrows(s: StripperState, t: Token, css: set<string>, js: set<string>, hash: string -> string)
    ensures |s.output| <= |StripStep(s, t, css, js, hash).output|
    ensures StripStep(s, t, css, js, hash).output[..|s.output|] == s.output
  {
  }

  lemma {:induction false} StripRunGrows(s: StripperState, toks: seq<Token>, css: set<string>, js: set<string>, hash: string -> string)
    ensures |s.output| <= |StripRun(s, toks, css, js, hash).output|
    ensures StripRun(s, toks, css, js, hash).output[..|s.output|] == s.output
    decreases |toks|
  {
    if toks != [] {
      var next := StripStep(s, toks[0], css, js, hash);
      StepGrows(s, toks[0], css, js, hash);
      StripRunGrows(next, toks[1..], css, js, hash);
      var out := StripRun(s, toks, css, js, hash).output;
      assert out[..|s.output|] == out[..|next.output|][..|s.output|];
    }
  }

  /** The guarantee as the pipeline uses it: the extractor reads one field's
      markup `field` on its own, while the stripper reads the whole response
      `before + field + after`. When the response before the field leaves no
      candidate open, the field's part of the stripped response is exactly
      its segments' outputs, written after whatever `before` wrote, and every
      asset extracted from the field whose fingerprint is published comes
      from a block whose output there is empty. */
  lemma FieldBlocksAreStripped(before: seq<Token>, field: seq<Token>, after: seq<Token>, css: set<string>, js: set<string>)
    requires Passing(StripRun(Fresh, before, css, js, ComputeHash))
    requires Tokenised(field)
    ensures var sA := StripRun(Fresh, before, css, js, ComputeHash);
      var sF := StripRun(sA, field, css, js, ComputeHash);
      var whole := StripRun(Fresh, before + field + after, css, js, ComputeHash).output;
      && |sF.output| <= |whole|
      && whole == sA.output + SegmentsOutput(Segments(field), css, js, ComputeHash) + whole[|sF.output|..]
    ensures forall i :: 0 <= i < |ExtractedFrom(field).0| && ExtractedFrom(field).0[i].contentHash in css ==>
      exists k :: 0 <= k < |Segments(field)| && Segments(field)[k].Block? && Segments(field)[k].name == "style"
        && Yield(Segments(field)[k]) == Some(ExtractedFrom(field).0[i])
        && SegmentOutput(Segments(field)[k], css, js, ComputeHash) == []
    ensures forall i :: 0 <= i < |ExtractedFrom(field).1| && ExtractedFrom(field).1[i].contentHash in js ==>
      exists k :: 0 <= k < |Segments(field)| && Segments(field)[k].Block? && Segments(field)[k].name == "script"
        && Yield(Segments(field)[k]) == Some(ExtractedFrom(field).1[i])
        && SegmentOutput(Segments(field)[k], css, js, ComputeHash) == []
  {
    var sA := StripRun(Fresh, before, css, js, ComputeHash);
    var sF := StripRun(sA, field, css, js, ComputeHash);
    StripRunAppend(Fresh, before, field, css, js, ComputeHash);
    StripRunAppend(Fresh, before + field, after, css, js, ComputeHash);
    StripBySegments(sA, field, css, js, ComputeHash);
    StripRunGrows(sF, after, css, js, ComputeHash);
    var whole := StripRun(sF, after, css, js, ComputeHash).output;
    assert whole == whole[..|sF.output|] + whole[|sF.output|..];
    PublishedBlocksAreStripped(field, css, js);
  }

  // ---------------------------------------------------------------------
  // Nothing else is removed
  // ---------------------------------------------------------------------

  lemma {:induction false} RenderAllAppend(a: seq<Token>, b: seq<Token>)
    ensures RenderAll(a + b) == RenderAll(a) + RenderAll(b)
    decreases |a|
  {
    if a == [] {
      assert a + b == b;
    } else {
      assert (a + b)[0] == a[0] && (a + b)[1..] == a[1..] + b;
      RenderAllAppend(a[1..], b);
      StringAssoc(Render(a[0]), RenderAll(a[1..]), RenderAll(b));
    }
  }

  /** Character data is written back as it came. */
  lemma {:induction false} RenderAllData(body: seq<string>)
    ensures RenderAll(DataTokens(body)) == Concat(body)
    decreases |body|
  {
    if body != [] {
      assert DataTokens(body) == [Data(body[0])] + DataTokens(body[1..]);
      assert DataTokens(body)[1..] == DataTokens(body[1..]);
      RenderAllData(body[1..]);
    }
  }

  /** A block written back token by token. */
  lemma BlockRendered(name: string, attrs: seq<Attr>, raw: string, body: seq<string>, closed: bool)
    ensures RenderAll(TokensOf(Block(name, attrs, raw, body, closed))) ==
      raw + Concat(body) + (if closed then EndTagText(name) else "")
  {
    var tail := if closed then [EndTag(name)] else [];
    assert TokensOf(Block(name, attrs, raw, body, closed)) == [StartTag(name, attrs, raw)] + DataTokens(body) + tail;
    RenderAllAppend([StartTag(name, attrs, raw)] + DataTokens(body), tail);
    RenderAllAppend([StartTag(name, attrs, raw)], DataTokens(body));
    RenderAllData(body);
    assert RenderAll([StartTag(name, attrs, raw)]) == raw + "";
    if closed {
      assert RenderAll(tail) == EndTagText(name) + "";
    } else {
      assert RenderAll(tail) == "";
    }
  }

  /** Concatenating a start tag's text, a body and an end tag. */
  lemma ConcatBlock(raw: string, body: seq<string>, tail: seq<string>)
    ensures Concat([raw] + body + tail) == raw + Concat(body) + Concat(tail)
  {
    ConcatAppend([raw] + body, tail);
    ConcatAppend([raw], body);
    assert Concat([raw]) == raw + "";
  }

  lemma ExemptRendered(name: string, attrs: seq<Attr>, raw: string, body: seq<string>, closed: bool,
                        css: set<string>, js: set<string>, hash: string -> string)
    requires Exempt(name, attrs)
    ensures Concat(SegmentOutput(Block(name, attrs, raw, body, closed), css, js, hash)) ==
      RenderAll(TokensOf(Block(name, attrs, raw, body, closed)))
  {
    BlockRendered(name, attrs, raw, body, closed);
    var tail := if closed then [EndTagText(name)] else [];
    ConcatBlock(raw, body, tail);
    if closed {
      assert Concat(tail) == EndTagText(name) + "";
    }
  }

  lemma Concat3(a: string, b: string, c: string)
    ensures Concat([a, b, c]) == a + b + c
  {
    assert [a, b, c][1..] == [b, c] && [b, c][1..] == [c] && [c][1..] == [];
    assert Concat([c]) == c + "";
    StringAssoc(a, b, c);
  }

  lemma KeptCandidateRendered(name: string, attrs: seq<Attr>, raw: string, body: seq<string>,
                              css: set<string>, js: set<string>, hash: string -> string)
    requires !Exempt(name, attrs) && raw != ""
    requires hash(Trim(Concat(body))) !in HashesFor(name, css, js)
    ensures Concat(SegmentOutput(Block(name, attrs, raw, body, true), css, js, hash)) ==
      RenderAll(TokensOf(Block(name, attrs, raw, body, true)))
  {
    BlockRendered(name, attrs, raw, body, true);
    assert SegmentOutput(Block(name, attrs, raw, body, true), css, js, hash) == [raw, Concat(body), EndTagText(name)];
    Concat3(raw, Concat(body), EndTagText(name));
  }

  /** Every segment but a candidate block that matches, or is left open, is
      written back exactly as its tokens render. */
  lemma SegmentRendered(seg: Segment, css: set<string>, js: set<string>, hash: string -> string)
    requires seg.Block? ==> seg.raw != ""
    requires seg.Block? && !Exempt(seg.name, seg.attrs) ==>
      seg.closed && hash(Trim(Concat(seg.body))) !in HashesFor(seg.name, css, js)
    ensures Concat(SegmentOutput(seg, css, js, hash)) == RenderAll(TokensOf(seg))
  {
    match seg
    case Other(t) =>
      assert Concat([Render(t)]) == Render(t) + "";
      assert RenderAll([t]) == Render(t) + "";
    case Block(name, attrs, raw, body, closed) =>
      if Exempt(name, attrs) {
        ExemptRendered(name, attrs, raw, body, closed, css, js, hash);
      } else {
        KeptCandidateRendered(name, attrs, raw, body, css, js, hash);
      }
  }

  /** Candidate blocks that are all closed and none of whose fingerprints
      is in the set for its tag. */
  predicate NoneMatch(segs: seq<Segment>, css: set<string>, js: set<string>, hash: string -> string) {
    forall k :: 0 <= k < |segs| && segs[k].Block? && !Exempt(segs[k].name, segs[k].attrs) ==>
      segs[k].closed && hash(Trim(Concat(segs[k].body))) !in HashesFor(segs[k].name, css, js)
  }

  lemma NoneMatchTail(seg: Segment, rest: seq<Segment>, css: set<string>, js: set<string>, hash: string -> string)
    requires NoneMatch([seg] + rest, css, js, hash)
    ensures NoneMatch(rest, css, js, hash)
    ensures seg.Block? && !Exempt(seg.name, seg.attrs) ==>
      seg.closed && hash(Trim(Concat(seg.body))) !in HashesFor(seg.name, css, js)
  {
    assert ([seg] + rest)[0] == seg;
    forall k | 0 <= k < |rest| ensures rest[k] == ([seg] + rest)[k + 1] {
    }
  }

  /** When no candidate block matches, the page is written back whole. */
  lemma {:induction false} UnmatchedPageCopied(toks: seq<Token>, css: set<string>, js: set<string>, hash: string -> string)
    requires Tokenised(toks) && NoneMatch(Segments(toks), css, js, hash)
    ensures Concat(SegmentsOutput(Segments(toks), css, js, hash)) == RenderAll(toks)
    decreases |toks|
  {
    if toks == [] {
      assert Segments(toks) == [];
    } else {
      SegmentsCons(toks);
      var next := NextSegment(toks);
      var seg, rest := next.0, toks[next.1..];
      NoneMatchTail(seg, Segments(rest), css, js, hash);
      SegmentsOutputCons(seg, Segments(rest), css, js, hash);
      ConcatAppend(SegmentOutput(seg, css, js, hash), SegmentsOutput(Segments(rest), css, js, hash));
      SegmentRendered(seg, css, js, hash);
      UnmatchedPageCopied(rest, css, js, hash);
      RenderAllAppend(TokensOf(seg), rest);
    }
  }

  /** With both hash sets empty no tag is removed: a page whose non-exempt
      `<style>`/`<script>` blocks are all closed comes back as it went in. */
  lemma EmptySetsKeepPage(toks: seq<Token>)
    requires Tokenised(toks)
    requires forall k :: 0 <= k < |Segments(toks)| && Segments(toks)[k].Block? && !Exempt(Segments(toks)[k].name, Segments(toks)[k].attrs) ==>
      Segments(toks)[k].closed
    ensures Stripped(toks, {}, {}) == RenderAll(toks)
  {
    StrippedBySegments(toks, {}, {});
    UnmatchedPageCopied(toks, {}, {}, ComputeHash);
  }
}
