/** Nothing is lost by splitting: what an oversized fence or table repeats in its parts can be taken off again, and
    the rest concatenates to the text. */
module MdSplitWhole {
  import opened Utf8
  import opened MdSplit
  import opened MdSplitProof

  /** Consecutive parts: pieces of the text as they are, a fence around pieces of its body, or a table header in
      front of pieces of its rows. What follows the body of the fence in the text is its `tail`. */
  datatype Segment =
    | Plain(pieces: seq<Text>)
    | Fenced(fence: Fence, pieces: seq<Text>, tail: Text)
    | Headed(header: Text, pieces: seq<Text>)

  /** The parts that a segment is sent as. */
  function PartsOf(g: Segment): seq<Text> {
    match g
    case Plain(pieces) => pieces
    case Fenced(f, pieces, _) => if pieces == [] then [f.open + f.close] else FenceParts(f, pieces)
    case Headed(header, pieces) => Prefixed(header, pieces)
  }

  /** The text that it stands for: fence lines and header once, and nothing that was added. */
  function TextOf(g: Segment): Text {
    match g
    case Plain(pieces) => Flat(pieces)
    case Fenced(f, pieces, tail) => f.open + Flat(pieces) + tail
    case Headed(header, pieces) => header + Flat(pieces)
  }

  /** A segment repeats only what is a fence or a table header, and sends everything else. A fence is cut into pieces
      that are not empty, and closed with its own closing line, without the line end, or with its marker if it has
      none. A table has at least one piece, so at least its header is sent; only a table without rows has an empty
      one. */
  predicate Genuine(g: Segment) {
    match g
    case Plain(_) => true
    case Fenced(f, pieces, tail) =>
      && IsFence(f.open) && FirstLine(f.open) == f.open && ClosingFence(TrimSpace(f.close), MarkerOf(f.open))
      && (f.close == if tail == [] then MarkerOf(f.open) else TrimLineEnd(tail))
      && [] !in pieces
    case Headed(header, pieces) =>
      && IsTable(header + Flat(pieces)) && TableHeader(header + Flat(pieces)) == header
      && pieces != [] && ([] in pieces ==> pieces == [[]])
  }

  function AllParts(gs: seq<Segment>): seq<Text> {
    if gs == [] then [] else PartsOf(gs[0]) + AllParts(gs[1..])
  }

  function AllText(gs: seq<Segment>): Text {
    if gs == [] then [] else TextOf(gs[0]) + AllText(gs[1..])
  }

  predicate AllGenuine(gs: seq<Segment>) {
    gs == [] || (Genuine(gs[0]) && AllGenuine(gs[1..]))
  }

  /** `gs` is what `parts` and `text` have in common. */
  ghost predicate Restores(gs: seq<Segment>, parts: seq<Text>, text: Text) {
    AllParts(gs) == parts && AllText(gs) == text && AllGenuine(gs)
  }

  lemma ConsRestores(g: Segment, gs: seq<Segment>, parts: seq<Text>, text: Text)
    requires Restores(gs, parts, text) && Genuine(g)
    ensures Restores([g] + gs, PartsOf(g) + parts, TextOf(g) + text)
  {
    assert ([g] + gs)[1..] == gs;
  }

  lemma PlainRestores(cur: Text, gs: seq<Segment>, parts: seq<Text>, text: Text)
    requires Restores(gs, parts, text)
    ensures Restores([Plain(Flush(cur))] + gs, Flush(cur) + parts, cur + text)
  {
    FlatFlush(cur);
    ConsRestores(Plain(Flush(cur)), gs, parts, text);
  }

  // ------------------------------------------------------------------ one oversized block

  lemma FirstLineAgain(blk: Text)
    ensures FirstLine(FirstLine(blk)) == FirstLine(blk)
  {
    var l, i := FirstLine(blk), FirstNewline(blk);
    if i < |blk| {
      assert l[i] == NL && l[..i] == blk[..i];
      assert FirstNewline(l) == i;
    }
  }

  lemma FenceSegment(blk: Text, limit: nat) returns (g: Segment)
    requires limit >= 1 && |blk| > limit && IsFence(blk) && BlockEnds(blk, limit)
    ensures PartsOf(g) == SplitBlock(blk, limit) && TextOf(g) == blk && Genuine(g) && g.Fenced?
  {
    var f := ParseFence(blk, MarkerOf(blk));
    ParseFenceLaw(blk);
    FirstLineAgain(blk);
    var tail :| && blk == f.open + Flat(f.body) + tail
                && f.close == if tail == [] then MarkerOf(blk) else TrimLineEnd(tail);
    g := Fenced(f, FenceChunks(f, limit), tail);
    FenceChunksFlat(f, limit);
    assert [] !in FenceChunks(f, limit);
  }

  lemma BlockSegment(blk: Text, limit: nat) returns (g: Segment)
    requires limit >= 1 && |blk| > limit && BlockEnds(blk, limit)
    ensures PartsOf(g) == SplitBlock(blk, limit) && TextOf(g) == blk && Genuine(g)
    ensures g.Plain? <==> Lossless(blk, limit)
    ensures g.Fenced? <==> IsFence(blk)
  {
    if IsFence(blk) {
      g := FenceSegment(blk, limit);
    } else if Lossless(blk, limit) {
      g := Plain(SplitBlock(blk, limit));
      SplitBlockFlat(blk, limit);
    } else {
      g := Headed(TableHeader(blk), TableChunks(blk, limit));
      TablePartsStandAlone(blk, limit);
      PackFits(TableRows(blk), [], limit - |TableHeader(blk)|);
    }
  }

  // ------------------------------------------------------------------ all blocks

  lemma {:induction false} PackedSegments(blks: seq<Text>, cur: Text, limit: nat) returns (gs: seq<Segment>)
    requires limit >= 1 && BlocksEnd(blks, limit)
    ensures Restores(gs, PackBlocks(blks, cur, limit), cur + Flat(blks))
    decreases |blks|
  {
    if blks == [] {
      PlainRestores(cur, [], [], []);
      gs := [Plain(Flush(cur))];
      assert Flush(cur) + [] == Flush(cur);
      assert gs + [] == gs;
    } else {
      var blk, rest := blks[0], blks[1..];
      assert blk in blks;
      Assoc(cur, blk, Flat(rest));
      if |blk| > limit {
        var g := BlockSegment(blk, limit);
        var hs := PackedSegments(rest, [], limit);
        assert [] + Flat(rest) == Flat(rest);
        ConsRestores(g, hs, PackBlocks(rest, [], limit), Flat(rest));
        gs := [Plain(Flush(cur))] + ([g] + hs);
        PlainRestores(cur, [g] + hs, SplitBlock(blk, limit) + PackBlocks(rest, [], limit), blk + Flat(rest));
        PartsAssoc(Flush(cur), SplitBlock(blk, limit), PackBlocks(rest, [], limit));
      } else if |cur| + |blk| > limit {
        var hs := PackedSegments(rest, blk, limit);
        gs := [Plain(Flush(cur))] + hs;
        PlainRestores(cur, hs, PackBlocks(rest, blk, limit), blk + Flat(rest));
      } else {
        gs := PackedSegments(rest, cur + blk, limit);
      }
    }
  }

  lemma PartsAssoc(a: seq<Text>, b: seq<Text>, c: seq<Text>)
    ensures (a + b) + c == a + (b + c)
  {
  }

  /** For every text and limit, the parts are consecutive genuine segments whose texts concatenate to the text; so
      every byte but a line end is in the parts at least as often as in the text. */
  lemma SplitConserves(text: Text, limit: int)
    requires Ends(text, limit)
    ensures exists gs :: Restores(gs, Split(text, limit), text)
    ensures forall b :: !LineEnd(b) ==> Count(text, b) <= Count(Flat(Split(text, limit)), b)
  {
    SplitRestores(text, limit);
    var gs :| Restores(gs, Split(text, limit), text);
    forall b | !LineEnd(b)
      ensures Count(text, b) <= Count(Flat(Split(text, limit)), b)
    {
      RestoresHasAll(gs, Split(text, limit), text, b);
    }
  }

  lemma SplitRestores(text: Text, limit: int)
    requires Ends(text, limit)
    ensures exists gs :: Restores(gs, Split(text, limit), text)
  {
    if 0 < limit < |text| {
      var gs := PackedSegments(Blocks(text), [], limit);
      SplitIsNotEmpty(text, limit);
      BlocksAreTheText(text);
      assert [] + text == text;
      assert Restores(gs, Split(text, limit), text);
    } else {
      var gs := [Plain([text])];
      FlatOne(text);
      ConsRestores(gs[0], [], [], []);
      assert gs + [] == gs && [text] + [] == [text] && text + [] == text;
      assert Restores(gs, Split(text, limit), text);
    }
  }

  // ------------------------------------------------------------------ such parts have every byte

  function Count(s: Text, b: Byte): nat {
    multiset(s)[b]
  }

  lemma CountParts(p: seq<Text>, q: seq<Text>, b: Byte)
    ensures Count(Flat(p + q), b) == Count(Flat(p), b) + Count(Flat(q), b)
  {
    FlatConcat(p, q);
  }

  predicate LineEnd(b: Byte) {
    b == NL || b == 13
  }

  lemma {:induction false} TrimmedCount(s: Text, b: Byte)
    requires !LineEnd(b)
    ensures Count(TrimLineEnd(s), b) == Count(s, b)
    decreases |s|
  {
    if s != [] && LineEnd(s[|s| - 1]) {
      TrimmedCount(s[..|s| - 1], b);
      assert s == s[..|s| - 1] + [s[|s| - 1]];
    }
  }

  lemma FencePartCount(f: Fence, chunk: Text, b: Byte)
    ensures Count(FencePart(f, chunk), b) >= Count(f.open, b) + Count(chunk, b) + Count(f.close, b)
  {
  }

  lemma {:induction false} FencePartsCount(f: Fence, pieces: seq<Text>, b: Byte)
    ensures Count(Flat(FenceParts(f, pieces)), b) >=
            Count(Flat(pieces), b) + if pieces == [] then 0 else Count(f.open, b) + Count(f.close, b)
  {
    if pieces != [] {
      FencePartCount(f, pieces[0], b);
      FencePartsCount(f, pieces[1..], b);
      assert FenceParts(f, pieces)[1..] == FenceParts(f, pieces[1..]);
    }
  }

  lemma {:induction false} PrefixedCount(header: Text, pieces: seq<Text>, b: Byte)
    ensures Count(Flat(Prefixed(header, pieces)), b) >=
              Count(Flat(pieces), b) + if pieces == [] then 0 else Count(header, b)
  {
    if pieces != [] {
      PrefixedCount(header, pieces[1..], b);
      assert Prefixed(header, pieces)[1..] == Prefixed(header, pieces[1..]);
    }
  }

  lemma SegmentSendsAll(g: Segment, b: Byte)
    requires Genuine(g) && !LineEnd(b)
    ensures Count(TextOf(g), b) <= Count(Flat(PartsOf(g)), b)
  {
    match g
    case Plain(_) =>
    case Fenced(f, pieces, tail) =>
      TrimmedCount(tail, b);
      FencePartsCount(f, pieces, b);
      FlatOne(f.open + f.close);
    case Headed(header, pieces) =>
      PrefixedCount(header, pieces, b);
  }

  /** Parts that restore a text have every byte of it, as often as the text does; only line ends behind a closing
      fence may be missing. */
  lemma {:induction false} RestoresHasAll(gs: seq<Segment>, parts: seq<Text>, text: Text, b: Byte)
    requires Restores(gs, parts, text) && !LineEnd(b)
    ensures Count(text, b) <= Count(Flat(parts), b)
  {
    if gs != [] {
      SegmentSendsAll(gs[0], b);
      RestoresHasAll(gs[1..], AllParts(gs[1..]), AllText(gs[1..]), b);
      CountParts(PartsOf(gs[0]), AllParts(gs[1..]), b);
    }
  }
}
