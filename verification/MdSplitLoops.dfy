/** The loops of the Markdown splitter, each proved to compute what MdSplit defines. */
module MdSplitLoops {
  import opened Utf8
  import opened MdSplit

  /** The cut of an oversized line: back to a character start, or the whole limit if there is none. */
  method FindCut(s: Text, limit: nat) returns (cut: nat)
    requires limit < |s|
    ensures cut == RuneCut(s, limit)
  {
    cut := limit;
    while cut > 0 && !RuneStart(s[cut])
      invariant 0 <= cut <= limit && LastStart(s, cut) == LastStart(s, limit)
    {
      cut := cut - 1;
    }
    if cut == 0 {
      cut := limit;
    }
  }

  lemma RuneStep(parts: seq<Text>, s: Text, limit: nat, cut: nat)
    requires 1 <= limit < |s| && cut == RuneCut(s, limit)
    ensures cut > 0 && parts + RuneSplit(s, limit) == (parts + [s[..cut]]) + RuneSplit(s[cut..], limit)
  {
    AddParts(parts, [s[..cut]], [], RuneSplit(s[cut..], limit));
  }

  method RuneSplits(line: Text, limit: nat) returns (parts: seq<Text>)
    requires limit >= 1
    ensures parts == RuneSplit(line, limit)
  {
    parts := [];
    var s := line;
    while |s| > limit
      invariant parts + RuneSplit(s, limit) == RuneSplit(line, limit)
      decreases |s|
    {
      var cut := FindCut(s, limit);
      RuneStep(parts, s, limit, cut);
      parts := parts + [s[..cut]];
      s := s[cut..];
    }
    parts := parts + Flush(s);
  }

  method PackLines(lines: seq<Text>, limit: nat) returns (parts: seq<Text>)
    requires limit >= 1
    ensures parts == Pack(lines, [], limit)
  {
    parts := [];
    var cur: Text, i := [], 0;
    while i < |lines|
      invariant 0 <= i <= |lines|
      invariant parts + Pack(lines[i..], cur, limit) == Pack(lines, [], limit)
    {
      var ln := lines[i];
      PackStep(lines, i, cur, limit);
      if ln == [] {
      } else if |ln| > limit {
        var cuts := RuneSplits(ln, limit);
        AddParts(parts, Flush(cur), cuts, Pack(lines[i + 1..], [], limit));
        parts := parts + Flush(cur) + cuts;
        cur := [];
      } else {
        if |cur| + |ln| > limit {
          AddParts(parts, Flush(cur), [], Pack(lines[i + 1..], ln, limit));
          parts := parts + Flush(cur);
          cur := [];
        }
        assert [] + ln == ln;
        cur := cur + ln;
      }
      i := i + 1;
    }
    parts := parts + Flush(cur);
  }

  /** One step of packing, at line `i`. */
  lemma PackStep(lines: seq<Text>, i: nat, cur: Text, limit: nat)
    requires i < |lines| && limit >= 1
    ensures var ln, rest := lines[i], lines[i + 1..];
      Pack(lines[i..], cur, limit) ==
        if ln == [] then Pack(rest, cur, limit)
        else if |ln| > limit then Flush(cur) + RuneSplit(ln, limit) + Pack(rest, [], limit)
        else if |cur| + |ln| > limit then Flush(cur) + Pack(rest, ln, limit)
        else Pack(rest, cur + ln, limit)
  {
    assert lines[i..][1..] == lines[i + 1..];
  }

  lemma AddParts(parts: seq<Text>, a: seq<Text>, b: seq<Text>, c: seq<Text>)
    ensures parts + (a + b + c) == (parts + a + b) + c
    ensures parts + (a + c) == (parts + a) + c
  {
  }

  method FindBlocks(text: Text) returns (out: seq<Text>)
    ensures out == Blocks(text)
  {
    var lines := Lines(text);
    out := [];
    var cur: Text := [];
    while lines != []
      invariant out + BlocksOf(lines, cur) == Blocks(text)
      decreases |lines|
    {
      var line, rest := lines[0], lines[1..];
      var marker := FenceMarker(TrimSpace(line));
      if line == [] {
        lines := rest;
      } else if marker != [] {
        var block, n := TakeFence(rest, line, marker);
        FenceStep(lines, cur, out, block, n);
        out, cur, lines := out + Flush(cur) + [block], [], rest[n..];
      } else if TrimSpace(line) == [] {
        BlankStep(lines, cur, out);
        out, cur, lines := out + [cur + line], [], rest;
      } else {
        cur, lines := cur + line, rest;
      }
    }
    out := out + Flush(cur);
  }

  /** One step of the block scan, at a blank line. */
  lemma BlankStep(lines: seq<Text>, cur: Text, out: seq<Text>)
    requires lines != [] && lines[0] != [] && FenceMarker(TrimSpace(lines[0])) == [] && TrimSpace(lines[0]) == []
    ensures out + BlocksOf(lines, cur) == (out + [cur + lines[0]]) + BlocksOf(lines[1..], [])
  {
    AddParts(out, [cur + lines[0]], [], BlocksOf(lines[1..], []));
  }

  /** One step of the block scan, at the opening line of a fence of `n` more lines. */
  lemma FenceStep(lines: seq<Text>, cur: Text, out: seq<Text>, block: Text, n: nat)
    requires lines != [] && lines[0] != [] && FenceMarker(TrimSpace(lines[0])) != []
    requires n == FenceLen(lines[1..], FenceMarker(TrimSpace(lines[0]))) && block == lines[0] + Flat(lines[1..][..n])
    ensures out + BlocksOf(lines, cur) == (out + Flush(cur) + [block]) + BlocksOf(lines[1..][n..], [])
  {
    AddParts(out, Flush(cur), [block], BlocksOf(lines[1..][n..], []));
  }

  /** The inner loop of `blocks`: the lines of a fence up to its closing line, or to the end of the text. */
  method TakeFence(lines: seq<Text>, open: Text, marker: Text) returns (block: Text, n: nat)
    ensures n == FenceLen(lines, marker) && block == open + Flat(lines[..n])
  {
    block, n := open, 0;
    assert open + Flat(lines[..0]) == open;
    while n < |lines|
      invariant 0 <= n <= |lines| && block == open + Flat(lines[..n])
      invariant FenceLen(lines, marker) == n + FenceLen(lines[n..], marker)
    {
      assert lines[n..][1..] == lines[n + 1..] && lines[..n + 1] == lines[..n] + [lines[n]];
      FlatSnoc(lines[..n], lines[n]);
      block := block + lines[n];
      n := n + 1;
      if ClosingFence(TrimSpace(lines[n - 1]), marker) {
        return;
      }
    }
  }

  /** The search for the closing line, from the end. */
  method FindClosing(open: Text, rest: seq<Text>, marker: Text) returns (f: Fence)
    ensures f == FindClose(open, rest, marker)
  {
    f := Fence(open, rest, marker);
    var last := |rest|;
    while last > 0
      invariant 0 <= last <= |rest| && forall k :: last <= k < |rest| ==> rest[k] == []
    {
      last := last - 1;
      if rest[last] != [] {
        if ClosingFence(TrimSpace(rest[last]), marker) {
          f := Fence(open, rest[..last], TrimLineEnd(rest[last]));
        }
        CloseBehind(open, rest, marker, last + 1);
        return;
      }
    }
    CloseBehind(open, rest, marker, 0);
  }

  /** Empty lines at the end do not matter to the search. */
  lemma {:induction false} CloseBehind(open: Text, rest: seq<Text>, marker: Text, n: nat)
    requires n <= |rest| && (forall k :: n <= k < |rest| ==> rest[k] == []) && (n > 0 ==> rest[n - 1] != [])
    ensures FindClose(open, rest, marker) ==
      if n > 0 && ClosingFence(TrimSpace(rest[n - 1]), marker) then Fence(open, rest[..n - 1], TrimLineEnd(rest[n - 1]))
      else Fence(open, rest, marker)
  {
    if n < |rest| {
      var front := rest[..|rest| - 1];
      CloseBehind(open, front, marker, n);
      assert n > 0 ==> front[..n - 1] == rest[..n - 1];
    } else if n > 0 {
      assert rest[..|rest| - 1] == rest[..n - 1];
    } else {
      assert rest == [];
    }
  }

  /** Puts the fence lines around every chunk. */
  method WrapChunks(f: Fence, chunks: seq<Text>) returns (parts: seq<Text>)
    ensures parts == FenceParts(f, chunks)
  {
    parts := [];
    var i := 0;
    while i < |chunks|
      invariant 0 <= i <= |chunks| && parts == FenceParts(f, chunks)[..i]
    {
      var b := f.open + chunks[i];
      if !EndsInNewline(chunks[i]) {
        b := b + [NL];
      }
      b := b + f.close;
      assert b == FencePart(f, chunks[i]);
      parts := parts + [b];
      i := i + 1;
    }
  }

  /** A body without text packs to no chunk at all, whatever the budget. */
  method SplitCodeBlock(blk: Text, marker: Text, limit: nat) returns (parts: seq<Text>)
    requires FenceEnds(ParseFence(blk, marker), limit)
    ensures parts == SplitFence(ParseFence(blk, marker), limit)
  {
    var lines := Lines(blk);
    var f := FindClosing(lines[0], lines[1..], marker);
    var overhead := |f.open| + |f.close| + 1;
    var budget := limit - overhead;
    if budget <= 0 {
      budget := limit / 2;
    }
    assert f == ParseFence(blk, marker) && budget == FenceBudget(f, limit);
    var chunks: seq<Text> := [];
    if budget > 0 {
      chunks := PackLines(f.body, budget);
    }
    assert chunks == FenceChunks(f, limit);
    parts := WrapChunks(f, chunks);
    if parts == [] {
      parts := [f.open + f.close];
    }
  }

  method SplitTables(blk: Text, limit: nat) returns (parts: seq<Text>)
    requires limit >= 1 && IsTable(blk)
    ensures parts == SplitTable(blk, limit)
  {
    var lines := NonEmpty(Lines(blk));
    var header := lines[0] + lines[1];
    if limit <= |header| {
      parts := PackLines(Lines(blk), limit);
      return;
    }
    var chunks := PackLines(lines[2..], limit - |header|);
    parts := [];
    var i := 0;
    while i < |chunks|
      invariant 0 <= i <= |chunks| && parts == Prefixed(header, chunks)[..i]
    {
      parts := parts + [header + chunks[i]];
      i := i + 1;
    }
    if parts == [] {
      parts := [header];
    }
  }

  method SplitOversized(blk: Text, limit: nat) returns (parts: seq<Text>)
    requires limit >= 1 && (IsFence(blk) ==> FenceEnds(ParseFence(blk, MarkerOf(blk)), limit))
    ensures parts == SplitBlock(blk, limit)
  {
    var marker := FenceMarker(TrimSpace(FirstLine(blk)));
    if marker != [] {
      parts := SplitCodeBlock(blk, marker, limit);
    } else if IsTable(blk) {
      parts := SplitTables(blk, limit);
    } else {
      parts := PackLines(Lines(blk), limit);
    }
  }

  lemma PackBlocksStep(blks: seq<Text>, i: nat, cur: Text, limit: nat)
    requires i < |blks| && limit >= 1 && BlocksEnd(blks, limit)
    ensures BlocksEnd(blks[i..], limit) && BlocksEnd(blks[i + 1..], limit) && blks[i] in blks
    ensures var blk, rest := blks[i], blks[i + 1..];
      PackBlocks(blks[i..], cur, limit) ==
        if |blk| > limit then Flush(cur) + SplitBlock(blk, limit) + PackBlocks(rest, [], limit)
        else if |cur| + |blk| > limit then Flush(cur) + PackBlocks(rest, blk, limit)
        else PackBlocks(rest, cur + blk, limit)
  {
    assert blks[i..][1..] == blks[i + 1..];
  }

  /** The loop over the blocks. */
  method PackAll(blks: seq<Text>, limit: nat) returns (parts: seq<Text>)
    requires limit >= 1 && BlocksEnd(blks, limit)
    ensures parts == PackBlocks(blks, [], limit)
  {
    parts := [];
    var cur: Text, i := [], 0;
    assert blks[0..] == blks;
    while i < |blks|
      invariant 0 <= i <= |blks| && BlocksEnd(blks[i..], limit)
      invariant parts + PackBlocks(blks[i..], cur, limit) == PackBlocks(blks, [], limit)
    {
      var blk := blks[i];
      PackBlocksStep(blks, i, cur, limit);
      if |blk| > limit {
        var cuts := SplitOversized(blk, limit);
        AddParts(parts, Flush(cur), cuts, PackBlocks(blks[i + 1..], [], limit));
        parts := parts + Flush(cur) + cuts;
        cur := [];
      } else {
        if |cur| + |blk| > limit {
          AddParts(parts, Flush(cur), [], PackBlocks(blks[i + 1..], blk, limit));
          parts := parts + Flush(cur);
          cur := [];
        }
        assert [] + blk == blk;
        cur := cur + blk;
      }
      i := i + 1;
    }
    parts := parts + Flush(cur);
  }

  method SplitText(text: Text, limit: int) returns (parts: seq<Text>)
    requires Ends(text, limit)
    ensures parts == Split(text, limit)
  {
    if limit <= 0 || |text| <= limit {
      return [text];
    }
    var blks := FindBlocks(text);
    parts := PackAll(blks, limit);
    if parts == [] {
      parts := [[]];
    }
  }
}
