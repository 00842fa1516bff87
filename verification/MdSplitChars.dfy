/** Where the Markdown splitter cuts inside a character: exactly where an oversized line has a character that is
    longer than the room the line is cut to. */
module MdSplitChars {
  import opened Utf8
  import opened MdSplit
  import opened MdSplitProof

  predicate AllValid(parts: seq<Text>) {
    parts == [] || (Valid(parts[0]) && AllValid(parts[1..]))
  }

  lemma {:induction false} ValidParts(a: seq<Text>, b: seq<Text>)
    ensures AllValid(a + b) <==> AllValid(a) && AllValid(b)
  {
    if a == [] {
      assert a + b == b;
    } else {
      ValidParts(a[1..], b);
      assert (a + b)[1..] == a[1..] + b;
    }
  }

  lemma ValidCons(p: Text, parts: seq<Text>)
    ensures AllValid([p] + parts) <==> Valid(p) && AllValid(parts)
  {
    assert ([p] + parts)[1..] == parts;
  }

  lemma ValidFlush(cur: Text)
    ensures AllValid(Flush(cur)) <==> Valid(cur)
  {
    if cur != [] {
      assert [cur][1..] == [];
    }
  }

  lemma ValidThree(a: seq<Text>, b: seq<Text>, c: seq<Text>)
    ensures AllValid(a + b + c) <==> AllValid(a) && AllValid(b) && AllValid(c)
  {
    ValidParts(a + b, c);
    ValidParts(a, b);
  }

  lemma {:induction false} FlatValid(parts: seq<Text>)
    requires AllValid(parts)
    ensures Valid(Flat(parts))
  {
    if parts != [] {
      FlatValid(parts[1..]);
      ValidConcat(parts[0], Flat(parts[1..]));
    }
  }

  // ------------------------------------------------------------------ one line

  /** A cut of valid text is between characters if and only if the first character fits the limit. */
  lemma RuneCutIff(s: Text, limit: nat)
    requires Valid(s) && 1 <= limit < |s|
    ensures var c := RuneCut(s, limit); 0 < c <= limit
    ensures Valid(s[..RuneCut(s, limit)]) <==> CharLen(s) <= limit
    ensures CharLen(s) <= limit ==> Valid(s[RuneCut(s, limit)..])
  {
    var n, c := CharLen(s), RuneCut(s, limit);
    if n <= limit {
      StartAt(s);
      assert LastStart(s, limit) >= n;
      ValidCut(s, c);
    } else {
      assert LastStart(s, limit) == 0 && c == limit;
      if Valid(s[..limit]) {
        assert s[..limit] != [];
        CharLenPrefix(s[..limit], s);
        assert false;
      }
    }
  }

  /** Behind the first character starts the next one. */
  lemma StartAt(s: Text)
    requires Valid(s) && s != []
    ensures CharLen(s) < |s| ==> RuneStart(s[CharLen(s)])
  {
    var n := CharLen(s);
    if n < |s| {
      assert CharLen(s[n..]) > 0 && s[n..][0] == s[n];
    }
  }

  /** An oversized line is cut between characters only, if and only if every character fits. */
  lemma {:induction false} RuneSplitIff(s: Text, limit: nat)
    requires Valid(s) && limit >= 1
    ensures AllValid(RuneSplit(s, limit)) <==> CharsFit(s, limit)
    decreases |s|
  {
    if |s| <= limit {
      ShortFits(s, limit);
      ValidFlush(s);
    } else {
      var c := RuneCut(s, limit);
      RuneCutIff(s, limit);
      ValidCons(s[..c], RuneSplit(s[c..], limit));
      if CharLen(s) <= limit {
        RuneSplitIff(s[c..], limit);
        assert s == s[..c] + s[c..];
        FitsConcat(s[..c], s[c..], limit);
        ShortFits(s[..c], limit);
      }
    }
  }

  // ------------------------------------------------------------------ packed lines

  predicate LinesFit(lines: seq<Text>, limit: nat) {
    lines == [] || (CharsFit(lines[0], limit) && LinesFit(lines[1..], limit))
  }

  lemma {:induction false} NothingFits(lines: seq<Text>, limit: nat)
    requires Flat(lines) == []
    ensures LinesFit(lines, limit)
  {
    if lines != [] {
      NothingFits(lines[1..], limit);
    }
  }

  lemma {:induction false} PackIff(lines: seq<Text>, cur: Text, limit: nat)
    requires limit >= 1 && Valid(cur) && AllValid(lines)
    ensures AllValid(Pack(lines, cur, limit)) <==> LinesFit(lines, limit)
    decreases |lines|
  {
    ValidFlush(cur);
    if lines != [] {
      var ln, rest := lines[0], lines[1..];
      if ln == [] {
        PackIff(rest, cur, limit);
      } else if |ln| > limit {
        PackIff(rest, [], limit);
        RuneSplitIff(ln, limit);
        ValidThree(Flush(cur), RuneSplit(ln, limit), Pack(rest, [], limit));
      } else if |cur| + |ln| > limit {
        ShortFits(ln, limit);
        PackIff(rest, ln, limit);
        ValidParts(Flush(cur), Pack(rest, ln, limit));
      } else {
        ShortFits(ln, limit);
        ValidConcat(cur, ln);
        PackIff(rest, cur + ln, limit);
      }
    }
  }

  // ------------------------------------------------------------------ lines and blocks of valid text

  lemma CutAfterNewline(s: Text, i: nat)
    requires Valid(s) && i < |s| && s[i] == NL
    ensures Valid(s[..i + 1]) && Valid(s[i + 1..])
  {
    StartAfterAscii(s, i);
    ValidCut(s, i + 1);
  }

  lemma {:induction false} LinesValid(s: Text)
    requires Valid(s)
    ensures AllValid(Lines(s))
    decreases |s|
  {
    var i := FirstNewline(s);
    if i < |s| {
      CutAfterNewline(s, i);
      LinesValid(s[i + 1..]);
      ValidCons(s[..i + 1], Lines(s[i + 1..]));
    } else {
      assert [s][1..] == [];
    }
  }

  lemma SomeValid(parts: seq<Text>, n: nat)
    requires AllValid(parts) && n <= |parts|
    ensures AllValid(parts[..n]) && AllValid(parts[n..])
  {
    ValidParts(parts[..n], parts[n..]);
    assert parts == parts[..n] + parts[n..];
  }

  lemma {:induction false} BlocksValid(lines: seq<Text>, cur: Text)
    requires AllValid(lines) && Valid(cur)
    ensures AllValid(BlocksOf(lines, cur))
    decreases |lines|
  {
    ValidFlush(cur);
    if lines != [] {
      var line, rest := lines[0], lines[1..];
      ValidConcat(cur, line);
      var marker := FenceMarker(TrimSpace(line));
      if line == [] {
        BlocksValid(rest, cur);
      } else if marker != [] {
        var n := FenceLen(rest, marker);
        FenceBlockValid(line, rest, n);
        BlocksValid(rest[n..], []);
        ValidFlush(line + Flat(rest[..n]));
        ValidThree(Flush(cur), [line + Flat(rest[..n])], BlocksOf(rest[n..], []));
      } else if TrimSpace(line) == [] {
        BlocksValid(rest, []);
        ValidCons(cur + line, BlocksOf(rest, []));
      } else {
        BlocksValid(rest, cur + line);
      }
    }
  }

  lemma FenceBlockValid(line: Text, rest: seq<Text>, n: nat)
    requires Valid(line) && AllValid(rest) && n <= |rest|
    ensures Valid(line + Flat(rest[..n])) && AllValid(rest[n..])
  {
    SomeValid(rest, n);
    FlatValid(rest[..n]);
    ValidConcat(line, Flat(rest[..n]));
  }

  // ------------------------------------------------------------------ fences

  lemma {:induction false} CloseValid(open: Text, rest: seq<Text>, marker: Text)
    requires IsMarker(marker) && AllValid(rest)
    ensures Valid(FindClose(open, rest, marker).close)
  {
    AsciiValid(marker);
    if rest != [] {
      var front, last := rest[..|rest| - 1], rest[|rest| - 1];
      SomeValid(rest, |rest| - 1);
      assert rest[|rest| - 1..] == [last];
      if last == [] {
        CloseValid(open, front, marker);
      }
    }
  }

  lemma FenceValid(blk: Text)
    requires IsFence(blk) && Valid(blk)
    ensures var f := ParseFence(blk, MarkerOf(blk));
      Valid(f.open) && AllValid(f.body) && Valid(f.close) && f.close != []
  {
    var lines, m := Lines(blk), MarkerOf(blk);
    LinesValid(blk);
    SomeValid(lines, 1);
    MarkerIsMarker(TrimSpace(FirstLine(blk)));
    FindCloseCloses(lines[0], lines[1..], m);
    FindCloseSplits(lines[0], lines[1..], m);
    CloseValid(lines[0], lines[1..], m);
    SomeValid(lines[1..], |ParseFence(blk, m).body|);
  }

  lemma BetweenValid(a: Text, b: Text, c: Text)
    requires Valid(a) && Valid(c) && c != []
    ensures Valid(a + (b + c)) <==> Valid(b)
  {
    var t := b + c;
    if Valid(b) {
      ValidConcat(b, c);
      ValidConcat(a, t);
    }
    if Valid(a + t) {
      ValidDrop(a, t);
      ValidTake(b, c);
    }
  }

  lemma FencePartIff(f: Fence, chunk: Text)
    requires Valid(f.open) && Valid(f.close) && f.close != []
    ensures Valid(FencePart(f, chunk)) <==> Valid(chunk)
  {
    var nl: Text := if EndsInNewline(chunk) then [] else [NL];
    assert Valid(nl) by { AsciiValid(nl); }
    var tail := nl + f.close;
    ValidConcat(nl, f.close);
    FencePartGroups(f, chunk, nl);
    BetweenValid(f.open, chunk, tail);
  }

  lemma FencePartGroups(f: Fence, chunk: Text, nl: Text)
    requires nl == if EndsInNewline(chunk) then [] else [NL]
    ensures FencePart(f, chunk) == f.open + (chunk + (nl + f.close))
  {
  }

  lemma {:induction false} FencePartsIff(f: Fence, chunks: seq<Text>)
    requires Valid(f.open) && Valid(f.close) && f.close != []
    ensures AllValid(FenceParts(f, chunks)) <==> AllValid(chunks)
  {
    if chunks != [] {
      FencePartIff(f, chunks[0]);
      FencePartsIff(f, chunks[1..]);
      assert FenceParts(f, chunks)[1..] == FenceParts(f, chunks[1..]);
    }
  }

  /** The parts of a split fence are cut between characters if and only if every character of its body fits the
      budget. */
  lemma SplitFenceIff(f: Fence, limit: nat)
    requires Valid(f.open) && AllValid(f.body) && Valid(f.close) && f.close != [] && FenceEnds(f, limit)
    ensures AllValid(SplitFence(f, limit)) <==> LinesFit(f.body, FenceBudget(f, limit))
  {
    var chunks := FenceChunks(f, limit);
    FencePartsIff(f, chunks);
    ValidConcat(f.open, f.close);
    ValidCons(f.open + f.close, []);
    assert [f.open + f.close] + [] == [f.open + f.close];
    if FenceBudget(f, limit) > 0 {
      PackIff(f.body, [], FenceBudget(f, limit));
    } else {
      NothingFits(f.body, 0);
    }
  }

  // ------------------------------------------------------------------ tables

  lemma {:induction false} PrefixedIff(header: Text, chunks: seq<Text>)
    requires Valid(header)
    ensures AllValid(Prefixed(header, chunks)) <==> AllValid(chunks)
  {
    if chunks != [] {
      HeaderIff(header, chunks[0]);
      PrefixedIff(header, chunks[1..]);
      assert Prefixed(header, chunks)[1..] == Prefixed(header, chunks[1..]);
    }
  }

  lemma HeaderIff(header: Text, chunk: Text)
    requires Valid(header)
    ensures Valid(header + chunk) <==> Valid(chunk)
  {
    if Valid(chunk) {
      ValidConcat(header, chunk);
    }
    if Valid(header + chunk) {
      ValidDrop(header, chunk);
    }
  }

  lemma PrefixedRowsIff(header: Text, rows: seq<Text>, limit: nat)
    requires Valid(header) && AllValid(rows) && limit > |header|
    ensures AllValid(Prefixed(header, RowChunks(rows, limit - |header|))) <==> LinesFit(rows, limit - |header|)
  {
    var chunks := Pack(rows, [], limit - |header|);
    PackIff(rows, [], limit - |header|);
    ValidCons([], []);
    PrefixedIff(header, RowChunks(rows, limit - |header|));
  }

  function RowRoom(header: Text, limit: nat): nat {
    if limit <= |header| then limit else limit - |header|
  }

  function CutRows(lines: seq<Text>, header: Text, rows: seq<Text>, limit: nat): seq<Text> {
    if limit <= |header| then lines else rows
  }

  lemma SplitRowsIff(lines: seq<Text>, header: Text, rows: seq<Text>, limit: nat)
    requires AllValid(lines) && Valid(header) && AllValid(rows) && limit >= 1
    ensures AllValid(SplitRows(lines, header, rows, limit)) <==>
              LinesFit(CutRows(lines, header, rows, limit), RowRoom(header, limit))
  {
    if limit <= |header| {
      PackIff(lines, [], limit);
    } else {
      SplitRowsShape(lines, header, rows, limit);
      PrefixedRowsIff(header, rows, limit);
    }
  }

  lemma {:induction false} NonEmptyValid(lines: seq<Text>)
    requires AllValid(lines)
    ensures AllValid(NonEmpty(lines))
  {
    if lines != [] {
      NonEmptyValid(lines[1..]);
      if lines[0] != [] {
        ValidCons(lines[0], NonEmpty(lines[1..]));
      } else {
        assert [] + NonEmpty(lines[1..]) == NonEmpty(lines[1..]);
      }
    }
  }

  lemma TableValid(blk: Text)
    requires IsTable(blk) && Valid(blk)
    ensures AllValid(Lines(blk)) && Valid(TableHeader(blk)) && AllValid(TableRows(blk))
  {
    var lines := NonEmpty(Lines(blk));
    LinesValid(blk);
    NonEmptyValid(Lines(blk));
    SomeValid(lines, 2);
    SomeValid(lines, 1);
    ValidConcat(lines[0], lines[1]);
  }

  // ------------------------------------------------------------------ split

  /** How long a piece of a line of an oversized block may be. */
  function Room(blk: Text, limit: nat): nat {
    if IsFence(blk) then FenceBudget(ParseFence(blk, MarkerOf(blk)), limit)
    else if IsTable(blk) then RowRoom(TableHeader(blk), limit)
    else limit
  }

  /** The lines that are cut to that room. */
  function CutLines(blk: Text, limit: nat): seq<Text> {
    if IsFence(blk) then ParseFence(blk, MarkerOf(blk)).body
    else if IsTable(blk) then CutRows(Lines(blk), TableHeader(blk), TableRows(blk), limit)
    else Lines(blk)
  }

  /** Every character of an oversized block fits the room its lines are cut to. */
  predicate BlockFits(blk: Text, limit: nat) {
    |blk| > limit ==> LinesFit(CutLines(blk, limit), Room(blk, limit))
  }

  lemma CutLinesValid(blk: Text, limit: nat)
    requires Valid(blk)
    ensures AllValid(CutLines(blk, limit))
  {
    LinesValid(blk);
    if IsFence(blk) {
      FenceValid(blk);
    } else if IsTable(blk) {
      TableValid(blk);
    }
  }

  lemma FenceBlockIff(blk: Text, limit: nat)
    requires Valid(blk) && IsFence(blk) && FenceEnds(ParseFence(blk, MarkerOf(blk)), limit)
    ensures AllValid(SplitFence(ParseFence(blk, MarkerOf(blk)), limit)) <==>
              LinesFit(CutLines(blk, limit), Room(blk, limit))
  {
    FenceValid(blk);
    SplitFenceIff(ParseFence(blk, MarkerOf(blk)), limit);
  }

  lemma TableBlockIff(blk: Text, limit: nat)
    requires Valid(blk) && !IsFence(blk) && IsTable(blk) && limit >= 1
    ensures AllValid(SplitTable(blk, limit)) <==> LinesFit(CutLines(blk, limit), Room(blk, limit))
  {
    TableValid(blk);
    SplitRowsIff(Lines(blk), TableHeader(blk), TableRows(blk), limit);
  }

  lemma SplitBlockIff(blk: Text, limit: nat)
    requires Valid(blk) && limit >= 1 && |blk| > limit && BlockEnds(blk, limit)
    ensures AllValid(SplitBlock(blk, limit)) <==> BlockFits(blk, limit)
  {
    if IsFence(blk) {
      FenceBlockIff(blk, limit);
    } else if IsTable(blk) {
      TableBlockIff(blk, limit);
    } else {
      LinesValid(blk);
      PackIff(Lines(blk), [], limit);
    }
  }

  predicate BlocksFit(blks: seq<Text>, limit: nat) {
    blks == [] || (BlockFits(blks[0], limit) && BlocksFit(blks[1..], limit))
  }

  lemma {:induction false} PackBlocksIff(blks: seq<Text>, cur: Text, limit: nat)
    requires limit >= 1 && AllValid(blks) && Valid(cur) && BlocksEnd(blks, limit)
    ensures AllValid(PackBlocks(blks, cur, limit)) <==> BlocksFit(blks, limit)
    decreases |blks|
  {
    ValidFlush(cur);
    if blks != [] {
      var blk, rest := blks[0], blks[1..];
      assert blk in blks;
      if |blk| > limit {
        SplitBlockIff(blk, limit);
        PackBlocksIff(rest, [], limit);
        ValidThree(Flush(cur), SplitBlock(blk, limit), PackBlocks(rest, [], limit));
      } else if |cur| + |blk| > limit {
        PackBlocksIff(rest, blk, limit);
        ValidParts(Flush(cur), PackBlocks(rest, blk, limit));
      } else {
        ValidConcat(cur, blk);
        PackBlocksIff(rest, cur + blk, limit);
      }
    }
  }

  lemma TextBlocksValid(text: Text)
    requires Valid(text)
    ensures AllValid(Blocks(text))
  {
    LinesValid(text);
    BlocksValid(Lines(text), []);
  }

  /** Valid text is cut between characters only, if and only if every character of every oversized block fits the
      room its lines are cut to: the limit, less what an oversized fence or table repeats in each part. */
  lemma SplitCutsBetweenCharactersIff(text: Text, limit: int)
    requires Valid(text) && Ends(text, limit)
    ensures AllValid(Split(text, limit)) <==> limit <= 0 || |text| <= limit || BlocksFit(Blocks(text), limit)
  {
    TextBlocksValid(text);
    if 0 < limit < |text| {
      PackBlocksIff(Blocks(text), [], limit);
      ValidFlush([]);
      ValidCons([], []);
    } else {
      ValidCons(text, []);
      assert [text] + [] == [text];
    }
  }

  lemma {:induction false} FourBytesFit(s: Text, limit: nat)
    requires Valid(s) && limit >= 4
    ensures CharsFit(s, limit)
    decreases |s|
  {
    if s != [] {
      FourBytesFit(s[CharLen(s)..], limit);
    }
  }

  lemma {:induction false} FourByteLinesFit(lines: seq<Text>, limit: nat)
    requires AllValid(lines) && limit >= 4
    ensures LinesFit(lines, limit)
  {
    if lines != [] {
      FourBytesFit(lines[0], limit);
      FourByteLinesFit(lines[1..], limit);
    }
  }

  lemma {:induction false} RoomyBlocksFit(blks: seq<Text>, limit: nat)
    requires AllValid(blks) && forall b :: b in blks && |b| > limit ==> Room(b, limit) >= 4
    ensures BlocksFit(blks, limit)
  {
    if blks != [] {
      RoomyBlocksFit(blks[1..], limit);
      if |blks[0]| > limit {
        CutLinesValid(blks[0], limit);
        FourByteLinesFit(CutLines(blks[0], limit), Room(blks[0], limit));
      }
    }
  }

  /** No character has more than four bytes, so room for four bytes is always enough. */
  lemma FourBytesAreEnough(text: Text, limit: int)
    requires Valid(text) && Ends(text, limit)
    requires limit >= 1 ==> forall b :: b in Blocks(text) && |b| > limit ==> Room(b, limit) >= 4
    ensures AllValid(Split(text, limit))
  {
    TextBlocksValid(text);
    SplitCutsBetweenCharactersIff(text, limit);
    if limit >= 1 {
      RoomyBlocksFit(Blocks(text), limit);
    }
  }

  /** Three bytes are too few for a character of four. */
  lemma RuneSplitBreaksCharacter()
    ensures Valid([0xF0, 0x90, 0x80, 0x80]) && !AllValid(RuneSplit([0xF0, 0x90, 0x80, 0x80], 3))
  {
    var s: Text := [0xF0, 0x90, 0x80, 0x80];
    assert CharLen(s) == 4 && s[4..] == [];
    RuneSplitIff(s, 3);
  }
}
