/** What the Markdown splitter promises: nothing is lost, parts are bounded, and every
    part of a split fence or table stands alone. */
module MdSplitProof {
  import opened Utf8
  import opened MdSplit

  // ------------------------------------------------------------------ predicates on lists of parts

  predicate AllFit(parts: seq<Text>, limit: int) {
    forall p :: p in parts ==> 0 < |p| <= limit
  }

  lemma FitParts(a: seq<Text>, b: seq<Text>, limit: int)
    ensures AllFit(a + b, limit) <==> AllFit(a, limit) && AllFit(b, limit)
  {
    assert forall p :: p in a ==> p in a + b;
    assert forall p :: p in b ==> p in a + b;
  }

  lemma FlatFlush(cur: Text)
    ensures Flat(Flush(cur)) == cur
  {
    if cur != [] {
      FlatOne(cur);
    }
  }

  /** Three lists put together. */
  lemma FlatThree(a: seq<Text>, b: seq<Text>, c: seq<Text>)
    ensures Flat(a + b + c) == Flat(a) + (Flat(b) + Flat(c))
  {
    FlatConcat(a + b, c);
    FlatConcat(a, b);
  }

  lemma Assoc(a: Text, b: Text, c: Text)
    ensures (a + b) + c == a + (b + c)
  {
  }

  // ------------------------------------------------------------------ lines

  lemma {:induction false} LinesFlat(s: Text)
    ensures Flat(Lines(s)) == s
    decreases |s|
  {
    var i := FirstNewline(s);
    if i == |s| {
      FlatOne(s);
    } else {
      LinesFlat(s[i + 1..]);
      FlatCons(s[..i + 1], Lines(s[i + 1..]));
      assert s[..i + 1] + s[i + 1..] == s;
    }
  }

  lemma {:induction false} NonEmptyFlat(lines: seq<Text>)
    ensures Flat(NonEmpty(lines)) == Flat(lines)
    ensures forall l :: l in NonEmpty(lines) ==> l in lines && l != []
  {
    if lines != [] {
      NonEmptyFlat(lines[1..]);
      if lines[0] != [] {
        FlatCons(lines[0], NonEmpty(lines[1..]));
      } else {
        assert [] + NonEmpty(lines[1..]) == NonEmpty(lines[1..]);
        assert [] + Flat(lines[1..]) == Flat(lines[1..]);
      }
    }
  }

  // ------------------------------------------------------------------ rune split

  lemma {:induction false} RuneSplitFlat(s: Text, limit: nat)
    requires limit >= 1
    ensures Flat(RuneSplit(s, limit)) == s && AllFit(RuneSplit(s, limit), limit)
    decreases |s|
  {
    if |s| <= limit {
      FlatFlush(s);
    } else {
      var c := RuneCut(s, limit);
      var head, tail := s[..c], s[c..];
      assert head + tail == s;
      RuneSplitFlat(tail, limit);
      FlatCons(head, RuneSplit(tail, limit));
      FitParts([head], RuneSplit(tail, limit), limit);
    }
  }

  /** With no room at all a cut takes nothing off, so the loop does not end. */
  lemma RuneCutStallsIff(s: Text, limit: nat)
    requires limit < |s|
    ensures RuneCut(s, limit) == 0 <==> limit == 0
  {
  }

  // ------------------------------------------------------------------ packing

  lemma {:induction false} PackFlat(lines: seq<Text>, cur: Text, limit: nat)
    requires limit >= 1
    ensures Flat(Pack(lines, cur, limit)) == cur + Flat(lines)
    decreases |lines|
  {
    if lines == [] {
      FlatFlush(cur);
      assert cur + [] == cur;
    } else {
      var ln, rest := lines[0], lines[1..];
      FlatFlush(cur);
      Assoc(cur, ln, Flat(rest));
      if ln == [] {
        PackFlat(rest, cur, limit);
        assert cur + [] == cur;
      } else if |ln| > limit {
        PackFlat(rest, [], limit);
        RuneSplitFlat(ln, limit);
        FlatThree(Flush(cur), RuneSplit(ln, limit), Pack(rest, [], limit));
        assert [] + Flat(rest) == Flat(rest);
      } else if |cur| + |ln| > limit {
        PackFlat(rest, ln, limit);
        FlatConcat(Flush(cur), Pack(rest, ln, limit));
      } else {
        PackFlat(rest, cur + ln, limit);
      }
    }
  }

  lemma {:induction false} PackFits(lines: seq<Text>, cur: Text, limit: nat)
    requires limit >= 1 && |cur| <= limit
    ensures AllFit(Pack(lines, cur, limit), limit)
    decreases |lines|
  {
    if lines != [] {
      var ln, rest := lines[0], lines[1..];
      if ln == [] {
        PackFits(rest, cur, limit);
      } else if |ln| > limit {
        PackFits(rest, [], limit);
        RuneSplitFlat(ln, limit);
        FitParts(Flush(cur), RuneSplit(ln, limit), limit);
        FitParts(Flush(cur) + RuneSplit(ln, limit), Pack(rest, [], limit), limit);
      } else if |cur| + |ln| > limit {
        PackFits(rest, ln, limit);
        FitParts(Flush(cur), Pack(rest, ln, limit), limit);
      } else {
        PackFits(rest, cur + ln, limit);
      }
    }
  }

  // ------------------------------------------------------------------ blocks

  lemma SplitLines(lines: seq<Text>, n: nat)
    requires n <= |lines|
    ensures Flat(lines[..n]) + Flat(lines[n..]) == Flat(lines)
  {
    var a, b := lines[..n], lines[n..];
    assert a + b == lines;
    FlatConcat(a, b);
  }

  lemma {:induction false} BlocksFlat(lines: seq<Text>, cur: Text)
    ensures Flat(BlocksOf(lines, cur)) == cur + Flat(lines)
    decreases |lines|
  {
    FlatFlush(cur);
    if lines == [] {
      assert cur + [] == cur;
    } else {
      var line, rest := lines[0], lines[1..];
      var marker := FenceMarker(TrimSpace(line));
      Assoc(cur, line, Flat(rest));
      if line == [] {
        BlocksFlat(rest, cur);
        assert cur + [] == cur;
      } else if marker != [] {
        var n := FenceLen(rest, marker);
        BlocksFlat(rest[n..], []);
        SplitLines(rest, n);
        FlatOne(line + Flat(rest[..n]));
        FlatThree(Flush(cur), [line + Flat(rest[..n])], BlocksOf(rest[n..], []));
        Assoc(line, Flat(rest[..n]), Flat(rest[n..]));
        assert [] + Flat(rest[n..]) == Flat(rest[n..]);
      } else if TrimSpace(line) == [] {
        BlocksFlat(rest, []);
        FlatCons(cur + line, BlocksOf(rest, []));
        assert [] + Flat(rest) == Flat(rest);
      } else {
        BlocksFlat(rest, cur + line);
      }
    }
  }

  /** The blocks of a text concatenate to the text. */
  lemma BlocksAreTheText(text: Text)
    ensures Flat(Blocks(text)) == text
  {
    BlocksFlat(Lines(text), []);
    LinesFlat(text);
    assert [] + text == text;
  }

  // ------------------------------------------------------------------ fences

  /** White space at the end of a line makes no difference to its trimmed text. */
  lemma {:induction false} TrimLeftEnd(t: Text, b: Byte)
    requires AsciiSpace(b)
    ensures TrimLeft(t + [b]) == if TrimLeft(t) == [] then [] else TrimLeft(t) + [b]
    decreases |t|
  {
    var s := t + [b];
    if t == [] {
      assert s[1..] == [];
    } else if AsciiSpace(t[0]) {
      TrimLeftEnd(t[1..], b);
      assert s[1..] == t[1..] + [b];
    } else if |t| >= 2 && WideSpace(t[..2]) {
      TrimLeftEnd(t[2..], b);
      assert s[..2] == t[..2] && s[2..] == t[2..] + [b];
    } else if |t| >= 3 && WideSpace(t[..3]) {
      TrimLeftEnd(t[3..], b);
      assert s[..2] == t[..2] && s[..3] == t[..3] && s[3..] == t[3..] + [b];
    } else {
      assert |t| >= 2 ==> s[..2] == t[..2];
      assert |t| >= 3 ==> s[..3] == t[..3];
      assert |t| == 1 ==> s[..2][1] == b;
      assert |t| == 2 ==> s[..3][2] == b;
    }
  }

  lemma TrimEnd(t: Text, b: Byte)
    requires AsciiSpace(b)
    ensures TrimSpace(t + [b]) == TrimSpace(t)
  {
    TrimLeftEnd(t, b);
    var u := TrimLeft(t);
    if u != [] {
      assert (u + [b])[..|u|] == u;
    }
  }

  lemma {:induction false} TrimLineEndKeeps(s: Text)
    ensures TrimSpace(TrimLineEnd(s)) == TrimSpace(s)
    decreases |s|
  {
    if s != [] && (s[|s| - 1] == NL || s[|s| - 1] == 13) {
      var t := s[..|s| - 1];
      TrimLineEndKeeps(t);
      assert s == t + [s[|s| - 1]];
      TrimEnd(t, s[|s| - 1]);
    }
  }

  predicate IsMarker(m: Text) {
    |m| >= 3 && (m == Copies(BACKTICK, |m|) || m == Copies(TILDE, |m|))
  }

  lemma MarkerIsMarker(trimmed: Text)
    ensures FenceMarker(trimmed) != [] ==> IsMarker(FenceMarker(trimmed))
  {
  }

  lemma {:induction false} RunOfCopies(c: Byte, n: nat)
    ensures RunLen(Copies(c, n), c) == n
  {
    if n > 0 {
      RunOfCopies(c, n - 1);
      assert Copies(c, n)[1..] == Copies(c, n - 1);
    }
  }

  lemma MarkerTrims(m: Text)
    requires IsMarker(m)
    ensures TrimSpace(m) == m
  {
    assert TrimLeft(m) == m;
  }

  lemma MarkerCloses(m: Text)
    requires IsMarker(m)
    ensures ClosingFence(m, m)
  {
    RunOfCopies(m[0], |m|);
    assert m == Copies(m[0], |m|);
  }

  /** The line that closes the parts is a closing fence. */
  lemma {:induction false} FindCloseCloses(open: Text, rest: seq<Text>, marker: Text)
    requires IsMarker(marker)
    ensures FindClose(open, rest, marker).open == open
    ensures ClosingFence(TrimSpace(FindClose(open, rest, marker).close), marker)
  {
    MarkerTrims(marker);
    MarkerCloses(marker);
    if rest != [] {
      var front, last := rest[..|rest| - 1], rest[|rest| - 1];
      if last == [] {
        FindCloseCloses(open, front, marker);
      } else if ClosingFence(TrimSpace(last), marker) {
        TrimLineEndKeeps(last);
      }
    }
  }

  lemma SnocSlices(front: seq<Text>, last: Text, n: nat)
    requires n <= |front|
    ensures (front + [last])[..n] == front[..n] && (front + [last])[n..] == front[n..] + [last]
  {
  }

  /** Where the body ends, and what closes the parts. */
  ghost predicate ClosesAt(f: Fence, rest: seq<Text>, marker: Text) {
    && |f.body| <= |rest| && f.body == rest[..|f.body|]
    && f.close == if |f.body| < |rest| then TrimLineEnd(Flat(rest[|f.body|..])) else marker
  }

  lemma EmptyLineBehind(f: Fence, front: seq<Text>, marker: Text)
    requires ClosesAt(f, front, marker) && |f.body| < |front|
    ensures ClosesAt(f, front + [[]], marker)
  {
    var n := |f.body|;
    SnocSlices(front, [], n);
    FlatSnoc(front[n..], []);
    assert Flat(front[n..]) + [] == Flat(front[n..]);
  }

  /** A fence block is its opening line, its body, and a closing line that may be missing. */
  lemma {:induction false} FindCloseSplits(open: Text, rest: seq<Text>, marker: Text)
    ensures ClosesAt(FindClose(open, rest, marker), rest, marker)
  {
    if rest != [] {
      var front, last := rest[..|rest| - 1], rest[|rest| - 1];
      assert rest == front + [last];
      if last == [] {
        FindCloseSplits(open, front, marker);
        var g := FindClose(open, front, marker);
        assert front[..|front|] == front;
        if |g.body| < |front| {
          EmptyLineBehind(g, front, marker);
        } else {
          assert rest[..|rest|] == rest;
          assert g.close == marker;
        }
      } else if ClosingFence(TrimSpace(last), marker) {
        FlatOne(last);
        assert rest[|front|..] == [last];
      }
    }
  }

  lemma ParseFenceLaw(blk: Text)
    requires IsFence(blk)
    ensures var f := ParseFence(blk, MarkerOf(blk));
      && ClosingFence(TrimSpace(f.close), MarkerOf(blk))
      && f.open == FirstLine(blk)
      && exists tail ::
           && blk == f.open + Flat(f.body) + tail
           && f.close == if tail == [] then MarkerOf(blk) else TrimLineEnd(tail)
  {
    var lines, m := Lines(blk), MarkerOf(blk);
    MarkerIsMarker(TrimSpace(FirstLine(blk)));
    FindCloseCloses(lines[0], lines[1..], m);
    FindCloseSplits(lines[0], lines[1..], m);
    var f, rest := ParseFence(blk, m), lines[1..];
    LinesFlat(blk);
    SplitLines(rest, |f.body|);
    Assoc(f.open, Flat(f.body), Flat(rest[|f.body|..]));
    assert blk == f.open + Flat(f.body) + Flat(rest[|f.body|..]);
  }

  lemma FenceChunksFlat(f: Fence, limit: nat)
    requires FenceEnds(f, limit)
    ensures Flat(FenceChunks(f, limit)) == Flat(f.body)
    ensures forall c :: c in FenceChunks(f, limit) ==> c != []
  {
    var b := FenceBudget(f, limit);
    if b > 0 {
      PackFlat(f.body, [], b);
      PackFits(f.body, [], b);
      assert [] + Flat(f.body) == Flat(f.body);
    }
  }

  /** A piece of the body, on lines of its own. */
  function OwnLines(chunk: Text): (r: Text)
    ensures EndsInNewline(r) && chunk <= r && |r| <= |chunk| + 1
  {
    if EndsInNewline(chunk) then chunk else chunk + [NL]
  }

  lemma FencePartShape(f: Fence, chunk: Text)
    ensures FencePart(f, chunk) == f.open + OwnLines(chunk) + f.close
  {
  }

  /** Every part of an oversized fence starts with its opening line, goes on with a piece of the body, and ends
      with the closing fence on a line of its own; the pieces concatenate to the body. A fence without a body
      becomes its opening and closing lines. */
  lemma FencePartsStandAlone(f: Fence, limit: nat)
    requires FenceEnds(f, limit)
    ensures Flat(FenceChunks(f, limit)) == Flat(f.body)
    ensures Flat(f.body) == [] ==> SplitFence(f, limit) == [f.open + f.close]
    ensures Flat(f.body) != [] ==>
              && |SplitFence(f, limit)| == |FenceChunks(f, limit)| > 0
              && forall i :: 0 <= i < |FenceChunks(f, limit)| ==>
                   SplitFence(f, limit)[i] == f.open + OwnLines(FenceChunks(f, limit)[i]) + f.close
  {
    FenceChunksFlat(f, limit);
    var chunks := FenceChunks(f, limit);
    if chunks != [] {
      assert chunks[0] in chunks && Flat(chunks) == chunks[0] + Flat(chunks[1..]);
    }
    forall i | 0 <= i < |chunks|
      ensures FencePart(f, chunks[i]) == f.open + OwnLines(chunks[i]) + f.close
    {
      FencePartShape(f, chunks[i]);
    }
  }

  /** The parts fit when the fence lines leave room. */
  lemma FenceFits(f: Fence, limit: nat)
    requires limit > Overhead(f) && f.open != []
    ensures AllFit(SplitFence(f, limit), limit)
  {
    PackFits(f.body, [], FenceBudget(f, limit));
    var chunks := FenceChunks(f, limit);
    if chunks != [] {
      forall p | p in SplitFence(f, limit)
        ensures 0 < |p| <= limit
      {
        var i :| 0 <= i < |chunks| && p == FencePart(f, chunks[i]);
        assert chunks[i] in chunks;
      }
    }
  }

  lemma FencePartSize(f: Fence, chunk: Text)
    ensures |FencePart(f, chunk)| == |OwnLines(chunk)| + Overhead(f) - 1
  {
  }

  /** When they leave too little, every part of a fence with a body is too long. */
  lemma FenceOverflows(f: Fence, limit: nat)
    requires FenceEnds(f, limit) && limit < Overhead(f) && Flat(f.body) != []
    ensures forall p :: p in SplitFence(f, limit) ==> |p| > limit
    ensures !AllFit(SplitFence(f, limit), limit)
  {
    FencePartsStandAlone(f, limit);
    var chunks := FenceChunks(f, limit);
    forall p | p in SplitFence(f, limit)
      ensures |p| > limit
    {
      var i :| 0 <= i < |chunks| && p == FencePart(f, chunks[i]);
      FencePartSize(f, chunks[i]);
    }
    assert SplitFence(f, limit)[0] in SplitFence(f, limit);
  }

  predicate LoneNewlines(parts: seq<Text>) {
    forall i :: 0 <= i < |parts| ==> parts[i] == [NL]
  }

  lemma {:induction false} NewlinesFlat(parts: seq<Text>)
    requires LoneNewlines(parts)
    ensures |Flat(parts)| == |parts| && forall b :: b in Flat(parts) ==> b == NL
  {
    if parts != [] {
      NewlinesFlat(parts[1..]);
    }
  }

  lemma NewlinesInside(a: seq<Text>, b: seq<Text>, c: seq<Text>)
    requires LoneNewlines(a + b + c)
    ensures LoneNewlines(b)
  {
    forall i | 0 <= i < |b|
      ensures b[i] == [NL]
    {
      assert (a + b + c)[|a| + i] == b[i];
    }
  }

  /** A long line is never cut into single newlines. */
  lemma RuneSplitKeepsNewlines(s: Text, limit: nat)
    requires 2 <= limit < |s|
    ensures !LoneNewlines(RuneSplit(s, limit))
  {
    var parts := RuneSplit(s, limit);
    if LoneNewlines(parts) {
      assert s[limit] in s && parts[0] == s[..RuneCut(s, limit)];
      RuneSplitFlat(s, limit);
      NewlinesFlat(parts);
    }
  }

  /** What has been collected stays together. */
  lemma {:induction false} PackKeepsTogether(lines: seq<Text>, cur: Text, limit: nat)
    requires limit >= 1 && cur != []
    ensures var r := Pack(lines, cur, limit); r != [] && |r[0]| >= |cur|
    decreases |lines|
  {
    if lines != [] {
      var ln, rest := lines[0], lines[1..];
      if ln == [] {
        PackKeepsTogether(rest, cur, limit);
      } else if |cur| + |ln| <= limit {
        PackKeepsTogether(rest, cur + ln, limit);
      }
    }
  }

  /** Newlines that fit together are packed together. */
  lemma {:induction false} PackKeepsNewlines(lines: seq<Text>, cur: Text, limit: nat)
    requires limit >= 2 && |cur| <= 1 && LoneNewlines(Pack(lines, cur, limit))
    ensures |Pack(lines, cur, limit)| <= 1
    decreases |lines|
  {
    var r := Pack(lines, cur, limit);
    if lines != [] {
      var ln, rest := lines[0], lines[1..];
      if ln == [] {
        PackKeepsNewlines(rest, cur, limit);
      } else if |ln| > limit {
        NewlinesInside(Flush(cur), RuneSplit(ln, limit), Pack(rest, [], limit));
        RuneSplitKeepsNewlines(ln, limit);
      } else if |cur| + |ln| > limit {
        assert r == [cur] + Pack(rest, ln, limit);
        NewlinesInside([cur], Pack(rest, ln, limit), []);
        PackKeepsTogether(rest, ln, limit);
      } else if |cur + ln| >= 2 {
        PackKeepsTogether(rest, cur + ln, limit);
      } else {
        PackKeepsNewlines(rest, cur + ln, limit);
      }
    }
  }

  /** The chunks are single newlines if and only if the body is one newline. */
  lemma NewlineBodyIff(f: Fence, limit: nat)
    requires FenceBudget(f, limit) >= 2 && Flat(f.body) != []
    ensures LoneNewlines(FenceChunks(f, limit)) <==> Flat(f.body) == [NL]
  {
    var chunks := FenceChunks(f, limit);
    FenceChunksFlat(f, limit);
    if LoneNewlines(chunks) {
      PackKeepsNewlines(f.body, [], FenceBudget(f, limit));
      NewlinesFlat(chunks);
      assert Flat(f.body)[0] in Flat(f.body);
    } else if Flat(f.body) == [NL] {
      OneByteOneChunk(chunks);
    }
  }

  lemma {:induction false} FlatIsLong(chunks: seq<Text>)
    requires forall i :: 0 <= i < |chunks| ==> chunks[i] != []
    ensures |Flat(chunks)| >= |chunks|
  {
    if chunks != [] {
      FlatIsLong(chunks[1..]);
    }
  }

  lemma OneByteOneChunk(chunks: seq<Text>)
    requires |Flat(chunks)| == 1 && forall c :: c in chunks ==> c != []
    ensures chunks == [Flat(chunks)]
  {
    assert forall i :: 0 <= i < |chunks| ==> chunks[i] in chunks;
    FlatIsLong(chunks);
    FlatOne(chunks[0]);
    assert chunks == [chunks[0]];
  }

  /** What the fence lines leave must do for the body: more than nothing, or nothing for a body of one newline, or
      one less for no body at all. */
  predicate FenceRoom(f: Fence, limit: nat) {
    || limit > Overhead(f)
    || (limit == Overhead(f) && Flat(f.body) == [NL])
    || (limit >= Overhead(f) - 1 && Flat(f.body) == [])
  }

  lemma TightFenceIff(f: Fence, limit: nat)
    requires FenceEnds(f, limit) && limit == Overhead(f) >= 4 && Flat(f.body) != []
    ensures AllFit(SplitFence(f, limit), limit) <==> Flat(f.body) == [NL]
  {
    FencePartsStandAlone(f, limit);
    FenceChunksFlat(f, limit);
    NewlineBodyIff(f, limit);
    var chunks, parts := FenceChunks(f, limit), SplitFence(f, limit);
    forall i | 0 <= i < |chunks|
      ensures 0 < |parts[i]| <= limit <==> chunks[i] == [NL]
    {
      FencePartSize(f, chunks[i]);
      assert chunks[i] in chunks;
    }
    assert AllFit(parts, limit) <==> forall i :: 0 <= i < |parts| ==> 0 < |parts[i]| <= limit;
  }

  /** The parts of an oversized fence fit if and only if the fence lines leave room for its body. */
  lemma FenceFitsIff(f: Fence, limit: nat)
    requires FenceEnds(f, limit) && f.open != [] && |f.close| >= 3
    ensures AllFit(SplitFence(f, limit), limit) <==> FenceRoom(f, limit)
  {
    FencePartsStandAlone(f, limit);
    if Flat(f.body) == [] {
      assert f.open + f.close in SplitFence(f, limit);
    } else if limit > Overhead(f) {
      FenceFits(f, limit);
    } else if limit == Overhead(f) {
      TightFenceIff(f, limit);
    } else {
      FenceOverflows(f, limit);
    }
  }

  // ------------------------------------------------------------------ tables

  lemma TableIsHeaderAndRows(blk: Text)
    requires IsTable(blk)
    ensures blk == TableHeader(blk) + Flat(TableRows(blk)) && TableHeader(blk) != []
  {
    var lines := NonEmpty(Lines(blk));
    LinesFlat(blk);
    NonEmptyFlat(Lines(blk));
    SplitLines(lines, 2);
    assert lines[..2] == [lines[0]] + [lines[1]];
    FlatSnoc([lines[0]], lines[1]);
    FlatOne(lines[0]);
    assert lines[0] in lines && lines[1] in lines;
  }

  /** The chunks of rows; a table without rows has one empty chunk. */
  function RowChunks(rows: seq<Text>, budget: nat): seq<Text>
    requires budget >= 1
  {
    var chunks := Pack(rows, [], budget);
    if chunks == [] then [[]] else chunks
  }

  lemma RowChunksLaw(rows: seq<Text>, budget: nat)
    requires budget >= 1
    ensures Flat(RowChunks(rows, budget)) == Flat(rows)
    ensures forall c :: c in RowChunks(rows, budget) ==> |c| <= budget
  {
    PackFlat(rows, [], budget);
    PackFits(rows, [], budget);
    assert [] + Flat(rows) == Flat(rows);
    FlatOne([]);
  }

  lemma SplitRowsShape(lines: seq<Text>, header: Text, rows: seq<Text>, limit: nat)
    requires |header| < limit
    ensures SplitRows(lines, header, rows, limit) == Prefixed(header, RowChunks(rows, limit - |header|))
  {
    if Pack(rows, [], limit - |header|) == [] {
      assert header + [] == header;
      assert [header] == Prefixed(header, [[]]);
    }
  }

  lemma PrefixedFits(header: Text, chunks: seq<Text>, limit: nat)
    requires 0 < |header| < limit && forall c :: c in chunks ==> |c| <= limit - |header|
    ensures AllFit(Prefixed(header, chunks), limit)
  {
    forall p | p in Prefixed(header, chunks)
      ensures 0 < |p| <= limit
    {
      var i :| 0 <= i < |chunks| && p == header + chunks[i];
      assert chunks[i] in chunks;
    }
  }

  /** What the parts of a table have behind the header. */
  function TableChunks(blk: Text, limit: nat): seq<Text>
    requires IsTable(blk) && |TableHeader(blk)| < limit
  {
    RowChunks(TableRows(blk), limit - |TableHeader(blk)|)
  }

  lemma TableChunksAreRows(blk: Text, limit: nat)
    requires IsTable(blk) && |TableHeader(blk)| < limit
    ensures Flat(TableChunks(blk, limit)) == Flat(TableRows(blk))
  {
    RowChunksLaw(TableRows(blk), limit - |TableHeader(blk)|);
  }

  /** Every part of an oversized table whose header fits starts with the header, and what follows the headers
      concatenates to the rows. */
  lemma TablePartsStandAlone(blk: Text, limit: nat)
    requires IsTable(blk) && |TableHeader(blk)| < limit
    ensures SplitTable(blk, limit) == Prefixed(TableHeader(blk), TableChunks(blk, limit))
    ensures blk == TableHeader(blk) + Flat(TableChunks(blk, limit))
  {
    TableIsHeaderAndRows(blk);
    TableChunksAreRows(blk, limit);
    SplitRowsShape(Lines(blk), TableHeader(blk), TableRows(blk), limit);
  }

  lemma RoomyTableFits(blk: Text, limit: nat)
    requires IsTable(blk) && |TableHeader(blk)| < limit
    ensures AllFit(SplitTable(blk, limit), limit)
  {
    TableIsHeaderAndRows(blk);
    TablePartsStandAlone(blk, limit);
    RowChunksLaw(TableRows(blk), limit - |TableHeader(blk)|);
    PrefixedFits(TableHeader(blk), TableChunks(blk, limit), limit);
  }

  /** The parts of a table fit. */
  lemma TableFits(blk: Text, limit: nat)
    requires IsTable(blk) && limit >= 1
    ensures AllFit(SplitTable(blk, limit), limit)
  {
    if limit <= |TableHeader(blk)| {
      PackFits(Lines(blk), [], limit);
    } else {
      RoomyTableFits(blk, limit);
    }
  }

  /** A table whose header does not fit is packed line by line, and nothing is repeated. */
  lemma TableWithoutRoom(blk: Text, limit: nat)
    requires IsTable(blk) && 1 <= limit <= |TableHeader(blk)|
    ensures Flat(SplitTable(blk, limit)) == blk
  {
    PackFlat(Lines(blk), [], limit);
    LinesFlat(blk);
    assert [] + blk == blk;
  }

  // ------------------------------------------------------------------ split

  /** An oversized fence leaves room for its body. */
  predicate LeavesRoom(blk: Text, limit: nat) {
    |blk| > limit && IsFence(blk) ==> FenceRoom(ParseFence(blk, MarkerOf(blk)), limit)
  }

  /** A block that is split without repeating anything: neither an oversized fence nor an oversized table with a
      header that fits. */
  predicate Lossless(blk: Text, limit: nat) {
    |blk| > limit ==> !IsFence(blk) && (IsTable(blk) ==> limit <= |TableHeader(blk)|)
  }

  lemma {:induction false} TrimLeftShrinks(s: Text)
    ensures |TrimLeft(s)| <= |s|
    decreases |s|
  {
    if s != [] && AsciiSpace(s[0]) {
      TrimLeftShrinks(s[1..]);
    } else if |s| >= 2 && WideSpace(s[..2]) {
      TrimLeftShrinks(s[2..]);
    } else if |s| >= 3 && WideSpace(s[..3]) {
      TrimLeftShrinks(s[3..]);
    }
  }

  lemma {:induction false} TrimRightShrinks(s: Text)
    ensures |TrimRight(s)| <= |s|
    decreases |s|
  {
    var n := |s|;
    if s != [] && AsciiSpace(s[n - 1]) {
      TrimRightShrinks(s[..n - 1]);
    } else if n >= 2 && WideSpace(s[n - 2..]) {
      TrimRightShrinks(s[..n - 2]);
    } else if n >= 3 && WideSpace(s[n - 3..]) {
      TrimRightShrinks(s[..n - 3]);
    }
  }

  lemma CloseIsLong(blk: Text)
    requires IsFence(blk)
    ensures |ParseFence(blk, MarkerOf(blk)).close| >= 3
  {
    var close := ParseFence(blk, MarkerOf(blk)).close;
    ParseFenceLaw(blk);
    MarkerIsMarker(TrimSpace(FirstLine(blk)));
    TrimLeftShrinks(close);
    TrimRightShrinks(TrimLeft(close));
  }

  lemma SplitBlockFitsIff(blk: Text, limit: nat)
    requires limit >= 1 && |blk| > limit && BlockEnds(blk, limit)
    ensures AllFit(SplitBlock(blk, limit), limit) <==> LeavesRoom(blk, limit)
  {
    if IsFence(blk) {
      ParseFenceLaw(blk);
      OpenIsNotEmpty(blk);
      CloseIsLong(blk);
      FenceFitsIff(ParseFence(blk, MarkerOf(blk)), limit);
    } else if IsTable(blk) {
      TableFits(blk, limit);
    } else {
      PackFits(Lines(blk), [], limit);
    }
  }

  lemma OpenIsNotEmpty(blk: Text)
    requires blk != []
    ensures FirstLine(blk) != []
  {
  }

  lemma SplitBlockFlat(blk: Text, limit: nat)
    requires limit >= 1 && |blk| > limit && Lossless(blk, limit)
    ensures Flat(SplitBlock(blk, limit)) == blk
  {
    if IsTable(blk) {
      TableWithoutRoom(blk, limit);
    } else {
      PackFlat(Lines(blk), [], limit);
      LinesFlat(blk);
      assert [] + blk == blk;
    }
  }

  predicate AllLeaveRoom(blks: seq<Text>, limit: nat) {
    forall b :: b in blks ==> LeavesRoom(b, limit)
  }

  lemma RoomCons(blks: seq<Text>, limit: nat)
    requires blks != []
    ensures AllLeaveRoom(blks, limit) <==> LeavesRoom(blks[0], limit) && AllLeaveRoom(blks[1..], limit)
  {
    assert blks == [blks[0]] + blks[1..];
  }

  lemma {:induction false} PackBlocksFitsIff(blks: seq<Text>, cur: Text, limit: nat)
    requires limit >= 1 && BlocksEnd(blks, limit) && |cur| <= limit
    ensures AllFit(PackBlocks(blks, cur, limit), limit) <==> AllLeaveRoom(blks, limit)
    decreases |blks|
  {
    if blks != [] {
      var blk, rest := blks[0], blks[1..];
      assert blk in blks;
      RoomCons(blks, limit);
      if |blk| > limit {
        SplitBlockFitsIff(blk, limit);
        PackBlocksFitsIff(rest, [], limit);
        FitParts(Flush(cur), SplitBlock(blk, limit), limit);
        FitParts(Flush(cur) + SplitBlock(blk, limit), PackBlocks(rest, [], limit), limit);
      } else if |cur| + |blk| > limit {
        PackBlocksFitsIff(rest, blk, limit);
        FitParts(Flush(cur), PackBlocks(rest, blk, limit), limit);
      } else {
        PackBlocksFitsIff(rest, cur + blk, limit);
      }
    }
  }

  lemma {:induction false} PackBlocksFlat(blks: seq<Text>, cur: Text, limit: nat)
    requires limit >= 1 && BlocksEnd(blks, limit)
    requires forall b :: b in blks ==> Lossless(b, limit)
    ensures Flat(PackBlocks(blks, cur, limit)) == cur + Flat(blks)
    decreases |blks|
  {
    FlatFlush(cur);
    if blks == [] {
      assert cur + [] == cur;
    } else {
      var blk, rest := blks[0], blks[1..];
      assert blk in blks;
      Assoc(cur, blk, Flat(rest));
      if |blk| > limit {
        SplitBlockFlat(blk, limit);
        PackBlocksFlat(rest, [], limit);
        FlatThree(Flush(cur), SplitBlock(blk, limit), PackBlocks(rest, [], limit));
        assert [] + Flat(rest) == Flat(rest);
      } else if |cur| + |blk| > limit {
        PackBlocksFlat(rest, blk, limit);
        FlatConcat(Flush(cur), PackBlocks(rest, blk, limit));
      } else {
        PackBlocksFlat(rest, cur + blk, limit);
      }
    }
  }

  lemma SplitBlockIsNotEmpty(blk: Text, limit: nat)
    requires limit >= 1 && |blk| > limit && BlockEnds(blk, limit)
    ensures SplitBlock(blk, limit) != []
  {
    if !IsFence(blk) {
      if IsTable(blk) && |TableHeader(blk)| < limit {
        TablePartsStandAlone(blk, limit);
      } else {
        SplitBlockFlat(blk, limit);
      }
    }
  }

  lemma {:induction false} PackBlocksIsNotEmpty(blks: seq<Text>, cur: Text, limit: nat)
    requires limit >= 1 && BlocksEnd(blks, limit) && cur + Flat(blks) != []
    ensures PackBlocks(blks, cur, limit) != []
    decreases |blks|
  {
    if blks != [] {
      var blk, rest := blks[0], blks[1..];
      assert blk in blks;
      if |blk| > limit {
        SplitBlockIsNotEmpty(blk, limit);
      } else if |cur| + |blk| <= limit {
        Assoc(cur, blk, Flat(rest));
        PackBlocksIsNotEmpty(rest, cur + blk, limit);
      }
    }
  }

  /** The parts of an oversized text are what its blocks are packed into. */
  lemma SplitIsNotEmpty(text: Text, limit: int)
    requires 1 <= limit < |text| && Ends(text, limit)
    ensures Split(text, limit) == PackBlocks(Blocks(text), [], limit) != []
  {
    BlocksAreTheText(text);
    assert [] + text == text;
    PackBlocksIsNotEmpty(Blocks(text), [], limit);
  }

  /** Every part is non-empty and fits the limit, if and only if each oversized fence leaves room for its body. */
  lemma SplitFitsIff(text: Text, limit: int)
    requires 1 <= limit < |text| && Ends(text, limit)
    ensures AllFit(Split(text, limit), limit) <==> AllLeaveRoom(Blocks(text), limit)
  {
    PackBlocksFitsIff(Blocks(text), [], limit);
    SplitIsNotEmpty(text, limit);
  }

  /** Without an oversized fence or table, the parts concatenate to the text. */
  lemma SplitIsLossless(text: Text, limit: int)
    requires Ends(text, limit)
    requires limit >= 1 ==> forall b :: b in Blocks(text) ==> Lossless(b, limit)
    ensures Flat(Split(text, limit)) == text
  {
    if 0 < limit < |text| {
      PackBlocksFlat(Blocks(text), [], limit);
      BlocksAreTheText(text);
      assert [] + text == text;
      FlatOne([]);
    } else {
      FlatOne(text);
    }
  }

  /** A call ends if and only if the limit is not 1, or no fence block has a body: with a limit of 1 the body
      gets no room at all, and its first line is cut at 0 for ever. */
  lemma SplitEndsIff(text: Text, limit: int)
    ensures Ends(text, limit) <==>
              || limit != 1 || |text| <= 1
              || (forall b :: b in Blocks(text) && |b| > 1 && IsFence(b) ==>
                   Flat(ParseFence(b, MarkerOf(b)).body) == [])
  {
    if 0 < limit < |text| {
      forall b | b in Blocks(text) && IsFence(b)
        ensures FenceBudget(ParseFence(b, MarkerOf(b)), limit) >= 1 <==> limit != 1
      {
      }
    }
  }
}
