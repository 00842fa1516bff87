/** The Markdown splitter (slackbot/internal/mdsplit/mdsplit.go): text is cut into blocks, blocks are packed into
    parts of bounded size, and an oversized fence or table is split so that every part stands alone. Text is a
    sequence of bytes. */
module MdSplit {
  import opened Utf8

  const NL: Byte := 10

  // ------------------------------------------------------------------ lines and white space

  function FirstNewline(s: Text): (i: nat)
    ensures i <= |s| && (i < |s| ==> s[i] == NL) && NL !in s[..i]
  {
    if s == [] || s[0] == NL then 0
    else
      assert s[..FirstNewline(s[1..]) + 1] == [s[0]] + s[1..][..FirstNewline(s[1..])];
      FirstNewline(s[1..]) + 1
  }

  /** strings.SplitAfter at newlines: the last line may be empty. */
  function Lines(s: Text): (r: seq<Text>)
    ensures r != []
  {
    var i := FirstNewline(s);
    if i == |s| then [s] else [s[..i + 1]] + Lines(s[i + 1..])
  }

  function FirstLine(s: Text): Text {
    var i := FirstNewline(s);
    if i < |s| then s[..i + 1] else s
  }

  predicate AsciiSpace(b: Byte) {
    9 <= b <= 13 || b == 32
  }

  /** The multi-byte white space characters of strings.TrimSpace. */
  predicate WideSpace(s: Text) {
    || (|s| == 2 && s[0] == 0xC2 && (s[1] == 0x85 || s[1] == 0xA0))
    || (|s| == 3 && s[0] == 0xE1 && s[1] == 0x9A && s[2] == 0x80)
    || (|s| == 3 && s[0] == 0xE2 && s[1] == 0x80
        && (0x80 <= s[2] <= 0x8A || s[2] == 0xA8 || s[2] == 0xA9 || s[2] == 0xAF))
    || (|s| == 3 && s[0] == 0xE2 && s[1] == 0x81 && s[2] == 0x9F)
    || (|s| == 3 && s[0] == 0xE3 && s[1] == 0x80 && s[2] == 0x80)
  }

  function TrimLeft(s: Text): Text {
    if s != [] && AsciiSpace(s[0]) then TrimLeft(s[1..])
    else if |s| >= 2 && WideSpace(s[..2]) then TrimLeft(s[2..])
    else if |s| >= 3 && WideSpace(s[..3]) then TrimLeft(s[3..])
    else s
  }

  function TrimRight(s: Text): Text {
    var n := |s|;
    if s != [] && AsciiSpace(s[n - 1]) then TrimRight(s[..n - 1])
    else if n >= 2 && WideSpace(s[n - 2..]) then TrimRight(s[..n - 2])
    else if n >= 3 && WideSpace(s[n - 3..]) then TrimRight(s[..n - 3])
    else s
  }

  function TrimSpace(s: Text): Text {
    TrimRight(TrimLeft(s))
  }

  /** strings.TrimRight with the line ends as cut set. */
  function TrimLineEnd(s: Text): (r: Text)
    ensures |r| <= |s| && r == s[..|r|] && (Valid(s) ==> Valid(r))
  {
    if s != [] && (s[|s| - 1] == NL || s[|s| - 1] == 13) then
      assert Valid(s) ==> Valid(s[..|s| - 1]) by { if Valid(s) { ValidCut(s, |s| - 1); } }
      TrimLineEnd(s[..|s| - 1])
    else s
  }

  // ------------------------------------------------------------------ fences and tables

  function RunLen(s: Text, c: Byte): (n: nat)
    ensures n <= |s| && (forall i :: 0 <= i < n ==> s[i] == c) && (n < |s| ==> s[n] != c)
  {
    if s != [] && s[0] == c then RunLen(s[1..], c) + 1 else 0
  }

  const BACKTICK: Byte := 96

  const TILDE: Byte := 126

  function Copies(c: Byte, n: nat): Text {
    seq(n, _ => c)
  }

  function FenceMarker(trimmed: Text): Text {
    if RunLen(trimmed, BACKTICK) >= 3 then Copies(BACKTICK, RunLen(trimmed, BACKTICK))
    else if RunLen(trimmed, TILDE) >= 3 then Copies(TILDE, RunLen(trimmed, TILDE))
    else []
  }

  predicate ClosingFence(trimmed: Text, marker: Text) {
    marker != [] && trimmed != [] && RunLen(trimmed, marker[0]) == |trimmed| && |trimmed| >= |marker|
  }

  function NonEmpty(lines: seq<Text>): seq<Text> {
    if lines == [] then [] else (if lines[0] == [] then [] else [lines[0]]) + NonEmpty(lines[1..])
  }

  predicate TableByte(b: Byte) {
    b == 45 || b == 124 || b == 58 || b == 32 || b == 9
  }

  predicate IsTable(blk: Text) {
    var lines := NonEmpty(Lines(blk));
    && |lines| >= 2
    && var s := TrimSpace(lines[1]);
       s != [] && (forall i :: 0 <= i < |s| ==> TableByte(s[i])) && 45 in s
  }

  // ------------------------------------------------------------------ packing

  function Flush(cur: Text): seq<Text> {
    if cur == [] then [] else [cur]
  }

  /** Where an oversized line is cut. */
  function RuneCut(s: Text, limit: nat): (cut: nat)
    requires limit < |s|
    ensures cut <= limit
  {
    var j := LastStart(s, limit);
    if j == 0 then limit else j
  }

  function RuneSplit(s: Text, limit: nat): seq<Text>
    requires limit >= 1
    decreases |s|
  {
    if |s| <= limit then Flush(s) else [s[..RuneCut(s, limit)]] + RuneSplit(s[RuneCut(s, limit)..], limit)
  }

  function Pack(lines: seq<Text>, cur: Text, limit: nat): seq<Text>
    requires limit >= 1
    decreases |lines|
  {
    if lines == [] then Flush(cur)
    else
      var ln, rest := lines[0], lines[1..];
      if ln == [] then Pack(rest, cur, limit)
      else if |ln| > limit then Flush(cur) + RuneSplit(ln, limit) + Pack(rest, [], limit)
      else if |cur| + |ln| > limit then Flush(cur) + Pack(rest, ln, limit)
      else Pack(rest, cur + ln, limit)
  }

  // ------------------------------------------------------------------ blocks

  /** How many of the lines behind a fence's opening line belong to its block: all up to the closing line. */
  function FenceLen(lines: seq<Text>, marker: Text): (n: nat)
    ensures n <= |lines|
  {
    if lines == [] then 0
    else if ClosingFence(TrimSpace(lines[0]), marker) then 1
    else FenceLen(lines[1..], marker) + 1
  }

  function BlocksOf(lines: seq<Text>, cur: Text): seq<Text>
    decreases |lines|
  {
    if lines == [] then Flush(cur)
    else
      var line, rest := lines[0], lines[1..];
      var marker := FenceMarker(TrimSpace(line));
      if line == [] then BlocksOf(rest, cur)
      else if marker != [] then
        var n := FenceLen(rest, marker);
        Flush(cur) + [line + Flat(rest[..n])] + BlocksOf(rest[n..], [])
      else if TrimSpace(line) == [] then [cur + line] + BlocksOf(rest, [])
      else BlocksOf(rest, cur + line)
  }

  function Blocks(text: Text): seq<Text> {
    BlocksOf(Lines(text), [])
  }

  // ------------------------------------------------------------------ oversized fences

  /** A fence block: its opening line, its body lines, and the line every part is closed with. */
  datatype Fence = Fence(open: Text, body: seq<Text>, close: Text)

  /** The closing line is the last line that is not empty, if that is a closing fence; otherwise the marker. */
  function FindClose(open: Text, rest: seq<Text>, marker: Text): Fence {
    if rest == [] then Fence(open, rest, marker)
    else
      var last := rest[|rest| - 1];
      if last == [] then
        var f := FindClose(open, rest[..|rest| - 1], marker);
        if f.body == rest[..|rest| - 1] then f.(body := rest) else f
      else if ClosingFence(TrimSpace(last), marker) then Fence(open, rest[..|rest| - 1], TrimLineEnd(last))
      else Fence(open, rest, marker)
  }

  function ParseFence(blk: Text, marker: Text): Fence {
    var lines := Lines(blk);
    FindClose(lines[0], lines[1..], marker)
  }

  function Overhead(f: Fence): nat {
    |f.open| + |f.close| + 1
  }

  /** What a part has for the body; half the limit when the fence lines leave no room. */
  function FenceBudget(f: Fence, limit: nat): nat {
    if limit > Overhead(f) then limit - Overhead(f) else limit / 2
  }

  predicate EndsInNewline(s: Text) {
    s != [] && s[|s| - 1] == NL
  }

  /** One part of a split fence. */
  function FencePart(f: Fence, chunk: Text): Text {
    f.open + chunk + (if EndsInNewline(chunk) then [] else [NL]) + f.close
  }

  function FenceParts(f: Fence, chunks: seq<Text>): (r: seq<Text>)
    ensures |r| == |chunks| && forall i :: 0 <= i < |r| ==> r[i] == FencePart(f, chunks[i])
  {
    seq(|chunks|, i requires 0 <= i < |chunks| => FencePart(f, chunks[i]))
  }

  /** The budget of a body that has something to pack must be positive for the loops to end. */
  predicate FenceEnds(f: Fence, limit: nat) {
    FenceBudget(f, limit) >= 1 || Flat(f.body) == []
  }

  function FenceChunks(f: Fence, limit: nat): seq<Text>
    requires FenceEnds(f, limit)
  {
    if FenceBudget(f, limit) == 0 then [] else Pack(f.body, [], FenceBudget(f, limit))
  }

  function SplitFence(f: Fence, limit: nat): seq<Text>
    requires FenceEnds(f, limit)
  {
    var chunks := FenceChunks(f, limit);
    if chunks == [] then [f.open + f.close] else FenceParts(f, chunks)
  }

  // ------------------------------------------------------------------ oversized tables

  function TableHeader(blk: Text): Text
    requires IsTable(blk)
  {
    NonEmpty(Lines(blk))[0] + NonEmpty(Lines(blk))[1]
  }

  function TableRows(blk: Text): seq<Text>
    requires IsTable(blk)
  {
    NonEmpty(Lines(blk))[2..]
  }

  function Prefixed(header: Text, chunks: seq<Text>): (r: seq<Text>)
    ensures |r| == |chunks| && forall i :: 0 <= i < |r| ==> r[i] == header + chunks[i]
  {
    seq(|chunks|, i requires 0 <= i < |chunks| => header + chunks[i])
  }

  /** The header goes in front of every chunk of rows; without room for rows the lines are packed as they are. */
  function SplitRows(lines: seq<Text>, header: Text, rows: seq<Text>, limit: nat): seq<Text>
    requires limit >= 1
  {
    if limit <= |header| then Pack(lines, [], limit)
    else
      var chunks := Pack(rows, [], limit - |header|);
      if chunks == [] then [header] else Prefixed(header, chunks)
  }

  function SplitTable(blk: Text, limit: nat): seq<Text>
    requires limit >= 1 && IsTable(blk)
  {
    SplitRows(Lines(blk), TableHeader(blk), TableRows(blk), limit)
  }

  // ------------------------------------------------------------------ split

  function MarkerOf(blk: Text): Text {
    FenceMarker(TrimSpace(FirstLine(blk)))
  }

  predicate IsFence(blk: Text) {
    MarkerOf(blk) != []
  }

  predicate BlockEnds(blk: Text, limit: nat) {
    |blk| > limit && IsFence(blk) ==> FenceEnds(ParseFence(blk, MarkerOf(blk)), limit)
  }

  /** `splitBlock` on an oversized block. */
  function SplitBlock(blk: Text, limit: nat): seq<Text>
    requires limit >= 1 && (IsFence(blk) ==> FenceEnds(ParseFence(blk, MarkerOf(blk)), limit))
  {
    if IsFence(blk) then SplitFence(ParseFence(blk, MarkerOf(blk)), limit)
    else if IsTable(blk) then SplitTable(blk, limit)
    else Pack(Lines(blk), [], limit)
  }

  predicate BlocksEnd(blks: seq<Text>, limit: nat) {
    forall b :: b in blks ==> BlockEnds(b, limit)
  }

  function PackBlocks(blks: seq<Text>, cur: Text, limit: nat): seq<Text>
    requires limit >= 1 && BlocksEnd(blks, limit)
    decreases |blks|
  {
    if blks == [] then Flush(cur)
    else
      var blk, rest := blks[0], blks[1..];
      assert blk in blks;
      if |blk| > limit then Flush(cur) + SplitBlock(blk, limit) + PackBlocks(rest, [], limit)
      else if |cur| + |blk| > limit then Flush(cur) + PackBlocks(rest, blk, limit)
      else PackBlocks(rest, cur + blk, limit)
  }

  /** The calls of `Split` that end. */
  predicate Ends(text: Text, limit: int) {
    0 < limit < |text| ==> BlocksEnd(Blocks(text), limit)
  }

  function Split(text: Text, limit: int): seq<Text>
    requires Ends(text, limit)
  {
    if limit <= 0 || |text| <= limit then [text]
    else
      var parts := PackBlocks(Blocks(text), [], limit);
      if parts == [] then [[]] else parts
  }
}
