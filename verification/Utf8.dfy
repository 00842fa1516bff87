/** UTF-8 text as bytes, by the syntax of section 4 of RFC 3629, and the search for a character boundary that both
    text splitters use. */
module Utf8 {

  type Byte = b: int | 0 <= b < 256

  type Text = seq<Byte>

  predicate Tail(b: Byte) {
    0x80 <= b <= 0xBF
  }

  /** What utf8.RuneStart tests. */
  predicate RuneStart(b: Byte) {
    !Tail(b)
  }

  /** The length of the character that `s` starts with, and 0 if it starts with none. */
  function CharLen(s: Text): (n: nat)
    ensures n <= 4 && n <= |s|
    ensures n > 0 ==> RuneStart(s[0]) && forall i :: 1 <= i < n ==> Tail(s[i])
  {
    if s == [] then 0
    else if s[0] <= 0x7F then 1
    else if |s| >= 2 && 0xC2 <= s[0] <= 0xDF && Tail(s[1]) then 2
    else if |s| >= 3 && Tail(s[1]) && Tail(s[2])
            && ((s[0] == 0xE0 && 0xA0 <= s[1]) || 0xE1 <= s[0] <= 0xEC
                || (s[0] == 0xED && s[1] <= 0x9F) || 0xEE <= s[0] <= 0xEF) then 3
    else if |s| >= 4 && Tail(s[1]) && Tail(s[2]) && Tail(s[3])
            && ((s[0] == 0xF0 && 0x90 <= s[1]) || 0xF1 <= s[0] <= 0xF3 || (s[0] == 0xF4 && s[1] <= 0x8F)) then 4
    else 0
  }

  predicate Valid(s: Text)
    decreases |s|
  {
    s == [] || (CharLen(s) > 0 && Valid(s[CharLen(s)..]))
  }

  lemma CharLenPrefix(s: Text, t: Text)
    requires CharLen(s) > 0 && |t| >= CharLen(s) && t[..CharLen(s)] == s[..CharLen(s)]
    ensures CharLen(t) == CharLen(s)
  {
    assert forall i :: 0 <= i < CharLen(s) ==> t[i] == t[..CharLen(s)][i] == s[..CharLen(s)][i] == s[i];
  }

  /** Text that starts with the first character of `s` and goes on validly is valid. */
  lemma CharThenValid(s: Text, t: Text, rest: Text)
    requires CharLen(s) > 0 && Valid(rest) && t == s[..CharLen(s)] + rest
    ensures Valid(t)
  {
    var n := CharLen(s);
    assert t[..n] == s[..n] && t[n..] == rest;
    CharLenPrefix(s, t);
  }

  lemma SplitJoin(a: Text, b: Text, n: nat)
    requires n <= |a|
    ensures a + b == a[..n] + (a[n..] + b)
  {
  }

  lemma PrefixJoin(s: Text, n: nat, i: nat)
    requires n <= i <= |s|
    ensures s[..i] == s[..n] + s[n..][..i - n] && s[n..][i - n..] == s[i..]
  {
  }

  lemma {:induction false} ValidConcat(a: Text, b: Text)
    requires Valid(a) && Valid(b)
    ensures Valid(a + b)
    decreases |a|
  {
    if a == [] {
      assert a + b == b;
    } else {
      var n, t := CharLen(a), a + b;
      ValidConcat(a[n..], b);
      SplitJoin(a, b, n);
      CharThenValid(a, t, a[n..] + b);
    }
  }

  /** Cutting valid text in front of a character start, or at its end, gives valid pieces. */
  lemma {:induction false} ValidCut(s: Text, i: nat)
    requires Valid(s) && i <= |s| && (i < |s| ==> RuneStart(s[i]))
    ensures Valid(s[..i]) && Valid(s[i..])
    decreases |s|
  {
    if i == 0 {
      assert s[0..] == s;
    } else {
      var n := CharLen(s);
      assert n <= i;
      ValidCut(s[n..], i - n);
      PrefixJoin(s, n, i);
      CharThenValid(s, s[..i], s[n..][..i - n]);
    }
  }

  /** The last character start at or before `i`, or 0. */
  function LastStart(s: Text, i: nat): (j: nat)
    requires i < |s|
    ensures j <= i && (j > 0 ==> RuneStart(s[j])) && forall k :: j < k <= i ==> Tail(s[k])
  {
    if i == 0 || RuneStart(s[i]) then i else LastStart(s, i - 1)
  }

  /** In valid text a character start is never more than three bytes back. */
  lemma {:induction false} LastStartIsNear(s: Text, i: nat)
    requires Valid(s) && i < |s|
    ensures i <= LastStart(s, i) + 3 && RuneStart(s[LastStart(s, i)])
    decreases |s|
  {
    var n := CharLen(s);
    if i < n {
      assert LastStart(s, i) == 0;
    } else {
      LastStartIsNear(s[n..], i - n);
      var j := LastStart(s[n..], i - n);
      assert RuneStart(s[n + j]);
      assert forall k :: n + j < k <= i ==> s[k] == s[n..][k - n] && Tail(s[k]);
    }
  }

  /** Behind an ASCII byte of valid text starts a character, or the text ends. */
  lemma {:induction false} StartAfterAscii(s: Text, i: nat)
    requires Valid(s) && i < |s| && s[i] < 0x80
    ensures i + 1 < |s| ==> RuneStart(s[i + 1])
    decreases |s|
  {
    var n := CharLen(s);
    if i >= n {
      StartAfterAscii(s[n..], i - n);
    } else if n < |s| {
      assert i == 0 && n == 1;
      assert CharLen(s[n..]) > 0;
    }
  }

  lemma CharAhead(a: Text, b: Text)
    requires CharLen(a) > 0
    ensures CharLen(a + b) == CharLen(a) && (a + b)[CharLen(a)..] == a[CharLen(a)..] + b
  {
    var t := a + b;
    assert t[..CharLen(a)] == a[..CharLen(a)];
    CharLenPrefix(a, t);
  }

  /** What follows a valid text in a valid text is valid. */
  lemma {:induction false} ValidDrop(a: Text, b: Text)
    requires Valid(a) && Valid(a + b)
    ensures Valid(b)
    decreases |a|
  {
    if a == [] {
      assert a + b == b;
    } else {
      CharAhead(a, b);
      ValidDrop(a[CharLen(a)..], b);
    }
  }

  /** What precedes a valid, non-empty text in a valid text is valid. */
  lemma ValidTake(a: Text, b: Text)
    requires Valid(a + b) && Valid(b) && b != []
    ensures Valid(a)
  {
    assert (a + b)[|a|] == b[0] && RuneStart(b[0]);
    ValidCut(a + b, |a|);
    assert (a + b)[..|a|] == a;
  }

  lemma {:induction false} AsciiValid(s: Text)
    requires forall i :: 0 <= i < |s| ==> s[i] < 0x80
    ensures Valid(s)
  {
    if s != [] {
      assert CharLen(s) == 1;
      AsciiValid(s[1..]);
    }
  }

  /** Valid text in which every character has at most `limit` bytes. */
  predicate CharsFit(s: Text, limit: nat)
    decreases |s|
  {
    s == [] || (0 < CharLen(s) <= limit && CharsFit(s[CharLen(s)..], limit))
  }

  lemma {:induction false} ShortFits(s: Text, limit: nat)
    requires Valid(s) && |s| <= limit
    ensures CharsFit(s, limit)
    decreases |s|
  {
    if s != [] {
      ShortFits(s[CharLen(s)..], limit);
    }
  }

  lemma {:induction false} FitsConcat(a: Text, b: Text, limit: nat)
    requires Valid(a)
    ensures CharsFit(a + b, limit) <==> CharsFit(a, limit) && CharsFit(b, limit)
    decreases |a|
  {
    if a == [] {
      assert a + b == b;
    } else {
      CharAhead(a, b);
      FitsConcat(a[CharLen(a)..], b, limit);
    }
  }

  // ------------------------------------------------------------------ concatenation

  function Flat(parts: seq<Text>): Text {
    if parts == [] then [] else parts[0] + Flat(parts[1..])
  }

  lemma FlatCons(part: Text, parts: seq<Text>)
    ensures Flat([part] + parts) == part + Flat(parts)
  {
    assert ([part] + parts)[1..] == parts;
  }

  lemma {:induction false} FlatConcat(a: seq<Text>, b: seq<Text>)
    ensures Flat(a + b) == Flat(a) + Flat(b)
  {
    if a == [] {
      assert a + b == b;
    } else {
      FlatConcat(a[1..], b);
      assert (a + b)[1..] == a[1..] + b;
      assert a[0] + (Flat(a[1..]) + Flat(b)) == (a[0] + Flat(a[1..])) + Flat(b);
    }
  }

  lemma FlatOne(part: Text)
    ensures Flat([part]) == part
  {
    assert [part][1..] == [] && part + [] == part;
  }

  lemma FlatSnoc(parts: seq<Text>, last: Text)
    ensures Flat(parts + [last]) == Flat(parts) + last
  {
    FlatConcat(parts, [last]);
    FlatOne(last);
  }
}
