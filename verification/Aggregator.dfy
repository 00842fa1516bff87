/** The runner's Aggregator (harness/internal/runner/acp.go): agent text comes in small chunks and goes out in
    parts of bounded size, cut between characters. */
module Aggregators {
  import opened Utf8
  import Bindings

  const PART_MAX: nat := 256 * 1024

  // ------------------------------------------------------------------ cutting

  /** Where `cutPart` cuts. */
  function CutAt(s: Text): (i: nat)
    ensures i <= |s|
  {
    if |s| <= PART_MAX then |s| else LastStart(s, PART_MAX)
  }

  method CutPart(s: Text) returns (part: Text, rest: Text)
    ensures part == s[..CutAt(s)] && rest == s[CutAt(s)..] && part + rest == s && |part| <= PART_MAX
  {
    if |s| <= PART_MAX {
      return s, [];
    }
    var i := PART_MAX;
    while i > 0 && !RuneStart(s[i])
      invariant 0 <= i <= PART_MAX < |s|
      invariant LastStart(s, i) == LastStart(s, PART_MAX)
    {
      i := i - 1;
    }
    return s[..i], s[i..];
  }

  /** Valid text is cut into two valid pieces, and the first one is never empty. */
  lemma CutIsValid(s: Text)
    requires Valid(s) && s != []
    ensures 0 < CutAt(s) <= PART_MAX && Valid(s[..CutAt(s)]) && Valid(s[CutAt(s)..])
  {
    if |s| > PART_MAX {
      LastStartIsNear(s, PART_MAX);
    }
    ValidCut(s, CutAt(s));
  }

  /** On any bytes, a cut makes no progress, and so a split loop never ends, exactly when a full part of
      continuation bytes follows the first byte. */
  lemma CutStallsIff(s: Text)
    requires s != []
    ensures CutAt(s) == 0 <==> |s| > PART_MAX && forall k :: 1 <= k <= PART_MAX ==> Tail(s[k])
  {
    if |s| > PART_MAX && CutAt(s) > 0 {
      assert RuneStart(s[CutAt(s)]);
    }
  }

  /** The parts a flush makes of a buffer. */
  function Chunks(s: Text): seq<Text>
    requires Valid(s)
    decreases |s|
  {
    if s == [] then []
    else
      CutIsValid(s);
      [s[..CutAt(s)]] + Chunks(s[CutAt(s)..])
  }

  /** The parts a full buffer gives off, and what it keeps. */
  function FullChunks(s: Text): seq<Text>
    requires Valid(s)
    decreases |s|
  {
    if |s| <= PART_MAX then []
    else
      CutIsValid(s);
      [s[..CutAt(s)]] + FullChunks(s[CutAt(s)..])
  }

  function FullRest(s: Text): Text
    requires Valid(s)
    decreases |s|
  {
    if |s| <= PART_MAX then s
    else
      CutIsValid(s);
      FullRest(s[CutAt(s)..])
  }

  predicate Good(part: Text) {
    0 < |part| <= PART_MAX && Valid(part)
  }

  predicate AllGood(parts: seq<Text>) {
    forall p :: p in parts ==> Good(p)
  }

  lemma GoodCons(part: Text, parts: seq<Text>)
    requires Good(part) && AllGood(parts)
    ensures AllGood([part] + parts)
  {
  }

  lemma Rejoin(s: Text, i: nat, tail: Text, rest: Text)
    requires i <= |s| && tail + rest == s[i..]
    ensures (s[..i] + tail) + rest == s
  {
  }

  /** One cut of a flush. */
  lemma ChunksStep(s: Text)
    requires Valid(s) && s != []
    ensures Valid(s[CutAt(s)..]) && CutAt(s) > 0 && Good(s[..CutAt(s)])
    ensures Chunks(s) == [s[..CutAt(s)]] + Chunks(s[CutAt(s)..])
  {
    CutIsValid(s);
  }

  lemma {:induction false} ChunksFlat(s: Text)
    requires Valid(s)
    ensures Flat(Chunks(s)) == s
    decreases |s|
  {
    if s != [] {
      ChunksStep(s);
      var c, r := s[..CutAt(s)], s[CutAt(s)..];
      ChunksFlat(r);
      FlatCons(c, Chunks(r));
    }
  }

  lemma {:induction false} ChunksGood(s: Text)
    requires Valid(s)
    ensures AllGood(Chunks(s))
    decreases |s|
  {
    if s != [] {
      ChunksStep(s);
      var c, r := s[..CutAt(s)], s[CutAt(s)..];
      ChunksGood(r);
      GoodCons(c, Chunks(r));
    }
  }

  /** A flush gives off the whole buffer, in good parts. */
  lemma ChunksLaw(s: Text)
    requires Valid(s)
    ensures Flat(Chunks(s)) == s && AllGood(Chunks(s)) && (s != [] ==> Chunks(s) != [])
  {
    ChunksFlat(s);
    ChunksGood(s);
  }

  lemma {:induction false} FullFlat(s: Text)
    requires Valid(s)
    ensures Flat(FullChunks(s)) + FullRest(s) == s
    decreases |s|
  {
    if |s| > PART_MAX {
      CutIsValid(s);
      var c, r := s[..CutAt(s)], s[CutAt(s)..];
      FullFlat(r);
      FlatCons(c, FullChunks(r));
      Rejoin(s, CutAt(s), Flat(FullChunks(r)), FullRest(r));
    }
  }

  lemma {:induction false} FullGood(s: Text)
    requires Valid(s)
    ensures AllGood(FullChunks(s)) && |FullRest(s)| <= PART_MAX && Valid(FullRest(s))
    decreases |s|
  {
    if |s| > PART_MAX {
      CutIsValid(s);
      var c, r := s[..CutAt(s)], s[CutAt(s)..];
      FullGood(r);
      GoodCons(c, FullChunks(r));
    }
  }

  /** A full buffer gives off good parts and keeps at most one part's worth. */
  lemma FullLaw(s: Text)
    requires Valid(s)
    ensures Flat(FullChunks(s)) + FullRest(s) == s && AllGood(FullChunks(s))
    ensures |FullRest(s)| <= PART_MAX && Valid(FullRest(s))
  {
    FullFlat(s);
    FullGood(s);
  }

  // ------------------------------------------------------------------ the aggregator as a value

  datatype Payload =
    | Thought(text: Text)
    | Message(id: string, text: Text, final: bool)
    | ToolCall(call: Call)
    | Usage(usage: nat)

  /** `detail` stands for the kind, status and input of the call. */
  datatype Call = Call(id: string, title: string, detail: string, update: bool)

  datatype Emitted = Emitted(turn: string, payload: Payload)

  datatype Agg = Agg(turn: string, part: nat, buf: Text, thought: Text, titles: map<string, string>, out: seq<Emitted>)

  datatype Update =
    | MessageChunk(text: Text)
    | ThoughtChunk(text: Text)
    | Tool(call: Call)
    | UsageUpdate(usage: nat)
    | Ignored

  function PartId(turn: string, n: nat): string {
    (if turn == "" then "t0" else turn) + "." + Bindings.Digits(n)
  }

  lemma PartIdsDiffer(turn: string, m: nat, n: nat)
    ensures PartId(turn, m) == PartId(turn, n) <==> m == n
  {
    if PartId(turn, m) == PartId(turn, n) {
      var k := |if turn == "" then "t0" else turn| + 1;
      assert PartId(turn, m)[k..] == Bindings.Digits(m) && PartId(turn, n)[k..] == Bindings.Digits(n);
      Bindings.DigitsInjective(m, n);
    }
  }

  function Put(a: Agg, p: Payload): Agg {
    a.(out := a.out + [Emitted(a.turn, p)])
  }

  function PutMessage(a: Agg, text: Text, final: bool): Agg {
    Put(a.(part := a.part + 1), Message(PartId(a.turn, a.part + 1), text, final))
  }

  function PutMessages(a: Agg, parts: seq<Text>, final: bool): Agg
    decreases |parts|
  {
    if parts == [] then a else PutMessages(PutMessage(a, parts[0], final && |parts| == 1), parts[1..], final)
  }

  function PutThoughts(a: Agg, parts: seq<Text>): Agg
    decreases |parts|
  {
    if parts == [] then a else PutThoughts(Put(a, Thought(parts[0])), parts[1..])
  }

  lemma SetsBuffer(a: Agg, buf: Text, part: Text)
    ensures PutMessage(a, part, false).(buf := buf) == PutMessage(a.(buf := buf), part, false)
  {
  }

  /** One round of splitting a full buffer. */
  lemma FullStep(a: Agg, s: Text)
    requires Valid(s) && |s| > PART_MAX
    ensures var c, r := s[..CutAt(s)], s[CutAt(s)..];
      && 0 < |c| && Valid(r) && FullRest(s) == FullRest(r)
      && PutMessages(a, FullChunks(s), false) == PutMessages(PutMessage(a, c, false), FullChunks(r), false)
      && PutThoughts(a, FullChunks(s)) == PutThoughts(Put(a, Thought(c)), FullChunks(r))
  {
    CutIsValid(s);
    assert FullChunks(s)[1..] == FullChunks(s[CutAt(s)..]);
  }

  predicate TextsValid(a: Agg) {
    Valid(a.buf) && Valid(a.thought)
  }

  predicate UpdateValid(u: Update) {
    match u
    case MessageChunk(text) => Valid(text)
    case ThoughtChunk(text) => Valid(text)
    case _ => true
  }

  function FlushThought(a: Agg): Agg
    requires Valid(a.thought)
  {
    PutThoughts(a.(thought := []), Chunks(a.thought))
  }

  function FlushMessage(a: Agg, final: bool): Agg
    requires Valid(a.buf)
  {
    PutMessages(a.(buf := []), Chunks(a.buf), final)
  }

  function AddMessage(a: Agg, text: Text): Agg
    requires Valid(a.buf) && Valid(text)
  {
    ValidConcat(a.buf, text);
    PutMessages(a.(buf := FullRest(a.buf + text)), FullChunks(a.buf + text), false)
  }

  function AddThought(a: Agg, text: Text): Agg
    requires Valid(a.thought) && Valid(text)
  {
    ValidConcat(a.thought, text);
    PutThoughts(a.(thought := FullRest(a.thought + text)), FullChunks(a.thought + text))
  }

  function Titled(a: Agg, c: Call): Call {
    if c.title == "" && c.id in a.titles then c.(title := a.titles[c.id]) else c
  }

  function Remember(a: Agg, c: Call): Agg {
    var t := Titled(a, c).title;
    if t == "" then a else a.(titles := a.titles[c.id := t])
  }

  lemma PutsKeepTexts(a: Agg, parts: seq<Text>, final: bool)
    ensures PutThoughts(a, parts) == a.(out := PutThoughts(a, parts).out)
    ensures PutMessages(a, parts, final) ==
              a.(out := PutMessages(a, parts, final).out, part := PutMessages(a, parts, final).part)
    decreases |parts|
  {
    if parts != [] {
      PutsKeepTexts(Put(a, Thought(parts[0])), parts[1..], final);
      PutsKeepTexts(PutMessage(a, parts[0], final && |parts| == 1), parts[1..], final);
    }
  }

  function Updated(a: Agg, u: Update): Agg
    requires TextsValid(a) && UpdateValid(u)
  {
    match u
    case MessageChunk(text) =>
      if text == [] then a
      else
        PutsKeepTexts(a.(thought := []), Chunks(a.thought), false);
        AddMessage(FlushThought(a), text)
    case ThoughtChunk(text) => AddThought(a, text)
    case Tool(c) =>
      PutsKeepTexts(a.(thought := []), Chunks(a.thought), false);
      var b := FlushThought(a);
      Put(FlushMessage(Remember(b, c), false), ToolCall(Titled(b, c)))
    case UsageUpdate(n) => Put(a, Usage(n))
    case Ignored => a
  }

  function Begun(a: Agg, turn: string): Agg {
    a.(turn := turn, part := 0, buf := [], thought := [])
  }

  function Ended(a: Agg): Agg
    requires TextsValid(a)
  {
    PutsKeepTexts(a.(thought := []), Chunks(a.thought), false);
    FlushMessage(FlushThought(a), true).(turn := "")
  }

  // ------------------------------------------------------------------ the aggregator in place

  class Aggregator {
    var turn: string
    var part: nat
    var buf: Text
    var thought: Text
    var titles: map<string, string>
    var out: seq<Emitted>

    ghost function View(): Agg
      reads this
    {
      Agg(turn, part, buf, thought, titles, out)
    }

    constructor ()
      ensures View() == Agg("", 0, [], [], map[], [])
    {
      turn, part, buf, thought, titles, out := "", 0, [], [], map[], [];
    }

    method Begin(turnID: string)
      modifies this
      ensures View() == Begun(old(View()), turnID)
    {
      turn, part := turnID, 0;
      buf, thought := [], [];
    }

    method EmitPart(text: Text, final: bool)
      modifies `part, `out
      ensures View() == PutMessage(old(View()), text, final)
    {
      part := part + 1;
      out := out + [Emitted(turn, Message(PartId(turn, part), text, final))];
    }

    method FlushThoughts()
      requires Valid(thought)
      modifies `thought, `out
      ensures View() == FlushThought(old(View()))
    {
      var text := thought;
      thought := [];
      while text != []
        invariant Valid(text)
        invariant PutThoughts(View(), Chunks(text)) == FlushThought(old(View()))
        decreases |text|
      {
        CutIsValid(text);
        var p, rest := CutPart(text);
        out := out + [Emitted(turn, Thought(p))];
        assert Chunks(text)[1..] == Chunks(rest);
        text := rest;
      }
    }

    method FlushMessages(final: bool)
      requires Valid(buf)
      modifies `buf, `part, `out
      ensures View() == FlushMessage(old(View()), final)
    {
      var text := buf;
      buf := [];
      while text != []
        invariant Valid(text)
        invariant PutMessages(View(), Chunks(text), final) == FlushMessage(old(View()), final)
        decreases |text|
      {
        CutIsValid(text);
        var p, rest := CutPart(text);
        ChunksLaw(rest);
        EmitPart(p, final && rest == []);
        assert Chunks(text)[1..] == Chunks(rest);
        text := rest;
      }
    }

    /** `splitFullLocked` on the message buffer. */
    method SplitMessages()
      requires Valid(buf)
      modifies `buf, `part, `out
      ensures View() == PutMessages(old(View()).(buf := FullRest(old(buf))), FullChunks(old(buf)), false)
    {
      if |buf| <= PART_MAX {
        return;
      }
      var text := buf;
      ghost var rest0 := FullRest(buf);
      ghost var goal := PutMessages(View().(buf := rest0), FullChunks(buf), false);
      buf := [];
      while |text| > PART_MAX
        invariant Valid(text) && FullRest(text) == rest0 && buf == []
        invariant PutMessages(View().(buf := rest0), FullChunks(text), false) == goal
        decreases |text|
      {
        ghost var w := View();
        FullStep(w.(buf := rest0), text);
        var p, rest := CutPart(text);
        EmitPart(p, false);
        SetsBuffer(w, rest0, p);
        text := rest;
      }
      buf := text;
    }

    /** `splitFullLocked` on the thought buffer. */
    method SplitThoughts()
      requires Valid(thought)
      modifies `thought, `out
      ensures View() == PutThoughts(old(View()).(thought := FullRest(old(thought))), FullChunks(old(thought)))
    {
      if |thought| <= PART_MAX {
        return;
      }
      var text := thought;
      ghost var rest0 := FullRest(thought);
      ghost var goal := PutThoughts(View().(thought := rest0), FullChunks(thought));
      thought := [];
      while |text| > PART_MAX
        invariant Valid(text) && FullRest(text) == rest0 && thought == []
        invariant PutThoughts(View().(thought := rest0), FullChunks(text)) == goal
        decreases |text|
      {
        ghost var v := View().(thought := rest0);
        FullStep(v, text);
        var p, rest := CutPart(text);
        out := out + [Emitted(turn, Thought(p))];
        assert View().(thought := rest0) == Put(v, Thought(p));
        text := rest;
      }
      thought := text;
    }

    method Handle(u: Update)
      requires TextsValid(View()) && UpdateValid(u)
      modifies this
      ensures View() == Updated(old(View()), u)
    {
      match u
      case MessageChunk(text) =>
        if text != [] {
          PutsKeepTexts(View().(thought := []), Chunks(thought), false);
          FlushThoughts();
          ValidConcat(buf, text);
          buf := buf + text;
          SplitMessages();
        }
      case ThoughtChunk(text) =>
        ValidConcat(thought, text);
        thought := thought + text;
        SplitThoughts();
      case Tool(c) =>
        PutsKeepTexts(View().(thought := []), Chunks(thought), false);
        FlushThoughts();
        var call := c;
        if call.title == "" && call.id in titles {
          call := call.(title := titles[call.id]);
        }
        if call.title != "" {
          titles := titles[call.id := call.title];
        }
        FlushMessages(false);
        out := out + [Emitted(turn, ToolCall(call))];
      case UsageUpdate(n) =>
        out := out + [Emitted(turn, Usage(n))];
      case Ignored =>
    }

    method End()
      requires TextsValid(View())
      modifies this
      ensures View() == Ended(old(View()))
    {
      PutsKeepTexts(View().(thought := []), Chunks(thought), false);
      FlushThoughts();
      FlushMessages(true);
      turn := "";
    }
  }

  // ------------------------------------------------------------------ conservation over a turn

  function MessageText(es: seq<Emitted>): Text {
    if es == [] then []
    else MessageText(es[..|es| - 1]) + if es[|es| - 1].payload.Message? then es[|es| - 1].payload.text else []
  }

  function ThoughtText(es: seq<Emitted>): Text {
    if es == [] then []
    else ThoughtText(es[..|es| - 1]) + if es[|es| - 1].payload.Thought? then es[|es| - 1].payload.text else []
  }

  function MessageIds(es: seq<Emitted>): seq<string> {
    if es == [] then []
    else MessageIds(es[..|es| - 1]) + if es[|es| - 1].payload.Message? then [es[|es| - 1].payload.id] else []
  }

  function PartIds(turn: string, n: nat): seq<string> {
    if n == 0 then [] else PartIds(turn, n - 1) + [PartId(turn, n)]
  }

  /** Parts are not empty, bounded, valid, and not final. */
  predicate PartsGood(es: seq<Emitted>) {
    forall e :: e in es ==>
      && (e.payload.Message? ==> Good(e.payload.text) && !e.payload.final)
      && (e.payload.Thought? ==> Good(e.payload.text))
  }

  /** What has gone out of a turn: this much of its message and thought text, in numbered parts. */
  ghost predicate Told(a: Agg, mark: nat, message: Text, thought: Text) {
    && mark <= |a.out|
    && MessageText(a.out[mark..]) == message && ThoughtText(a.out[mark..]) == thought
    && MessageIds(a.out[mark..]) == PartIds(a.turn, a.part)
    && PartsGood(a.out[mark..])
  }

  /** How one more event changes what a list of events says. */
  lemma Appended(out: seq<Emitted>, mark: nat, e: Emitted)
    requires mark <= |out|
    ensures var es, p := out[mark..], e.payload;
      && (out + [e])[mark..] == es + [e]
      && MessageText(es + [e]) == MessageText(es) + (if p.Message? then p.text else [])
      && ThoughtText(es + [e]) == ThoughtText(es) + (if p.Thought? then p.text else [])
      && MessageIds(es + [e]) == MessageIds(es) + (if p.Message? then [p.id] else [])
  {
    assert (out[mark..] + [e])[..|out[mark..]|] == out[mark..];
  }

  lemma AppendedGood(es: seq<Emitted>, e: Emitted)
    requires PartsGood(es) && PartsGood([e])
    ensures PartsGood(es + [e])
  {
    assert e in [e];
  }

  lemma TellsOther(a: Agg, mark: nat, message: Text, thought: Text, p: Payload)
    requires Told(a, mark, message, thought) && (p.ToolCall? || p.Usage?)
    ensures Told(Put(a, p), mark, message, thought)
  {
    var e := Emitted(a.turn, p);
    Appended(a.out, mark, e);
    AppendedGood(a.out[mark..], e);
    assert message + [] == message && thought + [] == thought;
  }

  lemma TellsThought(a: Agg, mark: nat, message: Text, thought: Text, text: Text)
    requires Told(a, mark, message, thought) && Good(text)
    ensures Told(Put(a, Thought(text)), mark, message, thought + text)
  {
    var e := Emitted(a.turn, Thought(text));
    Appended(a.out, mark, e);
    AppendedGood(a.out[mark..], e);
    assert message + [] == message;
  }

  lemma TellsMessage(a: Agg, mark: nat, message: Text, thought: Text, text: Text)
    requires Told(a, mark, message, thought) && Good(text)
    ensures Told(PutMessage(a, text, false), mark, message + text, thought)
  {
    var e := Emitted(a.turn, Message(PartId(a.turn, a.part + 1), text, false));
    Appended(a.out, mark, e);
    AppendedGood(a.out[mark..], e);
    assert thought + [] == thought;
  }

  lemma {:induction false} TellsThoughts(a: Agg, mark: nat, message: Text, thought: Text, parts: seq<Text>)
    requires Told(a, mark, message, thought) && AllGood(parts)
    ensures Told(PutThoughts(a, parts), mark, message, thought + Flat(parts))
    decreases |parts|
  {
    if parts == [] {
      assert thought + Flat(parts) == thought;
    } else {
      TellsThought(a, mark, message, thought, parts[0]);
      TellsThoughts(Put(a, Thought(parts[0])), mark, message, thought + parts[0], parts[1..]);
      assert thought + Flat(parts) == (thought + parts[0]) + Flat(parts[1..]);
    }
  }

  lemma {:induction false} TellsMessages(a: Agg, mark: nat, message: Text, thought: Text, parts: seq<Text>)
    requires Told(a, mark, message, thought) && AllGood(parts)
    ensures Told(PutMessages(a, parts, false), mark, message + Flat(parts), thought)
    decreases |parts|
  {
    if parts == [] {
      assert message + Flat(parts) == message;
    } else {
      TellsMessage(a, mark, message, thought, parts[0]);
      TellsMessages(PutMessage(a, parts[0], false), mark, message + parts[0], thought, parts[1..]);
      assert message + Flat(parts) == (message + parts[0]) + Flat(parts[1..]);
    }
  }

  /** Emitted parts followed by the buffers are the text received. */
  ghost predicate Conserved(a: Agg, mark: nat, message: Text, thought: Text) {
    && TextsValid(a) && |a.buf| <= PART_MAX && |a.thought| <= PART_MAX
    && exists m, t :: Told(a, mark, m, t) && m + a.buf == message && t + a.thought == thought
  }

  lemma ThoughtFlushConserves(a: Agg, mark: nat, message: Text, thought: Text)
    requires Conserved(a, mark, message, thought)
    ensures Conserved(FlushThought(a), mark, message, thought)
    ensures FlushThought(a).thought == [] && FlushThought(a).buf == a.buf && FlushThought(a).turn == a.turn
  {
    var m, t :| Told(a, mark, m, t) && m + a.buf == message && t + a.thought == thought;
    ChunksLaw(a.thought);
    var b := a.(thought := []);
    assert Told(b, mark, m, t);
    TellsThoughts(b, mark, m, t, Chunks(a.thought));
    PutsKeepTexts(b, Chunks(a.thought), false);
    assert thought + [] == thought;
    assert Told(FlushThought(a), mark, m, thought);
  }

  lemma MessageFlushConserves(a: Agg, mark: nat, message: Text, thought: Text)
    requires Conserved(a, mark, message, thought)
    ensures Conserved(FlushMessage(a, false), mark, message, thought)
    ensures FlushMessage(a, false).buf == [] && FlushMessage(a, false).thought == a.thought
  {
    var m, t :| Told(a, mark, m, t) && m + a.buf == message && t + a.thought == thought;
    ChunksLaw(a.buf);
    var b := a.(buf := []);
    assert Told(b, mark, m, t);
    TellsMessages(b, mark, m, t, Chunks(a.buf));
    PutsKeepTexts(b, Chunks(a.buf), false);
    assert message + [] == message;
    assert Told(FlushMessage(a, false), mark, message, t);
  }

  lemma Regroup(told: Text, buf: Text, text: Text, parts: Text, rest: Text)
    requires parts + rest == buf + text
    ensures (told + buf) + text == (told + parts) + rest
  {
    assert (told + buf) + text == told + (buf + text);
  }

  lemma AddMessageConserves(a: Agg, mark: nat, message: Text, thought: Text, text: Text)
    requires Conserved(a, mark, message, thought) && Valid(text)
    ensures Conserved(AddMessage(a, text), mark, message + text, thought)
  {
    var m, t :| Told(a, mark, m, t) && m + a.buf == message && t + a.thought == thought;
    ValidConcat(a.buf, text);
    var all := a.buf + text;
    FullLaw(all);
    var b := a.(buf := FullRest(all));
    assert Told(b, mark, m, t);
    TellsMessages(b, mark, m, t, FullChunks(all));
    PutsKeepTexts(b, FullChunks(all), false);
    Regroup(m, a.buf, text, Flat(FullChunks(all)), FullRest(all));
    assert Told(AddMessage(a, text), mark, m + Flat(FullChunks(all)), t);
  }

  lemma AddThoughtConserves(a: Agg, mark: nat, message: Text, thought: Text, text: Text)
    requires Conserved(a, mark, message, thought) && Valid(text)
    ensures Conserved(AddThought(a, text), mark, message, thought + text)
  {
    var m, t :| Told(a, mark, m, t) && m + a.buf == message && t + a.thought == thought;
    ValidConcat(a.thought, text);
    var all := a.thought + text;
    FullLaw(all);
    var b := a.(thought := FullRest(all));
    assert Told(b, mark, m, t);
    TellsThoughts(b, mark, m, t, FullChunks(all));
    PutsKeepTexts(b, FullChunks(all), false);
    Regroup(t, a.thought, text, Flat(FullChunks(all)), FullRest(all));
    assert Told(AddThought(a, text), mark, m, t + Flat(FullChunks(all)));
  }

  lemma PutConserves(a: Agg, mark: nat, message: Text, thought: Text, p: Payload)
    requires Conserved(a, mark, message, thought) && (p.ToolCall? || p.Usage?)
    ensures Conserved(Put(a, p), mark, message, thought)
  {
    var m, t :| Told(a, mark, m, t) && m + a.buf == message && t + a.thought == thought;
    TellsOther(a, mark, m, t, p);
  }

  lemma RememberConserves(a: Agg, mark: nat, message: Text, thought: Text, c: Call)
    requires Conserved(a, mark, message, thought)
    ensures Conserved(Remember(a, c), mark, message, thought)
  {
    var m, t :| Told(a, mark, m, t) && m + a.buf == message && t + a.thought == thought;
    assert Told(Remember(a, c), mark, m, t);
  }

  function MessageOf(u: Update): Text {
    if u.MessageChunk? then u.text else []
  }

  function ThoughtOf(u: Update): Text {
    if u.ThoughtChunk? then u.text else []
  }

  /** A tool call goes out behind all text that came before it. */
  lemma ToolConserves(a: Agg, mark: nat, message: Text, thought: Text, c: Call)
    requires Conserved(a, mark, message, thought)
    ensures Conserved(Updated(a, Tool(c)), mark, message, thought)
    ensures Updated(a, Tool(c)).buf == [] && Updated(a, Tool(c)).thought == []
    ensures var out := Updated(a, Tool(c)).out; out != [] && out[|out| - 1].payload.ToolCall?
  {
    ThoughtFlushConserves(a, mark, message, thought);
    var b := FlushThought(a);
    RememberConserves(b, mark, message, thought, c);
    MessageFlushConserves(Remember(b, c), mark, message, thought);
    PutConserves(FlushMessage(Remember(b, c), false), mark, message, thought, ToolCall(Titled(b, c)));
  }

  lemma UpdateConserves(a: Agg, mark: nat, message: Text, thought: Text, u: Update)
    requires Conserved(a, mark, message, thought) && UpdateValid(u)
    ensures Conserved(Updated(a, u), mark, message + MessageOf(u), thought + ThoughtOf(u))
  {
    assert message + [] == message && thought + [] == thought;
    match u
    case MessageChunk(text) =>
      if text != [] {
        ThoughtFlushConserves(a, mark, message, thought);
        AddMessageConserves(FlushThought(a), mark, message, thought, text);
      }
    case ThoughtChunk(text) => AddThoughtConserves(a, mark, message, thought, text);
    case Tool(c) => ToolConserves(a, mark, message, thought, c);
    case UsageUpdate(n) => PutConserves(a, mark, message, thought, Usage(n));
    case Ignored =>
  }

  /** All message and thought text of a list of updates. */
  function AllMessages(us: seq<Update>): Text {
    if us == [] then [] else AllMessages(us[..|us| - 1]) + MessageOf(us[|us| - 1])
  }

  function AllThoughts(us: seq<Update>): Text {
    if us == [] then [] else AllThoughts(us[..|us| - 1]) + ThoughtOf(us[|us| - 1])
  }

  /** The states of a turn: its begin, and one more after each update. */
  ghost predicate IsTurn(before: Agg, turn: string, us: seq<Update>, states: seq<Agg>) {
    && |states| == |us| + 1
    && states[0] == Begun(before, turn)
    && forall i :: 0 <= i < |us| ==>
         UpdateValid(us[i]) && TextsValid(states[i]) && states[i + 1] == Updated(states[i], us[i])
  }

  /** At every point of a turn the parts that went out, followed by the buffers, are exactly the text received
      since Begin; every part is non-empty, at most 256 KiB, valid and not final, and parts are numbered 1..k. */
  lemma {:induction false} TurnConserves(before: Agg, turn: string, us: seq<Update>, states: seq<Agg>, i: nat)
    requires IsTurn(before, turn, us, states) && i <= |us|
    ensures Conserved(states[i], |before.out|, AllMessages(us[..i]), AllThoughts(us[..i])) && states[i].turn == turn
  {
    if i == 0 {
      assert before.out[|before.out|..] == [];
      assert Told(states[0], |before.out|, [], []);
    } else {
      TurnConserves(before, turn, us, states, i - 1);
      UpdateConserves(states[i - 1], |before.out|, AllMessages(us[..i - 1]), AllThoughts(us[..i - 1]), us[i - 1]);
      assert us[..i][..i - 1] == us[..i - 1];
      UpdateKeepsTurn(states[i - 1], us[i - 1]);
    }
  }

  lemma UpdateKeepsTurn(a: Agg, u: Update)
    requires TextsValid(a) && UpdateValid(u)
    ensures Updated(a, u).turn == a.turn
  {
    match u
    case MessageChunk(text) =>
      if text != [] {
        PutsKeepTexts(a.(thought := []), Chunks(a.thought), false);
        var b := FlushThought(a);
        ValidConcat(b.buf, text);
        PutsKeepTexts(b.(buf := FullRest(b.buf + text)), FullChunks(b.buf + text), false);
      }
    case ThoughtChunk(text) =>
      ValidConcat(a.thought, text);
      PutsKeepTexts(a.(thought := FullRest(a.thought + text)), FullChunks(a.thought + text), false);
    case Tool(c) =>
      PutsKeepTexts(a.(thought := []), Chunks(a.thought), false);
      var b := Remember(FlushThought(a), c);
      PutsKeepTexts(b.(buf := []), Chunks(b.buf), false);
    case _ =>
  }

  /** Only the last part of a final flush is final. */
  lemma {:induction false} FinalIsLast(a: Agg, parts: seq<Text>, last: Text)
    ensures PutMessages(a, parts + [last], true) == PutMessage(PutMessages(a, parts, false), last, true)
    decreases |parts|
  {
    if parts == [] {
      assert parts + [last] == [last];
    } else {
      assert (parts + [last])[1..] == parts[1..] + [last];
      FinalIsLast(PutMessage(a, parts[0], false), parts[1..], last);
    }
  }

  /** The parts of a turn that is over: like those of a running one, but the last may be final. */
  ghost predicate TurnParts(es: seq<Emitted>, turn: string, parts: nat, message: Text, thought: Text) {
    && MessageText(es) == message && ThoughtText(es) == thought && MessageIds(es) == PartIds(turn, parts)
    && (forall k :: 0 <= k < |es| && es[k].payload.Message? ==>
          Good(es[k].payload.text) && (es[k].payload.final ==> k == |es| - 1))
    && (forall k :: 0 <= k < |es| && es[k].payload.Thought? ==> Good(es[k].payload.text))
  }

  /** The turn ends in a final message part. */
  predicate EndsFinal(es: seq<Emitted>) {
    es != [] && es[|es| - 1].payload.Message? && es[|es| - 1].payload.final
  }

  lemma ToldIsParts(a: Agg, mark: nat, message: Text, thought: Text)
    requires Told(a, mark, message, thought)
    ensures TurnParts(a.out[mark..], a.turn, a.part, message, thought) && !EndsFinal(a.out[mark..])
  {
    forall k | 0 <= k < |a.out[mark..]|
      ensures a.out[mark..][k] in a.out[mark..]
    {
    }
  }

  lemma FinalIsTold(a: Agg, mark: nat, message: Text, thought: Text, last: Text)
    requires Told(a, mark, message, thought) && Good(last)
    ensures var b := PutMessage(a, last, true);
      TurnParts(b.out[mark..], b.turn, b.part, message + last, thought) && EndsFinal(b.out[mark..])
  {
    ToldIsParts(a, mark, message, thought);
    var e := Emitted(a.turn, Message(PartId(a.turn, a.part + 1), last, true));
    Appended(a.out, mark, e);
    forall k | 0 <= k < |a.out[mark..]|
      ensures !a.out[mark..][k].payload.Message? || !a.out[mark..][k].payload.final
    {
      assert a.out[mark..][k] in a.out[mark..];
    }
    assert thought + [] == thought;
  }

  lemma EndConserves(a: Agg, mark: nat, message: Text, thought: Text)
    requires Conserved(a, mark, message, thought)
    ensures mark <= |Ended(a).out| && TurnParts(Ended(a).out[mark..], a.turn, Ended(a).part, message, thought)
    ensures Ended(a).buf == [] && Ended(a).thought == [] && Ended(a).turn == ""
    ensures EndsFinal(Ended(a).out[mark..]) <==> a.buf != []
  {
    ThoughtFlushConserves(a, mark, message, thought);
    var b := FlushThought(a);
    var m, t :| Told(b, mark, m, t) && m + b.buf == message && t + b.thought == thought;
    assert t == thought by { assert t + [] == t; }
    var c, parts := b.(buf := []), Chunks(b.buf);
    assert Told(c, mark, m, t);
    ChunksLaw(b.buf);
    PutsKeepTexts(c, parts, true);
    if parts == [] {
      assert m + [] == m;
      ToldIsParts(c, mark, m, t);
    } else {
      var init, last := parts[..|parts| - 1], parts[|parts| - 1];
      assert parts == init + [last];
      FlatSnoc(init, last);
      FinalIsLast(c, init, last);
      TellsMessages(c, mark, m, t, init);
      PutsKeepTexts(c, init, false);
      FinalIsTold(PutMessages(c, init, false), mark, m + Flat(init), t, last);
      assert (m + Flat(init)) + last == m + b.buf;
    }
  }

  /** A turn from Begin to End: the message parts concatenate to all message text received and the thoughts to
      all thought text; parts are numbered 1..k, non-empty, at most 256 KiB and valid; at most one is final,
      and it is the last event; there is one if and only if message text was still buffered at End; the buffers
      are empty. */
  lemma TurnIsConserved(before: Agg, turn: string, us: seq<Update>, states: seq<Agg>)
    requires IsTurn(before, turn, us, states)
    ensures TextsValid(states[|us|])
    ensures var d := Ended(states[|us|]);
      && |before.out| <= |d.out|
      && TurnParts(d.out[|before.out|..], turn, d.part, AllMessages(us), AllThoughts(us))
      && (EndsFinal(d.out[|before.out|..]) <==> states[|us|].buf != [])
      && d.buf == [] && d.thought == []
  {
    TurnConserves(before, turn, us, states, |us|);
    assert us[..|us|] == us;
    EndConserves(states[|us|], |before.out|, AllMessages(us), AllThoughts(us));
  }
}
