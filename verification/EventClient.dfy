/** The subscribing client (harness/api/client/subscribe.go) on top of the event log: it consumes one stream
    after another, filters by its cursor, and opens the next stream after that cursor. */
module EventClient {
  import opened Common
  import opened EventLogs

  /** A frame of the stream; keepalives only reset the silence timer. */
  datatype Frame = Keepalive | Carries(ev: Event)

  /** How a stream ends: end of file, or an error (a lost connection, a silent server). */
  datatype StreamEnd = Eof | Broken

  /** What the client has: the cursor, and the events it handed on. */
  datatype Cursor = Cursor(last: int, out: seq<Event>, ended: bool)

  /** `deliver`: keepalives and events the cursor already covers are dropped. */
  function Deliver(c: Cursor, f: Frame): Cursor {
    if f.Keepalive? || f.ev.num <= c.last then c
    else Cursor(f.ev.num, c.out + [f.ev], f.ev.ends)
  }

  function DrainAll(c: Cursor, frames: seq<Frame>): Cursor
    decreases |frames|
  {
    if frames == [] || c.ended then c else DrainAll(Deliver(c, frames[0]), frames[1..])
  }

  /** The fields of `run` that outlive a stream. */
  class Subscription {
    var afterSeq: int
    var out: seq<Event>

    constructor (start: int)
      ensures afterSeq == start && out == []
    {
      afterSeq := start;
      out := [];
    }

    /** One stream from its first frame to its end; the cursor never moves back. */
    method Drain(frames: seq<Frame>, end: StreamEnd) returns (ended: bool)
      modifies this
      ensures var c := DrainAll(Cursor(old(afterSeq), old(out), false), frames);
              afterSeq == c.last && out == c.out && ended == (c.ended || end.Eof?)
      ensures old(afterSeq) <= afterSeq && old(out) <= out
    {
      var last, i := afterSeq, 0;
      ended := false;
      while i < |frames| && !ended
        invariant 0 <= i <= |frames|
        invariant afterSeq == old(afterSeq) <= last && old(out) <= out
        invariant DrainAll(Cursor(old(afterSeq), old(out), false), frames) ==
                  DrainAll(Cursor(last, out, ended), frames[i..])
        decreases |frames| - i
      {
        var f := frames[i];
        assert frames[i..][1..] == frames[i + 1..];
        if f.Carries? && f.ev.num > last {
          out := out + [f.ev];
          last := f.ev.num;
          ended := f.ev.ends;
        }
        i := i + 1;
      }
      if !ended && end.Eof? {
        ended := true;
      }
      afterSeq := Max(afterSeq, last);
    }
  }

  /** Draining events that start at or before the cursor adds exactly the ones behind it. */
  lemma {:induction false} DrainExtends(log: seq<Event>, c: Cursor, lo: nat, hi: nat)
    requires Numbered(log) && lo <= hi <= |log| && lo <= c.last
    requires !c.ended && forall i :: lo <= i < hi ==> !log[i].ends
    ensures var d := DrainAll(c, Frames(log[lo..hi]));
      !d.ended && d.last == Max(c.last, hi) && d.out == c.out + Between(log, c.last, Max(c.last, hi))
    decreases hi - lo
  {
    if lo < hi {
      var c1 := Deliver(c, Carries(log[lo]));
      assert Frames(log[lo..hi])[0] == Carries(log[lo]);
      assert Frames(log[lo..hi])[1..] == Frames(log[lo + 1..hi]);
      DrainExtends(log, c1, lo + 1, hi);
      if log[lo].num > c.last {
        assert c.last == lo;
        assert Between(log, c.last, hi) == [log[lo]] + Between(log, lo + 1, hi);
      }
    }
  }

  function Frames(evs: seq<Event>): seq<Frame> {
    seq(|evs|, i requires 0 <= i < |evs| => Carries(evs[i]))
  }

  // ------------------------------------------------------------------ the machine

  datatype Phase = Running | Finished | GaveUp

  /** The open stream: the server's subscription, and how many of its events the client has taken. */
  datatype Stream = Stream(sub: Sub, taken: nat)

  /** `cancelled` tells that the server cancelled a stream and still closed it cleanly. */
  datatype State = State(start: int, log: Log, stream: Option<Stream>, cursor: Cursor, phase: Phase, cancelled: bool)

  datatype Step =
    | Write(w: WriterStep)
    | Open
    | Serve(p: SubStep)
    | Take
    | Break
    | End
    | Quit

  function Init(start: int, log: Log): State {
    State(start, log, None, Cursor(start, [], false), Running, false)
  }

  predicate Enabled(s: State, st: Step) {
    match st
    case Write(w) => WriterEnabled(s.log, w)
    case Open => s.phase.Running? && s.stream.None?
    case Serve(p) => s.stream.Some? && SubEnabled(s.stream.value.sub, p)
    case Take => s.phase.Running? && s.stream.Some? && s.stream.value.taken < |s.stream.value.sub.emitted|
    case Break => s.phase.Running? && s.stream.Some?
    case End =>
      && s.phase.Running? && s.stream.Some? && s.stream.value.taken == |s.stream.value.sub.emitted|
      && s.stream.value.sub.mode.Done? && s.stream.value.sub.mode.why != Failed
    case Quit => s.phase.Running?
  }

  function TakeStep(s: State): State
    requires Enabled(s, Take)
  {
    var t := s.stream.value;
    var c := Deliver(s.cursor, Carries(t.sub.emitted[t.taken]));
    s.(cursor := c, stream := if c.ended then None else Some(t.(taken := t.taken + 1)),
       phase := if c.ended then Finished else Running)
  }

  function Apply(s: State, st: Step): State
    requires Enabled(s, st)
  {
    match st
    case Write(w) =>
      s.(log := WriterApply(s.log, w),
         stream := if s.stream.None? then None
                   else Some(s.stream.value.(sub := Receives(s.log, w, s.stream.value.sub))))
    case Open => s.(stream := Some(Stream(NewSub(s.cursor.last), 0)))
    case Serve(p) => s.(stream := Some(s.stream.value.(sub := SubApply(s.log.events, s.stream.value.sub, p))))
    case Take => TakeStep(s)
    case Break => s.(stream := None)
    case End =>
      s.(stream := None, phase := Finished, cancelled := s.cancelled || s.stream.value.sub.mode.why.Cancelled?)
    case Quit => s.(stream := None, phase := GaveUp)
  }

  ghost predicate IsRun(start: int, ss: seq<State>, steps: seq<Step>) {
    && |ss| == |steps| + 1
    && LogInv(ss[0].log) && ss[0] == Init(start, ss[0].log)
    && forall i :: 0 <= i < |steps| ==> Enabled(ss[i], steps[i]) && ss[i + 1] == Apply(ss[i], steps[i])
  }

  // ------------------------------------------------------------------ invariant

  /** The client's own cursor is where the server's numbering of the taken events says. */
  ghost predicate StreamInv(g: Log, t: Stream, last: int)
    requires g.published <= |g.events|
  {
    && SubInv(g, t.sub)
    && t.taken <= |t.sub.emitted|
    && last == (if t.taken == 0 then t.sub.start else Clip(t.sub.start, |g.events|) + t.taken)
  }

  ghost predicate CursorInv(log: seq<Event>, start: int, c: Cursor, phase: Phase, cancelled: bool) {
    && EmittedInv(log, start, c.last, c.out, c.ended)
    && (c.ended ==> phase.Finished?)
    && (c.ended ==> c.out != [] && c.out[|c.out| - 1].ends)
    && (phase.Finished? && !cancelled ==> AtEnd(log, c.last))
    && (cancelled ==> phase.Finished? && !c.ended)
  }

  /** The event a cursor stands at is a SessionEnded. */
  predicate AtEnd(log: seq<Event>, cursor: int) {
    1 <= cursor <= |log| && log[cursor - 1].ends
  }

  ghost predicate Inv(s: State) {
    && LogInv(s.log)
    && CursorInv(s.log.events, s.start, s.cursor, s.phase, s.cancelled)
    && (s.stream.Some? ==> s.phase.Running? && StreamInv(s.log, s.stream.value, s.cursor.last))
  }

  lemma WriterStepKeeps(s: State, w: WriterStep)
    requires Inv(s) && Enabled(s, Write(w))
    ensures Inv(Apply(s, Write(w)))
  {
    WriterKeeps(s.log, w);
    BetweenGrows(s.log.events, WriterApply(s.log, w).events, s.start, s.cursor.last);
    if s.stream.Some? {
      EventLogs.StepKeeps(s.log, s.stream.value.sub, EventLogs.Writer(w));
    }
  }

  lemma SubAppends(log: seq<Event>, s: Sub, st: SubStep)
    requires SubEnabled(s, st)
    ensures s.emitted <= SubApply(log, s, st).emitted && SubApply(log, s, st).start == s.start
  {
  }

  lemma PumpStepKeeps(s: State, p: SubStep)
    requires Inv(s) && Enabled(s, Serve(p))
    ensures Inv(Apply(s, Serve(p)))
  {
    SubKeeps(s.log, s.stream.value.sub, p);
    SubAppends(s.log.events, s.stream.value.sub, p);
  }

  lemma NextIsBehindCursor(g: Log, t: Stream, last: int)
    requires LogInv(g) && StreamInv(g, t, last) && t.taken < |t.sub.emitted|
    ensures var ev := t.sub.emitted[t.taken];
      && 1 <= ev.num <= |g.events| && ev == g.events[ev.num - 1]
      && ev.num == Clip(t.sub.start, |g.events|) + t.taken + 1
      && last < ev.num && Clip(last, |g.events|) == ev.num - 1
  {
    assert t.sub.emitted[t.taken] == g.events[Clip(t.sub.start, |g.events|) + t.taken];
  }

  lemma BetweenStep(log: seq<Event>, start: int, last: int, ev: Event)
    requires start <= last < ev.num && Clip(last, |log|) == ev.num - 1 < |log| && ev == log[ev.num - 1]
    ensures Between(log, start, ev.num) == Between(log, start, last) + [ev]
  {
  }

  lemma TakeKeeps(s: State)
    requires Inv(s) && Enabled(s, Take)
    ensures Inv(TakeStep(s))
  {
    var t, log := s.stream.value, s.log.events;
    var ev := t.sub.emitted[t.taken];
    NextIsBehindCursor(s.log, t, s.cursor.last);
    BetweenStep(log, s.start, s.cursor.last, ev);
  }

  lemma EndKeeps(s: State)
    requires Inv(s) && Enabled(s, End)
    ensures Inv(Apply(s, End))
  {
    var t, log := s.stream.value, s.log.events;
    if t.sub.mode.why.Ended? {
      var last := t.sub.emitted[t.taken - 1];
      assert last == log[Clip(t.sub.start, |log|) + t.taken - 1];
    }
  }

  lemma StepKeeps(s: State, st: Step)
    requires Inv(s) && Enabled(s, st)
    ensures Inv(Apply(s, st))
  {
    match st
    case Write(w) => WriterStepKeeps(s, w);
    case Open => NewSubStarts(s.log, s.cursor.last);
    case Serve(p) => PumpStepKeeps(s, p);
    case Take => TakeKeeps(s);
    case End => EndKeeps(s);
    case _ =>
  }

  lemma StartIsKept(s: State, st: Step)
    requires Enabled(s, st)
    ensures Apply(s, st).start == s.start
  {
  }

  lemma {:induction false} RunKeeps(start: int, ss: seq<State>, steps: seq<Step>, i: nat)
    requires IsRun(start, ss, steps) && i < |ss|
    ensures Inv(ss[i]) && ss[i].start == start
  {
    if i > 0 {
      RunKeeps(start, ss, steps, i - 1);
      StepKeeps(ss[i - 1], steps[i - 1]);
      StartIsKept(ss[i - 1], steps[i - 1]);
    }
  }

  /** Over any number of dropped and resumed streams, the client hands on exactly the stored events behind
      its starting cursor, in order, each once, and nothing after a SessionEnded. */
  lemma ClientResumesExactly(start: int, ss: seq<State>, steps: seq<Step>, i: nat)
    requires IsRun(start, ss, steps) && i < |ss|
    ensures start <= ss[i].cursor.last
    ensures ss[i].cursor.out == Between(ss[i].log.events, start, ss[i].cursor.last)
    ensures forall j, k :: 0 <= j < k < |ss[i].cursor.out| ==> ss[i].cursor.out[j].num < ss[i].cursor.out[k].num
    ensures forall k :: 0 <= k < |ss[i].cursor.out| && ss[i].cursor.out[k].ends ==>
              k == |ss[i].cursor.out| - 1 && ss[i].phase.Finished?
  {
    RunKeeps(start, ss, steps, i);
  }

  lemma LastOut(log: seq<Event>, start: int, last: int)
    requires start < last && 1 <= last <= |log|
    ensures var out := Between(log, start, last); out != [] && out[|out| - 1] == log[last - 1]
  {
  }

  /** A client that takes a stream to be over stands at a SessionEnded if and only if the server did not cancel
      that stream, or the client had started there and got nothing. */
  lemma FinishedAtEndIff(start: int, ss: seq<State>, steps: seq<Step>, i: nat)
    requires IsRun(start, ss, steps) && i < |ss| && ss[i].phase.Finished?
    ensures AtEnd(ss[i].log.events, ss[i].cursor.last) <==>
              !ss[i].cancelled || (ss[i].cursor.last == start && AtEnd(ss[i].log.events, start))
    ensures ss[i].cancelled ==> forall k :: 0 <= k < |ss[i].cursor.out| ==> !ss[i].cursor.out[k].ends
  {
    RunKeeps(start, ss, steps, i);
    var log, last := ss[i].log.events, ss[i].cursor.last;
    if start < last {
      LastOut(log, start, last);
    }
  }

  /** A stream that carries SessionEnded to a running client finishes it. */
  lemma SessionEndFinishes(start: int, ss: seq<State>, steps: seq<Step>, i: nat)
    requires IsRun(start, ss, steps) && i < |ss| && Enabled(ss[i], Take)
    requires ss[i].stream.value.sub.emitted[ss[i].stream.value.taken].ends
    ensures Apply(ss[i], Take).phase.Finished?
    ensures Apply(ss[i], Take).cursor.out ==
              ss[i].cursor.out + [ss[i].stream.value.sub.emitted[ss[i].stream.value.taken]]
  {
    RunKeeps(start, ss, steps, i);
    var t, log := ss[i].stream.value, ss[i].log.events;
    assert t.sub.emitted[t.taken] == log[Clip(t.sub.start, |log|) + t.taken];
  }

  /** The exception is real: a stream that the server cancels and closes cleanly ends a client whose log has
      no SessionEnded. */
  lemma CancelledStreamLooksFinished(start: int)
    ensures exists ss: seq<State>, steps: seq<Step> ::
              && IsRun(start, ss, steps) && ss[|ss| - 1].phase.Finished? && ss[|ss| - 1].log.events == []
  {
    var s0 := Init(start, Log([], 0));
    var s1 := Apply(s0, Open);
    var s2 := Apply(s1, Serve(Cancel));
    var s3 := Apply(s2, End);
    var ss, steps := [s0, s1, s2, s3], [Open, Serve(Cancel), End];
    assert IsRun(start, ss, steps);
  }
}
