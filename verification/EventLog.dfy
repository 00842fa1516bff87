/** The event log of one session and the subscriptions on it (harness/internal/harnessapi/eventlog.go,
    finish.go): rows are committed to the store first and published afterwards, over bounded channels that
    drop on overflow and raise a one-slot stale flag instead. */
module EventLogs {
  import opened Common

  /** A stored event: `num` is its sequence number and `ends` tells a SessionEnded. */
  datatype Event = Event(num: nat, ends: bool, body: nat)

  datatype NewEvent = NewEvent(ends: bool, body: nat)

  const DEFAULT_PAGE: nat := 500

  const SUBSCRIBER_BUFFER: nat := 32

  /** The store numbers the events of a session from 1 without gaps. */
  ghost predicate Numbered(log: seq<Event>) {
    forall i :: 0 <= i < |log| ==> log[i].num == i + 1
  }

  function Number(from: nat, evs: seq<NewEvent>): (r: seq<Event>)
    ensures |r| == |evs|
    ensures forall i :: 0 <= i < |r| ==> r[i] == Event(from + i + 1, evs[i].ends, evs[i].body)
  {
    seq(|evs|, i requires 0 <= i < |evs| => Event(from + i + 1, evs[i].ends, evs[i].body))
  }

  /** The rows past a cursor, as the query selects them. */
  function After(log: seq<Event>, cursor: int): seq<Event> {
    if log == [] then []
    else if log[0].num > cursor then [log[0]] + After(log[1..], cursor)
    else After(log[1..], cursor)
  }

  function Take<T>(s: seq<T>, limit: nat): seq<T> {
    if |s| <= limit then s else s[..limit]
  }

  function History(log: seq<Event>, cursor: int, limit: int): seq<Event> {
    Take(After(log, cursor), if limit <= 0 || limit > DEFAULT_PAGE then DEFAULT_PAGE else limit)
  }

  /** How many events of a log of length `n` a cursor covers. */
  function Clip(cursor: int, n: nat): nat {
    if cursor < 0 then 0 else if cursor > n then n else cursor
  }

  /** The events of the log whose numbers lie past `lo` and not past `hi`. */
  function Between(log: seq<Event>, lo: int, hi: int): seq<Event>
    requires lo <= hi
  {
    log[Clip(lo, |log|)..Clip(hi, |log|)]
  }

  lemma {:induction false} AfterSkips(log: seq<Event>, cursor: int, skip: nat)
    requires skip <= |log|
    requires forall i :: 0 <= i < skip ==> log[i].num <= cursor
    requires forall i :: skip <= i < |log| ==> log[i].num > cursor
    ensures After(log, cursor) == log[skip..]
    decreases |log|
  {
    if log == [] {
    } else if skip == 0 {
      AfterSkips(log[1..], cursor, 0);
      assert log[1..][0..] == log[1..];
    } else {
      AfterSkips(log[1..], cursor, skip - 1);
      assert log[1..][skip - 1..] == log[skip..];
    }
  }

  /** Reading after a cursor returns the stored events right behind it: a full page, or all of them. */
  lemma HistoryReadsOn(log: seq<Event>, cursor: int, limit: int)
    requires Numbered(log)
    ensures var page := History(log, cursor, limit); var lo := Clip(cursor, |log|);
      && lo + |page| <= |log|
      && page == log[lo..lo + |page|]
      && |page| <= DEFAULT_PAGE
      && (limit > 0 ==> |page| <= limit)
      && (|page| < (if limit <= 0 || limit > DEFAULT_PAGE then DEFAULT_PAGE else limit) ==> lo + |page| == |log|)
  {
    var lo := Clip(cursor, |log|);
    AfterSkips(log, cursor, lo);
    var page := History(log, cursor, limit);
    assert page == log[lo..lo + |page|];
  }

  // ------------------------------------------------------------------ publishing

  /** What a subscription holds of the published events. */
  datatype Buffer = Buffer(live: seq<Event>, stale: bool)

  /** A publish never blocks: the event goes into the channel, or the stale flag is raised. */
  function Push(b: Buffer, ev: Event): Buffer {
    if |b.live| < SUBSCRIBER_BUFFER then b.(live := b.live + [ev]) else b.(stale := true)
  }

  /** The subscriptions of one session, by identity. */
  class Hub {
    var subs: map<nat, Buffer>

    constructor ()
      ensures subs == map[]
    {
      subs := map[];
    }

    method Subscribe(id: nat)
      requires id !in subs
      modifies this
      ensures subs == old(subs)[id := Buffer([], false)]
    {
      subs := subs[id := Buffer([], false)];
    }

    method Unsubscribe(id: nat)
      modifies this
      ensures subs == old(subs) - {id}
    {
      if id in subs {
        subs := subs - {id};
      }
    }

    /** Every subscription gets the event or is marked stale, and none is held up by another. */
    method Publish(ev: Event)
      modifies this
      ensures subs.Keys == old(subs).Keys
      ensures forall id :: id in subs ==> subs[id] == Push(old(subs)[id], ev)
      ensures forall id :: id in subs ==> ev in subs[id].live || subs[id].stale
    {
      var todo := subs.Keys;
      while todo != {}
        invariant todo <= subs.Keys == old(subs).Keys
        invariant forall id :: id in todo ==> subs[id] == old(subs)[id]
        invariant forall id :: id in subs && id !in todo ==> subs[id] == Push(old(subs)[id], ev)
        decreases |todo|
      {
        var id :| id in todo;
        subs := subs[id := Push(subs[id], ev)];
        todo := todo - {id};
      }
    }
  }

  // ------------------------------------------------------------------ the machine

  /** The stored log, and how many of its events are published. The stripe lock is held from the commit of
      one write to the publish of its last event. */
  datatype Log = Log(events: seq<Event>, published: nat)

  datatype Outcome = Ended | EndedBefore | Failed | Cancelled

  /** Where `Subscribe` and then `pump` stand. */
  datatype Mode =
    | Opening
    | Checking
    | Draining(batch: seq<Event>, full: bool)
    | Live
    | Rereading
    | Done(why: Outcome)

  /** One subscription: it started after `start`, and `emitted` are the events it put out. */
  datatype Sub = Sub(start: int, sent: int, buffer: Buffer, mode: Mode, emitted: seq<Event>)

  function NewSub(start: int): Sub {
    Sub(start, start, Buffer([], false), Opening, [])
  }

  datatype WriterStep = Commit(evs: seq<NewEvent>) | Publish

  predicate WriterEnabled(g: Log, st: WriterStep) {
    match st
    case Commit(_) => g.published == |g.events|
    case Publish => g.published < |g.events|
  }

  function WriterApply(g: Log, st: WriterStep): Log
    requires WriterEnabled(g, st)
  {
    match st
    case Commit(evs) => g.(events := g.events + Number(|g.events|, evs))
    case Publish => g.(published := g.published + 1)
  }

  /** What a writer step does to a registered subscription. */
  function Receives(g: Log, st: WriterStep, s: Sub): Sub
    requires WriterEnabled(g, st)
  {
    match st
    case Commit(_) => s
    case Publish => s.(buffer := Push(s.buffer, g.events[g.published]))
  }

  datatype SubStep = Read | CheckEnd | Drain | TakeLive | TakeStale | Fail | Cancel

  predicate SubEnabled(s: Sub, st: SubStep) {
    match st
    case Read => s.mode.Opening? || s.mode.Rereading?
    case CheckEnd => s.mode.Checking?
    case Drain => s.mode.Draining?
    case TakeLive => s.mode.Live? && s.buffer.live != []
    case TakeStale => s.mode.Live? && s.buffer.stale
    case Fail => s.mode.Opening? || s.mode.Checking? || s.mode.Rereading?
    case Cancel => !s.mode.Done?
  }

  function Page(batch: seq<Event>): Mode {
    Draining(batch, |batch| >= DEFAULT_PAGE)
  }

  function ReadStep(log: seq<Event>, s: Sub): Sub {
    var batch := History(log, s.sent, DEFAULT_PAGE);
    if s.mode.Opening? && batch == [] && s.start > 0 then s.(mode := Checking)
    else s.(mode := Page(batch))
  }

  /** Whether the subscriber already has the end of the log. */
  function EndsAt(log: seq<Event>, cursor: int): bool {
    var last := History(log, cursor - 1, 1);
    |last| == 1 && last[0].ends
  }

  function CheckEndStep(log: seq<Event>, s: Sub): Sub {
    s.(mode := if EndsAt(log, s.start) then Done(EndedBefore) else Page([]))
  }

  function Emit(s: Sub, ev: Event, next: Mode): Sub {
    s.(sent := ev.num, emitted := s.emitted + [ev], mode := if ev.ends then Done(Ended) else next)
  }

  function DrainStep(s: Sub): Sub
    requires s.mode.Draining?
  {
    if s.mode.batch == [] then s.(mode := if s.mode.full then Rereading else Live)
    else
      var ev, next := s.mode.batch[0], s.mode.(batch := s.mode.batch[1..]);
      if ev.num <= s.sent then s.(mode := next) else Emit(s, ev, next)
  }

  function TakeLiveStep(s: Sub): Sub
    requires s.mode.Live? && s.buffer.live != []
  {
    var ev, rest := s.buffer.live[0], s.(buffer := s.buffer.(live := s.buffer.live[1..]));
    if ev.num <= s.sent then rest
    else if ev.num != s.sent + 1 then rest.(mode := Rereading)
    else Emit(rest, ev, Live)
  }

  function SubApply(log: seq<Event>, s: Sub, st: SubStep): Sub
    requires SubEnabled(s, st)
  {
    match st
    case Read => ReadStep(log, s)
    case CheckEnd => CheckEndStep(log, s)
    case Drain => DrainStep(s)
    case TakeLive => TakeLiveStep(s)
    case TakeStale => s.(buffer := s.buffer.(stale := false), mode := Rereading)
    case Fail => s.(mode := Done(Failed))
    case Cancel => s.(mode := Done(Cancelled))
  }

  // ------------------------------------------------------------------ invariant

  ghost predicate LogInv(g: Log) {
    Numbered(g.events) && g.published <= |g.events|
  }

  /** What went out is the stored log from the start cursor to the sent cursor, and only its last event can
      be a SessionEnded. */
  ghost predicate EmittedInv(log: seq<Event>, start: int, sent: int, emitted: seq<Event>, done: bool) {
    && start <= sent
    && (start < sent ==> 1 <= sent <= |log|)
    && emitted == Between(log, start, sent)
    && (forall i :: 0 <= i < |emitted| && emitted[i].ends ==> i == |emitted| - 1 && done)
  }

  ghost predicate BufferInv(g: Log, b: Buffer)
    requires g.published <= |g.events|
  {
    && |b.live| <= SUBSCRIBER_BUFFER
    && forall e :: e in b.live ==> 1 <= e.num <= g.published && g.events[e.num - 1] == e
  }

  /** Every published event past `upto` is in the channel, or the stale flag is up. */
  ghost predicate Covered(g: Log, b: Buffer, upto: int)
    requires g.published <= |g.events|
  {
    forall k :: upto <= k < g.published && 0 <= k ==> g.events[k] in b.live || b.stale
  }

  ghost predicate ModeInv(g: Log, s: Sub)
    requires g.published <= |g.events|
  {
    match s.mode
    case Opening => s.sent == s.start
    case Checking => s.sent == s.start && s.start > 0 && Covered(g, s.buffer, s.sent)
    case Draining(batch, full) =>
      var lo := Clip(s.sent, |g.events|);
      && lo + |batch| <= |g.events| && batch == g.events[lo..lo + |batch|]
      && (!full ==> Covered(g, s.buffer, Max(s.sent, lo + |batch|)))
    case Live => Covered(g, s.buffer, s.sent)
    case Rereading => true
    case Done(why) =>
      && (why.Ended? ==> s.emitted != [] && s.emitted[|s.emitted| - 1].ends)
      && (why.EndedBefore? ==> s.emitted == [] && 1 <= s.start <= |g.events| && g.events[s.start - 1].ends)
  }

  ghost predicate SubInv(g: Log, s: Sub)
    requires g.published <= |g.events|
  {
    && EmittedInv(g.events, s.start, s.sent, s.emitted, s.mode.Done?)
    && BufferInv(g, s.buffer)
    && ModeInv(g, s)
  }

  lemma NewSubStarts(g: Log, start: int)
    requires LogInv(g)
    ensures SubInv(g, NewSub(start))
  {
  }

  lemma WriterKeeps(g: Log, st: WriterStep)
    requires LogInv(g) && WriterEnabled(g, st)
    ensures LogInv(WriterApply(g, st))
    ensures g.events <= WriterApply(g, st).events
  {
  }

  lemma BetweenGrows(log: seq<Event>, more: seq<Event>, lo: int, hi: int)
    requires log <= more && lo <= hi
    requires lo < hi ==> 0 <= hi <= |log|
    ensures Between(more, lo, hi) == Between(log, lo, hi)
  {
  }

  lemma BatchGrows(log: seq<Event>, more: seq<Event>, sent: int, batch: seq<Event>)
    requires log <= more
    requires var lo := Clip(sent, |log|); lo + |batch| <= |log| && batch == log[lo..lo + |batch|]
    ensures var lo := Clip(sent, |more|); lo + |batch| <= |more| && batch == more[lo..lo + |batch|]
    ensures Max(sent, Clip(sent, |more|) + |batch|) == Max(sent, Clip(sent, |log|) + |batch|)
  {
    if batch != [] {
      assert Clip(sent, |log|) == Clip(sent, |more|);
    }
  }

  lemma ModeGrows(g: Log, g': Log, s: Sub)
    requires g.published <= |g.events| && g'.published == g.published && g.events <= g'.events && ModeInv(g, s)
    ensures ModeInv(g', s)
  {
    if s.mode.Draining? {
      BatchGrows(g.events, g'.events, s.sent, s.mode.batch);
    }
  }

  lemma CommitKeeps(g: Log, evs: seq<NewEvent>, s: Sub)
    requires LogInv(g) && SubInv(g, s) && WriterEnabled(g, Commit(evs))
    ensures SubInv(WriterApply(g, Commit(evs)), s)
  {
    var g' := WriterApply(g, Commit(evs));
    BetweenGrows(g.events, g'.events, s.start, s.sent);
    ModeGrows(g, g', s);
  }

  lemma PushCovers(g: Log, b: Buffer, upto: int)
    requires LogInv(g) && g.published < |g.events| && Covered(g, b, upto)
    ensures Covered(g.(published := g.published + 1), Push(b, g.events[g.published]), upto)
  {
    var ev := g.events[g.published];
    var b' := Push(b, ev);
    assert ev in b'.live || b'.stale;
    assert forall e :: e in b.live ==> e in b'.live;
  }

  lemma PushFits(g: Log, b: Buffer)
    requires LogInv(g) && g.published < |g.events| && BufferInv(g, b)
    ensures BufferInv(g.(published := g.published + 1), Push(b, g.events[g.published]))
  {
  }

  lemma ModePublishes(g: Log, s: Sub)
    requires LogInv(g) && g.published < |g.events| && ModeInv(g, s)
    ensures ModeInv(WriterApply(g, Publish), Receives(g, Publish, s))
  {
    match s.mode
    case Checking => PushCovers(g, s.buffer, s.sent);
    case Live => PushCovers(g, s.buffer, s.sent);
    case Draining(batch, full) =>
      if !full {
        PushCovers(g, s.buffer, Max(s.sent, Clip(s.sent, |g.events|) + |batch|));
      }
    case _ =>
  }

  lemma PublishKeeps(g: Log, s: Sub)
    requires LogInv(g) && SubInv(g, s) && WriterEnabled(g, Publish)
    ensures SubInv(WriterApply(g, Publish), Receives(g, Publish, s))
  {
    PushFits(g, s.buffer);
    ModePublishes(g, s);
  }

  lemma ReadKeeps(g: Log, s: Sub)
    requires LogInv(g) && SubInv(g, s) && SubEnabled(s, Read)
    ensures SubInv(g, ReadStep(g.events, s))
  {
    HistoryReadsOn(g.events, s.sent, DEFAULT_PAGE);
  }

  lemma CheckEndKeeps(g: Log, s: Sub)
    requires LogInv(g) && SubInv(g, s) && SubEnabled(s, CheckEnd)
    ensures SubInv(g, CheckEndStep(g.events, s))
  {
    HistoryReadsOn(g.events, s.start - 1, 1);
    if EndsAt(g.events, s.start) {
      assert s.emitted == [];
    }
  }

  lemma EmitKeeps(g: Log, s: Sub, ev: Event)
    requires LogInv(g) && EmittedInv(g.events, s.start, s.sent, s.emitted, false)
    requires s.sent < ev.num <= |g.events| && ev.num == Clip(s.sent, |g.events|) + 1 && g.events[ev.num - 1] == ev
    ensures EmittedInv(g.events, s.start, ev.num, s.emitted + [ev], ev.ends)
  {
    assert Between(g.events, s.start, ev.num) == Between(g.events, s.start, s.sent) + [ev];
  }

  /** What is left of a page behind its first event. */
  lemma BatchShrinks(log: seq<Event>, sent: int, batch: seq<Event>)
    requires Numbered(log) && batch != []
    requires var lo := Clip(sent, |log|); lo + |batch| <= |log| && batch == log[lo..lo + |batch|]
    ensures var lo := Clip(sent, |log|);
      && batch[0] == log[lo] && batch[0].num == lo + 1 && sent < lo + 1
      && Clip(lo + 1, |log|) == lo + 1
      && batch[1..] == log[lo + 1..lo + 1 + |batch[1..]|]
  {
  }

  lemma DrainKeeps(g: Log, s: Sub)
    requires LogInv(g) && SubInv(g, s) && SubEnabled(s, Drain)
    ensures SubInv(g, DrainStep(s))
  {
    if s.mode.batch != [] {
      BatchShrinks(g.events, s.sent, s.mode.batch);
      EmitKeeps(g, s, s.mode.batch[0]);
    }
  }

  lemma TakeLiveKeeps(g: Log, s: Sub)
    requires LogInv(g) && SubInv(g, s) && SubEnabled(s, TakeLive)
    ensures SubInv(g, TakeLiveStep(s))
  {
    var ev, rest := s.buffer.live[0], s.buffer.live[1..];
    assert ev in s.buffer.live;
    assert forall e :: e in s.buffer.live ==> e == ev || e in rest;
    assert forall e :: e in rest ==> e in s.buffer.live;
    if ev.num == s.sent + 1 {
      EmitKeeps(g, s, ev);
    }
  }

  lemma SubKeeps(g: Log, s: Sub, st: SubStep)
    requires LogInv(g) && SubInv(g, s) && SubEnabled(s, st)
    ensures SubInv(g, SubApply(g.events, s, st))
  {
    match st
    case Read => ReadKeeps(g, s);
    case CheckEnd => CheckEndKeeps(g, s);
    case Drain => DrainKeeps(g, s);
    case TakeLive => TakeLiveKeeps(g, s);
    case _ =>
  }

  // ------------------------------------------------------------------ runs

  datatype Step = Writer(w: WriterStep) | Pump(p: SubStep)

  predicate Enabled(g: Log, s: Sub, st: Step) {
    match st
    case Writer(w) => WriterEnabled(g, w)
    case Pump(p) => SubEnabled(s, p)
  }

  function ApplyLog(g: Log, s: Sub, st: Step): Log
    requires Enabled(g, s, st)
  {
    if st.Writer? then WriterApply(g, st.w) else g
  }

  function ApplySub(g: Log, s: Sub, st: Step): Sub
    requires Enabled(g, s, st)
  {
    if st.Writer? then Receives(g, st.w, s) else SubApply(g.events, s, st.p)
  }

  /** A run of one subscription that opens after cursor `start` while the log is `gs[0]`. */
  ghost predicate IsRun(start: int, gs: seq<Log>, ss: seq<Sub>, steps: seq<Step>) {
    && |gs| == |ss| == |steps| + 1
    && LogInv(gs[0]) && ss[0] == NewSub(start)
    && forall i :: 0 <= i < |steps| ==>
         && Enabled(gs[i], ss[i], steps[i])
         && gs[i + 1] == ApplyLog(gs[i], ss[i], steps[i])
         && ss[i + 1] == ApplySub(gs[i], ss[i], steps[i])
  }

  lemma StepKeeps(g: Log, s: Sub, st: Step)
    requires LogInv(g) && SubInv(g, s) && Enabled(g, s, st)
    ensures LogInv(ApplyLog(g, s, st))
    ensures SubInv(ApplyLog(g, s, st), ApplySub(g, s, st))
  {
    match st
    case Pump(p) => SubKeeps(g, s, p);
    case Writer(w) =>
      WriterKeeps(g, w);
      match w
      case Commit(evs) => CommitKeeps(g, evs, s);
      case Publish => PublishKeeps(g, s);
  }

  lemma {:induction false} RunKeeps(start: int, gs: seq<Log>, ss: seq<Sub>, steps: seq<Step>, i: nat)
    requires IsRun(start, gs, ss, steps) && i < |gs|
    ensures LogInv(gs[i]) && SubInv(gs[i], ss[i]) && ss[i].start == start
  {
    if i == 0 {
      NewSubStarts(gs[0], start);
    } else {
      RunKeeps(start, gs, ss, steps, i - 1);
      StepKeeps(gs[i - 1], ss[i - 1], steps[i - 1]);
    }
  }

  /** At any point of any run the subscription has put out exactly the stored events past its start cursor,
      in order, up to its sent cursor, and it stopped at the first SessionEnded. */
  lemma PumpEmitsLogSuffix(start: int, gs: seq<Log>, ss: seq<Sub>, steps: seq<Step>, i: nat)
    requires IsRun(start, gs, ss, steps) && i < |gs|
    ensures start <= ss[i].sent && ss[i].emitted == Between(gs[i].events, start, ss[i].sent)
    ensures forall k :: 0 <= k < |ss[i].emitted| && ss[i].emitted[k].ends ==>
              k == |ss[i].emitted| - 1 && ss[i].mode.Done?
    ensures ss[i].mode == Done(Ended) ==> ss[i].emitted != [] && ss[i].emitted[|ss[i].emitted| - 1].ends
  {
    RunKeeps(start, gs, ss, steps, i);
  }

  /** A subscription parked on its channels has every published event past its cursor in the live channel,
      or its stale flag is up. */
  lemma ParkedMissesNothing(start: int, gs: seq<Log>, ss: seq<Sub>, steps: seq<Step>, i: nat, k: nat)
    requires IsRun(start, gs, ss, steps) && i < |gs| && ss[i].mode.Live?
    requires ss[i].sent < k && 1 <= k <= gs[i].published
    ensures k <= |gs[i].events|
    ensures gs[i].events[k - 1] in ss[i].buffer.live || ss[i].buffer.stale
  {
    RunKeeps(start, gs, ss, steps, i);
  }

  lemma WaitingIsHeld(g: Log, b: Buffer, upto: int)
    requires g.published == |g.events| && Covered(g, b, upto)
    ensures Clip(upto, |g.events|) < |g.events| ==> b.live != [] || b.stale
  {
    if Clip(upto, |g.events|) < |g.events| {
      var k := Max(upto, 0);
      assert g.events[k] in b.live || b.stale;
    }
  }

  /** A parked subscription whose channels are empty has put out the whole published log behind its start. */
  lemma QuietIsComplete(start: int, gs: seq<Log>, ss: seq<Sub>, steps: seq<Step>, i: nat)
    requires IsRun(start, gs, ss, steps) && i < |gs|
    requires ss[i].mode.Live? && ss[i].buffer == Buffer([], false)
    requires gs[i].published == |gs[i].events|
    ensures ss[i].emitted == gs[i].events[Clip(start, |gs[i].events|)..]
  {
    RunKeeps(start, gs, ss, steps, i);
    var g, s := gs[i], ss[i];
    WaitingIsHeld(g, s.buffer, s.sent);
    assert Between(g.events, start, s.sent) == g.events[Clip(start, |g.events|)..];
  }

  /** A subscription that opens on a log it already has the end of closes without putting out anything, and
      the check is exact. */
  lemma EndsAtIffEnded(log: seq<Event>, cursor: int)
    requires Numbered(log)
    ensures cursor >= 1 ==> (EndsAt(log, cursor) <==> cursor <= |log| && log[cursor - 1].ends)
  {
    HistoryReadsOn(log, cursor - 1, 1);
  }
}
