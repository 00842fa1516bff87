/** The invariant of the pod event pipeline and its consequences over every run. */
module PodPipelineProof {
  import opened Common
  import opened Outboxes
  import opened PodPipeline

  // ----- sequences of frames and events -----

  lemma {:induction false} EventsOfConcat(a: seq<Frame>, b: seq<Frame>)
    ensures EventsOf(a + b) == EventsOf(a) + EventsOf(b)
    ensures Marks(a + b) == Marks(a) + Marks(b)
  {
    if a == [] {
      assert a + b == b;
    } else {
      EventsOfConcat(a[1..], b);
      assert (a + b)[0] == a[0] && (a + b)[1..] == a[1..] + b;
      var head := match a[0] case Mark => [] case Ev(e) => [e];
      assert head + (EventsOf(a[1..]) + EventsOf(b)) == (head + EventsOf(a[1..])) + EventsOf(b);
    }
  }

  lemma EventsOfOne(f: Frame)
    ensures EventsOf([f]) == if f.Ev? then [f.ev] else []
    ensures Marks([f]) == if f.Mark? then 1 else 0
  {
    assert [f][1..] == [];
  }

  lemma {:induction false} TailPush(fs: seq<Frame>, f: Frame)
    ensures Tail(fs + [f]) == if f.Ev? then Tail(fs) + [f.ev] else []
  {
    EventsOfConcat(fs, [f]);
    EventsOfOne(f);
    if fs == [] {
      assert fs + [f] == [f];
      assert f.Mark? ==> Tail([f]) == Tail([f][1..]);
    } else {
      TailPush(fs[1..], f);
      assert (fs + [f])[1..] == fs[1..] + [f];
      EventsOfConcat(fs[1..], [f]);
    }
  }

  lemma {:induction false} TailNoMarks(fs: seq<Frame>)
    requires Marks(fs) == 0
    ensures Tail(fs) == EventsOf(fs) && |EventsOf(fs)| == |fs|
  {
    if fs != [] {
      TailNoMarks(fs[1..]);
    }
  }

  /** `es` is the stretch of the history that starts after event `lo`. */
  ghost predicate Stretch(es: seq<AgentEvent>, h: seq<AgentEvent>, lo: int) {
    && 0 <= lo && lo + |es| <= |h|
    && es == h[lo..lo + |es|]
  }

  lemma StretchGrows(es: seq<AgentEvent>, h: seq<AgentEvent>, lo: int, e: AgentEvent)
    requires Stretch(es, h, lo)
    ensures Stretch(es, h + [e], lo)
  {
    assert (h + [e])[lo..lo + |es|] == h[lo..lo + |es|];
  }

  lemma StretchPush(es: seq<AgentEvent>, h: seq<AgentEvent>, lo: int, e: AgentEvent)
    requires Stretch(es, h, lo) && lo + |es| < |h| && e == h[lo + |es|]
    ensures Stretch(es + [e], h, lo)
  {
  }

  lemma StretchPop(es: seq<AgentEvent>, h: seq<AgentEvent>, lo: int)
    requires Stretch(es, h, lo) && es != []
    ensures es[0] == h[lo] && Stretch(es[1..], h, lo + 1)
  {
  }

  lemma RowsPush(h: seq<AgentEvent>, n: nat)
    requires n < |h|
    ensures Rows(h[..n + 1]) == Rows(h[..n]) + RowOf(h[n])
  {
    assert h[..n + 1][..n] == h[..n];
  }

  // ----- cursors -----

  predicate PendingEvent(v: Serve) {
    v.Serving? && v.pending.Some? && v.pending.value.Ev?
  }

  /** The highest event put into the inbox since the manager process started. */
  function Top(m: Manager): nat {
    m.delivered + if PendingEvent(m.serve) && m.serve.pushed then 1 else 0
  }

  /** The highest event the manager's side of the AgentIO stream has, in flight included. */
  function End(m: Manager): nat {
    m.delivered + (if PendingEvent(m.serve) then 1 else 0)
      + if m.serve.Serving? then |EventsOf(m.serve.up)| else 0
  }

  /** The last event taken out of the inbox. */
  function Consumed(m: Manager): int {
    Top(m) - |EventsOf(m.inbox)|
  }

  function ServedSid(v: Serve): Option<nat> {
    if v.Serving? then Some(v.sid) else None
  }

  // ----- the invariant, in parts -----

  ghost predicate RunnerInv(r: Runner) {
    && Holds(r.box, r.history)
    && r.fed <= |r.history|
    && (r.feed.Feed? ==>
          && r.feed.cursor <= r.fed
          && Stretch(r.feed.batch, r.history, r.feed.cursor)
          && (!r.feed.started ==> r.feed.batch == []))
  }

  /** Every Replay sent is either counted by the sidecar, marked on the stream, in the feed or queued,
      and the newest feed's events follow its mark without a gap. */
  ghost predicate RelayInv(r: Runner, c: Sidecar) {
    && c.replays == c.replayStarts + Marks(c.frames) + |c.toRunner|
                    + (if r.feed.Feed? && !r.feed.started then 1 else 0)
    && (forall i :: 0 <= i < |c.toRunner| ==> c.toRunner[i] <= r.fed)
    && (c.replays > 0 && c.toRunner == [] ==> r.feed.Feed?)
    && (r.feed.Feed? && r.feed.started ==> Stretch(Tail(c.frames), r.history, r.feed.cursor - |Tail(c.frames)|))
  }

  /** What the manager has of the stream follows the delivered cursor without a gap. */
  ghost predicate ServeInv(h: seq<AgentEvent>, delivered: nat, v: Serve) {
    v.Serving? ==>
      && (v.pushed ==> PendingEvent(v))
      && (PendingEvent(v) ==> delivered < |h| && v.pending.value.ev == h[delivered])
      && Stretch(EventsOf(v.up), h, delivered + if PendingEvent(v) then 1 else 0)
  }

  /** No replay that the runner still has to answer, and no feed, is behind what the manager took. */
  ghost predicate LinkInv(r: Runner, c: Sidecar, top: nat, end: nat) {
    && top <= end <= r.fed
    && (forall i :: 0 <= i < |c.toRunner| ==> top <= c.toRunner[i])
    && (r.feed.Feed? ==> top <= r.feed.cursor)
    && (c.replayStarts < c.replays ==> end == top)
    && (c.replayStarts == c.replays && r.feed.Feed? ==> end <= r.feed.cursor - |c.frames|)
  }

  /** The cursor the newest Replay asked for, as long as the sidecar has not passed its mark. */
  ghost function Base(r: Runner, c: Sidecar): int {
    if c.toRunner != [] then c.toRunner[|c.toRunner| - 1]
    else if r.feed.Feed? && !r.feed.started then r.feed.cursor
    else if r.feed.Feed? then r.feed.cursor - |Tail(c.frames)|
    else 0
  }

  ghost predicate NetInv(n: Net, fed: nat, served: Option<nat>) {
    && (forall sid :: sid in n.opens ==> sid < n.nextSid && n.opens[sid] <= fed)
    && (served.Some? ==> served.value in n.opens)
  }

  /** A stream the sidecar is about to use, or uses, names the cursor the manager is at. */
  ghost predicate IoInv(r: Runner, c: Sidecar, n: Net, served: Option<nat>, delivered: nat, top: nat, end: nat) {
    match c.io
    case IoIdle => true
    case IoOpening(sid) =>
      && sid < n.nextSid
      && (sid in n.opens ==> end == top <= n.opens[sid])
      && (served == Some(sid) ==> sid in n.opens && end == delivered == n.opens[sid])
    case IoActive(sid, replaying) =>
      && sid in n.opens
      && c.replays > 0
      && (replaying <==> c.replayStarts < c.replays)
      && (replaying ==> top <= Base(r, c) == n.opens[sid])
      && (!replaying ==> r.feed.Feed?)
      && (served == Some(sid) && replaying ==> end == delivered == n.opens[sid])
      && (served == Some(sid) && !replaying ==> end == r.feed.cursor - |c.frames|)
  }

  ghost predicate InboxInv(h: seq<AgentEvent>, inbox: seq<Frame>, consumed: int) {
    Stretch(EventsOf(inbox), h, consumed)
  }

  ghost predicate ConsumerInv(h: seq<AgentEvent>, phase: Phase, consumer: Consumer, consumed: int) {
    && 0 <= consumed <= |h|
    && (consumer.Busy? || consumer.Recorded? ==> phase.Live? && consumed > 0 && consumer.ev == h[consumed - 1])
    && (Owes(consumer) ==> phase.Live? && consumed > 0)
    && (phase.Opening? ==> consumed == 0)
    && (phase.Linking? ==> consumed == phase.ready == 1 && h[0].payload.SessionReady?)
  }

  ghost predicate AckInv(boxAcked: nat, m: Manager, consumed: int, acks: set<nat>) {
    && boxAcked <= m.acked <= consumed
    && (forall a :: a in acks ==> a <= m.acked)
    && (m.readyAck.Some? ==> m.phase.Live? && m.readyAck.value == 1 <= consumed)
  }

  /** Everything consumed is recorded; only a SessionReady whose link failed may be missing. */
  ghost predicate CaughtUp(h: seq<AgentEvent>, st: Store, consumed: int) {
    || st.podSeq == consumed
    || (st.podSeq == 0 && consumed == 1 && !st.running && h != [] && h[0].payload.SessionReady?)
  }

  /** The consumer holds an event it has not recorded. */
  predicate Owes(c: Consumer) {
    c.Busy? || (c.Stopped? && c.owed)
  }

  /** The durable record: exactly the rows of the events up to the pod cursor. */
  ghost predicate RecordInv(h: seq<AgentEvent>, m: Manager, st: Store, consumed: int) {
    && st.podSeq <= consumed
    && (st.running ==> m.phase.Live?)
    && (!st.ended ==>
          && (!m.phase.Live? ==> st.podSeq == 0)
          && (m.phase.Live? ==> CaughtUp(h, st, if Owes(m.consumer) then consumed - 1 else consumed))
          && (m.consumer.Recorded? ==> st.podSeq == consumed)
          && (m.readyAck.Some? ==> 1 <= st.podSeq)
          && (!m.phase.OpenFailed? ==> m.acked <= st.podSeq)
          && st.podSeq <= |h|
          && st.log == Rows(h[..st.podSeq]))
  }

  /** The part about the streams between runner and manager. */
  ghost predicate Up(r: Runner, c: Sidecar, m: Manager, n: Net) {
    && RunnerInv(r)
    && RelayInv(r, c)
    && ServeInv(r.history, m.delivered, m.serve)
    && LinkInv(r, c, Top(m), End(m))
    && NetInv(n, r.fed, ServedSid(m.serve))
    && IoInv(r, c, n, ServedSid(m.serve), m.delivered, Top(m), End(m))
  }

  /** The part about the inbox, its consumer, the store and the acks. */
  ghost predicate Down(h: seq<AgentEvent>, boxAcked: nat, m: Manager, st: Store, acks: set<nat>) {
    && InboxInv(h, m.inbox, Consumed(m))
    && ConsumerInv(h, m.phase, m.consumer, Consumed(m))
    && AckInv(boxAcked, m, Consumed(m), acks)
    && RecordInv(h, m, st, Consumed(m))
  }

  ghost predicate Inv(s: State) {
    && s.failure.None?
    && Up(s.runner, s.sidecar, s.mgr, s.net)
    && Down(s.runner.history, s.runner.box.acked, s.mgr, s.store, s.net.acks)
  }

  /** The consumer does not touch the streams. */
  lemma UpFrame(r: Runner, c: Sidecar, m: Manager, n: Net, m': Manager)
    requires Up(r, c, m, n)
    requires m'.serve == m.serve && m'.delivered == m.delivered
    ensures Up(r, c, m', n)
  {
  }

  /** The streams do not touch the consumer, until an event reaches the inbox. */
  lemma DownFrame(h: seq<AgentEvent>, boxAcked: nat, m: Manager, st: Store, acks: set<nat>, m': Manager)
    requires Down(h, boxAcked, m, st, acks)
    requires Top(m') == Top(m)
    requires m'.(serve := m.serve, delivered := m.delivered) == m
    ensures Down(h, boxAcked, m', st, acks)
  {
    assert Consumed(m') == Consumed(m);
  }

  lemma InitInv(max: nat)
    ensures Inv(Init(max))
  {
  }

  // ----- preservation: the runner -----

  lemma AppendRunner(r: Runner, c: Sidecar, ev: AgentEvent)
    requires RunnerInv(r) && RelayInv(r, c)
    ensures RunnerInv(AppendTo(r, ev)) && RelayInv(AppendTo(r, ev), c)
  {
    var e := ev.(num := |r.history| + 1);
    AppendHolds(r.box, r.history, ev);
    if r.feed.Feed? {
      StretchGrows(r.feed.batch, r.history, r.feed.cursor, e);
      if r.feed.started {
        StretchGrows(Tail(c.frames), r.history, r.feed.cursor - |Tail(c.frames)|, e);
      }
    }
  }

  lemma AppendServe(h: seq<AgentEvent>, m: Manager, e: AgentEvent)
    requires ServeInv(h, m.delivered, m.serve)
    ensures ServeInv(h + [e], m.delivered, m.serve)
  {
    if m.serve.Serving? {
      StretchGrows(EventsOf(m.serve.up), h, m.delivered + if PendingEvent(m.serve) then 1 else 0, e);
    }
  }

  lemma AppendUp(r: Runner, c: Sidecar, m: Manager, n: Net, ev: AgentEvent)
    requires Up(r, c, m, n)
    ensures Up(AppendTo(r, ev), c, m, n)
  {
    AppendRunner(r, c, ev);
    AppendServe(r.history, m, ev.(num := |r.history| + 1));
  }

  lemma AppendDown(r: Runner, m: Manager, st: Store, acks: set<nat>, ev: AgentEvent)
    requires Down(r.history, r.box.acked, m, st, acks)
    ensures Down(AppendTo(r, ev).history, AppendTo(r, ev).box.acked, m, st, acks)
  {
    var h, e := r.history, ev.(num := |r.history| + 1);
    StretchGrows(EventsOf(m.inbox), h, Consumed(m), e);
    if !st.ended {
      assert (h + [e])[..st.podSeq] == h[..st.podSeq];
    }
  }

  lemma RunnerAckUp(r: Runner, c: Sidecar, m: Manager, n: Net, a: nat)
    requires Up(r, c, m, n)
    ensures Up(r.(box := Ack(r.box, a)), c, m, n)
  {
    AckHolds(r.box, r.history, a);
  }

  lemma RunnerAckDown(h: seq<AgentEvent>, b: Box, m: Manager, st: Store, acks: set<nat>, a: nat)
    requires Down(h, b.acked, m, st, acks) && Holds(b, h) && a in acks
    ensures Down(h, Ack(b, a).acked, m, st, acks)
  {
    AckHolds(b, h, a);
  }

  lemma NextReplay(r: Runner, c: Sidecar, m: Manager, n: Net)
    requires Up(r, c, m, n) && c.toRunner != [] && r.feed.NoFeed?
    ensures Up(r.(feed := Feed(c.toRunner[0], false, [])), c.(toRunner := c.toRunner[1..]), m, n)
  {
    assert forall i :: 0 <= i < |c.toRunner[1..]| ==> c.toRunner[1..][i] == c.toRunner[i + 1];
  }

  /** The runner never refuses a Replay: its cursor is not before the last ack. */
  lemma ReplayUp(s: State)
    requires Inv(s) && CanReplay(s)
    ensures Check(s.runner.box, s.sidecar.toRunner[0]).Ok?
    ensures Inv(Replay(s))
  {
    assert s.runner.box.acked <= Top(s.mgr) <= s.sidecar.toRunner[0] <= s.runner.box.last;
    NextReplay(s.runner, s.sidecar, s.mgr, s.net);
  }

  lemma StartUp(s: State)
    requires Up(s.runner, s.sidecar, s.mgr, s.net) && CanStart(s.runner)
    ensures Up(Start(s).runner, Start(s).sidecar, s.mgr, s.net)
  {
    var c := s.sidecar;
    PushFrame(c.frames, Mark);
  }

  /** The feed never finds its cursor trimmed away. */
  lemma FetchUp(s: State)
    requires Inv(s) && CanFetch(s.runner)
    ensures After(s.runner.box, s.runner.feed.cursor).Ok? || After(s.runner.box, s.runner.feed.cursor).Wait?
    ensures Inv(Fetch(s))
  {
    AfterReads(s.runner.box, s.runner.history, s.runner.feed.cursor);
  }

  lemma SendRunner(r: Runner)
    requires RunnerInv(r) && CanSend(r)
    ensures RunnerInv(SendNext(r)) && SendNext(r).feed.cursor == r.feed.cursor + 1
    ensures r.feed.cursor < |r.history| && r.feed.batch[0] == r.history[r.feed.cursor]
  {
    StretchPop(r.feed.batch, r.history, r.feed.cursor);
  }

  lemma PushFrame(fs: seq<Frame>, f: Frame)
    ensures Marks(fs + [f]) == Marks(fs) + if f.Mark? then 1 else 0
    ensures Tail(fs + [f]) == if f.Ev? then Tail(fs) + [f.ev] else []
  {
    EventsOfConcat(fs, [f]);
    EventsOfOne(f);
    TailPush(fs, f);
  }

  lemma StretchSlide(es: seq<AgentEvent>, h: seq<AgentEvent>, end: int, e: AgentEvent)
    requires Stretch(es, h, end - |es|) && 0 <= end < |h| && e == h[end]
    ensures Stretch(es + [e], h, end + 1 - |es + [e]|)
  {
    StretchPush(es, h, end - |es|, e);
  }

  lemma SendRelay(r: Runner, c: Sidecar, d: Sidecar)
    requires RunnerInv(r) && RelayInv(r, c) && CanSend(r)
    requires d == c.(frames := c.frames + [Ev(r.feed.batch[0])])
    ensures RelayInv(SendNext(r), d) && Base(SendNext(r), d) == Base(r, c)
  {
    var e := r.feed.batch[0];
    SendRunner(r);
    PushFrame(c.frames, Ev(e));
    StretchSlide(Tail(c.frames), r.history, r.feed.cursor, e);
  }

  lemma SendUpKeeps(r: Runner, c: Sidecar, m: Manager, n: Net)
    requires Up(r, c, m, n) && CanSend(r)
    ensures Up(SendNext(r), c.(frames := c.frames + [Ev(r.feed.batch[0])]), m, n)
  {
    SendRunner(r);
    SendRelay(r, c, c.(frames := c.frames + [Ev(r.feed.batch[0])]));
  }

  // ----- preservation: the sidecar -----

  lemma OpenStreamUp(s: State)
    requires Up(s.runner, s.sidecar, s.mgr, s.net)
    ensures Up(s.runner, OpenStream(s).sidecar, s.mgr, OpenStream(s).net)
  {
  }

  lemma RecvOpenUp(s: State)
    requires Up(s.runner, s.sidecar, s.mgr, s.net) && CanRecvOpen(s)
    ensures Up(s.runner, RecvOpen(s).sidecar, s.mgr, s.net)
  {
  }

  /** Dropping an event before the last mark leaves the newest feed's events. */
  lemma TailSkip(fs: seq<Frame>)
    requires fs != [] && fs[0].Ev?
    ensures Marks(fs[1..]) == Marks(fs)
    ensures Marks(fs) > 0 ==> Tail(fs[1..]) == Tail(fs)
    ensures Marks(fs) == 0 ==> Tail(fs) == [fs[0].ev] + Tail(fs[1..])
  {
  }

  /** Reading a mark keeps the count of replays; reading the last one leaves the newest feed's events. */
  lemma PopMarkRelay(r: Runner, c: Sidecar)
    requires RelayInv(r, c) && CanPop(c) && c.frames[0].Mark?
    ensures RelayInv(r, PopFrame(c)) && Base(r, PopFrame(c)) == Base(r, c)
    ensures PopFrame(c).replayStarts == c.replays ==>
              r.feed.Feed? && Base(r, PopFrame(c)) == r.feed.cursor - |PopFrame(c).frames|
  {
    assert Tail(c.frames) == Tail(c.frames[1..]);
    if c.replayStarts + 1 == c.replays {
      TailNoMarks(c.frames[1..]);
    }
  }

  lemma PopEventRelay(r: Runner, c: Sidecar)
    requires RelayInv(r, c) && CanPop(c) && c.frames[0].Ev?
    ensures RelayInv(r, PopFrame(c))
    ensures c.replayStarts < c.replays ==> Base(r, PopFrame(c)) == Base(r, c)
  {
    TailSkip(c.frames);
    if Marks(c.frames) == 0 {
      TailNoMarks(c.frames);
    }
    if r.feed.Feed? && r.feed.started && Marks(c.frames) == 0 {
      StretchPop(Tail(c.frames), r.history, r.feed.cursor - |Tail(c.frames)|);
    }
  }

  /** Behind the newest mark the next event is where the feed's cursor says. */
  lemma PopEventNext(r: Runner, c: Sidecar)
    requires RelayInv(r, c) && CanPop(c) && c.frames[0].Ev? && c.replayStarts == c.replays && r.feed.Feed?
    ensures 0 <= r.feed.cursor - |c.frames| < |r.history| && c.frames[0].ev == r.history[r.feed.cursor - |c.frames|]
  {
    TailNoMarks(c.frames);
    TailSkip(c.frames);
    StretchPop(Tail(c.frames), r.history, r.feed.cursor - |Tail(c.frames)|);
  }

  lemma SendUpServe(h: seq<AgentEvent>, m: Manager, sid: nat, f: Frame)
    requires ServeInv(h, m.delivered, m.serve)
    requires f.Ev? && ServedSid(m.serve) == Some(sid) ==> End(m) < |h| && f.ev == h[End(m)]
    ensures ServeInv(h, m.delivered, SendUp(m, sid, f).serve)
    ensures Top(SendUp(m, sid, f)) == Top(m)
    ensures End(SendUp(m, sid, f)) == End(m) + if f.Ev? && ServedSid(m.serve) == Some(sid) then 1 else 0
  {
    if ServedSid(m.serve) == Some(sid) {
      EventsOfConcat(m.serve.up, [f]);
      EventsOfOne(f);
      if f.Ev? {
        StretchPush(EventsOf(m.serve.up), h, m.delivered + if PendingEvent(m.serve) then 1 else 0, f.ev);
      }
    }
  }

  /** Frames of an earlier Replay are skipped; the newest mark ends the skipping. */
  lemma PopMarkUp(s: State)
    requires Up(s.runner, s.sidecar, s.mgr, s.net) && CanPop(s.sidecar) && s.sidecar.frames[0].Mark?
    ensures Up(s.runner, Pop(s).sidecar, Pop(s).mgr, s.net)
  {
    PopMarkRelay(s.runner, s.sidecar);
    SendUpServe(s.runner.history, s.mgr, s.sidecar.io.sid, Mark);
  }

  lemma PopEventUp(s: State)
    requires Up(s.runner, s.sidecar, s.mgr, s.net) && CanPop(s.sidecar) && s.sidecar.frames[0].Ev?
    ensures Up(s.runner, Pop(s).sidecar, Pop(s).mgr, s.net)
  {
    PopEventRelay(s.runner, s.sidecar);
    if Relays(s.sidecar) {
      PopEventNext(s.runner, s.sidecar);
      SendUpServe(s.runner.history, s.mgr, s.sidecar.io.sid, s.sidecar.frames[0]);
    }
  }

  /** What the sidecar sends does not reach the inbox by itself. */
  lemma PopDown(h: seq<AgentEvent>, boxAcked: nat, m: Manager, st: Store, acks: set<nat>, sid: nat, f: Frame)
    requires Down(h, boxAcked, m, st, acks)
    ensures Down(h, boxAcked, SendUp(m, sid, f), st, acks)
  {
    DownFrame(h, boxAcked, m, st, acks, SendUp(m, sid, f));
  }

  lemma DropUp(s: State)
    requires Up(s.runner, s.sidecar, s.mgr, s.net)
    ensures Up(s.runner, DropStream(s).sidecar, s.mgr, s.net)
  {
  }

  lemma RestartUp(s: State)
    requires Up(s.runner, s.sidecar, s.mgr, s.net)
    ensures Up(Restart(s).runner, Restart(s).sidecar, s.mgr, s.net)
  {
  }

  // ----- preservation: the manager's AgentIO stream -----

  lemma ServeStreamUp(s: State, sid: nat)
    requires Up(s.runner, s.sidecar, s.mgr, s.net) && CanServe(s, sid)
    ensures Up(s.runner, s.sidecar, ServeStream(s, sid).mgr, ServeStream(s, sid).net)
  {
  }

  lemma TakeUp(h: seq<AgentEvent>, m: Manager)
    requires ServeInv(h, m.delivered, m.serve) && CanReceive(m)
    ensures var v := m.serve.(up := m.serve.up[1..], pending := Some(m.serve.up[0]));
            ServeInv(h, m.delivered, v) && End(m.(serve := v)) == End(m) && Top(m.(serve := v)) == Top(m)
    ensures m.serve.up[0].Ev? ==> m.delivered < |h| && m.serve.up[0].ev == h[m.delivered]
  {
    if m.serve.up[0].Ev? {
      StretchPop(EventsOf(m.serve.up), h, m.delivered);
    }
  }

  /** No received event is a protocol violation: each is the one after the delivered cursor. */
  lemma ReceiveUp(s: State)
    requires Up(s.runner, s.sidecar, s.mgr, s.net) && CanReceive(s.mgr)
    ensures s.mgr.serve.up[0].Ev? ==> s.mgr.serve.up[0].ev.num == s.mgr.delivered + 1
    ensures Receive(s) == s.(mgr := Receive(s).mgr) && Top(Receive(s).mgr) == Top(s.mgr)
    ensures Up(s.runner, s.sidecar, Receive(s).mgr, s.net)
  {
    TakeUp(s.runner.history, s.mgr);
  }

  lemma PushCursors(h: seq<AgentEvent>, m: Manager)
    requires CanPush(m) && ServeInv(h, m.delivered, m.serve)
    ensures ServeInv(h, m.delivered, Push(m).serve)
    ensures End(Push(m)) == End(m) && Top(Push(m)) == Top(m) + if m.serve.pending.value.Ev? then 1 else 0
  {
    assert PendingEvent(Push(m).serve) == PendingEvent(m.serve);
  }

  lemma PushUp(r: Runner, c: Sidecar, m: Manager, n: Net)
    requires Up(r, c, m, n) && CanPush(m)
    ensures Up(r, c, Push(m), n)
  {
    PushCursors(r.history, m);
  }

  lemma PushInbox(h: seq<AgentEvent>, inbox: seq<Frame>, consumed: int, f: Frame)
    requires InboxInv(h, inbox, consumed)
    requires f.Ev? ==> consumed + |EventsOf(inbox)| < |h| && f.ev == h[consumed + |EventsOf(inbox)|]
    ensures |EventsOf(inbox + [f])| == |EventsOf(inbox)| + if f.Ev? then 1 else 0
    ensures InboxInv(h, inbox + [f], consumed)
  {
    EventsOfConcat(inbox, [f]);
    EventsOfOne(f);
    if f.Ev? {
      StretchPush(EventsOf(inbox), h, consumed, f.ev);
    }
  }

  lemma PushDown(h: seq<AgentEvent>, boxAcked: nat, m: Manager, st: Store, acks: set<nat>)
    requires Down(h, boxAcked, m, st, acks) && CanPush(m) && ServeInv(h, m.delivered, m.serve)
    ensures Down(h, boxAcked, Push(m), st, acks)
  {
    PushInbox(h, m.inbox, Consumed(m), m.serve.pending.value);
    PushCursors(h, m);
    assert Consumed(Push(m)) == Consumed(m);
  }

  lemma SetDeliveredCursors(h: seq<AgentEvent>, m: Manager)
    requires CanSetDelivered(m) && ServeInv(h, m.delivered, m.serve)
    requires forall i :: 0 <= i < |h| ==> h[i].num == i + 1
    ensures ServeInv(h, SetDelivered(m).delivered, SetDelivered(m).serve)
    ensures Top(SetDelivered(m)) == Top(m) && End(SetDelivered(m)) == End(m)
  {
  }

  lemma SetDeliveredUp(r: Runner, c: Sidecar, m: Manager, n: Net)
    requires Up(r, c, m, n) && CanSetDelivered(m)
    ensures Up(r, c, SetDelivered(m), n) && Top(SetDelivered(m)) == Top(m)
  {
    SetDeliveredCursors(r.history, m);
  }

  lemma ServeEndUp(r: Runner, c: Sidecar, m: Manager, n: Net)
    requires Up(r, c, m, n) && m.serve.Serving? && !m.serve.pushed
    ensures Up(r, c, m.(serve := NotServing), n) && Top(m.(serve := NotServing)) == Top(m)
  {
  }

  lemma SendAckKeeps(r: Runner, c: Sidecar, m: Manager, st: Store, n: Net)
    requires Up(r, c, m, n) && Down(r.history, r.box.acked, m, st, n.acks)
    ensures Up(r, c, m, SendAck(n, m)) && Down(r.history, r.box.acked, m, st, SendAck(n, m).acks)
  {
  }

  // ----- preservation: the manager's consumer and the store -----

  lemma TakeInbox(h: seq<AgentEvent>, inbox: seq<Frame>, consumed: int)
    requires InboxInv(h, inbox, consumed) && inbox != []
    ensures inbox[0].Mark? ==> EventsOf(inbox[1..]) == EventsOf(inbox) && InboxInv(h, inbox[1..], consumed)
    ensures inbox[0].Ev? ==>
              && |EventsOf(inbox[1..])| == |EventsOf(inbox)| - 1
              && consumed < |h| && inbox[0].ev == h[consumed]
              && InboxInv(h, inbox[1..], consumed + 1)
  {
    if inbox[0].Ev? {
      StretchPop(EventsOf(inbox), h, consumed);
    }
  }

  lemma TakeOpeningDown(h: seq<AgentEvent>, boxAcked: nat, m: Manager, st: Store, acks: set<nat>)
    requires Down(h, boxAcked, m, st, acks) && m.phase.Opening? && m.inbox != []
    requires forall i :: 0 <= i < |h| ==> h[i].num == i + 1
    ensures Down(h, boxAcked, TakeOpening(m), st, acks)
  {
    TakeInbox(h, m.inbox, Consumed(m));
    assert Consumed(TakeOpening(m)) == Consumed(m) + if m.inbox[0].Ev? then 1 else 0;
  }

  lemma LinkDown(s: State, written: bool, running: bool)
    requires Down(s.runner.history, s.runner.box.acked, s.mgr, s.store, s.net.acks)
    requires s.mgr.phase.Linking? && (running ==> written)
    ensures var t := WriteLink(s, written, running);
            Down(s.runner.history, s.runner.box.acked, t.mgr, t.store, s.net.acks)
  {
    RowsPush(s.runner.history, 0);
    assert Consumed(WriteLink(s, written, running).mgr) == Consumed(s.mgr);
  }

  lemma ReadyAckDown(h: seq<AgentEvent>, boxAcked: nat, m: Manager, st: Store, acks: set<nat>)
    requires Down(h, boxAcked, m, st, acks) && m.readyAck.Some?
    ensures Down(h, boxAcked, SendReadyAck(m), st, acks)
  {
    assert Consumed(SendReadyAck(m)) == Consumed(m);
  }

  lemma TakeDown(h: seq<AgentEvent>, boxAcked: nat, m: Manager, st: Store, acks: set<nat>)
    requires Down(h, boxAcked, m, st, acks) && CanTake(m)
    ensures Down(h, boxAcked, Take(m), st, acks)
  {
    TakeInbox(h, m.inbox, Consumed(m));
    assert Consumed(Take(m)) == Consumed(m) + if m.inbox[0].Ev? then 1 else 0;
  }

  lemma ReadyHasNoRow(h: seq<AgentEvent>)
    requires h != [] && h[0].payload.SessionReady?
    ensures Rows(h[..1]) == [] && Rows(h[..0]) == []
  {
    RowsPush(h, 0);
    assert h[..0] == [];
  }

  lemma RecordDown(s: State, read: bool)
    requires Down(s.runner.history, s.runner.box.acked, s.mgr, s.store, s.net.acks) && s.mgr.consumer.Busy?
    requires forall i :: 0 <= i < |s.runner.history| ==> s.runner.history[i].num == i + 1
    ensures var t := RecordBusy(s, read);
            Down(s.runner.history, s.runner.box.acked, t.mgr, t.store, s.net.acks)
  {
    var h, n := s.runner.history, Consumed(s.mgr) - 1;
    RowsPush(h, n);
    if !s.store.ended && s.store.podSeq != n {
      ReadyHasNoRow(h);
    }
    assert Consumed(RecordBusy(s, read).mgr) == Consumed(s.mgr);
  }

  lemma AckRecordedDown(h: seq<AgentEvent>, boxAcked: nat, m: Manager, st: Store, acks: set<nat>)
    requires Down(h, boxAcked, m, st, acks) && m.consumer.Recorded?
    requires forall i :: 0 <= i < |h| ==> h[i].num == i + 1
    ensures Down(h, boxAcked, AckRecorded(m), st, acks)
  {
    assert Consumed(AckRecorded(m)) == Consumed(m);
  }

  lemma StopDown(h: seq<AgentEvent>, boxAcked: nat, m: Manager, st: Store, acks: set<nat>)
    requires Down(h, boxAcked, m, st, acks)
    ensures m.phase.Live? && !m.consumer.Stopped? ==> Down(h, boxAcked, StopConsumer(m), st, acks)
    ensures Down(h, boxAcked, m, st.(ended := true), acks)
  {
    assert Consumed(StopConsumer(m)) == Consumed(m);
  }

  lemma AdoptKeeps(s: State)
    requires Inv(s) && s.store.running && !s.store.ended
    ensures Inv(Adopt(s))
  {
  }

  // ----- every step, every run -----

  lemma ReleaseAndStopUp(r: Runner, c: Sidecar, m: Manager, n: Net)
    requires Up(r, c, m, n)
    ensures Up(r.(box := r.box.(open := true)), c, m, n)
    ensures c.toRunner != [] && CanFetch(r) ==> Up(r.(feed := NoFeed), c, m, n)
  {
  }

  lemma AppendKeeps(s: State, ev: AgentEvent)
    requires Inv(s)
    ensures Inv(s.(runner := AppendTo(s.runner, ev)))
  {
    AppendUp(s.runner, s.sidecar, s.mgr, s.net, ev);
    AppendDown(s.runner, s.mgr, s.store, s.net.acks, ev);
  }

  lemma AckKeeps(s: State, a: nat)
    requires Inv(s) && a in s.net.acks
    ensures Inv(s.(runner := s.runner.(box := Ack(s.runner.box, a))))
  {
    RunnerAckUp(s.runner, s.sidecar, s.mgr, s.net, a);
    RunnerAckDown(s.runner.history, s.runner.box, s.mgr, s.store, s.net.acks, a);
  }

  lemma RunnerStepKeeps(s: State, st: Step)
    requires Inv(s) && Enabled(s, st)
    requires st.AppendEvent? || st.ReleaseBox? || st.RunnerAck? || st.FeedStop?
    ensures Inv(Apply(s, st))
  {
    match st
    case AppendEvent(ev, _) => AppendKeeps(s, ev);
    case RunnerAck(a) => AckKeeps(s, a);
    case _ => ReleaseAndStopUp(s.runner, s.sidecar, s.mgr, s.net);
  }

  lemma FeedStepKeeps(s: State, st: Step)
    requires Inv(s) && Enabled(s, st)
    requires st.RunnerReplay? || st.FeedStart? || st.FeedFetch? || st.FeedSend?
    ensures Inv(Apply(s, st))
  {
    match st
    case RunnerReplay => ReplayUp(s);
    case FeedStart => StartUp(s);
    case FeedFetch => FetchUp(s);
    case FeedSend => SendUpKeeps(s.runner, s.sidecar, s.mgr, s.net);
  }

  lemma SidecarStepKeeps(s: State, st: Step)
    requires Inv(s) && Enabled(s, st)
    requires st.SidecarOpen? || st.SidecarRecvOpen? || st.SidecarPop? || st.SidecarDrop? || st.SidecarRestart?
    ensures Inv(Apply(s, st))
  {
    match st
    case SidecarOpen => OpenStreamUp(s);
    case SidecarRecvOpen => RecvOpenUp(s);
    case SidecarPop =>
      if s.sidecar.frames[0].Mark? {
        PopMarkUp(s);
      } else {
        PopEventUp(s);
      }
      PopDown(s.runner.history, s.runner.box.acked, s.mgr, s.store, s.net.acks, s.sidecar.io.sid, s.sidecar.frames[0]);
    case SidecarDrop => DropUp(s);
    case SidecarRestart => RestartUp(s);
  }

  lemma ServeStepKeeps(s: State, st: Step)
    requires Inv(s) && Enabled(s, st)
    requires
      || st.ServeOpen? || st.ServeRecv? || st.ServePush?
      || st.ServeSetDelivered? || st.ServeEnd? || st.ServeSendAck?
    ensures Inv(Apply(s, st))
  {
    var r, c, m, n := s.runner, s.sidecar, s.mgr, s.net;
    var t := Apply(s, st);
    match st
    case ServeOpen(sid) =>
      ServeStreamUp(s, sid);
      DownFrame(r.history, r.box.acked, m, s.store, n.acks, t.mgr);
    case ServeRecv =>
      ReceiveUp(s);
      DownFrame(r.history, r.box.acked, m, s.store, n.acks, t.mgr);
    case ServePush =>
      PushUp(r, c, m, n);
      PushDown(r.history, r.box.acked, m, s.store, n.acks);
    case ServeSetDelivered =>
      SetDeliveredUp(r, c, m, n);
      DownFrame(r.history, r.box.acked, m, s.store, n.acks, t.mgr);
    case ServeEnd =>
      ServeEndUp(r, c, m, n);
      DownFrame(r.history, r.box.acked, m, s.store, n.acks, t.mgr);
    case ServeSendAck => SendAckKeeps(r, c, m, s.store, n);
  }

  ghost predicate ConsumerStep(st: Step) {
    || st.OpenTake? || st.Link? || st.AckReady?
    || st.ConsumeTake? || st.ConsumeRecord? || st.ConsumeAck? || st.ConsumeStop?
    || st.EndSession?
  }

  lemma ConsumerStepFrame(s: State, st: Step)
    requires Enabled(s, st) && ConsumerStep(st)
    ensures var t := Apply(s, st);
            && t == s.(mgr := t.mgr, store := t.store)
            && t.mgr.serve == s.mgr.serve && t.mgr.delivered == s.mgr.delivered
  {
  }

  lemma ConsumerStepDown(s: State, st: Step)
    requires Inv(s) && Enabled(s, st) && ConsumerStep(st)
    ensures Down(s.runner.history, s.runner.box.acked, Apply(s, st).mgr, Apply(s, st).store, s.net.acks)
  {
    var r, m, acks := s.runner, s.mgr, s.net.acks;
    match st
    case OpenTake => TakeOpeningDown(r.history, r.box.acked, m, s.store, acks);
    case Link(written, running) => LinkDown(s, written, running);
    case AckReady => ReadyAckDown(r.history, r.box.acked, m, s.store, acks);
    case ConsumeTake => TakeDown(r.history, r.box.acked, m, s.store, acks);
    case ConsumeRecord(read) => RecordDown(s, read);
    case ConsumeAck => AckRecordedDown(r.history, r.box.acked, m, s.store, acks);
    case _ => StopDown(r.history, r.box.acked, m, s.store, acks);
  }

  lemma ConsumerStepKeeps(s: State, st: Step)
    requires Inv(s) && Enabled(s, st) && ConsumerStep(st)
    ensures Inv(Apply(s, st))
  {
    ConsumerStepFrame(s, st);
    ConsumerStepDown(s, st);
    UpFrame(s.runner, s.sidecar, s.mgr, s.net, Apply(s, st).mgr);
  }

  lemma StepKeeps(s: State, st: Step)
    requires Inv(s) && Enabled(s, st)
    ensures Inv(Apply(s, st))
  {
    match st
    case AppendEvent(_, _) => RunnerStepKeeps(s, st);
    case ReleaseBox => RunnerStepKeeps(s, st);
    case RunnerAck(_) => RunnerStepKeeps(s, st);
    case RunnerReplay => FeedStepKeeps(s, st);
    case FeedStart => FeedStepKeeps(s, st);
    case FeedFetch => FeedStepKeeps(s, st);
    case FeedSend => FeedStepKeeps(s, st);
    case FeedStop => RunnerStepKeeps(s, st);
    case SidecarOpen => SidecarStepKeeps(s, st);
    case SidecarRecvOpen => SidecarStepKeeps(s, st);
    case SidecarPop => SidecarStepKeeps(s, st);
    case SidecarDrop => SidecarStepKeeps(s, st);
    case SidecarRestart => SidecarStepKeeps(s, st);
    case ServeOpen(_) => ServeStepKeeps(s, st);
    case ServeRecv => ServeStepKeeps(s, st);
    case ServePush => ServeStepKeeps(s, st);
    case ServeSetDelivered => ServeStepKeeps(s, st);
    case ServeEnd => ServeStepKeeps(s, st);
    case ServeSendAck => ServeStepKeeps(s, st);
    case CrashAdopt => AdoptKeeps(s);
    case _ => ConsumerStepKeeps(s, st);
  }

  lemma {:induction false} RunKeeps(max: nat, states: seq<State>, steps: seq<Step>, i: nat)
    requires IsRun(max, states, steps) && i < |states|
    ensures Inv(states[i])
  {
    if i == 0 {
      InitInv(max);
    } else {
      RunKeeps(max, states, steps, i - 1);
      StepKeeps(states[i - 1], steps[i - 1]);
      assert states[i - 1 + 1] == Apply(states[i - 1], steps[i - 1]);
    }
  }

  // ----- the results -----

  /** Exactly once: as long as the session has not ended, its durable rows are the rows of the
      runner's events 1..PodSeq, in order, with no gap and no duplicate. */
  lemma RecordedExactlyOnce(max: nat, states: seq<State>, steps: seq<Step>, i: nat)
    requires IsRun(max, states, steps) && i < |states|
    ensures var s := states[i];
            !s.store.ended ==>
              s.store.podSeq <= |s.runner.history| && s.store.log == Rows(s.runner.history[..s.store.podSeq])
  {
    RunKeeps(max, states, steps, i);
  }

  /** The cursors stay ordered. The runner's ack trails the manager's, which trails the pod cursor as long as
      the session has not ended and did not fail to open; the pod cursor trails what was put into the inbox,
      what was fed and what was appended. */
  lemma CursorsStayOrdered(max: nat, states: seq<State>, steps: seq<Step>, i: nat)
    requires IsRun(max, states, steps) && i < |states|
    ensures var s := states[i];
            && s.runner.box.acked <= s.mgr.acked
            && (!s.store.ended && !s.mgr.phase.OpenFailed? ==> s.mgr.acked <= s.store.podSeq)
            && s.store.podSeq <= Top(s.mgr) <= s.runner.fed <= s.runner.box.last
            && Holds(s.runner.box, s.runner.history)
  {
    RunKeeps(max, states, steps, i);
  }

  /** The pod cursor overtakes `delivered` exactly while serveIO has put an event into the inbox and not yet
      moved its cursor, and the consumer has already taken that event out and recorded it: no event is left in
      the inbox, and the consumer holds none. */
  lemma PodSeqOvertakesDeliveredIff(max: nat, states: seq<State>, steps: seq<Step>, i: nat)
    requires IsRun(max, states, steps) && i < |states| && !states[i].store.ended && states[i].store.podSeq > 0
    ensures var s := states[i];
            s.store.podSeq > s.mgr.delivered <==>
              && s.mgr.serve.Serving? && s.mgr.serve.pushed
              && EventsOf(s.mgr.inbox) == [] && !Owes(s.mgr.consumer)
  {
    RunKeeps(max, states, steps, i);
  }

  /** No run reaches a refused Replay, a feed whose cursor was trimmed, or a protocol violation. */
  lemma NothingFails(max: nat, states: seq<State>, steps: seq<Step>, i: nat)
    requires IsRun(max, states, steps) && i < |states|
    ensures states[i].failure.None?
    ensures forall a :: a in states[i].sidecar.toRunner ==> Check(states[i].runner.box, a).Ok?
    ensures CanReceive(states[i].mgr) && states[i].mgr.serve.up[0].Ev? ==>
              states[i].mgr.serve.up[0].ev.num == states[i].mgr.delivered + 1
  {
    RunKeeps(max, states, steps, i);
    if CanReceive(states[i].mgr) {
      ReceiveUp(states[i]);
    }
  }

  /** Everything has been carried: the relay streams to the stream the manager serves, nothing is in
      flight, and the consumer waits at an empty inbox. */
  ghost predicate Quiet(s: State) {
    && s.sidecar.io.IoActive? && s.sidecar.frames == [] && s.sidecar.toRunner == []
    && ServedSid(s.mgr.serve) == Some(s.sidecar.io.sid)
    && s.mgr.serve.up == [] && s.mgr.serve.pending.None?
    && s.runner.feed.Feed? && s.runner.feed.started && s.runner.feed.cursor == s.runner.box.last
    && s.mgr.phase.Live? && s.mgr.consumer.Idle? && s.mgr.inbox == []
  }

  /** Nothing is stuck: in a quiet state of a session that has not ended, every event the runner
      ever appended is in the record. */
  lemma QuietIsComplete(max: nat, states: seq<State>, steps: seq<Step>, i: nat)
    requires IsRun(max, states, steps) && i < |states| && Quiet(states[i]) && !states[i].store.ended
    ensures states[i].store.log == Rows(states[i].runner.history)
  {
    var s := states[i];
    RunKeeps(max, states, steps, i);
    assert Consumed(s.mgr) == s.mgr.delivered == End(s.mgr) == |s.runner.history|;
    if s.store.podSeq == Consumed(s.mgr) {
      assert s.runner.history[..s.store.podSeq] == s.runner.history;
    } else {
      ReadyHasNoRow(s.runner.history);
      assert s.runner.history[..1] == s.runner.history;
    }
  }
}
