/** The pod event pipeline: how one run's agent events travel from the runner's outbox, through the
    sidecar's relay and the manager's AgentIO stream, into the session's durable log, and how the
    acks travel back.

    The model is a step machine over the state of all four processes. Between any two steps
    any other enabled step may happen, streams drop and are superseded, the sidecar restarts and
    joins again, and the manager process crashes and adopts the session again. */
module PodPipeline {
  import opened Common
  import opened Outboxes

  // ----- frames -----

  /** A frame of either event stream. `Mark` is ReplayStart between runner and sidecar; the sidecar
      relays it as the State frame of the AgentIO stream. */
  datatype Frame = Mark | Ev(ev: AgentEvent)

  function EventsOf(fs: seq<Frame>): seq<AgentEvent> {
    if fs == [] then []
    else (match fs[0] case Mark => [] case Ev(e) => [e]) + EventsOf(fs[1..])
  }

  function Marks(fs: seq<Frame>): nat {
    if fs == [] then 0 else (if fs[0].Mark? then 1 else 0) + Marks(fs[1..])
  }

  /** The events after the last mark. */
  function Tail(fs: seq<Frame>): seq<AgentEvent> {
    if Marks(fs) == 0 then EventsOf(fs) else Tail(fs[1..])
  }

  // ----- the durable rows -----

  datatype Row = Row(turnId: nat, body: int, endsTurn: bool)

  function RowOf(e: AgentEvent): seq<Row> {
    match e.payload
    case Content(body, endsTurn) => [Row(e.turnId, body, endsTurn)]
    case _ => []
  }

  function Rows(es: seq<AgentEvent>): seq<Row> {
    if es == [] then [] else Rows(es[..|es| - 1]) + RowOf(es[|es| - 1])
  }

  // ----- state -----

  /** A running feed: `started` once it sent its ReplayStart; `batch` is what it last read from the
      outbox and did not send yet. */
  datatype Feed = NoFeed | Feed(cursor: nat, started: bool, batch: seq<AgentEvent>)

  /** `history` is every event ever appended and `fed` the highest number a feed ever sent. */
  datatype Runner = Runner(box: Box, history: seq<AgentEvent>, feed: Feed, fed: nat)

  /** The sidecar's agentIO call. `sid` numbers the AgentIO streams it opens. */
  datatype Io = IoIdle | IoOpening(sid: nat) | IoActive(sid: nat, replaying: bool)

  /** `toRunner` holds the Replay cursors the runner has not handled, `frames` what the runner sent
      and the sidecar has not read. */
  datatype Sidecar = Sidecar(io: Io, replays: nat, replayStarts: nat, toRunner: seq<nat>, frames: seq<Frame>)

  /** The manager's serveIO loop. `up` is in flight from the sidecar; `pushed` says that the pending
      event is in the inbox and `setDelivered` has not run yet. */
  datatype Serve = NotServing | Serving(sid: nat, up: seq<Frame>, pending: Option<Frame>, pushed: bool)

  /** A consumer that stopped with `owed` had taken an event and not recorded it. */
  datatype Consumer = Idle | Busy(ev: AgentEvent) | Recorded(ev: AgentEvent) | Stopped(owed: bool)

  /** `Opening` waits for SessionReady; `Linking` writes the link; `Live` consumes. */
  datatype Phase = Opening | Linking(ready: nat) | Live | OpenFailed

  datatype Manager = Manager(phase: Phase, serve: Serve, delivered: nat, acked: nat, inbox: seq<Frame>,
                             consumer: Consumer, readyAck: Option<nat>)

  /** `running` tells that the link was recorded in full, so that the session can be adopted. */
  datatype Store = Store(podSeq: nat, log: seq<Row>, running: bool, ended: bool)

  /** `opens` maps a served stream to the cursor its Open frame named; `acks` are the acks sent
      to the sidecar, each of which may reach the runner at any time, in any order, or never. */
  datatype Net = Net(nextSid: nat, opens: map<nat, nat>, acks: set<nat>)

  datatype Failure = ReplayRefused | FeedLost | ProtocolViolation

  datatype State = State(runner: Runner, sidecar: Sidecar, mgr: Manager, store: Store, net: Net,
                         failure: Option<Failure>)

  const INBOX_SIZE := 256

  function Init(max: nat): State {
    State(Runner(EmptyBox(max), [], NoFeed, 0),
          Sidecar(IoIdle, 0, 0, [], []),
          Manager(Opening, NotServing, 0, 0, [], Idle, None),
          Store(0, [], false, false),
          Net(0, map[], {}),
          None)
  }

  // ----- steps -----

  // Each step is a guard and a function of the state; `Enabled` and `Apply` dispatch to them.

  // The runner.

  function AppendTo(r: Runner, ev: AgentEvent): Runner {
    r.(box := Append(r.box, ev), history := r.history + [ev.(num := |r.history| + 1)])
  }

  predicate CanReplay(s: State) {
    s.sidecar.toRunner != [] && s.runner.feed.NoFeed?
  }

  /** The runner handles the next Replay, once the previous feed has stopped. */
  function Replay(s: State): State
    requires CanReplay(s)
  {
    var after := s.sidecar.toRunner[0];
    if Check(s.runner.box, after).Ok? then
      s.(runner := s.runner.(feed := Feed(after, false, [])),
         sidecar := s.sidecar.(toRunner := s.sidecar.toRunner[1..]))
    else s.(failure := Some(ReplayRefused))
  }

  predicate CanStart(r: Runner) {
    r.feed.Feed? && !r.feed.started
  }

  function Start(s: State): State
    requires CanStart(s.runner)
  {
    s.(runner := s.runner.(feed := s.runner.feed.(started := true)),
       sidecar := s.sidecar.(frames := s.sidecar.frames + [Mark]))
  }

  predicate CanFetch(r: Runner) {
    r.feed.Feed? && r.feed.started && r.feed.batch == []
  }

  function Fetch(s: State): State
    requires CanFetch(s.runner)
  {
    match After(s.runner.box, s.runner.feed.cursor)
    case Ok(evs) => s.(runner := s.runner.(feed := s.runner.feed.(batch := evs)))
    case Wait => s
    case _ => s.(failure := Some(FeedLost))
  }

  predicate CanSend(r: Runner) {
    r.feed.Feed? && r.feed.batch != []
  }

  /** The feed sends the next event of its batch. */
  function SendNext(r: Runner): Runner
    requires CanSend(r)
  {
    var e := r.feed.batch[0];
    r.(feed := Feed(e.num, r.feed.started, r.feed.batch[1..]), fed := Max(r.fed, e.num))
  }

  function Send(s: State): State
    requires CanSend(s.runner)
  {
    s.(runner := SendNext(s.runner),
       sidecar := s.sidecar.(frames := s.sidecar.frames + [Ev(s.runner.feed.batch[0])]))
  }

  // The sidecar.

  function OpenStream(s: State): State {
    s.(sidecar := s.sidecar.(io := IoOpening(s.net.nextSid)), net := s.net.(nextSid := s.net.nextSid + 1))
  }

  predicate CanRecvOpen(s: State) {
    s.sidecar.io.IoOpening? && s.sidecar.io.sid in s.net.opens
  }

  /** The manager's Open arrives: the sidecar asks the runner to replay after the cursor it names. */
  function RecvOpen(s: State): State
    requires CanRecvOpen(s)
  {
    var c := s.sidecar;
    s.(sidecar := c.(io := IoActive(c.io.sid, true), replays := c.replays + 1,
                     toRunner := c.toRunner + [s.net.opens[c.io.sid]]))
  }

  /** A frame the sidecar sends on stream `sid`: it arrives only while the manager serves that stream. */
  function SendUp(m: Manager, sid: nat, f: Frame): Manager {
    if m.serve.Serving? && m.serve.sid == sid then m.(serve := m.serve.(up := m.serve.up + [f])) else m
  }

  predicate CanPop(c: Sidecar) {
    c.io.IoActive? && c.frames != []
  }

  /** The sidecar reads one frame of the runner, counts marks and skips what an earlier Replay asked for. */
  function PopFrame(c: Sidecar): Sidecar
    requires CanPop(c)
  {
    var rest := c.(frames := c.frames[1..]);
    if c.frames[0].Ev? then rest
    else
      var counted := rest.(replayStarts := c.replayStarts + 1);
      if counted.replayStarts < c.replays then counted else counted.(io := c.io.(replaying := false))
  }

  /** What it reads goes up to the manager unless it is skipped. */
  predicate Relays(c: Sidecar)
    requires CanPop(c)
  {
    if c.frames[0].Ev? then !c.io.replaying else c.replayStarts + 1 >= c.replays
  }

  function Pop(s: State): State
    requires CanPop(s.sidecar)
  {
    s.(sidecar := PopFrame(s.sidecar),
       mgr := if Relays(s.sidecar) then SendUp(s.mgr, s.sidecar.io.sid, s.sidecar.frames[0]) else s.mgr)
  }

  function DropStream(s: State): State {
    s.(sidecar := s.sidecar.(io := IoIdle))
  }

  /** A new sidecar process joins on a new runner stream; the old stream and its feed are gone. */
  function Restart(s: State): State {
    s.(sidecar := Sidecar(IoIdle, 0, 0, [], []), runner := s.runner.(feed := NoFeed))
  }

  // The manager's AgentIO stream.

  predicate CanServe(s: State, sid: nat) {
    s.mgr.serve.NotServing? && sid < s.net.nextSid && sid !in s.net.opens
  }

  function ServeStream(s: State, sid: nat): State
    requires CanServe(s, sid)
  {
    s.(mgr := s.mgr.(serve := Serving(sid, [], None, false)),
       net := s.net.(opens := s.net.opens[sid := s.mgr.delivered]))
  }

  predicate CanReceive(m: Manager) {
    m.serve.Serving? && m.serve.pending.None? && m.serve.up != []
  }

  /** serveIO's treatment of one received frame. */
  function Receive(s: State): State
    requires CanReceive(s.mgr)
  {
    var m, v := s.mgr, s.mgr.serve;
    var rest := v.(up := v.up[1..]);
    match v.up[0]
    case Mark => s.(mgr := m.(serve := rest.(pending := Some(Mark))))
    case Ev(e) =>
      if e.num <= m.delivered then s.(mgr := m.(serve := rest))
      else if e.num != m.delivered + 1 then s.(failure := Some(ProtocolViolation))
      else s.(mgr := m.(serve := rest.(pending := Some(Ev(e)))))
  }

  predicate CanPush(m: Manager) {
    m.serve.Serving? && m.serve.pending.Some? && !m.serve.pushed && |m.inbox| < INBOX_SIZE
  }

  function Push(m: Manager): Manager
    requires CanPush(m)
  {
    var f := m.serve.pending.value;
    m.(inbox := m.inbox + [f], serve := if f.Ev? then m.serve.(pushed := true) else m.serve.(pending := None))
  }

  predicate CanSetDelivered(m: Manager) {
    m.serve.Serving? && m.serve.pushed && m.serve.pending.Some? && m.serve.pending.value.Ev?
  }

  function SetDelivered(m: Manager): Manager
    requires CanSetDelivered(m)
  {
    m.(delivered := Max(m.delivered, m.serve.pending.value.ev.num),
       serve := m.serve.(pending := None, pushed := false))
  }

  function SendAck(n: Net, m: Manager): Net {
    n.(acks := n.acks + {m.acked})
  }

  // The manager's consumer and the store.

  /** awaitReady's treatment of the head of the inbox before the session is live. */
  function TakeOpening(m: Manager): Manager
    requires m.inbox != []
  {
    var rest := m.(inbox := m.inbox[1..]);
    match m.inbox[0]
    case Mark => rest
    case Ev(e) =>
      if e.payload.SessionReady? then rest.(phase := Linking(e.num))
      else if e.payload.SessionFailed? then rest.(phase := OpenFailed, acked := Max(m.acked, e.num))
      else rest.(phase := OpenFailed)
  }

  /** The link is three updates: the pod cursor is `written` by the second, and the session is `running` after
      the third. Consumption starts in any case, and SessionReady is acked only behind a full link. */
  function WriteLink(s: State, written: bool, running: bool): State
    requires s.mgr.phase.Linking? && (running ==> written)
  {
    var ready := s.mgr.phase.ready;
    s.(mgr := s.mgr.(phase := Live, readyAck := if running then Some(ready) else None),
       store := s.store.(podSeq := if written then ready else s.store.podSeq, running := running))
  }

  function SendReadyAck(m: Manager): Manager
    requires m.readyAck.Some?
  {
    m.(acked := Max(m.acked, m.readyAck.value), readyAck := None)
  }

  predicate CanTake(m: Manager) {
    m.phase.Live? && m.consumer.Idle? && m.inbox != []
  }

  /** The consumer takes the next frame; what it does for a State frame moves no cursor. */
  function Take(m: Manager): Manager
    requires CanTake(m)
  {
    var rest := m.(inbox := m.inbox[1..]);
    match m.inbox[0] case Mark => rest case Ev(e) => rest.(consumer := Busy(e))
  }

  /** One durable write for a consumed event. Content goes through recordEvent, which drops it when it
      reads that the session has ended (`read` says whether that read succeeds); other kinds only
      advance the pod cursor. */
  function Record(st: Store, e: AgentEvent, read: bool): Store {
    if e.payload.Content? && st.ended && read then st
    else st.(podSeq := Max(st.podSeq, e.num), log := st.log + RowOf(e))
  }

  function RecordBusy(s: State, read: bool): State
    requires s.mgr.consumer.Busy?
  {
    s.(store := Record(s.store, s.mgr.consumer.ev, read), mgr := s.mgr.(consumer := Recorded(s.mgr.consumer.ev)))
  }

  function AckRecorded(m: Manager): Manager
    requires m.consumer.Recorded?
  {
    m.(acked := Max(m.acked, m.consumer.ev.num), consumer := Idle)
  }

  function StopConsumer(m: Manager): Manager {
    m.(consumer := Stopped(m.consumer.Busy?))
  }

  /** The manager process dies and its successor adopts the session at the stored pod cursor. */
  function Adopt(s: State): State {
    s.(mgr := Manager(Live, NotServing, s.store.podSeq, s.store.podSeq, [], Idle, None))
  }

  datatype Step =
    | AppendEvent(ev: AgentEvent, urgent: bool)
    | ReleaseBox
    | RunnerAck(n: nat)
    | RunnerReplay
    | FeedStart
    | FeedFetch
    | FeedSend
    | FeedStop
    | SidecarOpen
    | SidecarRecvOpen
    | SidecarPop
    | SidecarDrop
    | SidecarRestart
    | ServeOpen(sid: nat)
    | ServeRecv
    | ServePush
    | ServeSetDelivered
    | ServeEnd
    | ServeSendAck
    | OpenTake
    | Link(written: bool, running: bool)
    | AckReady
    | ConsumeTake
    | ConsumeRecord(read: bool)
    | ConsumeAck
    | ConsumeStop
    | EndSession
    | CrashAdopt

  predicate Enabled(s: State, st: Step) {
    && s.failure.None?
    && match st
       case AppendEvent(_, urgent) => !Blocked(s.runner.box, urgent)
       case ReleaseBox => true
       case RunnerAck(n) => n in s.net.acks
       case RunnerReplay => CanReplay(s)
       case FeedStart => CanStart(s.runner)
       case FeedFetch => CanFetch(s.runner)
       case FeedSend => CanSend(s.runner)
       case FeedStop => CanFetch(s.runner) && s.sidecar.toRunner != []
       case SidecarOpen => true
       case SidecarRecvOpen => CanRecvOpen(s)
       case SidecarPop => CanPop(s.sidecar)
       case SidecarDrop => true
       case SidecarRestart => true
       case ServeOpen(sid) => CanServe(s, sid)
       case ServeRecv => CanReceive(s.mgr)
       case ServePush => CanPush(s.mgr)
       case ServeSetDelivered => CanSetDelivered(s.mgr)
       case ServeEnd => s.mgr.serve.Serving? && !s.mgr.serve.pushed
       case ServeSendAck => s.mgr.serve.Serving?
       case OpenTake => s.mgr.phase.Opening? && s.mgr.inbox != []
       case Link(written, running) => s.mgr.phase.Linking? && (running ==> written)
       case AckReady => s.mgr.readyAck.Some?
       case ConsumeTake => CanTake(s.mgr)
       case ConsumeRecord(_) => s.mgr.consumer.Busy?
       case ConsumeAck => s.mgr.consumer.Recorded?
       case ConsumeStop => s.mgr.phase.Live? && !s.mgr.consumer.Stopped?
       case EndSession => true
       case CrashAdopt => s.store.running && !s.store.ended
  }

  function Apply(s: State, st: Step): State
    requires Enabled(s, st)
  {
    match st
    case AppendEvent(ev, _) => s.(runner := AppendTo(s.runner, ev))
    case ReleaseBox => s.(runner := s.runner.(box := s.runner.box.(open := true)))
    case RunnerAck(n) => s.(runner := s.runner.(box := Ack(s.runner.box, n)))
    case RunnerReplay => Replay(s)
    case FeedStart => Start(s)
    case FeedFetch => Fetch(s)
    case FeedSend => Send(s)
    case FeedStop => s.(runner := s.runner.(feed := NoFeed))
    case SidecarOpen => OpenStream(s)
    case SidecarRecvOpen => RecvOpen(s)
    case SidecarPop => Pop(s)
    case SidecarDrop => DropStream(s)
    case SidecarRestart => Restart(s)
    case ServeOpen(sid) => ServeStream(s, sid)
    case ServeRecv => Receive(s)
    case ServePush => s.(mgr := Push(s.mgr))
    case ServeSetDelivered => s.(mgr := SetDelivered(s.mgr))
    case ServeEnd => s.(mgr := s.mgr.(serve := NotServing))
    case ServeSendAck => s.(net := SendAck(s.net, s.mgr))
    case OpenTake => s.(mgr := TakeOpening(s.mgr))
    case Link(written, running) => WriteLink(s, written, running)
    case AckReady => s.(mgr := SendReadyAck(s.mgr))
    case ConsumeTake => s.(mgr := Take(s.mgr))
    case ConsumeRecord(read) => RecordBusy(s, read)
    case ConsumeAck => s.(mgr := AckRecorded(s.mgr))
    case ConsumeStop => s.(mgr := StopConsumer(s.mgr))
    case EndSession => s.(store := s.store.(ended := true))
    case CrashAdopt => Adopt(s)
  }

  /** A run: states joined by enabled steps, from an empty outbox on. */
  ghost predicate IsRun(max: nat, states: seq<State>, steps: seq<Step>) {
    && |states| == |steps| + 1
    && states[0] == Init(max)
    && forall i :: 0 <= i < |steps| ==> Enabled(states[i], steps[i]) && states[i + 1] == Apply(states[i], steps[i])
  }
}
