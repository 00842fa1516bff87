/** The one exception to `PodSeq <= delivered` is reached by a run of the pipeline. */
module PodPipelineWindow {
  import opened Common
  import opened Outboxes
  import opened PodPipeline
  import opened PodPipelineProof

  ghost predicate Reachable(max: nat, s: State) {
    exists states, steps :: IsRun(max, states, steps) && states[|steps|] == s
  }

  lemma ReachableInv(max: nat, s: State)
    requires Reachable(max, s)
    ensures Inv(s)
  {
    var states, steps :| IsRun(max, states, steps) && states[|steps|] == s;
    RunKeeps(max, states, steps, |steps|);
  }

  lemma ReachStep(max: nat, s: State, st: Step) returns (t: State)
    requires Reachable(max, s) && Enabled(s, st)
    ensures t == Apply(s, st) && Reachable(max, t) && t.failure.None?
  {
    t := Apply(s, st);
    var states, steps :| IsRun(max, states, steps) && states[|steps|] == s;
    assert IsRun(max, states + [t], steps + [st]);
    ReachableInv(max, t);
  }

  /** The relay streams to the served stream, and everything fed so far has been passed on. */
  ghost predicate Streaming(s: State) {
    && s.failure.None?
    && s.sidecar.io.IoActive? && !s.sidecar.io.replaying && s.sidecar.frames == []
    && ServedSid(s.mgr.serve) == Some(s.sidecar.io.sid) && s.mgr.serve.up == [] && s.mgr.serve.pending.None?
    && !s.mgr.serve.pushed
    && CanFetch(s.runner) && s.runner.feed.cursor == |s.runner.history|
    && s.mgr.inbox == []
  }

  /** From a streaming state the next appended event reaches the inbox while `delivered` still is behind. */
  lemma NextEventIsPushed(max: nat, s: State, ev: AgentEvent) returns (t: State, e: AgentEvent)
    requires Reachable(max, s) && Streaming(s)
    ensures Reachable(max, t) && t.failure.None? && e == ev.(num := s.mgr.delivered + 1)
    ensures t.store == s.store
    ensures t.mgr == s.mgr.(inbox := [Ev(e)], serve := s.mgr.serve.(pending := Some(Ev(e)), pushed := true))
    ensures Streaming(t.(mgr := s.mgr)) && t.sidecar == s.sidecar
  {
    t, e := NextEventIsFed(max, s, ev);
    t := ReachStep(max, t, SidecarPop);
    assert t.sidecar.frames == [] && t.mgr.serve.up == [Ev(e)];
    t := ReachStep(max, t, ServeRecv);
    assert t.mgr.serve.up == [];
    t := ReachStep(max, t, ServePush);
    assert t.mgr.inbox == [Ev(e)];
  }

  lemma StreamingCursor(max: nat, s: State)
    requires Reachable(max, s) && Streaming(s)
    ensures s.mgr.delivered == |s.runner.history|
  {
    ReachableInv(max, s);
    assert s.mgr.delivered == End(s.mgr);
  }

  lemma FetchNext(max: nat, s: State)
    requires Reachable(max, s) && CanFetch(s.runner) && |s.runner.history| == s.runner.feed.cursor + 1
    ensures var next := s.runner.history[s.runner.feed.cursor];
      Fetch(s) == s.(runner := s.runner.(feed := s.runner.feed.(batch := [next])))
  {
    ReachableInv(max, s);
    AfterReads(s.runner.box, s.runner.history, s.runner.feed.cursor);
    assert s.runner.history[s.runner.feed.cursor..] == [s.runner.history[s.runner.feed.cursor]];
  }

  lemma NextEventIsFed(max: nat, s: State, ev: AgentEvent) returns (t: State, e: AgentEvent)
    requires Reachable(max, s) && Streaming(s)
    ensures Reachable(max, t) && t.failure.None? && e == ev.(num := s.mgr.delivered + 1)
    ensures t.mgr == s.mgr && t.store == s.store && t.sidecar == s.sidecar.(frames := [Ev(e)])
    ensures CanFetch(t.runner) && t.runner.feed.cursor == |t.runner.history|
  {
    StreamingCursor(max, s);
    e := ev.(num := s.mgr.delivered + 1);
    t := ReachStep(max, s, AppendEvent(ev, true));
    FetchNext(max, t);
    t := ReachStep(max, t, FeedFetch);
    t := ReachStep(max, t, FeedSend);
  }

  /** From Init, a stream is opened and served. */
  lemma ReachServed(max: nat) returns (s: State)
    ensures Reachable(max, s)
    ensures s == Init(max).(sidecar := Sidecar(IoOpening(0), 0, 0, [], []), net := Net(1, map[0 := 0], {}),
                          mgr := Init(max).mgr.(serve := Serving(0, [], None, false)))
  {
    assert IsRun(max, [Init(max)], []);
    s := ReachStep(max, Init(max), SidecarOpen);
    s := ReachStep(max, s, ServeOpen(0));
  }

  /** Its replay from the start begins. */
  lemma ReachStarted(max: nat) returns (s: State)
    ensures Reachable(max, s)
    ensures s == Init(max).(sidecar := Sidecar(IoActive(0, true), 1, 0, [], [Mark]), net := Net(1, map[0 := 0], {}),
                          mgr := Init(max).mgr.(serve := Serving(0, [], None, false)),
                          runner := Init(max).runner.(feed := Feed(0, true, [])))
  {
    s := ReachServed(max);
    s := ReachStep(max, s, SidecarRecvOpen);
    s := ReachStep(max, s, RunnerReplay);
    s := ReachStep(max, s, FeedStart);
  }

  lemma ReachStreaming(max: nat) returns (s: State)
    ensures Reachable(max, s)
    ensures s == Init(max).(sidecar := Sidecar(IoActive(0, false), 1, 1, [], []), net := Net(1, map[0 := 0], {}),
                          mgr := Init(max).mgr.(serve := Serving(0, [], None, false)),
                          runner := Init(max).runner.(feed := Feed(0, true, [])))
  {
    s := ReachStarted(max);
    s := RelayMark(max, s);
    s := DrainMark(max, s);
  }

  lemma RelayMark(max: nat, s: State) returns (t: State)
    requires Reachable(max, s) && s.failure.None?
    requires s.sidecar.io.IoActive? && s.sidecar.frames == [Mark] && s.sidecar.replays == s.sidecar.replayStarts + 1
    requires ServedSid(s.mgr.serve) == Some(s.sidecar.io.sid) && s.mgr.serve.up == []
    ensures Reachable(max, t)
    ensures t == s.(sidecar := s.sidecar.(io := s.sidecar.io.(replaying := false), frames := [],
                                          replayStarts := s.sidecar.replays),
                    mgr := s.mgr.(serve := s.mgr.serve.(up := [Mark])))
  {
    t := ReachStep(max, s, SidecarPop);
    assert t.sidecar.frames == [] && t.mgr.serve.up == [Mark];
  }

  /** A State frame that reaches the manager before the session is ready is taken and ignored. */
  lemma DrainMark(max: nat, s: State) returns (t: State)
    requires Reachable(max, s) && s.failure.None? && s.mgr.phase.Opening? && s.mgr.inbox == []
    requires s.mgr.serve.Serving? && s.mgr.serve.up == [Mark] && s.mgr.serve.pending.None? && !s.mgr.serve.pushed
    ensures Reachable(max, t) && t == s.(mgr := s.mgr.(serve := s.mgr.serve.(up := [])))
  {
    t := ReachStep(max, s, ServeRecv);
    assert t.mgr.serve.up == [];
    t := ReachStep(max, t, ServePush);
    assert t.mgr.inbox == [Mark];
    t := ReachStep(max, t, OpenTake);
  }

  lemma ReachLive(max: nat) returns (s: State)
    ensures Reachable(max, s) && Streaming(s) && s.mgr.phase.Live? && s.mgr.delivered == 1
    ensures s.store == Store(1, [], true, false) && s.mgr.consumer.Idle?
  {
    s := ReachStreaming(max);
    var e;
    s, e := NextEventIsPushed(max, s, AgentEvent(0, 0, SessionReady, 1));
    s := ReachStep(max, s, ServeSetDelivered);
    s := ReachStep(max, s, OpenTake);
    s := ReachStep(max, s, Link(true, true));
  }

  /** The stored pod cursor can overtake `delivered`: the consumer records an event before serveIO
      moves its cursor past it. */
  lemma PodSeqCanOvertakeDelivered(max: nat) returns (s: State)
    ensures Reachable(max, s) && s.store.podSeq == 2 && s.mgr.delivered == 1
  {
    s := ReachLive(max);
    var e;
    s, e := NextEventIsPushed(max, s, AgentEvent(0, 7, Content(42, false), 1));
    s := ReachStep(max, s, ConsumeTake);
    s := ReachStep(max, s, ConsumeRecord(true));
  }
}
