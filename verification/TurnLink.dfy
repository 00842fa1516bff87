/** The link under the turn pipeline (harness/internal/agentlink/agentio_server.go): released prompts are queued
    with the run, sent in order on the stream that is attached, and lost with it once they are on it. The queue
    outlives a stream; a crash of the manager empties both. */
module TurnLink {
  import opened Common
  import opened RunnerTurns
  import opened Bindings
  import T = TurnPipeline

  /** `queue` waits for a stream to take it, `wire` is under way on the stream. */
  datatype State = State(turns: T.State, queue: seq<Prompt>, wire: seq<Prompt>)

  /** A turn step queues what it sends. */
  datatype Step =
    | Turn(step: T.Step)
    | Transmit
    | Arrive
    | StreamLost

  function Init(opening: Option<string>): State {
    State(T.Init(opening), [], [])
  }

  predicate Enabled(s: State, st: Step) {
    match st
    case Turn(step) => !step.Deliver? && T.Enabled(s.turns, step)
    case Transmit => s.queue != []
    case Arrive => s.wire != []
    case StreamLost => true
  }

  /** What a turn step sends. */
  function Sends(t: T.State, step: T.Step): seq<Prompt>
    requires T.Enabled(t, step)
  {
    var sent := T.Apply(t, step).sent;
    if |t.sent| <= |sent| then sent[|t.sent|..] else []
  }

  function Apply(s: State, st: Step): State
    requires Enabled(s, st)
  {
    match st
    case Turn(step) =>
      var t := T.Apply(s.turns, step);
      if step.CrashAdopt? then State(t, [], []) else s.(turns := t, queue := s.queue + Sends(s.turns, step))
    case Transmit => s.(queue := s.queue[1..], wire := s.wire + [s.queue[0]])
    case Arrive => s.(turns := T.Delivered(s.turns, s.wire[0]), wire := s.wire[1..])
    case StreamLost => s.(wire := [])
  }

  ghost predicate IsPath(ss: seq<State>, steps: seq<Step>) {
    && |ss| == |steps| + 1
    && forall i :: 0 <= i < |steps| ==> Enabled(ss[i], steps[i]) && ss[i + 1] == Apply(ss[i], steps[i])
  }

  ghost predicate IsRun(opening: Option<string>, ss: seq<State>, steps: seq<Step>) {
    IsPath(ss, steps) && ss[0] == Init(opening)
  }

  /** Everything under way, in the order in which it will arrive. */
  function Pipe(s: State): seq<Prompt> {
    s.wire + s.queue
  }

  // ------------------------------------------------------------------ the link refines the lossy channel

  lemma SentGrows(t: T.State, step: T.Step)
    requires T.Enabled(t, step)
    ensures T.Apply(t, step).sent == t.sent + Sends(t, step)
  {
  }

  lemma StepKeepsPipe(s: State, st: Step)
    requires Enabled(s, st) && T.Within(Pipe(s), s.turns.sent)
    ensures T.Within(Pipe(Apply(s, st)), Apply(s, st).turns.sent)
  {
    match st
    case Turn(step) =>
      SentGrows(s.turns, step);
      assert forall p :: p in Pipe(Apply(s, st)) ==> p in Pipe(s) || p in Sends(s.turns, step);
    case Transmit =>
      assert Pipe(Apply(s, st)) == Pipe(s);
    case Arrive =>
      assert Pipe(s) == [s.wire[0]] + Pipe(Apply(s, st));
    case StreamLost =>
  }

  lemma StepRefines(opening: Option<string>, s: State, st: Step)
    requires Enabled(s, st) && T.Within(Pipe(s), s.turns.sent) && T.Reachable(opening, s.turns)
    ensures T.Reachable(opening, Apply(s, st).turns)
  {
    match st
    case Turn(step) =>
      T.ReachStep(opening, s.turns, step);
    case Arrive =>
      assert s.wire[0] in Pipe(s);
      T.ReachStep(opening, s.turns, T.Deliver(s.wire[0]));
    case _ =>
  }

  /** Every run over the link is a run of the pipeline: what is proved of lost, repeated and reordered prompts
      holds of a link that keeps their order. */
  lemma {:induction false} LinkRefines(opening: Option<string>, ss: seq<State>, steps: seq<Step>, i: nat)
    requires IsRun(opening, ss, steps) && i < |ss|
    ensures T.Within(Pipe(ss[i]), ss[i].turns.sent) && T.Reachable(opening, ss[i].turns)
  {
    if i == 0 {
      T.ReachInit(opening);
    } else {
      LinkRefines(opening, ss, steps, i - 1);
      StepKeepsPipe(ss[i - 1], steps[i - 1]);
      StepRefines(opening, ss[i - 1], steps[i - 1]);
      assert ss[i - 1 + 1] == Apply(ss[i - 1], steps[i - 1]);
    }
  }

  ghost predicate Inv(s: State) {
    T.Inv(s.turns) && T.Within(Pipe(s), s.turns.sent)
  }

  lemma StepKeeps(s: State, st: Step)
    requires Inv(s) && Enabled(s, st)
    ensures Inv(Apply(s, st))
  {
    StepKeepsPipe(s, st);
    StepKeepsTurns(s, st);
  }

  lemma StepKeepsTurns(s: State, st: Step)
    requires Inv(s) && Enabled(s, st)
    ensures T.Inv(Apply(s, st).turns)
  {
    match st
    case Turn(step) =>
      T.StepKeeps(s.turns, step);
    case Arrive =>
      assert s.wire[0] in Pipe(s);
      T.StepKeeps(s.turns, T.Deliver(s.wire[0]));
    case _ =>
  }

  lemma RunKeeps(opening: Option<string>, ss: seq<State>, steps: seq<Step>, i: nat)
    requires IsRun(opening, ss, steps) && i < |ss|
    ensures Inv(ss[i])
  {
    LinkRefines(opening, ss, steps, i);
    T.ReachableInv(opening, ss[i].turns);
  }

  // ------------------------------------------------------------------ which turns the runner can go past

  /** The runner will come to turn `p` before any later one: it is in the pipe with only earlier ones in front, or
      everything in the pipe is earlier and `p` still `waits` behind it. */
  predicate ComesUp(pipe: seq<Prompt>, p: Prompt, waits: bool) {
    if pipe == [] then waits
    else pipe[0] == p || (pipe[0].turnSeq < p.turnSeq && ComesUp(pipe[1..], p, waits))
  }

  /** A turn waits behind the pipe while it is held, or while the binding syncs and will send it again. */
  predicate Waits(t: T.State, p: Prompt) {
    p in t.held || t.syncing
  }

  predicate Ahead(s: State, p: Prompt) {
    ComesUp(Pipe(s), p, Waits(s.turns, p))
  }

  /** A saved turn that the runner has neither accepted nor gone past. */
  predicate Owed(t: T.State, p: Prompt) {
    p in T.Prompts(t.cmds) && p !in t.accepted && p.turnSeq > t.intake.lastTurnSeq
  }

  /** The runner has gone past the turn without accepting it. */
  predicate Skipped(t: T.State, p: Prompt) {
    p !in t.accepted && p.turnSeq <= t.intake.lastTurnSeq
  }

  /** The turn goes down with the stream that carries it. */
  predicate Loses(s: State, st: Step, p: Prompt) {
    st.StreamLost? && p in s.wire
  }

  lemma {:induction false} ComesUpBehind(pipe: seq<Prompt>, batch: seq<Prompt>, p: Prompt, waits: bool)
    ensures ComesUp(pipe + batch, p, waits) <==> ComesUp(pipe, p, ComesUp(batch, p, waits))
  {
    if pipe == [] {
      assert pipe + batch == batch;
    } else {
      assert (pipe + batch)[1..] == pipe[1..] + batch;
      ComesUpBehind(pipe[1..], batch, p, waits);
    }
  }

  lemma {:induction false} ComesUpGrows(pipe: seq<Prompt>, p: Prompt, waits: bool, waits': bool)
    requires ComesUp(pipe, p, waits) && (waits ==> waits')
    ensures ComesUp(pipe, p, waits')
  {
    if pipe != [] && pipe[0] != p {
      ComesUpGrows(pipe[1..], p, waits, waits');
    }
  }

  lemma ComesUpQueued(pipe: seq<Prompt>, batch: seq<Prompt>, p: Prompt, waits: bool, waits': bool)
    requires ComesUp(pipe, p, waits) && (waits ==> ComesUp(batch, p, waits'))
    ensures ComesUp(pipe + batch, p, waits')
  {
    ComesUpGrows(pipe, p, waits, ComesUp(batch, p, waits'));
    ComesUpBehind(pipe, batch, p, waits');
  }

  lemma {:induction false} ComesUpInBatch(batch: seq<Prompt>, p: Prompt, waits: bool)
    requires Ascending(batch) && p in batch
    ensures ComesUp(batch, p, waits)
  {
    if batch[0] != p {
      var i :| 0 <= i < |batch| && batch[i] == p;
      assert batch[0].turnSeq < batch[i].turnSeq && batch[1..][i - 1] == p;
      ComesUpInBatch(batch[1..], p, waits);
    }
  }

  /** With a stream go only turns other than `p`; those behind it are still in order. */
  lemma {:induction false} ComesUpWithout(wire: seq<Prompt>, queue: seq<Prompt>, p: Prompt, waits: bool)
    requires ComesUp(wire + queue, p, waits) && p !in wire
    ensures ComesUp(queue, p, waits)
  {
    if wire == [] {
      assert wire + queue == queue;
    } else {
      assert (wire + queue)[1..] == wire[1..] + queue;
      ComesUpWithout(wire[1..], queue, p, waits);
    }
  }

  // ------------------------------------------------------------------ what a turn step does for a waiting turn

  /** After a step that sends `batch`, a turn that waited is in the batch at its place, or waits on. */
  predicate WaitsOn(t: T.State, t': T.State, p: Prompt) {
    t.sent <= t'.sent && ComesUp(t'.sent[|t.sent|..], p, Waits(t', p))
  }

  lemma ReleaseServes(h: T.State, p: Prompt)
    requires T.Inv(h.(syncing := true)) && p in h.held
    ensures WaitsOn(h, T.Release(h), p)
  {
    T.SortAscends(h.issued, h.held);
    if !h.gated && !h.syncing {
      assert T.Release(h).sent[|h.sent|..] == SortBySeq(h.held);
      ComesUpInBatch(SortBySeq(h.held), p, Waits(T.Release(h), p));
    }
  }

  lemma StartTurnServes(t: T.State, text: string, saved: bool, p: Prompt)
    requires T.Inv(t) && Waits(t, p)
    ensures WaitsOn(t, T.Apply(t, T.StartTurn(text, saved)), p)
  {
    T.StartTurnApplies(t, text);
    if saved && !t.syncing {
      var n := Prompt(TurnName(t.alloc + 1), t.alloc + 1, text);
      T.HoldingKeeps(t, n);
      ReleaseServes(T.Holding(t, n), p);
    }
  }

  lemma GatedReconcileServes(t: T.State, st: AgentState, cleared: bool, p: Prompt)
    requires T.Inv(t) && T.Enabled(t, T.Reconcile(st, cleared)) && Owed(t, p) && t.gated
    ensures WaitsOn(t, T.Apply(t, T.Reconcile(st, cleared)), p)
  {
    T.ResendMembers(t.cmds, st.lastTurnSeq);
    T.HeldWithNothing(t.issued, t.held, Resend(t.cmds, st.lastTurnSeq));
    assert t.sent[|t.sent|..] == [];
  }

  lemma OpenReconcileServes(t: T.State, st: AgentState, cleared: bool, p: Prompt)
    requires T.Inv(t) && T.Enabled(t, T.Reconcile(st, cleared)) && Owed(t, p) && !t.gated
    ensures WaitsOn(t, T.Apply(t, T.Reconcile(st, cleared)), p)
  {
    var t', batch := T.Apply(t, T.Reconcile(st, cleared)), T.Batch(t, st);
    assert Ascending(batch) && p in batch by {
      assert T.ReportInv(t.accepted, t.intake.lastTurnSeq, st);
      T.BatchWithin(t, st);
    }
    assert t'.sent == t.sent + batch by { T.BatchIsSent(t, st, cleared); }
    assert t'.sent[|t.sent|..] == batch;
    ComesUpInBatch(batch, p, Waits(t', p));
  }

  lemma TurnStepServes(t: T.State, step: T.Step, p: Prompt)
    requires T.Inv(t) && T.Enabled(t, step) && !step.Deliver? && !step.CrashAdopt? && Owed(t, p) && Waits(t, p)
    ensures WaitsOn(t, T.Apply(t, step), p)
  {
    assert t.sent[|t.sent|..] == [];
    match step
    case StartTurn(text, saved) => StartTurnServes(t, text, saved, p);
    case Ungate =>
      if !t.syncing {
        ReleaseServes(t.(gated := false), p);
      }
    case Reconcile(st, cleared) =>
      if t.gated {
        GatedReconcileServes(t, st, cleared, p);
      } else {
        OpenReconcileServes(t, st, cleared, p);
      }
    case _ =>
  }

  lemma TurnStepQueues(s: State, step: T.Step)
    requires Enabled(s, Turn(step)) && !step.CrashAdopt?
    ensures Apply(s, Turn(step)).turns == T.Apply(s.turns, step)
    ensures Pipe(Apply(s, Turn(step))) == Pipe(s) + Sends(s.turns, step)
  {
    var s' := Apply(s, Turn(step));
    assert s'.wire == s.wire && s'.queue == s.queue + Sends(s.turns, step);
  }

  lemma TurnStepKeepsAhead(s: State, step: T.Step, p: Prompt)
    requires Inv(s) && Enabled(s, Turn(step)) && !step.CrashAdopt? && Owed(s.turns, p) && Ahead(s, p)
    ensures Ahead(Apply(s, Turn(step)), p)
  {
    var t', batch := T.Apply(s.turns, step), Sends(s.turns, step);
    TurnStepQueues(s, step);
    if Waits(s.turns, p) {
      TurnStepServes(s.turns, step, p);
    }
    ComesUpQueued(Pipe(s), batch, p, Waits(s.turns, p), Waits(t', p));
  }

  lemma ArriveKeepsAhead(s: State, p: Prompt)
    requires Enabled(s, Arrive) && Owed(s.turns, p) && Ahead(s, p)
    ensures Ahead(Apply(s, Arrive), p) || p in Apply(s, Arrive).turns.accepted || s.turns.intake.finished
  {
    assert Pipe(s)[0] == s.wire[0] && Pipe(s)[1..] == Pipe(Apply(s, Arrive));
  }

  lemma StreamLostKeepsAhead(s: State, p: Prompt)
    requires p !in s.wire && Ahead(s, p)
    ensures Ahead(Apply(s, StreamLost), p)
  {
    ComesUpWithout(s.wire, s.queue, p, Waits(s.turns, p));
    assert Pipe(Apply(s, StreamLost)) == s.queue;
  }

  /** A crash of the manager puts every turn that is owed back in line, also one that a lost stream had carried. */
  lemma CrashPutsBackInLine(s: State, p: Prompt)
    requires Owed(s.turns, p)
    ensures var s' := Apply(s, Turn(T.CrashAdopt)); Owed(s'.turns, p) && Ahead(s', p)
  {
    assert Pipe(Apply(s, Turn(T.CrashAdopt))) == [];
  }

  /** Every step keeps a turn ahead until it is accepted or the runner finishes, a crash of the manager and a lost
      stream that does not carry it included. */
  lemma StepKeepsAhead(s: State, st: Step, p: Prompt)
    requires Inv(s) && Enabled(s, st) && !Loses(s, st, p) && Owed(s.turns, p) && Ahead(s, p)
    ensures Ahead(Apply(s, st), p) || p in Apply(s, st).turns.accepted || s.turns.intake.finished
  {
    match st
    case Turn(step) =>
      if step.CrashAdopt? {
        CrashPutsBackInLine(s, p);
      } else {
        TurnStepKeepsAhead(s, step, p);
      }
    case Transmit => assert Pipe(Apply(s, st)) == Pipe(s);
    case Arrive => ArriveKeepsAhead(s, p);
    case StreamLost => StreamLostKeepsAhead(s, p);
  }

  lemma TurnStepKeepsSaved(t: T.State, step: T.Step, p: Prompt)
    requires T.Inv(t) && T.Enabled(t, step) && Owed(t, p)
    ensures p in T.Prompts(T.Apply(t, step).cmds)
  {
    match step
    case StartTurn(text, saved) =>
      T.StartTurnApplies(t, text);
      T.PromptsPush(t.cmds, PromptCommand(Some(Prompt(TurnName(t.alloc + 1), t.alloc + 1, text))));
    case SavePermission =>
      T.PromptsPush(t.cmds, PermissionCommand);
    case Reconcile(st, cleared) =>
      assert T.ReportInv(t.accepted, t.intake.lastTurnSeq, st);
      T.ClearMembers(t.cmds, c => Drops(c, st));
    case TurnFinished(id) =>
      T.ClearMembers(t.cmds, (c: Command) => c.PromptCommand? && c.prompt.Some? && c.prompt.value.turnId == id);
      T.HasTurnIsMember(t.issued, t.accepted, p);
    case _ =>
  }

  lemma StepKeepsOwed(s: State, st: Step, p: Prompt)
    requires Inv(s) && Enabled(s, st) && !Loses(s, st, p) && Owed(s.turns, p)
    requires s.turns.intake.finished || Ahead(s, p)
    ensures Owed(Apply(s, st).turns, p) || p in Apply(s, st).turns.accepted
    ensures s.turns.intake.finished ==> Apply(s, st).turns.intake.finished
  {
    match st
    case Turn(step) =>
      TurnStepKeepsSaved(s.turns, step, p);
      TurnStepLeavesIntake(s.turns, step);
    case Arrive =>
      assert Pipe(s)[0] == s.wire[0];
    case _ =>
  }

  lemma TurnStepLeavesIntake(t: T.State, step: T.Step)
    requires T.Enabled(t, step) && !step.Deliver?
    ensures T.Apply(t, step).accepted == t.accepted && T.Apply(t, step).intake.lastTurnSeq == t.intake.lastTurnSeq
    ensures t.intake.finished ==> T.Apply(t, step).intake.finished
  {
  }

  lemma AcceptedStays(s: State, st: Step, p: Prompt)
    requires Enabled(s, st) && p in s.turns.accepted
    ensures p in Apply(s, st).turns.accepted
  {
  }

  /** Not skipped, and in line as long as the runner takes turns in. */
  ghost predicate Safe(s: State, p: Prompt) {
    p in s.turns.accepted || (Owed(s.turns, p) && (s.turns.intake.finished || Ahead(s, p)))
  }

  lemma StepKeepsSafe(s: State, st: Step, p: Prompt)
    requires Inv(s) && Enabled(s, st) && !Loses(s, st, p) && Safe(s, p)
    ensures Safe(Apply(s, st), p)
  {
    if p in s.turns.accepted {
      AcceptedStays(s, st, p);
    } else {
      StepKeepsOwed(s, st, p);
      if !s.turns.intake.finished {
        StepKeepsAhead(s, st, p);
      }
    }
  }

  /** A path on which no lost stream carries the turn. */
  ghost predicate KeepsStream(ss: seq<State>, steps: seq<Step>, p: Prompt) {
    IsPath(ss, steps) && forall k :: 0 <= k < |steps| ==> !Loses(ss[k], steps[k], p)
  }

  lemma {:induction false} PathKeepsSafe(ss: seq<State>, steps: seq<Step>, p: Prompt, i: nat)
    requires KeepsStream(ss, steps, p) && i < |ss| && Inv(ss[0]) && Safe(ss[0], p)
    ensures Inv(ss[i]) && Safe(ss[i], p)
  {
    if i > 0 {
      PathKeepsSafe(ss, steps, p, i - 1);
      StepKeeps(ss[i - 1], steps[i - 1]);
      StepKeepsSafe(ss[i - 1], steps[i - 1], p);
      assert ss[i - 1 + 1] == Apply(ss[i - 1], steps[i - 1]);
    }
  }

  // ------------------------------------------------------------------ a turn that does not come up can be skipped

  /** The runner can go past the turn although no stream is lost under it. */
  ghost predicate CanGoPast(s: State, p: Prompt) {
    exists ss: seq<State>, steps: seq<Step> ::
      KeepsStream(ss, steps, p) && ss[0] == s && Skipped(ss[|ss| - 1].turns, p)
  }

  lemma GoesPastNow(s: State, p: Prompt)
    requires Skipped(s.turns, p)
    ensures CanGoPast(s, p)
  {
    assert KeepsStream([s], [], p) && [s][0] == s;
  }

  lemma GoesPastNext(s: State, st: Step, p: Prompt)
    requires Enabled(s, st) && !st.StreamLost? && CanGoPast(Apply(s, st), p)
    ensures CanGoPast(s, p)
  {
    var ss: seq<State>, steps: seq<Step> :|
      KeepsStream(ss, steps, p) && ss[0] == Apply(s, st) && Skipped(ss[|ss| - 1].turns, p);
    var ts, rest := [s] + ss, [st] + steps;
    forall k | 0 <= k < |rest|
      ensures Enabled(ts[k], rest[k]) && ts[k + 1] == Apply(ts[k], rest[k]) && !Loses(ts[k], rest[k], p)
    {
      if k > 0 {
        assert rest[k] == steps[k - 1] && ts[k] == ss[k - 1] && ts[k + 1] == ss[k - 1 + 1];
      }
    }
    assert KeepsStream(ts, rest, p) && ts[0] == s && ts[|ts| - 1] == ss[|ss| - 1];
  }

  lemma WireHeadArrives(s: State)
    requires Inv(s) && s.wire != []
    ensures var s' := Apply(s, Arrive);
      Inv(s') && Pipe(s') == Pipe(s)[1..] && s'.turns == T.Delivered(s.turns, Pipe(s)[0])
  {
    StepKeeps(s, Arrive);
    assert Pipe(s)[0] == s.wire[0] && Pipe(s)[1..] == Pipe(Apply(s, Arrive));
  }

  /** The head of the pipe arrives. */
  lemma HeadArrives(s: State, p: Prompt) returns (s': State)
    requires Inv(s) && Pipe(s) != []
    ensures Inv(s') && Pipe(s') == Pipe(s)[1..] && s'.turns == T.Delivered(s.turns, Pipe(s)[0])
    ensures CanGoPast(s', p) ==> CanGoPast(s, p)
  {
    if s.wire != [] {
      WireHeadArrives(s);
      s' := Apply(s, Arrive);
      if CanGoPast(s', p) {
        GoesPastNext(s, Arrive, p);
      }
    } else {
      var r := Apply(s, Transmit);
      StepKeeps(s, Transmit);
      assert Pipe(r) == Pipe(s);
      WireHeadArrives(r);
      s' := Apply(r, Arrive);
      if CanGoPast(s', p) {
        GoesPastNext(r, Arrive, p);
        GoesPastNext(s, Transmit, p);
      }
    }
  }

  /** A turn that is neither held nor about to be sent again: the next turn goes out behind the pipe. */
  lemma NextTurnOvertakes(s: State, p: Prompt)
    requires Inv(s) && Owed(s.turns, p) && !s.turns.intake.finished && Pipe(s) == [] && !Waits(s.turns, p)
    ensures CanGoPast(s, p)
  {
    var t := s.turns;
    var q := Prompt(TurnName(t.alloc + 1), t.alloc + 1, "");
    TurnIsSent(t, q);
    var s1 := Apply(s, Turn(T.StartTurn("", true)));
    assert p in t.issued && p.turnSeq <= t.alloc;
    assert (t.sent + [q])[|t.sent|..] == [q];
    assert Pipe(s1) == [q];
    StepKeeps(s, Turn(T.StartTurn("", true)));
    var s2 := HeadArrives(s1, p);
    GoesPastNow(s2, p);
    GoesPastNext(s, Turn(T.StartTurn("", true)), p);
  }

  lemma {:induction false} PipeOvertakes(s: State, p: Prompt)
    requires Inv(s) && Owed(s.turns, p) && !s.turns.intake.finished && !Ahead(s, p)
    ensures CanGoPast(s, p)
    decreases |Pipe(s)|
  {
    if Pipe(s) == [] {
      NextTurnOvertakes(s, p);
    } else {
      var h := Pipe(s)[0];
      assert h in Pipe(s) && h in s.turns.issued && p in s.turns.issued;
      T.SameTurn(s.turns.issued, h, p);
      var s' := HeadArrives(s, p);
      if h.turnSeq > p.turnSeq {
        GoesPastNow(s', p);
      } else {
        PipeOvertakes(s', p);
      }
    }
  }

  /** A saved turn that the runner has neither accepted nor gone past: the runner can go past it without a stream
      being lost under it, if and only if it still takes turns in and the turn does not come up before every later
      one. Crashes of the manager and streams lost with other turns make no difference. */
  lemma CanGoPastIff(opening: Option<string>, ss: seq<State>, steps: seq<Step>, i: nat, p: Prompt)
    requires IsRun(opening, ss, steps) && i < |ss| && Owed(ss[i].turns, p)
    ensures CanGoPast(ss[i], p) <==> !ss[i].turns.intake.finished && !Ahead(ss[i], p)
  {
    var s := ss[i];
    RunKeeps(opening, ss, steps, i);
    if !s.turns.intake.finished && !Ahead(s, p) {
      PipeOvertakes(s, p);
    } else if CanGoPast(s, p) {
      var ts: seq<State>, rest: seq<Step> :|
        KeepsStream(ts, rest, p) && ts[0] == s && Skipped(ts[|ts| - 1].turns, p);
      PathKeepsSafe(ts, rest, p, |ts| - 1);
    }
  }

  // ------------------------------------------------------------------ a turn is lost only with its stream

  /** Nothing is known of the turn yet, or it is safe. */
  ghost predicate SafeOnceIssued(s: State, p: Prompt) {
    p in s.turns.issued ==> Safe(s, p)
  }

  lemma OnlyStartTurnIssues(s: State, st: Step, p: Prompt)
    requires Enabled(s, st) && p !in s.turns.issued && p in Apply(s, st).turns.issued
    ensures st == Turn(T.StartTurn(p.text, true))
    ensures p == Prompt(TurnName(s.turns.alloc + 1), s.turns.alloc + 1, p.text)
  {
    match st
    case Turn(step) =>
      match step {
        case StartTurn(text, saved) => T.StartTurnApplies(s.turns, text);
        case _ =>
      }
    case _ =>
  }

  lemma NewTurnIsOwed(t: T.State, text: string, p: Prompt)
    requires T.Inv(t) && p == Prompt(TurnName(t.alloc + 1), t.alloc + 1, text)
    ensures Owed(T.Apply(t, T.StartTurn(text, true)), p)
  {
    T.StartTurnApplies(t, text);
    T.PromptsPush(t.cmds, PromptCommand(Some(p)));
    AcceptedIsEarlier(t, p);
  }

  lemma NewTurnWaits(t: T.State, text: string, p: Prompt)
    requires T.Inv(t) && p == Prompt(TurnName(t.alloc + 1), t.alloc + 1, text)
    ensures WaitsOn(t, T.Apply(t, T.StartTurn(text, true)), p)
  {
    T.StartTurnApplies(t, text);
    T.HoldingKeeps(t, p);
    ReleaseServes(T.Holding(t, p), p);
  }

  /** A turn is in line from the moment it is saved. */
  lemma NewTurnIsAhead(s: State, text: string, p: Prompt)
    requires Inv(s) && p == Prompt(TurnName(s.turns.alloc + 1), s.turns.alloc + 1, text)
    ensures Safe(Apply(s, Turn(T.StartTurn(text, true))), p)
  {
    var step := T.StartTurn(text, true);
    TurnStepQueues(s, step);
    NewTurnIsOwed(s.turns, text, p);
    NewTurnWaits(s.turns, text, p);
    PipeIsEarlier(s, p);
    ComesUpQueued(Pipe(s), Sends(s.turns, step), p, true, Waits(T.Apply(s.turns, step), p));
  }

  lemma {:induction false} AllEarlier(pipe: seq<Prompt>, p: Prompt)
    requires forall k :: 0 <= k < |pipe| ==> pipe[k].turnSeq < p.turnSeq
    ensures ComesUp(pipe, p, true)
  {
    if pipe != [] {
      AllEarlier(pipe[1..], p);
    }
  }

  lemma PipeIsEarlier(s: State, p: Prompt)
    requires Inv(s) && p.turnSeq == s.turns.alloc + 1
    ensures ComesUp(Pipe(s), p, true)
  {
    forall k | 0 <= k < |Pipe(s)|
      ensures Pipe(s)[k].turnSeq < p.turnSeq
    {
      assert Pipe(s)[k] in Pipe(s) && Pipe(s)[k] in s.turns.issued;
    }
    AllEarlier(Pipe(s), p);
  }

  lemma AcceptedIsEarlier(t: T.State, p: Prompt)
    requires T.Inv(t) && p.turnSeq == t.alloc + 1
    ensures p !in t.accepted && p.turnSeq > t.intake.lastTurnSeq
  {
    if t.accepted != [] {
      assert t.accepted[|t.accepted| - 1] in t.accepted;
    }
    assert forall q :: q in t.accepted ==> q in t.issued;
  }

  lemma OpeningIsAhead(opening: Option<string>, p: Prompt)
    ensures SafeOnceIssued(Init(opening), p)
  {
    var turns := T.Init(opening).issued;
    if turns != [] {
      assert turns[1..] == [];
      assert T.Commands(turns) == [PromptCommand(Some(turns[0]))];
      assert T.Prompts(T.Commands(turns)) == turns;
    }
  }

  lemma {:induction false} RunKeepsSafe(opening: Option<string>, ss: seq<State>, steps: seq<Step>, i: nat, p: Prompt)
    requires IsRun(opening, ss, steps) && i < |ss| && forall k :: 0 <= k < i ==> !Loses(ss[k], steps[k], p)
    ensures SafeOnceIssued(ss[i], p)
  {
    if i == 0 {
      OpeningIsAhead(opening, p);
    } else {
      var s, st := ss[i - 1], steps[i - 1];
      RunKeepsSafe(opening, ss, steps, i - 1, p);
      RunKeeps(opening, ss, steps, i - 1);
      assert ss[i - 1 + 1] == Apply(s, st);
      if p in s.turns.issued {
        StepKeepsSafe(s, st, p);
      } else if p in Apply(s, st).turns.issued {
        OnlyStartTurnIssues(s, st, p);
        NewTurnIsAhead(s, p.text, p);
      }
    }
  }

  /** In every run, over crashes and lost streams: a turn is lost only if a stream is lost that carries it. Until then
      an issued turn is accepted, or saved and not gone past; and as long as the runner takes turns in, it comes up
      before every later one, from the pipe, the held turns or the next reconcile. */
  lemma LostOnlyWithItsStream(opening: Option<string>, ss: seq<State>, steps: seq<Step>, i: nat, p: Prompt)
    requires IsRun(opening, ss, steps) && i < |ss| && p in ss[i].turns.issued
    requires forall k :: 0 <= k < i ==> !Loses(ss[k], steps[k], p)
    ensures p in ss[i].turns.accepted || Owed(ss[i].turns, p)
    ensures p in ss[i].turns.accepted || ss[i].turns.intake.finished || Ahead(ss[i], p)
    ensures p in ss[i].turns.accepted || ss[i].turns.intake.finished || p in Pipe(ss[i]) || Waits(ss[i].turns, p)
  {
    RunKeepsSafe(opening, ss, steps, i, p);
    if Ahead(ss[i], p) {
      ComesFromSomewhere(Pipe(ss[i]), p, Waits(ss[i].turns, p));
    }
  }

  lemma {:induction false} ComesFromSomewhere(pipe: seq<Prompt>, p: Prompt, waits: bool)
    requires ComesUp(pipe, p, waits)
    ensures p in pipe || waits
  {
    if pipe != [] && pipe[0] != p {
      ComesFromSomewhere(pipe[1..], p, waits);
    }
  }

  // ------------------------------------------------------------------ a lost stream loses a turn

  ghost predicate Reachable(s: State) {
    exists ss: seq<State>, steps: seq<Step> :: IsRun(None, ss, steps) && ss[|ss| - 1] == s
  }

  lemma ReachStep(s: State, st: Step)
    requires Reachable(s) && Enabled(s, st)
    ensures Reachable(Apply(s, st))
  {
    var ss: seq<State>, steps: seq<Step> :| IsRun(None, ss, steps) && ss[|ss| - 1] == s;
    assert IsRun(None, ss + [Apply(s, st)], steps + [st]);
  }

  lemma TurnIsSent(t: T.State, p: Prompt)
    requires !t.gated && !t.syncing && t.held == [] && p.turnSeq == t.alloc + 1 && p.turnId == TurnName(p.turnSeq)
    ensures T.Apply(t, T.StartTurn(p.text, true)) ==
              t.(alloc := t.alloc + 1, cmds := t.cmds + [PromptCommand(Some(p))],
                 issued := t.issued + [p], sent := t.sent + [p])
  {
    T.StartTurnApplies(t, p.text);
    assert [p][1..] == [] && SortBySeq([p]) == [p];
    assert T.Holding(t, p).held == [p];
  }

  /** A turn started on a binding that neither is gated nor syncs is queued at once. */
  lemma TurnIsQueued(s: State, p: Prompt)
    requires Reachable(s) && !s.turns.gated && !s.turns.syncing && s.turns.held == []
    requires p.turnSeq == s.turns.alloc + 1 && p.turnId == TurnName(p.turnSeq)
    ensures var s' := Apply(s, Turn(T.StartTurn(p.text, true)));
      && Reachable(s') && s'.queue == s.queue + [p] && s'.wire == s.wire
      && s'.turns.issued == s.turns.issued + [p] && s'.turns.cmds == s.turns.cmds + [PromptCommand(Some(p))]
      && s'.turns.held == [] && s'.turns.alloc == p.turnSeq && !s'.turns.gated && !s'.turns.syncing
      && s'.turns.intake == s.turns.intake && s'.turns.accepted == s.turns.accepted
  {
    ReachStep(s, Turn(T.StartTurn(p.text, true)));
    TurnIsSent(s.turns, p);
    assert (s.turns.sent + [p])[|s.turns.sent|..] == [p];
  }

  lemma ReachFirstTurn(one: Prompt) returns (s: State)
    requires one.turnSeq == 1 && one.turnId == TurnName(1)
    ensures Reachable(s) && s.queue == [] && s.wire == [one] && s.turns.alloc == 1
    ensures !s.turns.gated && !s.turns.syncing && s.turns.held == [] && s.turns.intake == Intake(0, [], false)
    ensures s.turns.accepted == [] && s.turns.issued == [one] && T.Prompts(s.turns.cmds) == [one]
  {
    var s0 := Init(None);
    assert IsRun(None, [s0], []);
    TurnIsQueued(s0, one);
    var s1 := Apply(s0, Turn(T.StartTurn(one.text, true)));
    T.PromptsPush([], PromptCommand(Some(one)));
    ReachStep(s1, Transmit);
    s := Apply(s1, Transmit);
  }

  /** Turn 1 is on the stream and turn 2 in the queue when the stream is lost. */
  lemma ReachLostStream(one: Prompt, two: Prompt) returns (s: State)
    requires one.turnSeq == 1 && one.turnId == TurnName(1) && two.turnSeq == 2 && two.turnId == TurnName(2)
    ensures Reachable(s) && s.queue == [two] && s.wire == [] && s.turns.intake == Intake(0, [], false)
    ensures s.turns.accepted == [] && one in s.turns.issued && one in T.Prompts(s.turns.cmds)
  {
    var s1 := ReachFirstTurn(one);
    TurnIsQueued(s1, two);
    var s2 := Apply(s1, Turn(T.StartTurn(two.text, true)));
    T.PromptsPush(s1.turns.cmds, PromptCommand(Some(two)));
    ReachStep(s2, StreamLost);
    s := Apply(s2, StreamLost);
  }

  /** The next stream takes turn 2 from the queue, and the runner accepts it before it hears of turn 1 again. Turn 1
      is saved, the runner has gone past it, and by `SkippedTurnNeverRuns` it never runs. */
  lemma LostStreamLosesTurn(a: string, b: string)
    ensures exists s: State, p: Prompt ::
              && Reachable(s) && p in s.turns.issued && p in T.Prompts(s.turns.cmds)
              && p !in s.turns.accepted && p.turnSeq <= s.turns.intake.lastTurnSeq
  {
    var one, two := Prompt(TurnName(1), 1, a), Prompt(TurnName(2), 2, b);
    var s := ReachLostStream(one, two);
    ReachStep(s, Transmit);
    var s' := Apply(s, Transmit);
    ReachStep(s', Arrive);
    var t := Apply(s', Arrive);
    assert t.turns.accepted == [two] && t.turns.intake.lastTurnSeq == 2;
    assert Reachable(t) && one in t.turns.issued && one in T.Prompts(t.turns.cmds) && one !in t.turns.accepted;
  }
}
