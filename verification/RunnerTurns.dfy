/** The runner's turn queue (harness/internal/runner/session.go): prompts are numbered, deduplicated by
    the highest number seen, run one at a time, and each ends in one TurnFinished event.

    `Session` is the object the runner updates under its mutex. `Machine` adds the turn loop's program
    counter, so that prompts, the loop, the agent's exit and the final drain may interleave. */
module RunnerTurns {
  import opened Common

  datatype Prompt = Prompt(turnId: string, turnSeq: nat, text: string)

  // ----- what one prompt frame does -----

  datatype Intake = Intake(lastTurnSeq: nat, queue: seq<Prompt>, finished: bool)

  predicate Accepts(t: Intake, p: Prompt) {
    !t.finished && p.turnSeq > t.lastTurnSeq
  }

  function TakeIn(t: Intake, p: Prompt): Intake {
    if Accepts(t, p) then t.(lastTurnSeq := p.turnSeq, queue := t.queue + [p]) else t
  }

  /** A stream of prompt frames, in arrival order. */
  function TakeAll(t: Intake, ps: seq<Prompt>): Intake
    decreases |ps|
  {
    if ps == [] then t else TakeAll(TakeIn(t, ps[0]), ps[1..])
  }

  ghost predicate Ascending(ps: seq<Prompt>) {
    forall i, j :: 0 <= i < j < |ps| ==> ps[i].turnSeq < ps[j].turnSeq
  }

  /** An ascending stream above the highest number seen is accepted whole and in order. */
  lemma {:induction false} AscendingAccepted(t: Intake, ps: seq<Prompt>)
    requires !t.finished && Ascending(ps)
    requires forall i :: 0 <= i < |ps| ==> ps[i].turnSeq > t.lastTurnSeq
    ensures TakeAll(t, ps).queue == t.queue + ps && !TakeAll(t, ps).finished
    ensures TakeAll(t, ps).lastTurnSeq == if ps == [] then t.lastTurnSeq else ps[|ps| - 1].turnSeq
    decreases |ps|
  {
    if ps != [] {
      AscendingAccepted(TakeIn(t, ps[0]), ps[1..]);
      assert t.queue + [ps[0]] + ps[1..] == t.queue + ps;
    }
  }

  /** An ascending stream loses exactly its prompts at or below the highest number seen. */
  lemma {:induction false} AscendingSplits(t: Intake, ps: seq<Prompt>, k: nat)
    requires !t.finished && Ascending(ps) && k <= |ps|
    requires forall i :: 0 <= i < k ==> ps[i].turnSeq <= t.lastTurnSeq
    requires forall i :: k <= i < |ps| ==> ps[i].turnSeq > t.lastTurnSeq
    ensures TakeAll(t, ps).queue == t.queue + ps[k..]
  {
    if k == 0 {
      AscendingAccepted(t, ps);
      assert ps[0..] == ps;
    } else {
      AscendingSplits(t, ps[1..], k - 1);
      assert ps[1..][k - 1..] == ps[k..];
    }
  }

  // ----- the object -----

  /** The state the runner reports with each replay. */
  datatype AgentState = AgentState(lastTurnSeq: nat, outstanding: seq<string>)

  function Ids(ps: seq<Prompt>): seq<string> {
    if ps == [] then [] else [ps[0].turnId] + Ids(ps[1..])
  }

  class Session {
    var lastTurnSeq: nat
    var queue: seq<Prompt>
    var running: Option<Prompt>
    var finished: bool
    var emitted: seq<Prompt>  // the turns of the TurnFinished events, in order

    constructor ()
      ensures lastTurnSeq == 0 && queue == [] && running == None && !finished && emitted == []
    {
      lastTurnSeq, queue, running, finished, emitted := 0, [], None, false, [];
    }

    function View(): Intake
      reads this
    {
      Intake(lastTurnSeq, queue, finished)
    }

    method Receive(p: Prompt)
      modifies `lastTurnSeq, `queue
      ensures View() == TakeIn(old(View()), p)
    {
      if finished {
        return;
      }
      if p.turnSeq <= lastTurnSeq {
        return;
      }
      lastTurnSeq := p.turnSeq;
      queue := queue + [p];
    }

    /** One pass of the turn loop: none once the agent's process has exited, or while nothing is queued. */
    method NextTurn(exited: bool) returns (p: Option<Prompt>)
      modifies `queue, `running
      ensures p.Some? <==> !exited && old(queue) != []
      ensures p.Some? ==> [p.value] + queue == old(queue) && running == p
      ensures p.None? ==> queue == old(queue) && running == old(running)
    {
      if !exited && |queue| > 0 {
        p := Some(queue[0]);
        queue := queue[1..];
        running := p;
      } else {
        p := None;
      }
    }

    /** After the exit: every turn still queued gets its one TurnFinished, in queue order. */
    method Finish()
      modifies `queue, `finished, `emitted
      ensures queue == [] && finished && emitted == old(emitted) + old(queue)
    {
      var queued := queue;
      queue := [];
      finished := true;
      for i := 0 to |queued|
        invariant queue == [] && finished && emitted == old(emitted) + queued[..i]
      {
        emitted := emitted + [queued[i]];
      }
    }

    method State() returns (st: AgentState)
      ensures st.lastTurnSeq == lastTurnSeq
      ensures st.outstanding == Ids((if running.Some? then [running.value] else []) + queue)
    {
      var ids := if running.Some? then [running.value.turnId] else [];
      assert running.Some? ==> [running.value][1..] == [];
      for i := 0 to |queue|
        invariant ids == Ids((if running.Some? then [running.value] else []) + queue[..i])
      {
        IdsPush((if running.Some? then [running.value] else []) + queue[..i], queue[i]);
        assert (if running.Some? then [running.value] else []) + queue[..i + 1]
            == (if running.Some? then [running.value] else []) + queue[..i] + [queue[i]];
        ids := ids + [queue[i].turnId];
      }
      assert queue[..|queue|] == queue;
      st := AgentState(lastTurnSeq, ids);
    }
  }

  lemma {:induction false} IdsPush(ps: seq<Prompt>, p: Prompt)
    ensures Ids(ps + [p]) == Ids(ps) + [p.turnId]
  {
    if ps == [] {
      assert [p][1..] == [];
    } else {
      IdsPush(ps[1..], p);
      assert (ps + [p])[1..] == ps[1..] + [p];
    }
  }

  // ----- every interleaving -----

  /** Where the turn loop is. `Clearing` is between the TurnFinished event and `running = nil`. */
  datatype Loop =
    | Opening
    | Waiting
    | Running(turn: Prompt)
    | Clearing(turn: Prompt)
    | Exiting
    | Draining(left: seq<Prompt>)
    | Done

  /** `accepted`, `started` and `ended` are the prompts taken in, handed to the agent, and reported
      finished so far. */
  datatype Machine = Machine(intake: Intake, running: Option<Prompt>, exited: bool, loop: Loop,
                             accepted: seq<Prompt>, started: seq<Prompt>, ended: seq<Prompt>)

  function Init(): Machine {
    Machine(Intake(0, [], false), None, false, Opening, [], [], [])
  }

  datatype Step =
    | Receive(p: Prompt)
    | Open(ok: bool)
    | AgentExits
    | Next
    | TurnEnds
    | Clear
    | TakeQueue
    | DrainOne
    | DrainEnds

  predicate Enabled(m: Machine, s: Step) {
    match s
    case Receive(_) => true
    case Open(_) => m.loop.Opening?
    case AgentExits => true
    case Next => m.loop.Waiting? && (m.exited || m.intake.queue != [])
    case TurnEnds => m.loop.Running?
    case Clear => m.loop.Clearing?
    case TakeQueue => m.loop.Exiting? && m.exited
    case DrainOne => m.loop.Draining? && m.loop.left != []
    case DrainEnds => m.loop.Draining? && m.loop.left == []
  }

  function Apply(m: Machine, s: Step): Machine
    requires Enabled(m, s)
  {
    match s
    case Receive(p) =>
      m.(intake := TakeIn(m.intake, p), accepted := if Accepts(m.intake, p) then m.accepted + [p] else m.accepted)
    case Open(ok) => m.(loop := if ok then Waiting else Exiting)
    case AgentExits => m.(exited := true)
    case Next =>
      if m.exited then m.(loop := Exiting)
      else
        var p := m.intake.queue[0];
        m.(intake := m.intake.(queue := m.intake.queue[1..]), running := Some(p), loop := Running(p),
           started := m.started + [p])
    case TurnEnds => m.(loop := Clearing(m.loop.turn), ended := m.ended + [m.loop.turn])
    case Clear => m.(loop := Waiting, running := None)
    case TakeQueue => m.(loop := Draining(m.intake.queue), intake := m.intake.(queue := [], finished := true))
    case DrainOne => m.(loop := Draining(m.loop.left[1..]), ended := m.ended + [m.loop.left[0]])
    case DrainEnds => m.(loop := Done)
  }

  ghost predicate IsRun(ms: seq<Machine>, steps: seq<Step>) {
    && |ms| == |steps| + 1
    && ms[0] == Init()
    && forall i :: 0 <= i < |steps| ==> Enabled(ms[i], steps[i]) && ms[i + 1] == Apply(ms[i], steps[i])
  }

  function InFlight(l: Loop): seq<Prompt> {
    match l
    case Running(p) => [p]
    case Draining(left) => left
    case _ => []
  }

  ghost predicate Inv(m: Machine) {
    && m.accepted == m.ended + InFlight(m.loop) + m.intake.queue
    && Ascending(m.accepted)
    && (forall i :: 0 <= i < |m.accepted| ==> m.accepted[i].turnSeq <= m.intake.lastTurnSeq)
    && (m.intake.finished <==> m.loop.Draining? || m.loop.Done?)
    && (m.loop.Draining? || m.loop.Done? ==> m.intake.queue == [])
    && m.running == (match m.loop case Running(p) => Some(p) case Clearing(p) => Some(p) case _ => None)
    && (m.loop.Clearing? ==> m.ended != [] && m.ended[|m.ended| - 1] == m.loop.turn)
    && m.started <= m.accepted
    && (!m.intake.finished ==> |m.started| == |m.ended| + |InFlight(m.loop)|)
  }

  lemma ReceiveKeeps(m: Machine, p: Prompt)
    requires Inv(m)
    ensures Inv(Apply(m, Receive(p)))
  {
    if Accepts(m.intake, p) {
      assert m.accepted + [p] == m.ended + InFlight(m.loop) + (m.intake.queue + [p]);
    }
  }

  lemma NextKeeps(m: Machine)
    requires Inv(m) && Enabled(m, Next)
    ensures Inv(Apply(m, Next))
  {
    if !m.exited {
      var q := m.intake.queue;
      assert m.accepted == m.ended + [q[0]] + q[1..];
      assert m.started + [q[0]] == m.accepted[..|m.ended| + 1];
    }
  }

  lemma StepKeeps(m: Machine, s: Step)
    requires Inv(m) && Enabled(m, s)
    ensures Inv(Apply(m, s))
  {
    match s
    case Receive(p) => ReceiveKeeps(m, p);
    case Next => NextKeeps(m);
    case DrainOne =>
      assert m.ended + m.loop.left == m.ended + [m.loop.left[0]] + m.loop.left[1..];
    case _ =>
  }

  lemma {:induction false} RunKeeps(ms: seq<Machine>, steps: seq<Step>, i: nat)
    requires IsRun(ms, steps) && i < |ms|
    ensures Inv(ms[i])
  {
    if i > 0 {
      RunKeeps(ms, steps, i - 1);
      StepKeeps(ms[i - 1], steps[i - 1]);
      assert ms[i - 1 + 1] == Apply(ms[i - 1], steps[i - 1]);
    }
  }

  /** Whatever prompts arrive, however often: turns run at most once and in ascending number, the
      TurnFinished events are a prefix of the accepted turns, and all of them once the runner is done. */
  lemma TurnsRunOnceInOrder(ms: seq<Machine>, steps: seq<Step>, i: nat)
    requires IsRun(ms, steps) && i < |ms|
    ensures Ascending(ms[i].accepted) && Ascending(ms[i].started) && Ascending(ms[i].ended)
    ensures ms[i].started <= ms[i].accepted && ms[i].ended <= ms[i].accepted
    ensures ms[i].loop.Done? ==> ms[i].ended == ms[i].accepted
  {
    RunKeeps(ms, steps, i);
    var m := ms[i];
    assert forall k :: 0 <= k < |m.ended| ==> m.ended[k] == m.accepted[k];
  }

  /** The turns a state report lists, against those accepted and not yet reported finished. The report
      agrees with them exactly when the loop is not between an end and its clearing and no drained turn
      still waits for its event. */
  lemma ReportIsExact(ms: seq<Machine>, steps: seq<Step>, i: nat)
    requires IsRun(ms, steps) && i < |ms|
    ensures var m := ms[i];
            var listed := (if m.running.Some? then [m.running.value] else []) + m.intake.queue;
            && (forall p :: p in listed ==> p in m.accepted && p.turnSeq <= m.intake.lastTurnSeq)
            && |m.ended| <= |m.accepted|
            && (listed == m.accepted[|m.ended|..] <==> !m.loop.Clearing? && (m.loop.Draining? ==> m.loop.left == []))
  {
    RunKeeps(ms, steps, i);
    var m := ms[i];
    assert m.accepted[|m.ended|..] == InFlight(m.loop) + m.intake.queue;
    var listed := (if m.running.Some? then [m.running.value] else []) + m.intake.queue;
    forall p | p in listed
      ensures p in m.accepted && p.turnSeq <= m.intake.lastTurnSeq
    {
      assert p in m.accepted;
    }
  }
}
