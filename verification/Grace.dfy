/** The grace timer of an attachment and the callbacks that arm and cancel it (harness/internal/agentlink/server.go,
    run.go; harness/internal/sandbox/orchestrator.go): attach streams come, evict a silent predecessor, report
    themselves under `notifyMu`, are lost and released. */
module Grace {
  import opened Common

  // ------------------------------------------------------------------ the attachment

  datatype Cause = TunnelLost | SidecarRestarted | Failed

  /** What the sandbox keeps of an attachment: `armed` tells a grace timer that runs, and `told` what
      supervision was told, if it was. */
  datatype Attached = Attached(attached: bool, spawned: bool, forgotten: bool, armed: bool, told: Option<Cause>)

  /** What happens to an attachment: a stream reports itself, the live stream is lost, the pod reports an error,
      the agent is spawned, or the timer runs out. */
  datatype Signal = StreamAttached(agentRunning: bool) | StreamLost | PodFailed | AgentSpawned | TimerExpired

  /** `fire`, when nobody comes between its check and its call: supervision is told once, and not after Forget. */
  function Tell(a: Attached, cause: Cause): Attached {
    if a.forgotten || a.told.Some? then a else a.(told := Some(cause))
  }

  /** What a callback does before it fires. */
  function Signalled(a: Attached, sig: Signal): Attached {
    match sig
    case StreamAttached(_) => a.(attached := true, armed := false)
    case StreamLost => a.(armed := true)
    case PodFailed => a
    case AgentSpawned => a.(spawned := true)
    case TimerExpired => a.(armed := false)
  }

  /** What it fires, if anything. */
  function Fires(a: Attached, sig: Signal): Option<Cause> {
    match sig
    case StreamAttached(agentRunning) => if a.spawned && !agentRunning then Some(SidecarRestarted) else None
    case PodFailed => Some(Failed)
    case TimerExpired => Some(TunnelLost)
    case _ => None
  }

  /** A whole callback that nobody interrupts. */
  function Handled(a: Attached, sig: Signal): Attached {
    var b, cause := Signalled(a, sig), Fires(a, sig);
    if cause.Some? then Tell(b, cause.value) else b
  }

  class Attachment {
    var attached: bool
    var spawned: bool
    var forgotten: bool
    var armed: bool
    var told: Option<Cause>

    ghost function View(): Attached
      reads this
    {
      Attached(attached, spawned, forgotten, armed, told)
    }

    /** An adopted attachment has its agent and starts under a grace timer. */
    constructor (adopted: bool)
      ensures View() == Init(adopted).att
    {
      attached, spawned, forgotten, armed, told := false, adopted, false, adopted, None;
    }

    method Fire(cause: Cause)
      modifies `told
      ensures View() == Tell(old(View()), cause)
    {
      if forgotten {
        return;
      }
      if told.None? {
        told := Some(cause);
      }
    }

    /** The callbacks of the link and of the timer. */
    method Signal(sig: Signal)
      modifies this
      ensures View() == Handled(old(View()), sig)
      ensures forgotten == old(forgotten) && (forgotten || old(told).Some? ==> told == old(told))
    {
      match sig
      case StreamAttached(agentRunning) =>
        attached := true;
        armed := false;
        if spawned && !agentRunning {
          Fire(SidecarRestarted);
        }
      case StreamLost =>
        armed := true;
      case PodFailed =>
        Fire(Failed);
      case AgentSpawned =>
        spawned := true;
      case TimerExpired =>
        armed := false;
        Fire(TunnelLost);
    }

    /** Only the first Forget stops a timer: one armed afterwards runs, and tells nobody. */
    method Forget()
      modifies `forgotten, `armed
      ensures forgotten && armed == (old(forgotten) && old(armed))
      ensures forall sig: Signal :: Handled(View(), sig).told == old(told)
    {
      if !forgotten {
        forgotten := true;
        armed := false;
      }
    }
  }

  // ------------------------------------------------------------------ the machine

  /** The report of a stream: its HelloAck is not sent, its callback is on its way, or returned. */
  datatype Report = Unsent | Due | Reported

  datatype StreamPc = Serving | Returned | Over

  /** Who holds `notifyMu`: the callback of a stream, its release, or its release after it left `live`. */
  datatype Notify = Open | Attaching(s: nat) | Releasing(s: nat) | Losing(s: nat)

  datatype Stream = Stream(pc: StreamPc, report: Report)

  /** The calls of `fire` in progress: `begun` have not looked yet whether the attachment is forgotten, and
      `checked` have seen that it is not. A timer that ran out is one of them; stopping it comes too late. */
  datatype Calls = Calls(begun: multiset<Cause>, checked: multiset<Cause>)

  /** Since the last loss (or the adoption): `expired` tells that the timer ran out, and `late` that a stream
      reported itself while none was live. */
  datatype State = State(streams: seq<Stream>, live: Option<nat>, notify: Notify, att: Attached, calls: Calls,
                         adopted: bool, done: bool, expired: bool, late: bool)

  function Init(adopted: bool): State {
    State([], None, Open, Attached(false, adopted, false, adopted, None), Calls(multiset{}, multiset{}),
          adopted, false, false, false)
  }

  datatype Step =
    | Claim
    | HelloSent(s: nat)
    | NotifyLocks(s: nat)
    | OnAttached(agentRunning: bool)
    | Return(s: nat)
    | ReleaseLocks(s: nat)
    | Release
    | OnLost
    | OnError
    | Spawn
    | TimerFires
    | FireChecks(cause: Cause)
    | FireTells(cause: Cause)
    | ForgetStarts
    | ForgetCancels
    | Finish

  predicate Enabled(g: State, st: Step) {
    match st
    case Claim => !g.done
    case HelloSent(s) => s < |g.streams| && g.streams[s] == Stream(Serving, Unsent)
    case NotifyLocks(s) => s < |g.streams| && g.streams[s].report.Due? && g.notify.Open?
    case OnAttached(_) => g.notify.Attaching? && g.notify.s < |g.streams|
    case Return(s) => s < |g.streams| && g.streams[s].pc.Serving? && !g.streams[s].report.Due?
    case ReleaseLocks(s) => s < |g.streams| && g.streams[s].pc.Returned? && g.notify.Open?
    case Release => g.notify.Releasing? && g.notify.s < |g.streams|
    case OnLost => g.notify.Losing?
    case OnError => true
    case Spawn => true
    case TimerFires => g.att.armed
    case FireChecks(cause) => cause in g.calls.begun
    case FireTells(cause) => cause in g.calls.checked
    case ForgetStarts => !g.att.forgotten
    case ForgetCancels => g.att.forgotten
    case Finish => !g.done
  }

  function Put(g: State, s: nat, t: Stream): State
    requires s < |g.streams|
  {
    g.(streams := g.streams[s := t])
  }

  /** `release` under its two locks: only a stream that is still the live one is lost. */
  function ReleaseStep(g: State): State
    requires Enabled(g, Release)
  {
    var s := g.notify.s;
    var ours := g.live == Some(s);
    Put(g, s, g.streams[s].(pc := Over)).
      (live := if ours then None else g.live, notify := if ours && !g.done then Losing(s) else Open)
  }

  /** The part of a callback up to its `fire`. */
  function Signals(g: State, sig: Signal): State {
    var cause := Fires(g.att, sig);
    var begun := if cause.Some? then g.calls.begun + multiset{cause.value} else g.calls.begun;
    g.(att := Signalled(g.att, sig), calls := g.calls.(begun := begun))
  }

  function FireChecksStep(g: State, cause: Cause): State
    requires cause in g.calls.begun
  {
    var checked := if g.att.forgotten then g.calls.checked else g.calls.checked + multiset{cause};
    g.(calls := Calls(g.calls.begun - multiset{cause}, checked))
  }

  /** The once of `fire`. */
  function FireTellsStep(g: State, cause: Cause): State
    requires cause in g.calls.checked
  {
    g.(calls := g.calls.(checked := g.calls.checked - multiset{cause}),
       att := g.att.(told := if g.att.told.Some? then g.att.told else Some(cause)))
  }

  function Apply(g: State, st: Step): State
    requires Enabled(g, st)
  {
    match st
    case Claim => g.(streams := g.streams + [Stream(Serving, Unsent)], live := Some(|g.streams|))
    case HelloSent(s) => Put(g, s, Stream(Serving, Due))
    case NotifyLocks(s) => g.(notify := Attaching(s))
    case OnAttached(agentRunning) =>
      Signals(Put(g, g.notify.s, g.streams[g.notify.s].(report := Reported)), StreamAttached(agentRunning)).
        (notify := Open, late := g.late || g.live.None?)
    case Return(s) => Put(g, s, g.streams[s].(pc := Returned))
    case ReleaseLocks(s) => g.(notify := Releasing(s))
    case Release => ReleaseStep(g)
    case OnLost => Signals(g, StreamLost).(notify := Open, expired := false, late := false)
    case OnError => Signals(g, PodFailed)
    case Spawn => Signals(g, AgentSpawned)
    case TimerFires => Signals(g, TimerExpired).(expired := true)
    case FireChecks(cause) => FireChecksStep(g, cause)
    case FireTells(cause) => FireTellsStep(g, cause)
    case ForgetStarts => g.(att := g.att.(forgotten := true))
    case ForgetCancels => g.(att := g.att.(armed := false))
    case Finish => g.(done := true, live := None)
  }

  ghost predicate IsPath(gs: seq<State>, steps: seq<Step>) {
    && |gs| == |steps| + 1
    && forall i :: 0 <= i < |steps| ==> Enabled(gs[i], steps[i]) && gs[i + 1] == Apply(gs[i], steps[i])
  }

  ghost predicate IsRun(adopted: bool, gs: seq<State>, steps: seq<Step>) {
    IsPath(gs, steps) && gs[0] == Init(adopted)
  }

  // ------------------------------------------------------------------ invariant

  /** The live stream has reported itself: then nothing is armed, and no loss is being reported. */
  ghost predicate ReportedOk(g: State) {
    && (g.live.Some? ==> g.live.value < |g.streams|)
    && (g.live.Some? && g.streams[g.live.value].report.Reported? ==> !g.att.armed && !g.notify.Losing?)
  }

  /** Without a live stream the timer runs unless it ran out or a late report cancelled it; the loss that arms
      it may still be on its way. */
  ghost predicate LossOk(g: State) {
    && (g.expired || g.late ==> !g.att.armed)
    && (g.live.None? && !g.done && !g.att.forgotten && (g.adopted || g.streams != []) ==>
          g.att.armed || g.expired || g.late || g.notify.Losing?)
  }

  ghost predicate Inv(g: State) {
    ReportedOk(g) && LossOk(g)
  }

  lemma StepKeeps(g: State, st: Step)
    requires Inv(g) && Enabled(g, st)
    ensures Inv(Apply(g, st))
  {
  }

  lemma AdoptionStays(g: State, st: Step)
    requires Enabled(g, st)
    ensures Apply(g, st).adopted == g.adopted
  {
  }

  lemma {:induction false} RunKeeps(adopted: bool, gs: seq<State>, steps: seq<Step>, i: nat)
    requires IsRun(adopted, gs, steps) && i < |gs|
    ensures Inv(gs[i])
  {
    if i > 0 {
      RunKeeps(adopted, gs, steps, i - 1);
      StepKeeps(gs[i - 1], steps[i - 1]);
    }
  }

  lemma {:induction false} RunAdopted(adopted: bool, gs: seq<State>, steps: seq<Step>, i: nat)
    requires IsRun(adopted, gs, steps) && i < |gs|
    ensures gs[i].adopted == adopted
  {
    if i > 0 {
      RunAdopted(adopted, gs, steps, i - 1);
      AdoptionStays(gs[i - 1], steps[i - 1]);
    }
  }

  /** Once the current attach stream has reported itself, no grace timer is armed, whatever evictions, losses
      and re-attaches surround it, and also for the timer that an adoption armed. */
  lemma ReportedStreamHasNoTimer(adopted: bool, gs: seq<State>, steps: seq<Step>, i: nat)
    requires IsRun(adopted, gs, steps) && i < |gs|
    requires gs[i].live.Some? && gs[i].live.value < |gs[i].streams| && gs[i].streams[gs[i].live.value].report.Reported?
    ensures !gs[i].att.armed
  {
    RunKeeps(adopted, gs, steps, i);
  }

  /** A run that was attached or adopted, has no stream and is not given up: whenever `notifyMu` is free its
      timer runs if and only if, since the loss, it has not run out and no displaced stream has reported
      itself. */
  lemma LostRunIsTimed(adopted: bool, gs: seq<State>, steps: seq<Step>, i: nat)
    requires IsRun(adopted, gs, steps) && i < |gs| && gs[i].notify.Open? && gs[i].live.None?
    requires (adopted || gs[i].streams != []) && !gs[i].done && !gs[i].att.forgotten
    ensures gs[i].att.armed <==> !gs[i].expired && !gs[i].late
  {
    RunKeeps(adopted, gs, steps, i);
    RunAdopted(adopted, gs, steps, i);
  }

  // ------------------------------------------------------------------ what supervision is told

  /** A callback whose two halves nobody separates is the callback of the class. */
  lemma UninterruptedCallback(g: State, sig: Signal)
    ensures var h, cause := Signals(g, sig), Fires(g.att, sig);
      Handled(g.att, sig) ==
        if cause.None? then h.att
        else if h.att.forgotten then FireChecksStep(h, cause.value).att
        else FireTellsStep(FireChecksStep(h, cause.value), cause.value).att
  {
  }

  /** A call of `fire` in progress will tell supervision: nothing was told yet, and the call has made its check or
      will pass it. */
  predicate Pending(g: State) {
    && g.att.told.None?
    && (g.calls.checked != multiset{} || (g.calls.begun != multiset{} && !g.att.forgotten))
  }

  /** A step that begins a call of `fire`, on an attachment that is not forgotten. */
  predicate Begins(g: State, st: Step) {
    !g.att.forgotten && BeginsCall(g.att, st).Some?
  }

  function BeginsCall(a: Attached, st: Step): Option<Cause> {
    match st
    case OnAttached(agentRunning) => Fires(a, StreamAttached(agentRunning))
    case OnError => Fires(a, PodFailed)
    case TimerFires => Fires(a, TimerExpired)
    case _ => None
  }

  /** What a step does to what supervision is told, and to the calls. */
  lemma StepCalls(g: State, st: Step)
    requires Enabled(g, st)
    ensures var h := Apply(g, st);
      match st
      case FireChecks(cause) => h == FireChecksStep(g, cause)
      case FireTells(cause) => h == FireTellsStep(g, cause)
      case _ =>
        && h.att.told == g.att.told && (g.att.forgotten ==> h.att.forgotten) && h.calls.checked == g.calls.checked
        && h.calls.begun == match BeginsCall(g.att, st)
                            case None => g.calls.begun
                            case Some(cause) => g.calls.begun + multiset{cause}
  {
  }

  lemma ToldStays(g: State, st: Step)
    requires Enabled(g, st) && g.att.told.Some?
    ensures Apply(g, st).att.told == g.att.told
  {
    StepCalls(g, st);
  }

  /** Supervision is told once at most: what it was told never changes. */
  lemma {:induction false} ToldOnce(gs: seq<State>, steps: seq<Step>, i: nat, j: nat)
    requires IsPath(gs, steps) && i <= j < |gs| && gs[i].att.told.Some?
    ensures gs[j].att.told == gs[i].att.told
    decreases j
  {
    if i < j {
      var k := j - 1;
      ToldOnce(gs, steps, i, k);
      assert Enabled(gs[k], steps[k]) && gs[k + 1] == Apply(gs[k], steps[k]);
      ToldStays(gs[k], steps[k]);
    }
  }

  /** Supervision can be told without another call of `fire` on an attachment that is not forgotten. */
  ghost predicate CanBeTold(g: State) {
    exists gs: seq<State>, steps: seq<Step> ::
      && IsPath(gs, steps) && gs[0] == g && g.att.told.None? && gs[|gs| - 1].att.told.Some?
      && forall k :: 0 <= k < |steps| ==> !Begins(gs[k], steps[k])
  }

  lemma QuietStep(g: State, st: Step)
    requires Enabled(g, st) && !Begins(g, st) && g.att.told.None? && !Pending(g)
    ensures Apply(g, st).att.told.None? && !Pending(Apply(g, st))
  {
    StepCalls(g, st);
    assert g.calls.checked == multiset{};
  }

  lemma {:induction false} QuietStays(gs: seq<State>, steps: seq<Step>, i: nat)
    requires IsPath(gs, steps) && i < |gs| && gs[0].att.told.None? && !Pending(gs[0])
    requires forall k :: 0 <= k < |steps| ==> !Begins(gs[k], steps[k])
    ensures gs[i].att.told.None? && !Pending(gs[i])
  {
    if i > 0 {
      QuietStays(gs, steps, i - 1);
      QuietStep(gs[i - 1], steps[i - 1]);
      assert gs[i - 1 + 1] == Apply(gs[i - 1], steps[i - 1]);
    }
  }

  lemma CheckedTells(g: State, cause: Cause)
    requires g.att.told.None? && cause in g.calls.checked
    ensures CanBeTold(g)
  {
    var h := Apply(g, FireTells(cause));
    assert IsPath([g, h], [FireTells(cause)]) && h.att.told.Some?;
    assert !Begins(g, FireTells(cause)) && [g, h][0] == g;
  }

  lemma BegunTells(g: State, cause: Cause)
    requires g.att.told.None? && !g.att.forgotten && cause in g.calls.begun
    ensures CanBeTold(g)
  {
    var h := Apply(g, FireChecks(cause));
    var k := Apply(h, FireTells(cause));
    var gs, steps := [g, h, k], [FireChecks(cause), FireTells(cause)];
    assert IsPath(gs, steps) && gs[0] == g && gs[|gs| - 1].att.told.Some?;
    assert !Begins(g, FireChecks(cause)) && !Begins(h, FireTells(cause));
  }

  /** Whatever else happens, without another `fire` supervision can still be told if and only if a call is pending;
      so after Forget exactly if a call had made its check before it, and after a timer was stopped exactly if its
      own call, or another, was on its way. */
  lemma CanBeToldIff(g: State)
    ensures CanBeTold(g) <==> Pending(g)
  {
    if Pending(g) {
      if g.calls.checked != multiset{} {
        var cause :| cause in g.calls.checked;
        CheckedTells(g, cause);
      } else {
        var cause :| cause in g.calls.begun;
        BegunTells(g, cause);
      }
    } else if CanBeTold(g) {
      var gs: seq<State>, steps: seq<Step> :|
        && IsPath(gs, steps) && gs[0] == g && g.att.told.None? && gs[|gs| - 1].att.told.Some?
        && forall k :: 0 <= k < |steps| ==> !Begins(gs[k], steps[k]);
      QuietStays(gs, steps, |gs| - 1);
    }
  }

  /** A timer that runs out has its call pending, unless supervision was told before or the attachment is
      forgotten. */
  lemma ExpiryTells(g: State)
    requires Enabled(g, TimerFires) && g.att.told.None? && !g.att.forgotten
    ensures TunnelLost in Apply(g, TimerFires).calls.begun && CanBeTold(Apply(g, TimerFires))
  {
    var h := Apply(g, TimerFires);
    assert TunnelLost in h.calls.begun;
    BegunTells(h, TunnelLost);
  }

  ghost predicate Reachable(g: State) {
    exists gs: seq<State>, steps: seq<Step> :: IsRun(false, gs, steps) && gs[|gs| - 1] == g
  }

  lemma ReachStep(g: State, st: Step)
    requires Reachable(g) && Enabled(g, st)
    ensures Reachable(Apply(g, st))
  {
    var gs: seq<State>, steps: seq<Step> :| IsRun(false, gs, steps) && gs[|gs| - 1] == g;
    assert IsRun(false, gs + [Apply(g, st)], steps + [st]);
  }

  /** An evicted stream whose callback is due, and its successor lost: the timer runs. */
  lemma ReachLostAfterEviction() returns (g: State)
    ensures Reachable(g)
    ensures g == Init(false).(streams := [Stream(Serving, Due), Stream(Over, Unsent)],
                              att := Signalled(Init(false).att, StreamLost))
  {
    var g0 := Init(false);
    assert IsRun(false, [g0], []);
    ReachStep(g0, Claim);
    var g1 := g0.(streams := [Stream(Serving, Unsent)], live := Some(0));
    assert Apply(g0, Claim) == g1;
    ReachStep(g1, HelloSent(0));
    var g2 := g1.(streams := [Stream(Serving, Due)]);
    assert Apply(g1, HelloSent(0)) == g2;
    ReachStep(g2, Claim);
    var g3 := g2.(streams := [Stream(Serving, Due), Stream(Serving, Unsent)], live := Some(1));
    assert Apply(g2, Claim) == g3;
    ReachStep(g3, Return(1));
    var g4 := g3.(streams := [Stream(Serving, Due), Stream(Returned, Unsent)]);
    assert Apply(g3, Return(1)) == g4;
    ReachStep(g4, ReleaseLocks(1));
    var g5 := g4.(notify := Releasing(1));
    ReachStep(g5, Release);
    var g6 := g5.(streams := [Stream(Serving, Due), Stream(Over, Unsent)], live := None, notify := Losing(1));
    assert Apply(g5, Release) == g6;
    ReachStep(g6, OnLost);
    g := g6.(att := Signalled(g6.att, StreamLost), notify := Open);
  }

  /** The late case is real: the callback of an evicted stream that runs after its successor was lost cancels
      the timer of that loss, and the run is left without a stream, without a timer, and with nobody told. */
  lemma LateReportCancelsTimer()
    ensures exists g: State ::
              && Reachable(g) && g.late && g.notify.Open? && g.live.None? && g.streams != []
              && !g.done && !g.att.forgotten && !g.att.armed && !g.expired && g.att.told.None?
  {
    var g := ReachLostAfterEviction();
    ReachStep(g, NotifyLocks(0));
    var h := g.(notify := Attaching(0));
    ReachStep(h, OnAttached(true));
    var k := Apply(h, OnAttached(true));
    assert Reachable(k) && k.late;
  }

  /** A stream is lost. */
  lemma ReachLost() returns (g: State)
    ensures Reachable(g)
    ensures g == Init(false).(streams := [Stream(Over, Unsent)], att := Init(false).att.(armed := true))
  {
    var g0 := Init(false);
    assert IsRun(false, [g0], []);
    ReachStep(g0, Claim);
    var g1 := g0.(streams := [Stream(Serving, Unsent)], live := Some(0));
    assert Apply(g0, Claim) == g1;
    ReachStep(g1, Return(0));
    var g2 := g1.(streams := [Stream(Returned, Unsent)]);
    assert Apply(g1, Return(0)) == g2;
    ReachStep(g2, ReleaseLocks(0));
    var g3 := g2.(notify := Releasing(0));
    ReachStep(g3, Release);
    var g4 := g3.(streams := [Stream(Over, Unsent)], live := None, notify := Losing(0));
    assert Apply(g3, Release) == g4;
    ReachStep(g4, OnLost);
    g := g4.(att := g4.att.(armed := true), notify := Open);
  }

  /** Its timer runs out, and a stream attaches before the call that this began looks at anything. */
  lemma ReachAttachedAfterExpiry() returns (g: State)
    ensures Reachable(g) && g.live == Some(1) && |g.streams| == 2 && g.streams[1].report.Reported?
    ensures g.att.told.None? && !g.att.forgotten && !g.att.armed && g.calls == Calls(multiset{TunnelLost}, multiset{})
  {
    var g0 := ReachLost();
    ReachStep(g0, TimerFires);
    var g1 := g0.(att := Init(false).att, calls := Calls(multiset{TunnelLost}, multiset{}), expired := true);
    assert Apply(g0, TimerFires) == g1;
    ReachStep(g1, Claim);
    var g2 := g1.(streams := [Stream(Over, Unsent), Stream(Serving, Unsent)], live := Some(1));
    assert Apply(g1, Claim) == g2;
    ReachStep(g2, HelloSent(1));
    var g3 := g2.(streams := [Stream(Over, Unsent), Stream(Serving, Due)]);
    assert Apply(g2, HelloSent(1)) == g3;
    ReachStep(g3, NotifyLocks(1));
    var g4 := g3.(notify := Attaching(1));
    ReachStep(g4, OnAttached(true));
    g := g3.(streams := [Stream(Over, Unsent), Stream(Serving, Reported)], att := g3.att.(attached := true));
    assert Apply(g4, OnAttached(true)) == g;
  }

  /** The stop of a timer can come too late: a stream attaches and reports itself after the timer ran out, no timer
      is armed any more, and supervision is told all the same that the tunnel is lost. */
  lemma AttachedRunToldLost()
    ensures exists g: State ::
              && Reachable(g) && g.live == Some(1) && |g.streams| == 2 && g.streams[1].report.Reported?
              && !g.att.armed && g.att.told == Some(TunnelLost)
  {
    var g := ReachAttachedAfterExpiry();
    ReachStep(g, FireChecks(TunnelLost));
    var h := FireChecksStep(g, TunnelLost);
    assert TunnelLost in h.calls.checked;
    ReachStep(h, FireTells(TunnelLost));
    var k := FireTellsStep(h, TunnelLost);
    assert Reachable(k) && k.att.told == Some(TunnelLost);
  }
}
