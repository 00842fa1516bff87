/** Turn conservation: every turn a live binding accepts gets exactly one terminal turn event by the time
    stopLive returns.

    The machine interleaves the callers of startTurn (harness/internal/harnessapi/service.go), the launch
    that carries an opening turn (launch.go), the consumer that records TurnFinished events (consume.go) and
    the stop (lifecycle.go). Turns are named by their numbers. It covers one binding without an AgentIO
    reconnect, and every event write succeeds. */
module TurnConservation {
  import opened Common

  /** Who holds `sendMu`: a caller that starts turn `n` (`entered` once `enter` took it), or the stop, with the
      turns it still has to fail and the one whose event is written but which has not left. */
  datatype SendLock =
    | Free
    | Starting(n: nat, entered: bool)
    | Stopping(todo: set<nat>, mid: Option<nat>)

  datatype Consumer = Idle | Recorded(n: nat) | Stopped

  /** A launch with an opening turn writes the link after it registers the binding. */
  datatype Launch = Linking | LinkFailing | Linked | LinkFailed

  /** `turns` is the binding's outstanding list; `failing` are turns whose save failed and that have not left
      yet; `finished` are turns the runner reported, and `inbox` their events that are not recorded; `ends`
      counts the terminal turn events of the log. */
  datatype State = State(alloc: nat, closed: bool, turns: set<nat>, lock: SendLock, saved: set<nat>,
                         failing: set<nat>, launch: Launch, consumer: Consumer, inbox: seq<nat>,
                         finished: set<nat>, ends: multiset<nat>, stopped: bool)

  /** The opening turn, if there is one, is saved and entered before the binding is registered. */
  function Init(opening: bool): State {
    var first: set<nat> := if opening then {1} else {};
    State(|first|, false, first, Free, first, {}, if opening then Linking else Linked, Idle, [], {}, multiset{}, false)
  }

  datatype Step =
    | BeginStart
    | Enter
    | Save(ok: bool)
    | LeaveUnsaved(n: nat)
    | LinkWritten(ok: bool)
    | LeaveUnlinked
    | RunnerFinishes(n: nat)
    | Record
    | Leave
    | ConsumerStops
    | Close(ifIdle: bool)
    | StopLocks
    | StopFails(n: nat)
    | StopLeaves
    | StopReturns

  predicate Enabled(s: State, st: Step) {
    match st
    case BeginStart => s.lock.Free?
    case Enter => s.lock.Starting? && !s.lock.entered
    case Save(_) => s.lock.Starting? && s.lock.entered
    case LeaveUnsaved(n) => n in s.failing
    case LinkWritten(_) => s.launch.Linking?
    case LeaveUnlinked => s.launch.LinkFailing?
    case RunnerFinishes(n) => n in s.saved && n !in s.finished && s.launch.Linked?
    case Record => s.consumer.Idle? && s.inbox != []
    case Leave => s.consumer.Recorded?
    case ConsumerStops => s.consumer.Idle?
    case Close(ifIdle) => !s.closed && (ifIdle ==> s.turns == {})
    case StopLocks =>
      s.closed && !s.stopped && s.consumer.Stopped? && (s.launch.Linked? || s.launch.LinkFailed?) && s.lock.Free?
    case StopFails(n) => s.lock.Stopping? && s.lock.mid.None? && n in s.lock.todo
    case StopLeaves => s.lock.Stopping? && s.lock.mid.Some?
    case StopReturns => s.lock.Stopping? && s.lock.mid.None? && s.lock.todo == {}
  }

  function Apply(s: State, st: Step): State
    requires Enabled(s, st)
  {
    match st
    case BeginStart => s.(lock := Starting(s.alloc + 1, false), alloc := s.alloc + 1)
    case Enter =>
      if s.closed then s.(lock := Free) else s.(turns := s.turns + {s.lock.n}, lock := s.lock.(entered := true))
    case Save(ok) =>
      if ok then s.(saved := s.saved + {s.lock.n}, lock := Free)
      else s.(failing := s.failing + {s.lock.n}, lock := Free)
    case LeaveUnsaved(n) => s.(failing := s.failing - {n}, turns := s.turns - {n})
    case LinkWritten(ok) =>
      if ok then s.(launch := Linked) else s.(launch := LinkFailing, ends := s.ends + multiset{1})
    case LeaveUnlinked => s.(launch := LinkFailed, turns := s.turns - {1})
    case RunnerFinishes(n) => s.(finished := s.finished + {n}, inbox := s.inbox + [n])
    case Record => s.(consumer := Recorded(s.inbox[0]), inbox := s.inbox[1..], ends := s.ends + multiset{s.inbox[0]})
    case Leave => s.(consumer := Idle, turns := s.turns - {s.consumer.n})
    case ConsumerStops => s.(consumer := Stopped)
    case Close(_) => s.(closed := true)
    case StopLocks => s.(lock := Stopping(s.turns, None))
    case StopFails(n) => s.(lock := Stopping(s.lock.todo, Some(n)), ends := s.ends + multiset{n})
    case StopLeaves =>
      s.(lock := Stopping(s.lock.todo - {s.lock.mid.value}, None), turns := s.turns - {s.lock.mid.value})
    case StopReturns => s.(lock := Free, stopped := true)
  }

  ghost predicate IsRun(opening: bool, ss: seq<State>, steps: seq<Step>) {
    && |ss| == |steps| + 1
    && ss[0] == Init(opening)
    && forall i :: 0 <= i < |steps| ==> Enabled(ss[i], steps[i]) && ss[i + 1] == Apply(ss[i], steps[i])
  }

  /** The event of turn `n` is written and the turn has not left the outstanding list. */
  ghost predicate Marked(s: State, n: nat) {
    || s.consumer == Recorded(n)
    || (s.lock.Stopping? && s.lock.mid == Some(n))
    || (s.launch.LinkFailing? && n == 1)
  }

  /** Each saved turn is owed its event exactly as long as it is outstanding. */
  ghost predicate OwedInv(s: State) {
    && (forall n :: n in s.saved && !Marked(s, n) ==> (n in s.turns <==> s.ends[n] == 0))
    && (forall n :: n in s.saved && Marked(s, n) ==> n in s.turns && s.ends[n] == 1)
    && (forall n :: n in s.saved ==> s.ends[n] <= 1)
  }

  /** Only the consumer, and a failed link, end turns before the stop. */
  ghost predicate ConsumerInv(s: State) {
    && (forall i, j :: 0 <= i < j < |s.inbox| ==> s.inbox[i] != s.inbox[j])
    && (forall n :: n in s.inbox ==> n in s.finished)
    && s.finished <= s.saved
    && (s.finished != {} ==> s.launch.Linked?)
    && (s.consumer.Recorded? ==> s.consumer.n in s.finished && !s.lock.Stopping?)
    && (!s.consumer.Stopped? ==>
          forall n :: s.ends[n] > 0 ==>
            (n in s.finished && n !in s.inbox) || (n == 1 && (s.launch.LinkFailing? || s.launch.LinkFailed?)))
  }

  ghost predicate NumbersInv(s: State) {
    && (forall n :: n in s.saved || n in s.failing || n in s.turns ==> 1 <= n <= s.alloc)
    && s.saved !! s.failing
    && (forall n :: n in s.turns ==> n in s.saved || n in s.failing || (s.lock.Starting? && s.lock.n == n))
    && (forall n :: s.ends[n] > 0 ==> n <= s.alloc)
    && (s.lock.Starting? ==>
          && 1 <= s.lock.n == s.alloc && s.ends[s.lock.n] == 0
          && s.lock.n !in s.saved && s.lock.n !in s.failing
          && (s.lock.entered <==> s.lock.n in s.turns))
    && (s.launch.Linking? || s.launch.LinkFailing? ==> 1 in s.saved)
    && (s.launch.Linking? ==> forall n :: s.ends[n] == 0)
  }

  ghost predicate StopInv(s: State) {
    && (s.lock.Stopping? || s.stopped ==> s.closed && s.consumer.Stopped? && (s.launch.Linked? || s.launch.LinkFailed?))
    && (s.lock.Stopping? ==>
          s.turns <= s.lock.todo && !s.stopped && (s.lock.mid.Some? ==> s.lock.mid.value in s.lock.todo))
    && (s.lock.Stopping? ==> forall n :: n in s.lock.todo ==> n <= s.alloc && (n in s.saved ==> n in s.turns))
    && (s.stopped ==> s.turns == {})
  }

  ghost predicate Inv(s: State) {
    OwedInv(s) && ConsumerInv(s) && NumbersInv(s) && StopInv(s)
  }

  lemma BeginKeeps(s: State)
    requires Inv(s) && Enabled(s, BeginStart)
    ensures Inv(Apply(s, BeginStart))
  {
    assert s.ends[s.alloc + 1] == 0;
  }

  lemma EnterKeeps(s: State)
    requires Inv(s) && Enabled(s, Enter)
    ensures Inv(Apply(s, Enter))
  {
  }

  lemma SaveKeeps(s: State, ok: bool)
    requires Inv(s) && Enabled(s, Save(ok))
    ensures Inv(Apply(s, Save(ok)))
  {
  }

  lemma LeaveUnsavedKeeps(s: State, n: nat)
    requires Inv(s) && Enabled(s, LeaveUnsaved(n))
    ensures Inv(Apply(s, LeaveUnsaved(n)))
  {
  }

  lemma LaunchKeeps(s: State, st: Step)
    requires Inv(s) && Enabled(s, st) && (st.LinkWritten? || st.LeaveUnlinked?)
    ensures Inv(Apply(s, st))
  {
    assert s.consumer.Recorded? ==> s.finished != {};
    assert s.launch.Linking? ==> s.ends[1] == 0 && 1 in s.turns;
  }

  lemma RecordKeeps(s: State)
    requires Inv(s) && Enabled(s, Record)
    ensures Inv(Apply(s, Record))
  {
    var n := s.inbox[0];
    assert n in s.inbox && n !in s.inbox[1..];
    assert s.ends[n] == 0 && n in s.turns;
  }

  lemma FinishKeeps(s: State, n: nat)
    requires Inv(s) && Enabled(s, RunnerFinishes(n))
    ensures Inv(Apply(s, RunnerFinishes(n)))
  {
    assert n !in s.inbox;
  }

  lemma LeaveKeeps(s: State, st: Step)
    requires Inv(s) && Enabled(s, st) && (st.Leave? || st.ConsumerStops? || st.Close?)
    ensures Inv(Apply(s, st))
  {
    assert s.consumer.Recorded? ==> s.finished != {};
  }

  lemma StopKeeps(s: State, st: Step)
    requires Inv(s) && Enabled(s, st) && (st.StopLocks? || st.StopFails? || st.StopLeaves? || st.StopReturns?)
    ensures Inv(Apply(s, st))
  {
  }

  lemma StepKeeps(s: State, st: Step)
    requires Inv(s) && Enabled(s, st)
    ensures Inv(Apply(s, st))
  {
    match st
    case BeginStart => BeginKeeps(s);
    case Enter => EnterKeeps(s);
    case Save(ok) => SaveKeeps(s, ok);
    case LeaveUnsaved(n) => LeaveUnsavedKeeps(s, n);
    case LinkWritten(_) => LaunchKeeps(s, st);
    case LeaveUnlinked => LaunchKeeps(s, st);
    case RunnerFinishes(n) => FinishKeeps(s, n);
    case Record => RecordKeeps(s);
    case Leave => LeaveKeeps(s, st);
    case ConsumerStops => LeaveKeeps(s, st);
    case Close(_) => LeaveKeeps(s, st);
    case _ => StopKeeps(s, st);
  }

  lemma {:induction false} RunKeeps(opening: bool, ss: seq<State>, steps: seq<Step>, i: nat)
    requires IsRun(opening, ss, steps) && i < |ss|
    ensures Inv(ss[i])
  {
    if i > 0 {
      RunKeeps(opening, ss, steps, i - 1);
      StepKeeps(ss[i - 1], steps[i - 1]);
      assert ss[i - 1 + 1] == Apply(ss[i - 1], steps[i - 1]);
    }
  }

  /** When the stop returns, every accepted and saved turn has exactly one terminal event, and no turn is
      outstanding. Before that no saved turn has two, and one that still is outstanding has none, unless its
      event was just written. */
  lemma TurnsAreConserved(opening: bool, ss: seq<State>, steps: seq<Step>, i: nat)
    requires IsRun(opening, ss, steps) && i < |ss|
    ensures var s := ss[i];
            && (forall n :: n in s.saved ==> s.ends[n] <= 1)
            && (forall n :: n in s.saved && !Marked(s, n) ==> (n in s.turns <==> s.ends[n] == 0))
            && (s.stopped ==> s.turns == {} && forall n :: n in s.saved ==> s.ends[n] == 1)
  {
    RunKeeps(opening, ss, steps, i);
  }

  /** No turn enters after the close, and an idle stop never closes over an outstanding turn. */
  lemma ClosedBindingTakesNoTurn(opening: bool, ss: seq<State>, steps: seq<Step>, i: nat)
    requires IsRun(opening, ss, steps) && i < |steps|
    ensures ss[i].closed ==> ss[i + 1].closed && ss[i + 1].turns <= ss[i].turns
    ensures steps[i] == Close(true) ==> ss[i].turns == {}
  {
    assert ss[i + 1] == Apply(ss[i], steps[i]);
  }
}
