/** The turn command pipeline: how a turn gets from the manager's store to the runner, across lost,
    repeated and reordered prompt frames, stream replacements and a crash of the manager.

    The machine joins the manager's allocation, its saved commands, its binding (held, gated, syncing) and
    the runner's intake. A prompt once sent may reach the runner at any later time, any number of times, or
    never; a state report of the runner may be reconciled at any later time. */
module TurnPipeline {
  import opened Common
  import opened RunnerTurns
  import opened Bindings

  /** `issued` is every turn ever saved; `sent` every turn handed to the link; `accepted` every turn the
      runner took in; `reports` the state reports it has made. */
  datatype State = State(alloc: nat, cmds: seq<Command>, held: seq<Prompt>, gated: bool, syncing: bool,
                         intake: Intake, issued: seq<Prompt>, sent: seq<Prompt>, accepted: seq<Prompt>,
                         reports: set<AgentState>)

  /** `gated` is how an opening turn starts: saved and held until the launch is recorded. */
  function Init(opening: Option<string>): State {
    var turns := if opening.Some? then [Prompt(TurnName(1), 1, opening.value)] else [];
    State(|turns|, Commands(turns), turns, opening.Some?, false, Intake(0, [], false), turns, [], [], {})
  }

  function Commands(ps: seq<Prompt>): seq<Command> {
    if ps == [] then [] else [PromptCommand(Some(ps[0]))] + Commands(ps[1..])
  }

  /** The prompts among the saved commands, in saved order. */
  function Prompts(cmds: seq<Command>): seq<Prompt> {
    if cmds == [] then []
    else
      var c := cmds[|cmds| - 1];
      Prompts(cmds[..|cmds| - 1]) + if c.PromptCommand? && c.prompt.Some? then [c.prompt.value] else []
  }

  /** The commands without the turns that `drop` names. */
  function Clear(cmds: seq<Command>, drop: Command -> bool): seq<Command> {
    if cmds == [] then []
    else
      var rest := Clear(cmds[..|cmds| - 1], drop);
      var c := cmds[|cmds| - 1];
      if drop(c) then rest else rest + [c]
  }

  function Release(s: State): State {
    if s.gated || s.syncing then s else s.(sent := s.sent + SortBySeq(s.held), held := [])
  }

  datatype Step =
    | StartTurn(text: string, saved: bool)
    | SavePermission
    | Ungate
    | BeginSync
    | Deliver(p: Prompt)
    | Report(k: nat)
    | Reconcile(st: AgentState, cleared: bool)
    | TurnFinished(id: string)
    | RunnerFinishes
    | CrashAdopt

  predicate Enabled(s: State, step: Step) {
    match step
    case Deliver(p) => p in s.sent
    case Report(k) => k <= |s.accepted|
    case Reconcile(st, _) => st in s.reports && s.syncing
    case TurnFinished(id) => HasTurn(s.accepted, id)
    case _ => true
  }

  function Reconciled(s: State, st: AgentState, cleared: bool): State {
    var resend := Resend(s.cmds, st.lastTurnSeq);
    Release(s.(cmds := if cleared then Clear(s.cmds, c => Drops(c, st)) else s.cmds,
               held := HeldWith(s.held, resend), syncing := false))
  }

  function Delivered(s: State, p: Prompt): State {
    s.(intake := TakeIn(s.intake, p), accepted := if Accepts(s.intake, p) then s.accepted + [p] else s.accepted)
  }

  function Apply(s: State, step: Step): State
    requires Enabled(s, step)
  {
    match step
    case StartTurn(text, saved) =>
      var n := s.alloc + 1;
      var p := Prompt(TurnName(n), n, text);
      if saved then
        Release(s.(alloc := n, cmds := s.cmds + [PromptCommand(Some(p))],
                   held := s.held + [p], issued := s.issued + [p]))
      else s.(alloc := n)
    case SavePermission => s.(cmds := s.cmds + [PermissionCommand])
    case Ungate => Release(s.(gated := false))
    case BeginSync => s.(syncing := true)
    case Deliver(p) => Delivered(s, p)
    case Report(k) => s.(reports := s.reports + {AgentState(s.intake.lastTurnSeq, Ids(s.accepted[k..]))})
    case Reconcile(st, cleared) => Reconciled(s, st, cleared)
    case TurnFinished(id) =>
      s.(cmds := Clear(s.cmds, (c: Command) => c.PromptCommand? && c.prompt.Some? && c.prompt.value.turnId == id))
    case RunnerFinishes => s.(intake := s.intake.(finished := true))
    case CrashAdopt => s.(held := [], gated := false, syncing := true)
  }

  ghost predicate IsRun(opening: Option<string>, ss: seq<State>, steps: seq<Step>) {
    && |ss| == |steps| + 1
    && ss[0] == Init(opening)
    && forall i :: 0 <= i < |steps| ==> Enabled(ss[i], steps[i]) && ss[i + 1] == Apply(ss[i], steps[i])
  }

  // ----- invariant -----

  ghost predicate Within(ps: seq<Prompt>, all: seq<Prompt>) {
    forall p :: p in ps ==> p in all
  }

  ghost predicate IssuedInv(issued: seq<Prompt>, alloc: nat) {
    Named(issued) && Ascending(issued) && forall p :: p in issued ==> 1 <= p.turnSeq <= alloc
  }

  ghost predicate SavedInv(issued: seq<Prompt>, saved: seq<Prompt>) {
    Within(saved, issued) && Ascending(saved)
  }

  /** Held turns are saved, and later than everything sent. */
  ghost predicate HeldInv(saved: seq<Prompt>, held: seq<Prompt>, sent: seq<Prompt>) {
    && Ascending(held) && Within(held, saved)
    && forall h, q :: h in held && q in sent ==> q.turnSeq < h.turnSeq
  }

  ghost predicate IntakeInv(issued: seq<Prompt>, sent: seq<Prompt>, accepted: seq<Prompt>, last: nat) {
    && Within(sent, issued) && Within(accepted, sent) && Ascending(accepted)
    && last == if accepted == [] then 0 else accepted[|accepted| - 1].turnSeq
  }

  /** While gated nothing was sent and every saved turn is held; otherwise turns are held only to sync. */
  ghost predicate GateInv(saved: seq<Prompt>, held: seq<Prompt>, sent: seq<Prompt>, gated: bool, syncing: bool) {
    && (gated ==> sent == [] && Within(saved, held))
    && (!gated && !syncing ==> held == [])
  }

  ghost predicate ReportsInv(accepted: seq<Prompt>, last: nat, reports: set<AgentState>) {
    forall st :: st in reports ==> ReportInv(accepted, last, st)
  }

  ghost predicate Inv(s: State) {
    && IssuedInv(s.issued, s.alloc)
    && SavedInv(s.issued, Prompts(s.cmds))
    && HeldInv(Prompts(s.cmds), s.held, s.sent)
    && IntakeInv(s.issued, s.sent, s.accepted, s.intake.lastTurnSeq)
    && GateInv(Prompts(s.cmds), s.held, s.sent, s.gated, s.syncing)
    && ReportsInv(s.accepted, s.intake.lastTurnSeq, s.reports)
  }

  /** A report lists a stretch of the accepted turns, all of them at or below the number it gives. */
  ghost predicate ReportInv(accepted: seq<Prompt>, last: nat, st: AgentState) {
    && st.lastTurnSeq <= last
    && NoDuplicates(st.outstanding)
    && forall id :: id in st.outstanding ==> exists p :: p in accepted && p.turnId == id && p.turnSeq <= st.lastTurnSeq
  }

  // ----- facts about the functions of the binding -----

  lemma {:induction false} ResendMembers(cmds: seq<Command>, last: nat)
    ensures forall p :: p in Resend(cmds, last) <==> p in Prompts(cmds) && p.turnSeq > last
    ensures Ascending(Prompts(cmds)) ==> Ascending(Resend(cmds, last))
  {
    if cmds != [] {
      var init, c := cmds[..|cmds| - 1], cmds[|cmds| - 1];
      ResendMembers(init, last);
      if Ascending(Prompts(cmds)) {
        AscendingInit(Prompts(init), Prompts(cmds));
        LastAbove(Prompts(init), Resend(init, last), c);
      }
    }
  }

  lemma AscendingInit(init: seq<Prompt>, ps: seq<Prompt>)
    requires Ascending(ps) && init <= ps
    ensures Ascending(init)
  {
    assert forall k :: 0 <= k < |init| ==> init[k] == ps[k];
  }

  /** A turn above all of `all` may follow any ascending selection of `all`. */
  lemma LastAbove(all: seq<Prompt>, some: seq<Prompt>, c: Command)
    requires Ascending(some) && Within(some, all)
    ensures c.PromptCommand? && c.prompt.Some? && Ascending(all + [c.prompt.value]) ==>
              Ascending(some + [c.prompt.value])
  {
    if c.PromptCommand? && c.prompt.Some? && Ascending(all + [c.prompt.value]) {
      forall k | 0 <= k < |some|
        ensures some[k].turnSeq < c.prompt.value.turnSeq
      {
        assert some[k] in all;
        var i :| 0 <= i < |all| && all[i] == some[k];
        assert (all + [c.prompt.value])[i].turnSeq < (all + [c.prompt.value])[|all|].turnSeq;
      }
    }
  }

  lemma {:induction false} ClearMembers(cmds: seq<Command>, drop: Command -> bool)
    ensures forall p :: p in Prompts(Clear(cmds, drop)) <==> p in Prompts(cmds) && !drop(PromptCommand(Some(p)))
    ensures Ascending(Prompts(cmds)) ==> Ascending(Prompts(Clear(cmds, drop)))
  {
    if cmds != [] {
      var init, c := cmds[..|cmds| - 1], cmds[|cmds| - 1];
      ClearMembers(init, drop);
      PromptsPush(Clear(init, drop), c);
      if Ascending(Prompts(cmds)) {
        AscendingInit(Prompts(init), Prompts(cmds));
        LastAbove(Prompts(init), Prompts(Clear(init, drop)), c);
      }
    }
  }

  lemma PromptsPush(cmds: seq<Command>, c: Command)
    ensures Prompts(cmds + [c]) == Prompts(cmds) + if c.PromptCommand? && c.prompt.Some? then [c.prompt.value] else []
  {
    assert (cmds + [c])[..|cmds|] == cmds;
  }

  /** Among issued turns, the same id is the same turn. */
  lemma SameTurn(issued: seq<Prompt>, p: Prompt, q: Prompt)
    requires Named(issued) && Ascending(issued) && p in issued && q in issued
    ensures p.turnId == q.turnId <==> p == q
    ensures p.turnSeq == q.turnSeq <==> p == q
  {
    TurnNameInjective(p.turnSeq, q.turnSeq);
    var i :| 0 <= i < |issued| && issued[i] == p;
    var j :| 0 <= j < |issued| && issued[j] == q;
    if i < j {
      assert issued[i].turnSeq < issued[j].turnSeq;
    } else if j < i {
      assert issued[j].turnSeq < issued[i].turnSeq;
    }
  }

  lemma HasTurnIsMember(issued: seq<Prompt>, ps: seq<Prompt>, p: Prompt)
    requires Named(issued) && Ascending(issued) && Within(ps, issued) && p in issued
    ensures HasTurn(ps, p.turnId) <==> p in ps
  {
    if HasTurn(ps, p.turnId) {
      var i :| 0 <= i < |ps| && ps[i].turnId == p.turnId;
      assert ps[i] in ps;
      SameTurn(issued, p, ps[i]);
    }
  }

  /** Joining the turns to send again to the held ones gives each turn of either exactly once. */
  lemma {:induction false} HeldWithMembers(issued: seq<Prompt>, held: seq<Prompt>, resend: seq<Prompt>)
    requires Named(issued) && Ascending(issued) && Within(held, issued) && Within(resend, issued)
    requires NoDuplicates(held)
    ensures NoDuplicates(HeldWith(held, resend))
    ensures forall p :: p in HeldWith(held, resend) <==> p in held || p in resend
  {
    if resend != [] {
      var init, p := resend[..|resend| - 1], resend[|resend| - 1];
      assert resend == init + [p];
      HeldWithMembers(issued, held, init);
      HasTurnIsMember(issued, HeldWith(held, init), p);
    }
  }

  lemma {:induction false} AddMissingMembers(ids: seq<string>, ps: seq<Prompt>)
    requires NoDuplicates(ids)
    ensures NoDuplicates(AddMissing(ids, ps))
    ensures forall id :: id in AddMissing(ids, ps) <==> id in ids || HasTurn(ps, id)
  {
    if ps != [] {
      var init, p := ps[..|ps| - 1], ps[|ps| - 1];
      assert ps == init + [p];
      AddMissingMembers(ids, init);
      assert forall id :: HasTurn(ps, id) <==> HasTurn(init, id) || id == p.turnId by {
        assert forall i :: 0 <= i < |init| ==> ps[i] == init[i];
        assert ps[|init|] == p;
      }
    }
  }

  lemma {:induction false} IdsMembers(ps: seq<Prompt>)
    ensures |Ids(ps)| == |ps| && forall i :: 0 <= i < |ps| ==> Ids(ps)[i] == ps[i].turnId
  {
    if ps != [] {
      IdsMembers(ps[1..]);
    }
  }

  /** A release of distinct turns is in strictly ascending order. */
  lemma SortAscends(issued: seq<Prompt>, ps: seq<Prompt>)
    requires Named(issued) && Ascending(issued) && Within(ps, issued) && NoDuplicates(ps)
    ensures Ascending(SortBySeq(ps))
    ensures forall p :: p in SortBySeq(ps) <==> p in ps
  {
    SortSorts(ps);
    var q := SortBySeq(ps);
    assert forall p :: p in q <==> p in multiset(q);
    assert forall p :: p in ps <==> p in multiset(ps);
    SameCounts(ps, q);
    forall i, j | 0 <= i < j < |q|
      ensures q[i].turnSeq < q[j].turnSeq
    {
      assert q[i] in q && q[j] in q;
      SameTurn(issued, q[i], q[j]);
    }
  }

  lemma {:induction false} NoDuplicatesCounts(ps: seq<Prompt>)
    ensures NoDuplicates(ps) ==> forall p :: multiset(ps)[p] <= 1
  {
    if ps != [] {
      NoDuplicatesCounts(ps[1..]);
      assert ps == [ps[0]] + ps[1..];
      assert forall k :: 0 <= k < |ps[1..]| ==> ps[1..][k] == ps[k + 1];
    }
  }

  lemma SameCounts(ps: seq<Prompt>, q: seq<Prompt>)
    requires multiset(ps) == multiset(q) && NoDuplicates(ps)
    ensures NoDuplicates(q)
  {
    NoDuplicatesCounts(ps);
    forall i, j | 0 <= i < j < |q|
      ensures q[i] != q[j]
    {
      assert q == q[..i] + [q[i]] + q[i + 1..j] + [q[j]] + q[j + 1..];
      assert q[i] == q[j] ==> multiset(q)[q[i]] >= 2;
    }
  }

  // ----- preservation -----

  lemma InitInv(opening: Option<string>)
    ensures Inv(Init(opening))
  {
    var turns := Init(opening).issued;
    if turns != [] {
      assert turns[1..] == [];
      assert Commands(turns) == [PromptCommand(Some(turns[0]))];
      assert Prompts(Commands(turns)) == turns;
    }
  }

  lemma SendKeepsIntake(issued: seq<Prompt>, sent: seq<Prompt>, accepted: seq<Prompt>, last: nat, batch: seq<Prompt>)
    requires IntakeInv(issued, sent, accepted, last) && Within(batch, issued)
    ensures IntakeInv(issued, sent + batch, accepted, last)
  {
    assert forall p :: p in sent + batch <==> p in sent || p in batch;
  }

  /** Releasing the held turns sends each once. */
  lemma ReleaseKeeps(s: State)
    requires Inv(s.(syncing := true))
    ensures Inv(Release(s))
  {
    if !s.gated && !s.syncing {
      assert Within(s.held, s.issued);
      SortAscends(s.issued, s.held);
      SendKeepsIntake(s.issued, s.sent, s.accepted, s.intake.lastTurnSeq, SortBySeq(s.held));
    }
  }

  lemma NewTurnIssued(issued: seq<Prompt>, alloc: nat, saved: seq<Prompt>, p: Prompt)
    requires IssuedInv(issued, alloc) && SavedInv(issued, saved)
    requires p.turnSeq == alloc + 1 && p.turnId == TurnName(p.turnSeq)
    ensures IssuedInv(issued + [p], alloc + 1) && SavedInv(issued + [p], saved + [p])
  {
    assert forall i :: 0 <= i < |issued| ==> issued[i] in issued;
    assert forall i :: 0 <= i < |saved| ==> saved[i] in saved;
    assert forall q :: q in issued + [p] <==> q in issued || q == p;
  }

  lemma NewTurnHeld(issued: seq<Prompt>, alloc: nat, saved: seq<Prompt>, held: seq<Prompt>, sent: seq<Prompt>,
                    p: Prompt)
    requires IssuedInv(issued, alloc) && SavedInv(issued, saved) && HeldInv(saved, held, sent) && Within(sent, issued)
    requires p.turnSeq == alloc + 1
    ensures HeldInv(saved + [p], held + [p], sent)
  {
    assert forall i :: 0 <= i < |held| ==> held[i] in held && held[i] in saved && held[i] in issued;
    assert forall q :: q in held + [p] <==> q in held || q == p;
    assert forall q :: q in saved + [p] <==> q in saved || q == p;
  }

  lemma NewTurnIntake(issued: seq<Prompt>, sent: seq<Prompt>, accepted: seq<Prompt>, last: nat, p: Prompt)
    requires IntakeInv(issued, sent, accepted, last)
    ensures IntakeInv(issued + [p], sent, accepted, last)
  {
    assert forall q :: q in issued ==> q in issued + [p];
  }

  lemma NewTurnGate(saved: seq<Prompt>, held: seq<Prompt>, sent: seq<Prompt>, gated: bool, syncing: bool, p: Prompt)
    requires GateInv(saved, held, sent, gated, syncing)
    ensures GateInv(saved + [p], held + [p], sent, gated, true)
  {
    assert forall q :: q in saved + [p] <==> q in saved || q == p;
    assert forall q :: q in held + [p] <==> q in held || q == p;
  }

  /** A new turn, saved and held, before it is released. */
  function Holding(s: State, p: Prompt): State {
    s.(alloc := s.alloc + 1, cmds := s.cmds + [PromptCommand(Some(p))], held := s.held + [p], issued := s.issued + [p])
  }

  lemma HoldingKeeps(s: State, p: Prompt)
    requires Inv(s) && p.turnSeq == s.alloc + 1 && p.turnId == TurnName(p.turnSeq)
    ensures Inv(Holding(s, p).(syncing := true))
  {
    PromptsPush(s.cmds, PromptCommand(Some(p)));
    NewTurnIssued(s.issued, s.alloc, Prompts(s.cmds), p);
    NewTurnHeld(s.issued, s.alloc, Prompts(s.cmds), s.held, s.sent, p);
    NewTurnIntake(s.issued, s.sent, s.accepted, s.intake.lastTurnSeq, p);
    NewTurnGate(Prompts(s.cmds), s.held, s.sent, s.gated, s.syncing, p);
  }

  lemma UnsavedKeeps(s: State)
    requires Inv(s)
    ensures Inv(s.(alloc := s.alloc + 1))
  {
  }

  lemma StartTurnApplies(s: State, text: string)
    ensures Apply(s, StartTurn(text, true)) == Release(Holding(s, Prompt(TurnName(s.alloc + 1), s.alloc + 1, text)))
    ensures Apply(s, StartTurn(text, false)) == s.(alloc := s.alloc + 1)
  {
  }

  lemma StartTurnKeeps(s: State, text: string, saved: bool)
    requires Inv(s)
    ensures Inv(Apply(s, StartTurn(text, saved)))
  {
    var p := Prompt(TurnName(s.alloc + 1), s.alloc + 1, text);
    var held, unsaved := Release(Holding(s, p)), s.(alloc := s.alloc + 1);
    StartTurnApplies(s, text);
    HoldingKeeps(s, p);
    ReleaseKeeps(Holding(s, p));
    UnsavedKeeps(s);
    assert Inv(held) && Inv(unsaved);
  }

  lemma {:induction false} HeldWithNothing(issued: seq<Prompt>, held: seq<Prompt>, resend: seq<Prompt>)
    requires Named(issued) && Ascending(issued) && Within(held, issued) && Within(resend, held)
    ensures HeldWith(held, resend) == held
  {
    if resend != [] {
      var init, p := resend[..|resend| - 1], resend[|resend| - 1];
      assert resend == init + [p];
      HeldWithNothing(issued, held, init);
      HasTurnIsMember(issued, held, p);
    }
  }

  lemma NothingSentNothingAccepted(s: State)
    requires Inv(s) && s.sent == []
    ensures s.accepted == []
  {
    assert forall i :: 0 <= i < |s.accepted| ==> s.accepted[i] in s.accepted;
  }

  /** While the opening turn is gated nothing was sent, so a reconcile changes nothing. */
  lemma ReconcileGatedKeeps(s: State, st: AgentState, cleared: bool)
    requires Inv(s) && Enabled(s, Reconcile(st, cleared)) && s.gated
    ensures Inv(Reconciled(s, st, cleared))
  {
    ResendMembers(s.cmds, st.lastTurnSeq);
    HeldWithNothing(s.issued, s.held, Resend(s.cmds, st.lastTurnSeq));
    ClearMembers(s.cmds, c => Drops(c, st));
    NothingSentNothingAccepted(s);
    assert ReportInv(s.accepted, s.intake.lastTurnSeq, st);
  }

  lemma BatchWithin(s: State, st: AgentState)
    requires Inv(s)
    ensures var batch := SortBySeq(HeldWith(s.held, Resend(s.cmds, st.lastTurnSeq)));
            && Ascending(batch) && Within(batch, s.issued)
            && forall p :: p in batch <==> p in s.held || (p in Prompts(s.cmds) && p.turnSeq > st.lastTurnSeq)
  {
    var resend := Resend(s.cmds, st.lastTurnSeq);
    ResendMembers(s.cmds, st.lastTurnSeq);
    assert Within(s.held, s.issued);
    HeldWithMembers(s.issued, s.held, resend);
    SortAscends(s.issued, HeldWith(s.held, resend));
  }

  lemma ReconcileKeeps(s: State, st: AgentState, cleared: bool)
    requires Inv(s) && Enabled(s, Reconcile(st, cleared)) && !s.gated
    ensures Inv(Reconciled(s, st, cleared))
  {
    BatchWithin(s, st);
    ClearMembers(s.cmds, c => Drops(c, st));
    SendKeepsIntake(s.issued, s.sent, s.accepted, s.intake.lastTurnSeq,
                    SortBySeq(HeldWith(s.held, Resend(s.cmds, st.lastTurnSeq))));
  }

  lemma DeliverKeeps(s: State, p: Prompt)
    requires Inv(s) && p in s.sent
    ensures Inv(Apply(s, Deliver(p)))
  {
    if Accepts(s.intake, p) {
      forall q | q in s.accepted
        ensures q.turnSeq < p.turnSeq
      {
        AscendingLast(s.accepted, q);
      }
      assert forall q :: q in s.accepted + [p] <==> q in s.accepted || q == p;
      forall st | st in s.reports
        ensures ReportInv(s.accepted + [p], p.turnSeq, st)
      {
        assert ReportInv(s.accepted, s.intake.lastTurnSeq, st);
        assert forall q :: q in s.accepted ==> q in s.accepted + [p];
      }
    }
  }

  lemma AscendingLast(ps: seq<Prompt>, q: Prompt)
    requires Ascending(ps) && q in ps
    ensures q.turnSeq <= ps[|ps| - 1].turnSeq
  {
    var i :| 0 <= i < |ps| && ps[i] == q;
    assert i < |ps| - 1 ==> ps[i].turnSeq < ps[|ps| - 1].turnSeq;
  }

  lemma ReportIsFaithful(issued: seq<Prompt>, sent: seq<Prompt>, accepted: seq<Prompt>, last: nat, k: nat)
    requires Named(issued) && Ascending(issued) && IntakeInv(issued, sent, accepted, last) && k <= |accepted|
    ensures ReportInv(accepted, last, AgentState(last, Ids(accepted[k..])))
  {
    var tail := accepted[k..];
    IdsMembers(tail);
    forall i, j | 0 <= i < j < |tail|
      ensures Ids(tail)[i] != Ids(tail)[j]
    {
      assert accepted[k + i] in accepted && accepted[k + j] in accepted;
      SameTurn(issued, accepted[k + i], accepted[k + j]);
    }
    forall id | id in Ids(tail)
      ensures exists p :: p in accepted && p.turnId == id && p.turnSeq <= last
    {
      var i :| 0 <= i < |tail| && Ids(tail)[i] == id;
      assert tail[i] in accepted;
      AscendingLast(accepted, tail[i]);
    }
  }

  lemma ReportKeeps(s: State, k: nat)
    requires Inv(s) && k <= |s.accepted|
    ensures Inv(Apply(s, Report(k)))
  {
    ReportIsFaithful(s.issued, s.sent, s.accepted, s.intake.lastTurnSeq, k);
  }

  lemma HeldIsNotAccepted(s: State, id: string, h: Prompt)
    requires Inv(s) && HasTurn(s.accepted, id) && h in s.held
    ensures h.turnId != id
  {
    var i :| 0 <= i < |s.accepted| && s.accepted[i].turnId == id;
    assert s.accepted[i] in s.accepted;
    SameTurn(s.issued, s.accepted[i], h);
  }

  lemma TurnFinishedKeeps(s: State, id: string)
    requires Inv(s) && HasTurn(s.accepted, id)
    ensures Inv(Apply(s, TurnFinished(id)))
  {
    ClearMembers(s.cmds, (c: Command) => c.PromptCommand? && c.prompt.Some? && c.prompt.value.turnId == id);
    forall h | h in s.held
      ensures h.turnId != id
    {
      HeldIsNotAccepted(s, id, h);
    }
  }

  lemma StepKeeps(s: State, step: Step)
    requires Inv(s) && Enabled(s, step)
    ensures Inv(Apply(s, step))
  {
    match step
    case StartTurn(text, saved) => StartTurnKeeps(s, text, saved);
    case SavePermission => PromptsPush(s.cmds, PermissionCommand);
    case Ungate => ReleaseKeeps(s.(gated := false));
    case Deliver(p) => DeliverKeeps(s, p);
    case Report(k) => ReportKeeps(s, k);
    case Reconcile(st, cleared) =>
      if s.gated {
        ReconcileGatedKeeps(s, st, cleared);
      } else {
        ReconcileKeeps(s, st, cleared);
      }
    case TurnFinished(id) => TurnFinishedKeeps(s, id);
    case _ =>
  }

  lemma {:induction false} RunKeeps(opening: Option<string>, ss: seq<State>, steps: seq<Step>, i: nat)
    requires IsRun(opening, ss, steps) && i < |ss|
    ensures Inv(ss[i])
  {
    if i == 0 {
      InitInv(opening);
    } else {
      RunKeeps(opening, ss, steps, i - 1);
      StepKeeps(ss[i - 1], steps[i - 1]);
      assert ss[i - 1 + 1] == Apply(ss[i - 1], steps[i - 1]);
    }
  }

  // ----- results -----

  /** What one reconcile releases. */
  function Batch(s: State, st: AgentState): seq<Prompt> {
    SortBySeq(HeldWith(s.held, Resend(s.cmds, st.lastTurnSeq)))
  }

  /** In every run: a reconcile selects, once each and in ascending order, exactly the saved turns above the
      reported number and the held turns. They are sent at once, or, on a gated binding, when the gate opens.
      Afterwards the outstanding list has no duplicate and covers those turns and the reported ones. */
  lemma ReconcileSendsAll(opening: Option<string>, ss: seq<State>, steps: seq<Step>, i: nat, st: AgentState,
                          cleared: bool)
    requires IsRun(opening, ss, steps) && i < |ss| && Enabled(ss[i], Reconcile(st, cleared))
    ensures var s := ss[i];
            var s' := Apply(s, Reconcile(st, cleared));
            && Ascending(Batch(s, st))
            && (forall p :: p in Batch(s, st) <==> p in s.held || (p in Prompts(s.cmds) && p.turnSeq > st.lastTurnSeq))
            && s'.sent == (if s.gated then s.sent else s.sent + Batch(s, st))
            && Apply(s', Ungate).sent == s.sent + Batch(s, st)
    ensures var s := ss[i];
            var out := OutstandingAfter(st, Resend(s.cmds, st.lastTurnSeq), s.held);
            && NoDuplicates(out)
            && (forall id :: id in out <==> id in st.outstanding || HasTurn(Batch(s, st), id))
  {
    RunKeeps(opening, ss, steps, i);
    var s := ss[i];
    var resend := Resend(s.cmds, st.lastTurnSeq);
    BatchWithin(s, st);
    ResendMembers(s.cmds, st.lastTurnSeq);
    OutstandingCovers(s, st);
    forall id
      ensures HasTurn(Batch(s, st), id) <==> HasTurn(resend, id) || HasTurn(s.held, id)
    {
      HasTurnUnion(Batch(s, st), resend, s.held, id);
    }
    BatchIsSent(s, st, cleared);
  }

  lemma BatchIsSent(s: State, st: AgentState, cleared: bool)
    requires Enabled(s, Reconcile(st, cleared))
    ensures Apply(s, Reconcile(st, cleared)).sent == if s.gated then s.sent else s.sent + Batch(s, st)
    ensures Apply(Apply(s, Reconcile(st, cleared)), Ungate).sent == s.sent + Batch(s, st)
  {
    assert SortBySeq([]) == [];
    assert s.sent + Batch(s, st) + [] == s.sent + Batch(s, st);
  }

  lemma HasTurnUnion(all: seq<Prompt>, a: seq<Prompt>, b: seq<Prompt>, id: string)
    requires forall p :: p in all <==> p in a || p in b
    ensures HasTurn(all, id) <==> HasTurn(a, id) || HasTurn(b, id)
  {
    if HasTurn(all, id) {
      var i :| 0 <= i < |all| && all[i].turnId == id;
      assert all[i] in a || all[i] in b;
    }
    if HasTurn(a, id) {
      var i :| 0 <= i < |a| && a[i].turnId == id;
      assert a[i] in all;
    }
    if HasTurn(b, id) {
      var i :| 0 <= i < |b| && b[i].turnId == id;
      assert b[i] in all;
    }
  }

  lemma OutstandingCovers(s: State, st: AgentState)
    requires Inv(s) && st in s.reports
    ensures var resend := Resend(s.cmds, st.lastTurnSeq);
            var out := OutstandingAfter(st, resend, s.held);
            && NoDuplicates(out)
            && (forall id :: id in out <==> id in st.outstanding || HasTurn(resend, id) || HasTurn(s.held, id))
  {
    var resend := Resend(s.cmds, st.lastTurnSeq);
    ResendMembers(s.cmds, st.lastTurnSeq);
    IdsMembers(resend);
    assert ReportInv(s.accepted, s.intake.lastTurnSeq, st);
    forall i, j | 0 <= i < j < |resend|
      ensures resend[i].turnId != resend[j].turnId
    {
      assert resend[i] in s.issued && resend[j] in s.issued && resend[i].turnSeq < resend[j].turnSeq;
      SameTurn(s.issued, resend[i], resend[j]);
    }
    forall i | 0 <= i < |resend|
      ensures resend[i].turnId !in st.outstanding
    {
      ResendIsNew(s, st, resend[i]);
    }
    AddMissingMembers(st.outstanding + Ids(resend), s.held);
    assert forall id :: id in Ids(resend) <==> HasTurn(resend, id);
  }

  /** A turn above the reported number is not among the reported ones. */
  lemma ResendIsNew(s: State, st: AgentState, p: Prompt)
    requires Inv(s) && st in s.reports && p in s.issued && p.turnSeq > st.lastTurnSeq
    ensures p.turnId !in st.outstanding
  {
    assert ReportInv(s.accepted, s.intake.lastTurnSeq, st);
    if p.turnId in st.outstanding {
      var q :| q in s.accepted && q.turnId == p.turnId && q.turnSeq <= st.lastTurnSeq;
      assert q in s.sent && q in s.issued;
      SameTurn(s.issued, p, q);
    }
  }

  /** The runner accepts the whole batch, in order, if its number is still the reported one. */
  lemma ReconcileIsAccepted(opening: Option<string>, ss: seq<State>, steps: seq<Step>, i: nat, st: AgentState,
                            cleared: bool)
    requires IsRun(opening, ss, steps) && i < |ss| && Enabled(ss[i], Reconcile(st, cleared))
    requires ss[i].intake.lastTurnSeq == st.lastTurnSeq && !ss[i].intake.finished
    ensures TakeAll(ss[i].intake, Batch(ss[i], st)).queue == ss[i].intake.queue + Batch(ss[i], st)
  {
    var s := ss[i];
    ReconcileSendsAll(opening, ss, steps, i, st, cleared);
    RunKeeps(opening, ss, steps, i);
    forall p | p in Batch(s, st)
      ensures p.turnSeq > s.intake.lastTurnSeq
    {
      if p in s.held && s.accepted != [] {
        assert s.accepted[|s.accepted| - 1] in s.sent;
      }
      assert p in s.issued;
    }
    AscendingAccepted(s.intake, Batch(s, st));
  }

  /** In general the runner takes in the whole batch exactly when its number is below the batch's first
      turn: turns at or below a number it moved to since the report are lost. */
  lemma BatchAcceptedIff(t: Intake, batch: seq<Prompt>)
    requires !t.finished && Ascending(batch) && batch != []
    ensures TakeAll(t, batch).queue == t.queue + batch <==> t.lastTurnSeq < batch[0].turnSeq
  {
    if t.lastTurnSeq < batch[0].turnSeq {
      assert forall i :: 0 < i < |batch| ==> batch[0].turnSeq < batch[i].turnSeq;
      AscendingAccepted(t, batch);
    } else {
      var k := SplitPoint(batch, t.lastTurnSeq);
      AscendingSplits(t, batch, k);
      assert |TakeAll(t, batch).queue| == |t.queue| + |batch| - k;
    }
  }

  lemma SplitPoint(batch: seq<Prompt>, n: nat) returns (k: nat)
    requires Ascending(batch) && batch != [] && batch[0].turnSeq <= n
    ensures 0 < k <= |batch|
    ensures forall i :: 0 <= i < k ==> batch[i].turnSeq <= n
    ensures forall i :: k <= i < |batch| ==> batch[i].turnSeq > n
  {
    k := 1;
    while k < |batch| && batch[k].turnSeq <= n
      invariant 0 < k <= |batch| && forall i :: 0 <= i < k ==> batch[i].turnSeq <= n
    {
      k := k + 1;
    }
  }

  lemma SkipStep(s: State, st: Step, p: Prompt)
    requires Enabled(s, st) && p !in s.accepted && p.turnSeq <= s.intake.lastTurnSeq
    ensures p !in Apply(s, st).accepted && p.turnSeq <= Apply(s, st).intake.lastTurnSeq
  {
    match st
    case Deliver(q) =>
    case RunnerFinishes =>
    case _ => assert Apply(s, st).accepted == s.accepted && Apply(s, st).intake == s.intake;
  }

  /** A turn the runner has gone past without taking it in is lost for good: no later resend, of any run,
      makes it run. */
  lemma {:induction false} SkippedTurnNeverRuns(opening: Option<string>, ss: seq<State>, steps: seq<Step>,
                                                i: nat, j: nat, p: Prompt)
    requires IsRun(opening, ss, steps) && i <= j < |ss|
    requires p !in ss[i].accepted && p.turnSeq <= ss[i].intake.lastTurnSeq
    ensures p !in ss[j].accepted && p.turnSeq <= ss[j].intake.lastTurnSeq
    decreases j
  {
    if i < j {
      SkippedTurnNeverRuns(opening, ss, steps, i, j - 1, p);
      SkipStep(ss[j - 1], steps[j - 1], p);
      assert ss[j - 1 + 1] == Apply(ss[j - 1], steps[j - 1]);
    }
  }

  ghost predicate Reachable(opening: Option<string>, s: State) {
    exists ss: seq<State>, steps: seq<Step> :: IsRun(opening, ss, steps) && ss[|ss| - 1] == s
  }

  lemma ReachInit(opening: Option<string>)
    ensures Reachable(opening, Init(opening))
  {
    assert IsRun(opening, [Init(opening)], []);
  }

  lemma ReachStep(opening: Option<string>, s: State, st: Step)
    requires Reachable(opening, s) && Enabled(s, st)
    ensures Reachable(opening, Apply(s, st))
  {
    var ss: seq<State>, steps: seq<Step> :| IsRun(opening, ss, steps) && ss[|ss| - 1] == s;
    assert IsRun(opening, ss + [Apply(s, st)], steps + [st]);
  }

  lemma ReachableInv(opening: Option<string>, s: State)
    requires Reachable(opening, s)
    ensures Inv(s)
  {
    var ss: seq<State>, steps: seq<Step> :| IsRun(opening, ss, steps) && ss[|ss| - 1] == s;
    RunKeeps(opening, ss, steps, |ss| - 1);
  }
}
