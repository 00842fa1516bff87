/** The manager's binding to one live session (harness/internal/harnessapi/binding.go) and the turn half
    of reconcileState (harness/internal/harnessapi/consume.go): which saved turns are sent again, in what
    order held turns are released, and which turns count as outstanding. */
module Bindings {
  import opened Common
  import opened RunnerTurns

  // ----- names of turns -----

  function Digits(n: nat): (s: string)
    ensures |s| > 0
  {
    if n < 10 then ["0123456789"[n]] else Digits(n / 10) + ["0123456789"[n % 10]]
  }

  function TurnName(n: nat): string {
    "t" + Digits(n)
  }

  lemma {:induction false} DigitsInjective(a: nat, b: nat)
    requires Digits(a) == Digits(b)
    ensures a == b
  {
    var da, db := Digits(a), Digits(b);
    assert da[|da| - 1] == "0123456789"[a % 10] && db[|db| - 1] == "0123456789"[b % 10];
    assert a % 10 == b % 10;
    if a >= 10 && b >= 10 {
      assert da[..|da| - 1] == Digits(a / 10) && db[..|db| - 1] == Digits(b / 10);
      DigitsInjective(a / 10, b / 10);
    }
  }

  lemma TurnNameInjective(a: nat, b: nat)
    ensures TurnName(a) == TurnName(b) <==> a == b
  {
    if TurnName(a) == TurnName(b) {
      assert TurnName(a)[1..] == Digits(a) && TurnName(b)[1..] == Digits(b);
      DigitsInjective(a, b);
    }
  }

  /** Every prompt is named after its number, as the manager names the turns it allocates. */
  ghost predicate Named(ps: seq<Prompt>) {
    forall i :: 0 <= i < |ps| ==> ps[i].turnId == TurnName(ps[i].turnSeq)
  }

  ghost predicate NoDuplicates<T>(xs: seq<T>) {
    forall i, j :: 0 <= i < j < |xs| ==> xs[i] != xs[j]
  }

  // ----- sorting the held turns -----

  function Insert(p: Prompt, ps: seq<Prompt>): seq<Prompt> {
    if ps == [] || p.turnSeq <= ps[0].turnSeq then [p] + ps else [ps[0]] + Insert(p, ps[1..])
  }

  function SortBySeq(ps: seq<Prompt>): seq<Prompt> {
    if ps == [] then [] else Insert(ps[0], SortBySeq(ps[1..]))
  }

  ghost predicate SortedBySeq(ps: seq<Prompt>) {
    forall i, j :: 0 <= i < j < |ps| ==> ps[i].turnSeq <= ps[j].turnSeq
  }

  lemma {:induction false} InsertKeeps(p: Prompt, ps: seq<Prompt>)
    ensures multiset(Insert(p, ps)) == multiset{p} + multiset(ps)
  {
    if ps != [] {
      assert ps == [ps[0]] + ps[1..];
      if p.turnSeq > ps[0].turnSeq {
        InsertKeeps(p, ps[1..]);
      }
    }
  }

  lemma {:induction false} InsertSorts(p: Prompt, ps: seq<Prompt>)
    requires SortedBySeq(ps)
    ensures SortedBySeq(Insert(p, ps))
    ensures forall x :: x in Insert(p, ps) ==> x == p || x in ps
  {
    if ps != [] && p.turnSeq > ps[0].turnSeq {
      var tail := Insert(p, ps[1..]);
      InsertSorts(p, ps[1..]);
      forall k | 0 <= k < |tail|
        ensures ps[0].turnSeq <= tail[k].turnSeq
      {
        assert tail[k] in tail;
        assert tail[k] == p || tail[k] in ps[1..];
      }
    }
  }

  /** The sort keeps every prompt, each as often as before, in ascending number. */
  lemma {:induction false} SortSorts(ps: seq<Prompt>)
    ensures SortedBySeq(SortBySeq(ps)) && multiset(SortBySeq(ps)) == multiset(ps)
  {
    if ps != [] {
      SortSorts(ps[1..]);
      InsertSorts(ps[0], SortBySeq(ps[1..]));
      InsertKeeps(ps[0], SortBySeq(ps[1..]));
      assert ps == [ps[0]] + ps[1..];
    }
  }

  // ----- what reconcileState computes about turns -----

  /** A saved command of the pod; a prompt whose payload cannot be decoded has none. */
  datatype Command = PromptCommand(prompt: Option<Prompt>) | PermissionCommand

  /** The saved prompts the runner has not seen, in saved order. */
  function Resend(cmds: seq<Command>, lastTurnSeq: nat): seq<Prompt> {
    if cmds == [] then []
    else
      var rest := Resend(cmds[..|cmds| - 1], lastTurnSeq);
      var c := cmds[|cmds| - 1];
      if c.PromptCommand? && c.prompt.Some? && c.prompt.value.turnSeq > lastTurnSeq then rest + [c.prompt.value]
      else rest
  }

  predicate HasTurn(ps: seq<Prompt>, id: string) {
    exists i :: 0 <= i < |ps| && ps[i].turnId == id
  }

  /** The held turns, with those to send again that are not among them appended. */
  function HeldWith(held: seq<Prompt>, resend: seq<Prompt>): seq<Prompt> {
    if resend == [] then held
    else
      var sofar := HeldWith(held, resend[..|resend| - 1]);
      var p := resend[|resend| - 1];
      if HasTurn(sofar, p.turnId) then sofar else sofar + [p]
  }

  /** The ids of `ps` not yet in `ids`, appended. */
  function AddMissing(ids: seq<string>, ps: seq<Prompt>): seq<string> {
    if ps == [] then ids
    else
      var sofar := AddMissing(ids, ps[..|ps| - 1]);
      var id := ps[|ps| - 1].turnId;
      if id in sofar then sofar else sofar + [id]
  }

  function OutstandingAfter(st: AgentState, resend: seq<Prompt>, held: seq<Prompt>): seq<string> {
    AddMissing(st.outstanding + Ids(resend), held)
  }

  /** `ids` without the first occurrence of `id`. */
  function Without(ids: seq<string>, id: string): seq<string> {
    if ids == [] then [] else if ids[0] == id then ids[1..] else [ids[0]] + Without(ids[1..], id)
  }

  /** Leaving takes the turn away once and nothing else. */
  lemma {:induction false} WithoutRemovesOne(ids: seq<string>, id: string)
    ensures multiset(Without(ids, id)) == multiset(ids) - multiset{id}
  {
    if ids != [] {
      assert ids == [ids[0]] + ids[1..];
      WithoutRemovesOne(ids[1..], id);
    }
  }

  /** A turn that left is not outstanding, and the list stays free of duplicates. */
  lemma {:induction false} WithoutIsGone(ids: seq<string>, id: string)
    requires NoDuplicates(ids)
    ensures NoDuplicates(Without(ids, id)) && id !in Without(ids, id)
    ensures forall x :: x in Without(ids, id) ==> x in ids
  {
    if ids != [] && ids[0] != id {
      WithoutIsGone(ids[1..], id);
      assert forall k :: 0 <= k < |ids[1..]| ==> ids[1..][k] == ids[k + 1];
      assert ids[0] !in Without(ids[1..], id);
    } else if ids != [] {
      assert forall k :: 0 <= k < |ids[1..]| ==> ids[1..][k] == ids[k + 1];
    }
  }

  /** A saved command that reconcileState clears: unreadable, or seen and no longer outstanding. */
  predicate Drops(c: Command, st: AgentState) {
    && c.PromptCommand?
    && (c.prompt.None? || (c.prompt.value.turnSeq <= st.lastTurnSeq && c.prompt.value.turnId !in st.outstanding))
  }

  // ----- the object -----

  class Binding {
    var closed: bool
    var turns: seq<string>
    var gated: bool
    var syncing: bool
    var held: seq<Prompt>
    var sent: seq<Prompt>  // what was handed to the session, in order
    var lastActivity: nat

    constructor (now: nat)
      ensures !closed && turns == [] && !gated && !syncing && held == [] && sent == [] && lastActivity == now
    {
      closed, turns, gated, syncing, held, sent, lastActivity := false, [], false, false, [], [], now;
    }

    method Release()
      modifies `held, `sent
      ensures gated || syncing ==> held == old(held) && sent == old(sent)
      ensures !gated && !syncing ==> held == [] && sent == old(sent) + SortBySeq(old(held))
    {
      if gated || syncing {
        return;
      }
      held := SortBySeq(held);
      for i := 0 to |held|
        invariant held == SortBySeq(old(held)) && sent == old(sent) + held[..i]
      {
        sent := sent + [held[i]];
      }
      held := [];
    }

    /** Refused once the binding is closed. */
    method Enter(turnId: string, now: nat) returns (ok: bool)
      modifies `turns, `lastActivity
      ensures ok == !closed
      ensures turns == if ok && turnId !in old(turns) then old(turns) + [turnId] else old(turns)
      ensures lastActivity == if ok then now else old(lastActivity)
    {
      if closed {
        return false;
      }
      if turnId !in turns {
        turns := turns + [turnId];
      }
      lastActivity := now;
      return true;
    }

    method Leave(turnId: string, now: nat)
      modifies `turns, `lastActivity
      ensures turns == Without(old(turns), turnId) && lastActivity == now
    {
      var i := 0;
      while i < |turns| && turns[i] != turnId
        invariant 0 <= i <= |turns| && turns == old(turns)
        invariant turns[..i] + Without(turns[i..], turnId) == Without(turns, turnId)
      {
        assert turns[i..][1..] == turns[i + 1..] && turns[..i] + [turns[i]] == turns[..i + 1];
        i := i + 1;
      }
      if i < |turns| {
        assert turns[i..][1..] == turns[i + 1..];
        turns := turns[..i] + turns[i + 1..];
      } else {
        assert turns[..i] == turns;
      }
      lastActivity := now;
    }

    method SetOutstanding(ids: seq<string>)
      modifies `turns
      ensures turns == ids
    {
      turns := ids;
    }

    /** With an idle limit, refuses while a turn is outstanding or the session was active too recently. */
    method Close(ifIdleFor: nat, now: nat) returns (ok: bool)
      requires lastActivity <= now
      modifies `closed
      ensures ok <==> !old(closed) && (ifIdleFor > 0 ==> turns == [] && now - lastActivity >= ifIdleFor)
      ensures closed == (old(closed) || ok)
    {
      if closed {
        return false;
      }
      if ifIdleFor > 0 && (|turns| > 0 || now - lastActivity < ifIdleFor) {
        return false;
      }
      closed := true;
      return true;
    }

    /** sendPrompt after the turn was saved. */
    method Hold(p: Prompt)
      modifies `held, `sent
      ensures gated || syncing ==> held == old(held) + [p] && sent == old(sent)
      ensures !gated && !syncing ==> held == [] && sent == old(sent) + SortBySeq(old(held) + [p])
    {
      held := held + [p];
      Release();
    }

    method Ungate()
      modifies `gated, `held, `sent
      ensures !gated
      ensures syncing ==> held == old(held) && sent == old(sent)
      ensures !syncing ==> held == [] && sent == old(sent) + SortBySeq(old(held))
    {
      gated := false;
      Release();
    }

    /** The turn half of reconcileState: `dropped` are the positions of commands it clears. */
    method Reconcile(cmds: seq<Command>, st: AgentState) returns (dropped: seq<nat>)
      modifies `turns, `syncing, `held, `sent
      ensures !syncing && turns == OutstandingAfter(st, Resend(cmds, st.lastTurnSeq), old(held))
      ensures forall k :: k in dropped <==> 0 <= k < |cmds| && Drops(cmds[k], st)
      ensures gated ==> held == HeldWith(old(held), Resend(cmds, st.lastTurnSeq)) && sent == old(sent)
      ensures !gated ==>
                held == [] && sent == old(sent) + SortBySeq(HeldWith(old(held), Resend(cmds, st.lastTurnSeq)))
    {
      var resend: seq<Prompt> := [];
      dropped := [];
      for i := 0 to |cmds|
        invariant held == old(held) && sent == old(sent)
        invariant resend == Resend(cmds[..i], st.lastTurnSeq)
        invariant forall k :: k in dropped <==> 0 <= k < i && Drops(cmds[k], st)
      {
        assert cmds[..i + 1][..i] == cmds[..i];
        match cmds[i]
        case PermissionCommand =>
        case PromptCommand(None) => dropped := dropped + [i];
        case PromptCommand(Some(p)) =>
          if p.turnSeq > st.lastTurnSeq {
            resend := resend + [p];
          } else if p.turnId !in st.outstanding {
            dropped := dropped + [i];
          }
      }
      assert cmds[..|cmds|] == cmds;

      var outstanding := st.outstanding;
      for i := 0 to |resend|
        invariant held == old(held) && sent == old(sent)
        invariant outstanding == st.outstanding + Ids(resend[..i])
      {
        assert resend[..i + 1] == resend[..i] + [resend[i]];
        IdsPush(resend[..i], resend[i]);
        outstanding := outstanding + [resend[i].turnId];
      }
      assert resend[..|resend|] == resend;
      var listed := outstanding;
      for i := 0 to |held|
        invariant held == old(held) && sent == old(sent)
        invariant outstanding == AddMissing(listed, held[..i])
      {
        assert held[..i + 1][..i] == held[..i];
        if held[i].turnId !in outstanding {
          outstanding := outstanding + [held[i].turnId];
        }
      }
      assert held[..|held|] == held;
      SetOutstanding(outstanding);

      for i := 0 to |resend|
        invariant sent == old(sent) && turns == outstanding
        invariant held == HeldWith(old(held), resend[..i])
      {
        assert resend[..i + 1][..i] == resend[..i];
        if !HasTurn(held, resend[i].turnId) {
          held := held + [resend[i]];
        }
      }
      syncing := false;
      Release();
    }
  }
}
