/** The AgentIO streams of one attached run (harness/internal/agentlink/run.go, agentio_server.go, server.go): the
    claims that arbitrate them, and the cursors and command queue that one stream hands to the next. */
module AgentIO {
  import opened Common

  // ------------------------------------------------------------------ the run's own fields

  datatype Queued = Queued(id: nat, frame: string)

  ghost predicate Increasing(cmds: seq<Queued>, last: nat) {
    && (forall i, j :: 0 <= i < j < |cmds| ==> cmds[i].id < cmds[j].id)
    && (forall i :: 0 <= i < |cmds| ==> 1 <= cmds[i].id <= last)
  }

  function Frames(cmds: seq<Queued>): (r: seq<string>)
    ensures |r| == |cmds| && forall i :: 0 <= i < |r| ==> r[i] == cmds[i].frame
  {
    seq(|cmds|, i requires 0 <= i < |cmds| => cmds[i].frame)
  }

  /** The queue without command `id`. */
  function Except(cmds: seq<Queued>, id: nat): seq<Queued> {
    if cmds == [] then [] else (if cmds[0].id == id then [] else [cmds[0]]) + Except(cmds[1..], id)
  }

  lemma {:induction false} ExceptKeeps(cmds: seq<Queued>, id: nat)
    ensures forall q :: q in Except(cmds, id) <==> q in cmds && q.id != id
  {
    if cmds != [] {
      ExceptKeeps(cmds[1..], id);
      assert cmds == [cmds[0]] + cmds[1..];
    }
  }

  lemma PrependIncreases(q: Queued, cmds: seq<Queued>, last: nat)
    requires Increasing(cmds, last) && 1 <= q.id <= last && forall k :: 0 <= k < |cmds| ==> q.id < cmds[k].id
    ensures Increasing([q] + cmds, last)
  {
  }

  lemma {:induction false} ExceptIncreases(cmds: seq<Queued>, id: nat, last: nat)
    requires Increasing(cmds, last)
    ensures Increasing(Except(cmds, id), last)
  {
    if cmds != [] {
      var rest := Except(cmds[1..], id);
      ExceptIncreases(cmds[1..], id, last);
      ExceptKeeps(cmds[1..], id);
      forall k | 0 <= k < |rest|
        ensures cmds[0].id < rest[k].id
      {
        assert rest[k] in cmds[1..];
      }
      if cmds[0].id != id {
        PrependIncreases(cmds[0], rest, last);
      }
    }
  }

  lemma {:induction false} ExceptAbsent(cmds: seq<Queued>, id: nat)
    requires forall i :: 0 <= i < |cmds| ==> cmds[i].id != id
    ensures Except(cmds, id) == cmds
  {
    if cmds != [] {
      ExceptAbsent(cmds[1..], id);
    }
  }

  lemma ExceptHead(cmds: seq<Queued>, last: nat)
    requires cmds != [] && Increasing(cmds, last)
    ensures Except(cmds, cmds[0].id) == cmds[1..]
    ensures forall k :: 0 <= k < |cmds[1..]| ==> cmds[1..][k].id > cmds[0].id
  {
    var rest := cmds[1..];
    assert forall k :: 0 <= k < |rest| ==> rest[k] == cmds[k + 1];
    ExceptAbsent(rest, cmds[0].id);
  }

  /** One step of taking command `id` out. */
  lemma ExceptStep(kept: seq<Queued>, cmds: seq<Queued>, i: nat, id: nat)
    requires i < |cmds|
    ensures kept + Except(cmds[i..], id) ==
              (if cmds[i].id == id then kept else kept + [cmds[i]]) + Except(cmds[i + 1..], id)
  {
    assert cmds[i..][1..] == cmds[i + 1..];
  }

  // ------------------------------------------------------------------ what a stream sends

  datatype Outgoing = CommandFrame(frame: string) | AckFrame(num: nat)

  function CommandsOf(out: seq<Outgoing>): seq<string> {
    if out == [] then []
    else
      var last := out[|out| - 1];
      CommandsOf(out[..|out| - 1]) + if last.CommandFrame? then [last.frame] else []
  }

  function AcksOf(out: seq<Outgoing>): seq<nat> {
    if out == [] then []
    else
      var last := out[|out| - 1];
      AcksOf(out[..|out| - 1]) + if last.AckFrame? then [last.num] else []
  }

  lemma OneMoreOut(out: seq<Outgoing>, o: Outgoing)
    ensures CommandsOf(out + [o]) == CommandsOf(out) + if o.CommandFrame? then [o.frame] else []
    ensures AcksOf(out + [o]) == AcksOf(out) + if o.AckFrame? then [o.num] else []
  {
    assert (out + [o])[..|out|] == out;
  }

  /** The acks of a stream: each higher than the one before it, up to `last`. */
  ghost predicate Rises(acks: seq<nat>, last: nat) {
    && (forall i, j :: 0 <= i < j < |acks| ==> acks[i] < acks[j])
    && (forall i :: 0 <= i < |acks| ==> 0 < acks[i] <= last)
    && (last > 0 ==> acks != [] && acks[|acks| - 1] == last)
  }

  lemma RisesOn(acks: seq<nat>, last: nat, n: nat)
    requires Rises(acks, last) && last < n
    ensures Rises(acks + [n], n)
  {
  }

  /** While the loop waits to be woken, the manager queues these commands, and acks up to this number. */
  datatype Wake = Wake(frames: seq<string>, ack: nat)

  function WakeFrames(wakes: seq<Wake>): seq<string> {
    if wakes == [] then [] else WakeFrames(wakes[..|wakes| - 1]) + wakes[|wakes| - 1].frames
  }

  function WakeAck(acked: nat, wakes: seq<Wake>): nat {
    if wakes == [] then acked else Max(WakeAck(acked, wakes[..|wakes| - 1]), wakes[|wakes| - 1].ack)
  }

  lemma OneMoreWake(acked: nat, wakes: seq<Wake>, n: nat)
    requires n < |wakes|
    ensures WakeFrames(wakes[..n + 1]) == WakeFrames(wakes[..n]) + wakes[n].frames
    ensures WakeAck(acked, wakes[..n + 1]) == Max(WakeAck(acked, wakes[..n]), wakes[n].ack)
  {
    assert wakes[..n + 1][..n] == wakes[..n];
  }

  /** All that was queued, at first and by the wakes, went out or is still queued, and all that was acked counts. */
  ghost predicate Accounted(done: seq<string>, left: seq<string>, first: seq<string>, wakes: seq<Wake>, n: nat)
    requires n <= |wakes|
  {
    done + left == first + WakeFrames(wakes[..n])
  }

  lemma WakeAccounted(done: seq<string>, left: seq<string>, first: seq<string>, wakes: seq<Wake>, n: nat)
    requires n < |wakes| && Accounted(done, left, first, wakes, n)
    ensures Accounted(done, left + wakes[n].frames, first, wakes, n + 1)
  {
    OneMoreWake(0, wakes, n);
    assert done + (left + wakes[n].frames) == (done + left) + wakes[n].frames;
  }

  lemma HeadMoves(done: seq<string>, cmds: seq<Queued>)
    requires cmds != []
    ensures done + Frames(cmds) == (done + [cmds[0].frame]) + Frames(cmds[1..])
  {
  }

  lemma QueueGrows(cmds: seq<Queued>, q: Queued)
    ensures Frames(cmds + [q]) == Frames(cmds) + [q.frame]
  {
  }

  class AttachedRun {
    var delivered: nat
    var acked: nat
    var commands: seq<Queued>
    var commandID: nat

    ghost predicate Valid()
      reads this
    {
      Increasing(commands, commandID)
    }

    /** Everything queued is behind command `sent`. */
    ghost predicate Behind(sent: nat)
      reads this
    {
      sent <= commandID && forall k :: 0 <= k < |commands| ==> commands[k].id > sent
    }

    constructor (resumeAfter: nat)
      ensures Valid() && delivered == acked == resumeAfter && commands == []
    {
      delivered, acked, commands, commandID := resumeAfter, resumeAfter, [], 0;
    }

    method SetDelivered(num: nat)
      modifies `delivered
      ensures delivered == Max(old(delivered), num)
    {
      if num > delivered {
        delivered := num;
      }
    }

    method Ack(num: nat)
      modifies `acked
      ensures acked == Max(old(acked), num)
    {
      if num > acked {
        acked := num;
      }
    }

    method Send(frame: string)
      requires Valid()
      modifies `commands, `commandID
      ensures Valid() && commands == old(commands) + [Queued(commandID, frame)] && commandID == old(commandID) + 1
    {
      commandID := commandID + 1;
      commands := commands + [Queued(commandID, frame)];
    }

    /** The oldest queued command behind `after`. */
    method NextCommand(after: nat) returns (c: Option<Queued>)
      requires Valid()
      ensures c.None? <==> forall q :: q in commands ==> q.id <= after
      ensures c.Some? ==> c.value in commands && c.value.id > after
      ensures c.Some? ==> forall q :: q in commands && q.id > after ==> c.value.id <= q.id
      ensures (forall k :: 0 <= k < |commands| ==> commands[k].id > after) ==>
                c == if commands == [] then None else Some(commands[0])
    {
      var i := 0;
      while i < |commands|
        invariant 0 <= i <= |commands|
        invariant forall k :: 0 <= k < i ==> commands[k].id <= after
      {
        if commands[i].id > after {
          assert commands[i] in commands;
          return Some(commands[i]);
        }
        i := i + 1;
      }
      return None;
    }

    /** Takes exactly the named command out of the queue and keeps the order of the rest. */
    method CommitCommand(id: nat)
      requires Valid()
      modifies `commands
      ensures Valid() && commands == Except(old(commands), id)
    {
      var kept: seq<Queued>, i := [], 0;
      while i < |commands|
        invariant 0 <= i <= |commands| && commands == old(commands)
        invariant kept + Except(commands[i..], id) == Except(commands, id)
      {
        ExceptStep(kept, commands, i, id);
        if commands[i].id != id {
          kept := kept + [commands[i]];
        }
        i := i + 1;
      }
      assert kept == Except(commands, id);
      ExceptIncreases(commands, id, commandID);
      commands := kept;
    }

    /** The next command when everything queued is still to be sent. */
    method Oldest(sent: nat) returns (c: Option<Queued>)
      requires Valid() && Behind(sent)
      ensures c == if commands == [] then None else Some(commands[0])
    {
      c := NextCommand(sent);
    }

    /** Commits the oldest command. */
    method CommitOldest(c: Queued)
      requires Valid() && commands != [] && c == commands[0]
      modifies `commands
      ensures Valid() && commands == old(commands)[1..] && Behind(c.id)
    {
      ExceptHead(commands, commandID);
      CommitCommand(c.id);
    }

    /** The inner loop: what is queued goes out in order behind `out`, up to the first failing send. */
    method SendQueued(out: seq<Outgoing>, sent: nat, fails: nat) returns (out': seq<Outgoing>, sent': nat)
      requires Valid() && Behind(sent) && |out| <= fails
      modifies `commands
      ensures Valid() && Behind(sent') && |out'| <= fails && (commands == [] || |out'| == fails)
      ensures CommandsOf(out') + Frames(commands) == CommandsOf(out) + Frames(old(commands))
      ensures AcksOf(out') == AcksOf(out)
    {
      out', sent' := out, sent;
      var c := Oldest(sent');
      while c.Some? && |out'| < fails
        invariant Valid() && Behind(sent') && |out'| <= fails
        invariant CommandsOf(out') + Frames(commands) == CommandsOf(out) + Frames(old(commands))
        invariant AcksOf(out') == AcksOf(out)
        invariant c == if commands == [] then None else Some(commands[0])
        decreases |commands|
      {
        HeadMoves(CommandsOf(out'), commands);
        OneMoreOut(out', CommandFrame(c.value.frame));
        CommitOldest(c.value);
        out', sent' := out' + [CommandFrame(c.value.frame)], c.value.id;
        c := Oldest(sent');
      }
    }

    method Woken(w: Wake, ghost sent: nat)
      requires Valid() && Behind(sent)
      modifies `commands, `commandID, `acked
      ensures Valid() && Behind(sent) && acked == Max(old(acked), w.ack)
      ensures Frames(commands) == Frames(old(commands)) + w.frames
    {
      for i := 0 to |w.frames|
        invariant Valid() && Behind(sent) && acked == old(acked)
        invariant Frames(commands) == Frames(old(commands)) + w.frames[..i]
      {
        QueueGrows(commands, Queued(commandID + 1, w.frames[i]));
        Send(w.frames[i]);
        assert w.frames[..i + 1] == w.frames[..i] + [w.frames[i]];
      }
      assert w.frames[..|w.frames|] == w.frames;
      Ack(w.ack);
    }

    /** What the loop does when it is woken: the queued commands, then the ack if there is a higher one. */
    method SendPending(out: seq<Outgoing>, sent: nat, lastAck: nat, fails: nat)
      returns (out': seq<Outgoing>, sent': nat, lastAck': nat, failed: bool)
      requires Valid() && Behind(sent) && |out| <= fails && Rises(AcksOf(out), lastAck) && lastAck <= acked
      modifies `commands
      ensures Valid() && Behind(sent') && |out'| <= fails && Rises(AcksOf(out'), lastAck') && lastAck' <= acked
      ensures CommandsOf(out') + Frames(commands) == CommandsOf(out) + Frames(old(commands))
      ensures if failed then |out'| == fails else commands == [] && lastAck' == acked
    {
      lastAck' := lastAck;
      out', sent' := SendQueued(out, sent, fails);
      failed := commands != [] || (acked > lastAck && |out'| == fails);
      if !failed && acked > lastAck {
        OneMoreOut(out', AckFrame(acked));
        RisesOn(AcksOf(out'), lastAck, acked);
        out', lastAck' := out' + [AckFrame(acked)], acked;
      }
    }

    /** One stream's send loop, woken again and again, up to its first failing send or to the end of the stream. All
        commands, those queued meanwhile included, go out in order, once each, and what is not sent stays queued for
        the next stream. In between go acks, each higher than the last. A loop that did not fail has sent every
        command and acked all there is to ack. */
    method SendCommands(wakes: seq<Wake>, fails: nat) returns (out: seq<Outgoing>, taken: nat, failed: bool)
      requires Valid()
      modifies `commands, `commandID, `acked
      ensures Valid() && taken <= |wakes| && |out| <= fails
      ensures Accounted(CommandsOf(out), Frames(commands), Frames(old(commands)), wakes, taken)
      ensures acked == WakeAck(old(acked), wakes[..taken])
      ensures exists last: nat :: Rises(AcksOf(out), last) && last <= acked
      ensures if failed then |out| == fails else taken == |wakes| && commands == [] && Rises(AcksOf(out), acked)
    {
      var sent: nat, lastAck: nat := 0, 0;
      out, taken := [], 0;
      out, sent, lastAck, failed := SendPending(out, sent, lastAck, fails);
      while !failed && taken < |wakes|
        invariant Valid() && Behind(sent) && taken <= |wakes| && |out| <= fails
        invariant Accounted(CommandsOf(out), Frames(commands), Frames(old(commands)), wakes, taken)
        invariant acked == WakeAck(old(acked), wakes[..taken])
        invariant Rises(AcksOf(out), lastAck) && lastAck <= acked
        invariant if failed then |out| == fails else commands == [] && lastAck == acked
        decreases |wakes| - taken
      {
        OneMoreWake(old(acked), wakes, taken);
        WakeAccounted(CommandsOf(out), Frames(commands), Frames(old(commands)), wakes, taken);
        Woken(wakes[taken], sent);
        taken := taken + 1;
        out, sent, lastAck, failed := SendPending(out, sent, lastAck, fails);
      }
    }
  }

  // ------------------------------------------------------------------ the claim machine

  /** Where the handler of a stream stands: it displaced a claim it must close, it waits for the turn, it has
      the turn and looks whether it was superseded, it serves, it is about to close its own claim (with the
      turn or without), about to leave `ioStream`, about to give the turn back, or over. */
  datatype Pc =
    | Displacing(prev: Option<nat>)
    | Waiting
    | Testing
    | Serving
    | Dropping(turn: bool)
    | Clearing(turn: bool)
    | Releasing
    | Over

  /** Claims are numbered in the order they are made. `turn` is the one-slot channel; `toClose` are claims that
      finish, a new Attach or DropStreams displaced and will close. */
  datatype State = State(next: nat, current: Option<nat>, turn: bool, closed: set<nat>, toClose: set<nat>,
                         pcs: map<nat, Pc>, done: bool)

  function Init(): State {
    State(0, None, false, {}, {}, map[], false)
  }

  datatype Step =
    | Claim
    | ClosePrev(c: nat)
    | TakeTurn(c: nat)
    | GiveUp(c: nat)
    | Test(c: nat)
    | EndServe(c: nat)
    | CloseOwn(c: nat)
    | Clear(c: nat)
    | Release(c: nat)
    | Finish
    | Attach
    | DropStreams
    | CloseDisplaced(c: nat)

  predicate At(s: State, c: nat, pc: Pc) {
    c in s.pcs && s.pcs[c] == pc
  }

  predicate Enabled(s: State, st: Step) {
    match st
    case Claim => !s.done
    case ClosePrev(c) => c in s.pcs && s.pcs[c].Displacing?
    case TakeTurn(c) => At(s, c, Waiting) && !s.turn
    case GiveUp(c) => At(s, c, Waiting)
    case Test(c) => At(s, c, Testing)
    case EndServe(c) => At(s, c, Serving)
    case CloseOwn(c) => c in s.pcs && s.pcs[c].Dropping?
    case Clear(c) => c in s.pcs && s.pcs[c].Clearing?
    case Release(c) => At(s, c, Releasing)
    case Finish => !s.done
    case Attach => !s.done
    case DropStreams => true
    case CloseDisplaced(c) => c in s.toClose
  }

  function AsSet(o: Option<nat>): set<nat> {
    if o.Some? then {o.value} else {}
  }

  function Move(s: State, c: nat, pc: Pc): State {
    s.(pcs := s.pcs[c := pc])
  }

  function Apply(s: State, st: Step): State
    requires Enabled(s, st)
  {
    match st
    case Claim => s.(next := s.next + 1, current := Some(s.next), pcs := s.pcs[s.next := Displacing(s.current)])
    case ClosePrev(c) => Move(s, c, Waiting).(closed := s.closed + AsSet(s.pcs[c].prev))
    case TakeTurn(c) => Move(s, c, Testing).(turn := true)
    case GiveUp(c) => Move(s, c, Dropping(false))
    case Test(c) => Move(s, c, if c in s.closed then Dropping(true) else Serving)
    case EndServe(c) => Move(s, c, Dropping(true))
    case CloseOwn(c) => Move(s, c, Clearing(s.pcs[c].turn)).(closed := s.closed + {c})
    case Clear(c) =>
      var current := if s.current == Some(c) then None else s.current;
      Move(s, c, if s.pcs[c].turn then Releasing else Over).(current := current)
    case Release(c) => Move(s, c, Over).(turn := false)
    case Finish => s.(done := true, toClose := s.toClose + AsSet(s.current), current := None)
    case Attach => s.(toClose := s.toClose + AsSet(s.current), current := None)
    case DropStreams => s.(toClose := s.toClose + AsSet(s.current))
    case CloseDisplaced(c) => s.(closed := s.closed + {c}, toClose := s.toClose - {c})
  }

  ghost predicate IsRun(ss: seq<State>, steps: seq<Step>) {
    && |ss| == |steps| + 1
    && ss[0] == Init()
    && forall i :: 0 <= i < |steps| ==> Enabled(ss[i], steps[i]) && ss[i + 1] == Apply(ss[i], steps[i])
  }

  // ------------------------------------------------------------------ invariant

  predicate HasTurn(pc: Pc) {
    match pc
    case Testing => true
    case Serving => true
    case Dropping(turn) => turn
    case Clearing(turn) => turn
    case Releasing => true
    case _ => false
  }

  /** The turn is out exactly when some handler has it, and then only one. */
  ghost predicate TurnOk(turn: bool, pcs: map<nat, Pc>) {
    && (forall c, d :: c in pcs && d in pcs && HasTurn(pcs[c]) && HasTurn(pcs[d]) ==> c == d)
    && (turn <==> exists c :: c in pcs && HasTurn(pcs[c]))
  }

  /** A newer handler is about to close claim `c`. */
  ghost predicate Displaced(pcs: map<nat, Pc>, c: nat) {
    exists d :: d in pcs && pcs[d] == Displacing(Some(c))
  }

  /** A claim that is not the current one is closed, or the step that displaced it is about to close it, or
      its own handler is. */
  ghost predicate ClosedOk(s: State, c: nat) {
    c in s.closed || c in s.toClose || Displaced(s.pcs, c) || (c in s.pcs && s.pcs[c].Dropping?)
  }

  ghost predicate ClaimsOk(s: State) {
    && (forall c :: c in s.pcs <==> 0 <= c < s.next)
    && (s.current.Some? ==>
          s.current.value + 1 == s.next && !s.pcs[s.current.value].Releasing? && !s.pcs[s.current.value].Over?)
    && (forall c :: c in s.pcs && s.current != Some(c) ==> ClosedOk(s, c))
    && (forall c :: c in s.pcs && (s.pcs[c].Clearing? || s.pcs[c].Releasing? || s.pcs[c].Over?) ==> c in s.closed)
    && (forall c :: c in s.toClose ==> c in s.pcs)
  }

  ghost predicate Inv(s: State) {
    TurnOk(s.turn, s.pcs) && ClaimsOk(s) && (s.done ==> s.current.None?)
  }

  lemma MoveKeepsTurn(turn: bool, pcs: map<nat, Pc>, c: nat, pc: Pc)
    requires TurnOk(turn, pcs) && c in pcs && HasTurn(pcs[c]) == HasTurn(pc)
    ensures TurnOk(turn, pcs[c := pc])
  {
    if turn {
      var d :| d in pcs && HasTurn(pcs[d]);
      assert d in pcs[c := pc] && HasTurn(pcs[c := pc][d]);
    }
  }

  lemma TakeKeepsTurn(pcs: map<nat, Pc>, c: nat)
    requires TurnOk(false, pcs) && c in pcs
    ensures TurnOk(true, pcs[c := Testing])
  {
    assert c in pcs[c := Testing] && HasTurn(pcs[c := Testing][c]);
  }

  lemma ReleaseKeepsTurn(turn: bool, pcs: map<nat, Pc>, c: nat)
    requires TurnOk(turn, pcs) && c in pcs && HasTurn(pcs[c])
    ensures TurnOk(false, pcs[c := Over])
  {
  }

  lemma ClaimKeeps(s: State)
    requires Inv(s) && Enabled(s, Claim)
    ensures Inv(Apply(s, Claim))
  {
    var s' := Apply(s, Claim);
    assert s.next !in s.pcs && s'.pcs[s.next] == Displacing(s.current);
    assert forall c :: c in s.pcs ==> s'.pcs[c] == s.pcs[c];
    assert forall c :: Displaced(s.pcs, c) ==> Displaced(s'.pcs, c);
    assert s.current.Some? ==> Displaced(s'.pcs, s.current.value);
    assert TurnOk(s'.turn, s'.pcs);
  }

  /** A handler moves on without touching what closes other claims. */
  lemma MoveKeepsClaims(s: State, c: nat, pc: Pc, more: set<nat>)
    requires ClaimsOk(s) && c in s.pcs && !pc.Over? && !pc.Releasing?
    requires s.pcs[c].Displacing? && s.pcs[c].prev.Some? ==> s.pcs[c].prev.value in more
    requires s.pcs[c].Dropping? || pc.Clearing? ==> c in more || c in s.closed
    ensures ClaimsOk(Move(s, c, pc).(closed := s.closed + more))
  {
    var s' := Move(s, c, pc).(closed := s.closed + more);
    forall d | d in s'.pcs && s'.current != Some(d)
      ensures ClosedOk(s', d)
    {
      assert ClosedOk(s, d);
      if Displaced(s.pcs, d) && d !in s'.closed {
        var e :| e in s.pcs && s.pcs[e] == Displacing(Some(d));
        assert e in s'.pcs && s'.pcs[e] == Displacing(Some(d));
      }
    }
  }

  lemma HandlerKeeps(s: State, st: Step)
    requires Inv(s) && Enabled(s, st)
    requires st.ClosePrev? || st.GiveUp? || st.Test? || st.EndServe? || st.CloseOwn?
    ensures Inv(Apply(s, st))
  {
    var s', c := Apply(s, st), st.c;
    var more := if st.ClosePrev? then AsSet(s.pcs[c].prev) else if st.CloseOwn? then {c} else {};
    MoveKeepsTurn(s.turn, s.pcs, c, s'.pcs[c]);
    MoveKeepsClaims(s, c, s'.pcs[c], more);
    assert s' == Move(s, c, s'.pcs[c]).(closed := s.closed + more);
  }

  lemma TakeTurnKeeps(s: State, c: nat)
    requires Inv(s) && Enabled(s, TakeTurn(c))
    ensures Inv(Apply(s, TakeTurn(c)))
  {
    TakeKeepsTurn(s.pcs, c);
    MoveKeepsClaims(s, c, Testing, {});
    assert s.closed + {} == s.closed;
  }

  lemma LeaveKeepsClaims(s: State, c: nat, pc: Pc)
    requires ClaimsOk(s) && c in s.pcs && (s.pcs[c].Clearing? || s.pcs[c].Releasing?) && (pc.Over? || pc.Releasing?)
    ensures ClaimsOk(Move(s, c, pc).(current := if s.current == Some(c) then None else s.current))
  {
    var s' := Move(s, c, pc).(current := if s.current == Some(c) then None else s.current);
    forall d | d in s'.pcs && s'.current != Some(d)
      ensures ClosedOk(s', d)
    {
      if d != c {
        assert ClosedOk(s, d);
        if Displaced(s.pcs, d) {
          var e :| e in s.pcs && s.pcs[e] == Displacing(Some(d));
          assert e in s'.pcs && s'.pcs[e] == Displacing(Some(d));
        }
      }
    }
  }

  lemma ClearKeeps(s: State, c: nat)
    requires Inv(s) && Enabled(s, Clear(c))
    ensures Inv(Apply(s, Clear(c)))
  {
    var pc := if s.pcs[c].turn then Releasing else Over;
    MoveKeepsTurn(s.turn, s.pcs, c, pc);
    LeaveKeepsClaims(s, c, pc);
  }

  lemma ReleaseKeeps(s: State, c: nat)
    requires Inv(s) && Enabled(s, Release(c))
    ensures Inv(Apply(s, Release(c)))
  {
    ReleaseKeepsTurn(s.turn, s.pcs, c);
    LeaveKeepsClaims(s, c, Over);
  }

  lemma OutsideKeeps(s: State, st: Step)
    requires Inv(s) && Enabled(s, st) && (st.Finish? || st.Attach? || st.DropStreams? || st.CloseDisplaced?)
    ensures Inv(Apply(s, st))
  {
    var s' := Apply(s, st);
    assert s'.pcs == s.pcs && s.closed <= s'.closed;
    assert forall c :: ClosedOk(s, c) ==> ClosedOk(s', c);
  }

  lemma StepKeeps(s: State, st: Step)
    requires Inv(s) && Enabled(s, st)
    ensures Inv(Apply(s, st))
  {
    match st
    case Claim => ClaimKeeps(s);
    case TakeTurn(c) => TakeTurnKeeps(s, c);
    case Clear(c) => ClearKeeps(s, c);
    case Release(c) => ReleaseKeeps(s, c);
    case ClosePrev(_) => HandlerKeeps(s, st);
    case GiveUp(_) => HandlerKeeps(s, st);
    case Test(_) => HandlerKeeps(s, st);
    case EndServe(_) => HandlerKeeps(s, st);
    case CloseOwn(_) => HandlerKeeps(s, st);
    case _ => OutsideKeeps(s, st);
  }

  lemma {:induction false} RunKeeps(ss: seq<State>, steps: seq<Step>, i: nat)
    requires IsRun(ss, steps) && i < |ss|
    ensures Inv(ss[i])
  {
    if i > 0 {
      RunKeeps(ss, steps, i - 1);
      StepKeeps(ss[i - 1], steps[i - 1]);
    }
  }

  /** In every interleaving at most one stream serves the run, and a stream that serves has the turn to
      itself. */
  lemma OneStreamServes(ss: seq<State>, steps: seq<Step>, i: nat, c: nat, d: nat)
    requires IsRun(ss, steps) && i < |ss| && At(ss[i], c, Serving)
    ensures ss[i].turn
    ensures d in ss[i].pcs && HasTurn(ss[i].pcs[d]) ==> d == c
  {
    RunKeeps(ss, steps, i);
  }

  /** The newest claim wins: the current claim is the newest one, and every other claim is closed, or about to
      be closed by the step that displaced it or by its own handler. */
  lemma NewestWins(ss: seq<State>, steps: seq<Step>, i: nat)
    requires IsRun(ss, steps) && i < |ss|
    ensures ss[i].current.Some? ==> ss[i].current.value + 1 == ss[i].next && !ss[i].done
    ensures forall c :: 0 <= c < ss[i].next && ss[i].current != Some(c) ==> ClosedOk(ss[i], c)
  {
    RunKeeps(ss, steps, i);
  }
}
