/** The runner's outbox of numbered agent events (harness/internal/runner/outbox.go).

    `Box` is the value of an outbox. `Outbox` is the object the runner updates in place; each of
    its methods is proved to move the box as the function of the same name does. */
module Outboxes {

  /** What an event carries, as far as the manager's consumer tells kinds apart: `Content` is
      stored as a session event, and `Content` with `endsTurn` is a TurnFinished. The other kinds
      only move the pod cursor. */
  datatype Payload =
    | SessionReady
    | SessionFailed
    | Exited
    | Unknown
    | Content(body: int, endsTurn: bool)

  /** `size` is the event's encoded size. */
  datatype AgentEvent = AgentEvent(num: nat, turnId: nat, payload: Payload, size: nat)

  datatype Result<T> = Ok(value: T) | Wait | ReplayGone | PastLast

  datatype BoxData = BoxData(events: seq<AgentEvent>, size: nat, max: nat, last: nat, acked: nat, open: bool)

  type Box = b: BoxData | BoxValid(b) witness BoxData([], 0, 0, 0, 0, false)

  function EmptyBox(max: nat): Box {
    BoxData([], 0, max, 0, 0, false)
  }

  function TotalSize(events: seq<AgentEvent>): nat {
    if events == [] then 0 else events[0].size + TotalSize(events[1..])
  }

  /** The box holds exactly the events after `acked`, numbered without a gap, and counts their size. */
  predicate BoxValid(b: BoxData) {
    && b.acked <= b.last
    && |b.events| == b.last - b.acked
    && (forall i :: 0 <= i < |b.events| ==> b.events[i].num == b.acked + 1 + i)
    && b.size == TotalSize(b.events)
  }

  /** An append that waits: the box is full, is not released, and the event is not urgent. */
  predicate Blocked(b: Box, urgent: bool) {
    !urgent && !b.open && b.size >= b.max
  }

  function Append(b: Box, ev: AgentEvent): Box {
    var numbered := ev.(num := b.last + 1);
    TotalSizeConcat(b.events, [numbered]);
    assert TotalSize([numbered]) == ev.size + TotalSize([numbered][1..]);
    b.(events := b.events + [numbered], size := b.size + ev.size, last := b.last + 1)
  }

  function Ack(b: Box, n: nat): Box {
    if n <= b.acked || n > b.last then b
    else
      var kept := b.events[n - b.acked..];
      b.(events := kept, size := TotalSize(kept), acked := n)
  }

  function Check(b: Box, cursor: nat): (r: Result<()>) {
    if cursor < b.acked then ReplayGone else if cursor > b.last then PastLast else Ok(())
  }

  function After(b: Box, cursor: nat): (r: Result<seq<AgentEvent>>) {
    match Check(b, cursor)
    case ReplayGone => ReplayGone
    case PastLast => PastLast
    case _ => if b.last > cursor then Ok(b.events[cursor - b.acked..]) else Wait
  }

  /** The box is a window onto everything the runner ever appended. */
  ghost predicate Holds(b: Box, history: seq<AgentEvent>) {
    && b.last == |history|
    && b.events == history[b.acked..]
    && forall i :: 0 <= i < |history| ==> history[i].num == i + 1
  }

  lemma {:induction false} TotalSizeConcat(a: seq<AgentEvent>, b: seq<AgentEvent>)
    ensures TotalSize(a + b) == TotalSize(a) + TotalSize(b)
  {
    if a == [] {
      assert a + b == b;
    } else {
      TotalSizeConcat(a[1..], b);
      assert (a + b)[1..] == a[1..] + b;
    }
  }

  /** An append extends the history by exactly the numbered event. */
  lemma AppendHolds(b: Box, history: seq<AgentEvent>, ev: AgentEvent)
    requires Holds(b, history)
    ensures Holds(Append(b, ev), history + [ev.(num := |history| + 1)])
  {
    var numbered := ev.(num := b.last + 1);
    assert (history + [numbered])[b.acked..] == b.events + [numbered];
  }

  /** An ack, whatever its number, leaves a window onto the same history; the window's start
      never moves back, and moves only to a number the box held. */
  lemma AckHolds(b: Box, history: seq<AgentEvent>, n: nat)
    requires Holds(b, history)
    ensures Holds(Ack(b, n), history)
    ensures Ack(b, n).acked == if b.acked < n <= b.last then n else b.acked
    ensures Ack(b, n).size <= b.size
  {
    if b.acked < n <= b.last {
      var kept := b.events[n - b.acked..];
      assert b.events == b.events[..n - b.acked] + kept;
      TotalSizeConcat(b.events[..n - b.acked], kept);
      assert kept == history[n..];
    }
  }

  /** What a feed reads after its cursor: the suffix of the history, unless the cursor is before the
      last ack or past the last event. */
  lemma AfterReads(b: Box, history: seq<AgentEvent>, cursor: nat)
    requires Holds(b, history)
    ensures After(b, cursor).ReplayGone? <==> cursor < b.acked
    ensures After(b, cursor).PastLast? <==> cursor > |history|
    ensures After(b, cursor).Wait? <==> cursor == |history|
    ensures After(b, cursor).Ok? <==> b.acked <= cursor < |history|
    ensures After(b, cursor).Ok? ==> After(b, cursor).value == history[cursor..]
  {
    if b.acked <= cursor < |history| {
      assert b.events[cursor - b.acked..] == history[cursor..];
    }
  }

  class Outbox {
    var events: seq<AgentEvent>
    var size: nat
    const max: nat
    var last: nat
    var acked: nat
    var open: bool

    function View(): BoxData
      reads this
    {
      BoxData(events, size, max, last, acked, open)
    }

    constructor (max: nat)
      ensures View() == EmptyBox(max) && BoxValid(View())
    {
      this.max := max;
      events, size, last, acked, open := [], 0, 0, 0, false;
    }

    /** One attempt of an append: none while the caller has to keep waiting. */
    method TryAppend(ev: AgentEvent, urgent: bool) returns (seqNo: Result<nat>)
      requires BoxValid(View())
      modifies this
      ensures BoxValid(View())
      ensures seqNo == if old(Blocked(View(), urgent)) then Wait else Ok(old(last) + 1)
      ensures View() == if seqNo.Wait? then old(View()) else Append(old(View()), ev)
    {
      if !urgent && !open && size >= max {
        return Wait;
      }
      last := last + 1;
      var numbered := ev.(num := last);
      TotalSizeConcat(events, [numbered]);
      assert TotalSize([numbered]) == ev.size + TotalSize([numbered][1..]);
      events := events + [numbered];
      size := size + numbered.size;
      return Ok(last);
    }

    method Release()
      modifies this
      ensures View() == old(View()).(open := true)
    {
      open := true;
    }

    method AckUpTo(n: nat)
      requires BoxValid(View())
      modifies this
      ensures BoxValid(View()) && View() == Ack(old(View()), n)
    {
      if n <= acked || n > last {
        return;
      }
      var drop := n - acked;
      for i := 0 to drop
        invariant events == old(events) && last == old(last) && acked == old(acked) && open == old(open)
        invariant size == TotalSize(events[i..])
      {
        size := size - events[i].size;
        assert events[i..][1..] == events[i + 1..];
      }
      events := events[drop..];
      acked := n;
    }
  }
}
