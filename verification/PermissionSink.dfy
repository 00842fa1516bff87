/** The waiter map of a session's permission requests (harness/internal/harnessapi/sink.go), and the search for
    recorded deadlines that rebuilds it (consume.go). */
module PermissionSink {
  import opened Common
  import P = Permissions

  /** A waiting request. `ref` stands for the identity of the waiter object. */
  datatype Waiter = Waiter(ref: nat, turn: string, options: seq<string>, deadline: int, armed: bool)

  datatype Request = Request(id: string, turn: string, options: seq<string>)

  datatype Verdict = Accepted | UnknownRequest | NotOffered

  /** The map shows request `id` as the desk of the request's machine has it. */
  ghost predicate Shows(m: map<string, Waiter>, id: string, d: P.Desk) {
    d.waiter == (id in m) && d.armed == (id in m && m[id].armed)
  }

  /** Nothing but request `id` changed. */
  ghost predicate Only(m: map<string, Waiter>, m': map<string, Waiter>, id: string) {
    m - {id} == m' - {id}
  }

  /** The sink of a session. Each method is, for every desk, the step of the request's machine that its doc names,
      and it leaves every other request alone. */
  class LogSink {
    var waiters: map<string, Waiter>
    var stopped: bool
    var timeout: nat

    constructor (permTimeout: nat)
      ensures !stopped && timeout == permTimeout && forall id :: Shows(waiters, id, P.Init().desk)
    {
      waiters, stopped, timeout := map[], false, permTimeout;
    }

    /** The Await step of a reconcile: a waiter that is there is kept, a new one has its recorded deadline. */
    method Await(req: Request, deadline: int, ref: nat)
      modifies `waiters
      ensures Only(old(waiters), waiters, req.id)
      ensures !stopped ==> forall d :: Shows(old(waiters), req.id, d) ==> Shows(waiters, req.id, P.AwaitListed(d))
      ensures req.id in old(waiters) ==> req.id in waiters && waiters[req.id] == old(waiters)[req.id]
      ensures req.id !in old(waiters) ==> (req.id in waiters <==> !stopped)
      ensures req.id in waiters && req.id !in old(waiters) ==>
                waiters[req.id].deadline == deadline && waiters[req.id].options == req.options
    {
      if req.id !in waiters && !stopped {
        waiters := waiters[req.id := Waiter(ref, req.turn, req.options, deadline, true)];
      }
    }

    /** The Handle step of the consumer: nothing expires before its event is recorded. */
    method Register(req: Request, ref: nat) returns (w: Option<Waiter>, isNew: bool)
      modifies `waiters
      ensures Only(old(waiters), waiters, req.id)
      ensures !stopped ==> forall d :: Shows(old(waiters), req.id, d) ==>
                Shows(waiters, req.id, P.Register(d)) && P.Register(d).consumer == P.Handling(isNew)
      ensures isNew ==> w.Some? && w.value.ref == ref && req.id in waiters && waiters[req.id] == w.value
      ensures !isNew ==> waiters == old(waiters) && w == if req.id in waiters then Some(waiters[req.id]) else None
    {
      if req.id in waiters {
        return Some(waiters[req.id]), false;
      }
      if stopped {
        return None, false;
      }
      var made := Waiter(ref, req.turn, req.options, 0, false);
      waiters := waiters[req.id := made];
      return Some(made), true;
    }

    /** The deadline that goes into the event is the one the waiter keeps; no step of the machine. */
    method Stamp(id: string, w: Option<Waiter>, isNew: bool, now: int) returns (deadline: int)
      modifies `waiters
      ensures Only(old(waiters), waiters, id)
      ensures forall d :: Shows(old(waiters), id, d) ==> Shows(waiters, id, d)
      ensures w.None? || isNew ==> deadline == now + timeout
      ensures w.Some? && !isNew ==> deadline == w.value.deadline
      ensures w.Some? && isNew && id in waiters && waiters[id].ref == w.value.ref ==> waiters[id].deadline == deadline
    {
      if w.None? {
        return now + timeout;
      }
      if !isNew {
        return w.value.deadline;
      }
      deadline := now + timeout;
      if id in waiters && waiters[id].ref == w.value.ref {
        waiters := waiters[id := waiters[id].(deadline := deadline)];
      }
    }

    /** The end of the Record step for a new request: its timer runs if this waiter still waits. */
    method Arm(id: string, ref: nat)
      modifies `waiters
      ensures Only(old(waiters), waiters, id)
      ensures !stopped && (id in old(waiters) ==> old(waiters)[id].ref == ref) ==>
                forall d :: Shows(old(waiters), id, d) && d.consumer == P.Handling(true) ==>
                  Shows(waiters, id, P.Arm(d))
      ensures id in old(waiters) && old(waiters)[id].ref != ref ==> waiters == old(waiters)
    {
      if id in waiters && waiters[id].ref == ref && !waiters[id].armed && !stopped {
        waiters := waiters[id := waiters[id].(armed := true)];
      }
    }

    /** The Record step of a new request that fails: a waiter that took its place stays. */
    method Drop(id: string, ref: nat)
      modifies `waiters
      ensures Only(old(waiters), waiters, id)
      ensures (id in old(waiters) ==> old(waiters)[id].ref == ref) ==>
                forall d :: Shows(old(waiters), id, d) && d.consumer == P.Handling(true) ==>
                  Shows(waiters, id, P.Drop(d))
      ensures id in old(waiters) && old(waiters)[id].ref != ref ==> waiters == old(waiters)
    {
      if id in waiters && waiters[id].ref == ref {
        waiters := waiters - {id};
      }
    }

    method Validate(id: string, option: string) returns (v: Verdict)
      ensures v.UnknownRequest? <==> id !in waiters
      ensures v.Accepted? <==> id in waiters && option in waiters[id].options
    {
      if id !in waiters {
        return UnknownRequest;
      }
      if option !in waiters[id].options {
        return NotOffered;
      }
      return Accepted;
    }

    /** The Take step of an answer, an expiry or a reconcile: one taker gets the waiter, and it is gone. */
    method Take(id: string) returns (w: Option<Waiter>)
      modifies `waiters
      ensures Only(old(waiters), waiters, id)
      ensures forall d :: Shows(old(waiters), id, d) ==> Shows(waiters, id, P.TakeOut(d))
      ensures id !in waiters && (w.Some? <==> id in old(waiters))
      ensures w.Some? ==> w.value == old(waiters)[id]
    {
      if id !in waiters {
        return None;
      }
      w := Some(waiters[id]);
      waiters := waiters - {id};
    }

    /** `restore` (armed) and `reinstate` (unarmed), the failing Save and RecordEnd steps: a waiter that is there is
        kept, and otherwise the same waiter is back, so that taking and putting back changes its timer at most. */
    method PutBack(id: string, w: Waiter, armed: bool)
      modifies `waiters
      ensures Only(old(waiters), waiters, id)
      ensures !stopped ==> forall d :: Shows(old(waiters), id, d) ==> Shows(waiters, id, P.PutBack(d, armed))
      ensures id in old(waiters) ==> id in waiters && waiters[id] == old(waiters)[id]
      ensures id !in old(waiters) && id in waiters ==> waiters[id] == w.(armed := armed)
    {
      if id !in waiters && !stopped {
        waiters := waiters[id := w.(armed := armed)];
      }
    }

    /** The stop: every waiting request is resolved once and taken out, and none waits any more. */
    method SupersedeAll() returns (resolved: seq<string>)
      modifies `waiters
      ensures forall id, d :: Shows(old(waiters), id, d) ==> Shows(waiters, id, P.TakeOut(d))
      ensures forall id :: multiset(resolved)[id] == if id in old(waiters) then 1 else 0
    {
      var pending := waiters.Keys;
      resolved := [];
      while pending != {}
        invariant pending == waiters.Keys <= old(waiters).Keys
        invariant forall id :: multiset(resolved)[id] == if id in old(waiters) && id !in pending then 1 else 0
        decreases |pending|
      {
        var id :| id in pending;
        var w := Take(id);
        assert waiters == waiters - {id};
        pending := pending - {id};
        assert multiset(resolved + [id]) == multiset(resolved) + multiset{id};
        resolved := resolved + [id];
      }
    }
  }

  /** An event as the search sees it: a permission request with its deadline, or anything else. */
  datatype Logged = Asks(id: string, deadline: int) | OtherEvent

  const PAGE: nat := 500

  ghost predicate Distinct(ids: seq<string>) {
    forall i, j :: 0 <= i < j < |ids| ==> ids[i] != ids[j]
  }

  /** The requests among `ids` that the first `n` events record. */
  ghost predicate FoundIn(out: map<string, int>, log: seq<Logged>, ids: seq<string>, n: nat)
    requires n <= |log|
  {
    && (forall k :: 0 <= k < n && log[k].Asks? && log[k].id in ids ==> log[k].id in out)
    && (forall id :: id in out ==> id in ids && Asks(id, out[id]) in log[..n])
  }

  lemma {:induction false} FullSetHoldsList(ids: seq<string>, out: set<string>)
    requires Distinct(ids) && (forall id :: id in out ==> id in ids) && |out| >= |ids|
    ensures forall id :: id in ids ==> id in out
  {
    if ids != [] {
      var last, rest := ids[|ids| - 1], ids[..|ids| - 1];
      assert ids == rest + [last];
      if last !in out {
        ListBoundsSet(rest, out);
      } else {
        FullSetHoldsList(rest, out - {last});
      }
    }
  }

  lemma {:induction false} ListBoundsSet(ids: seq<string>, out: set<string>)
    requires forall id :: id in out ==> id in ids
    ensures |out| <= |ids|
  {
    if ids == [] {
      assert out == {};
    } else {
      var last, rest := ids[|ids| - 1], ids[..|ids| - 1];
      ListBoundsSet(rest, out - {last});
    }
  }

  /** What one event adds. */
  function Note(out: map<string, int>, ev: Logged, ids: seq<string>): map<string, int> {
    if ev.Asks? && ev.id in ids then out[ev.id := ev.deadline] else out
  }

  lemma NoteFinds(out: map<string, int>, log: seq<Logged>, ids: seq<string>, n: nat)
    requires n < |log| && FoundIn(out, log, ids, n)
    ensures FoundIn(Note(out, log[n], ids), log, ids, n + 1)
  {
    assert log[..n + 1] == log[..n] + [log[n]];
  }

  lemma AllFound(out: map<string, int>, log: seq<Logged>, ids: seq<string>, n: nat)
    requires n <= |log| && FoundIn(out, log, ids, n) && Distinct(ids) && |out| >= |ids|
    ensures FoundIn(out, log, ids, |log|)
  {
    assert |out.Keys| == |out|;
    FullSetHoldsList(ids, out.Keys);
    assert log[..|log|] == log[..n] + log[n..];
  }

  /** `recordedDeadlines`: reads the log page by page and stops early, yet it finds exactly those of the
      requests that are recorded, with a recorded deadline. */
  method RecordedDeadlines(log: seq<Logged>, ids: seq<string>) returns (out: map<string, int>)
    requires Distinct(ids)
    ensures FoundIn(out, log, ids, |log|)
  {
    out := map[];
    var after := 0;
    while |out| < |ids|
      invariant after <= |log| && FoundIn(out, log, ids, after)
      decreases |log| - after
    {
      var end := if after + PAGE <= |log| then after + PAGE else |log|;
      var i := after;
      while i < end
        invariant after <= i <= end && FoundIn(out, log, ids, i)
      {
        NoteFinds(out, log, ids, i);
        if log[i].Asks? && log[i].id in ids {
          out := out[log[i].id := log[i].deadline];
        }
        i := i + 1;
      }
      if end - after < PAGE {
        return;
      }
      after := end;
    }
    AllFound(out, log, ids, after);
  }
}
