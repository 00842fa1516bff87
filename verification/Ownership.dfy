/** Who may act on a session (harness/internal/harnessapi/owner.go): the table of owners, as functions on the
    part that concerns one session and as the class that updates it. */
module Ownership {
  import opened Common

  /** An owner: `launch` tells the owners with a context to cancel, `live` that its binding is registered,
      `stop` the stop that was asked of it (by the request's number), and `settled` that its waiters' channel
      exists and is open. */
  datatype Owner = Owner(launch: bool, live: bool, stop: Option<nat>, settled: bool)

  function NewOwner(launch: bool): Owner {
    Owner(launch, false, None, false)
  }

  /** The session's entry, and every owner object the process created for it. */
  datatype Table = Table(cur: Option<nat>, owners: map<nat, Owner>)

  /** A stop: `suspend` when it asks for a suspension. */
  datatype Spec = Spec(id: nat, suspend: bool)

  function Claimed(t: Table, o: nat, launch: bool): Table {
    Table(Some(o), t.owners[o := NewOwner(launch)])
  }

  predicate CanRegister(t: Table, o: nat)
    requires o in t.owners
  {
    t.cur == Some(o) && t.owners[o].stop.None?
  }

  function Registered(t: Table, o: nat): Table
    requires o in t.owners
  {
    t.(owners := t.owners[o := t.owners[o].(live := true)])
  }

  function Unasked(t: Table, o: nat): Table
    requires o in t.owners
  {
    t.(owners := t.owners[o := t.owners[o].(stop := None)])
  }

  /** What `detach` tells its caller: nothing to do, a channel to wait on, or a new owner that holds the
      session, with the binding it displaced. */
  datatype Detachment = Nothing | Wait(o: nat) | Held(h: nat, displaced: Option<nat>)

  /** A stop asked of an owner that is not live. */
  function Asked(t: Table, o: nat, spec: Spec): Table
    requires o in t.owners
  {
    var was := t.owners[o];
    var stop := if !spec.suspend && was.stop.None? then Some(spec.id) else was.stop;
    t.(owners := t.owners[o := was.(stop := stop, settled := was.settled || !(spec.suspend || was.launch))])
  }

  function AskAnswer(t: Table, o: nat, spec: Spec): Detachment
    requires o in t.owners
  {
    if spec.suspend || t.owners[o].launch then Nothing else Wait(o)
  }

  function Replaced(t: Table, h: nat): Table {
    Table(Some(h), t.owners[h := NewOwner(false)])
  }

  /** `detach`: `closes` is what closing the live binding returned, and `h` the new owner object. */
  function Detached(t: Table, want: Option<nat>, spec: Spec, closes: bool, h: nat): (Table, Detachment)
    requires t.cur.Some? ==> t.cur.value in t.owners
  {
    if want.Some? && t.cur != want then (t, Nothing)
    else if t.cur.None? then (Replaced(t, h), Held(h, None))
    else
      var o := t.cur.value;
      if !t.owners[o].live then (Asked(t, o, spec), AskAnswer(t, o, spec))
      else if !closes then (t, Nothing)
      else (Replaced(t, h), Held(h, Some(o)))
  }

  function Retired(t: Table, o: nat): Table
    requires o in t.owners
  {
    Table(if t.cur == Some(o) then None else t.cur, t.owners[o := t.owners[o].(settled := false)])
  }

  /** `finish`: hands out the stop if there is one, and otherwise retires the owner. */
  function Finished(t: Table, o: nat): (Table, Option<nat>)
    requires o in t.owners
  {
    if t.owners[o].stop.Some? then (Unasked(t, o), t.owners[o].stop) else (Retired(t, o), None)
  }

  /** The stop that a round of requests records on an owner that has none: the first that asks for an end. */
  function FirstEnd(specs: seq<Spec>): Option<nat> {
    if specs == [] then None else if !specs[0].suspend then Some(specs[0].id) else FirstEnd(specs[1..])
  }

  /** What `settle` serves when `asks` are the requests that come in while it serves one stop after the other: the
      stop that is there, and then in every round the first that asked for an end, until a round brings none. */
  function Serves(stop: Option<nat>, asks: seq<seq<Spec>>): seq<nat>
    decreases |asks|
  {
    if stop.None? then []
    else [stop.value] + if asks == [] then [] else Serves(FirstEnd(asks[0]), asks[1..])
  }

  lemma OneServed(served: seq<nat>, stop: nat, asks: seq<seq<Spec>>, n: nat)
    requires n <= |asks|
    ensures served + Serves(Some(stop), asks[n..]) ==
            (served + [stop]) + if n == |asks| then [] else Serves(FirstEnd(asks[n]), asks[n + 1..])
  {
    if n < |asks| {
      assert asks[n..][1..] == asks[n + 1..];
    }
  }

  /** The table itself: owners by session, under one mutex. */
  class Service {
    var sessions: map<string, nat>
    var owners: map<nat, Owner>

    ghost predicate Valid()
      reads this
    {
      forall s :: s in sessions ==> sessions[s] in owners
    }

    ghost function View(session: string): Table
      reads this
    {
      Table(if session in sessions then Some(sessions[session]) else None, owners)
    }

    constructor ()
      ensures Valid() && sessions == map[] && owners == map[]
    {
      sessions, owners := map[], map[];
    }

    method Claim(session: string, o: nat, launch: bool) returns (ok: bool)
      requires Valid() && o !in owners
      modifies this
      ensures Valid()
      ensures ok == old(View(session)).cur.None?
      ensures View(session) == if ok then Claimed(old(View(session)), o, launch) else old(View(session))
      ensures forall s :: s != session ==> View(s).cur == old(View(s)).cur
    {
      ok := session !in sessions;
      if ok {
        owners := owners[o := NewOwner(launch)];
        sessions := sessions[session := o];
      }
    }

    method Register(session: string, o: nat) returns (ok: bool)
      requires Valid() && o in owners
      modifies this
      ensures Valid() && sessions == old(sessions)
      ensures ok == CanRegister(old(View(session)), o)
      ensures View(session) == if ok then Registered(old(View(session)), o) else old(View(session))
    {
      ok := session in sessions && sessions[session] == o && owners[o].stop.None?;
      if ok {
        owners := owners[o := owners[o].(live := true)];
      }
    }

    method TakeStop(o: nat) returns (stop: Option<nat>)
      requires Valid() && o in owners
      modifies this
      ensures Valid() && sessions == old(sessions)
      ensures stop == old(owners)[o].stop
      ensures forall s :: View(s) == Unasked(old(View(s)), o)
    {
      stop := owners[o].stop;
      owners := owners[o := owners[o].(stop := None)];
    }

    /** A stop asked of an owner that is not live. */
    method Ask(o: nat, spec: Spec) returns (d: Detachment)
      requires Valid() && o in owners
      modifies `owners
      ensures Valid() && d == AskAnswer(Table(None, old(owners)), o, spec)
      ensures owners == Asked(Table(None, old(owners)), o, spec).owners
    {
      var was := owners[o];
      var stop, settled := was.stop, was.settled;
      if !spec.suspend && stop.None? {
        stop := Some(spec.id);
      }
      if spec.suspend || was.launch {
        d := Nothing;
      } else {
        settled := true;
        d := Wait(o);
      }
      owners := owners[o := was.(stop := stop, settled := settled)];
    }

    method AskAll(o: nat, specs: seq<Spec>)
      requires Valid() && o in owners && owners[o].stop.None?
      modifies `owners
      ensures Valid() && o in owners && owners[o].stop == FirstEnd(specs)
      ensures forall p :: p != o ==>
                (p in owners <==> p in old(owners)) && (p in owners ==> owners[p] == old(owners)[p])
    {
      for i := 0 to |specs|
        invariant Valid() && o in owners
        invariant FirstEnd(specs) == if owners[o].stop.Some? then owners[o].stop else FirstEnd(specs[i..])
        invariant forall p :: p != o ==>
                  (p in owners <==> p in old(owners)) && (p in owners ==> owners[p] == old(owners)[p])
      {
        assert specs[i..][1..] == specs[i + 1..];
        var _ := Ask(o, specs[i]);
      }
    }

    method Detach(session: string, want: Option<nat>, spec: Spec, closes: bool, h: nat) returns (d: Detachment)
      requires Valid() && h !in owners
      modifies this
      ensures Valid()
      ensures (View(session), d) == Detached(old(View(session)), want, spec, closes, h)
      ensures forall s :: s != session ==> View(s).cur == old(View(s)).cur
    {
      if want.Some? && !(session in sessions && sessions[session] == want.value) {
        return Nothing;
      }
      var displaced: Option<nat> := None;
      if session in sessions {
        var o := sessions[session];
        var was := owners[o];
        if !was.live {
          d := Ask(o, spec);
          return;
        }
        if !closes {
          return Nothing;
        }
        displaced := Some(o);
      }
      owners := owners[h := NewOwner(false)];
      sessions := sessions[session := h];
      d := Held(h, displaced);
    }

    method Finish(session: string, o: nat) returns (stop: Option<nat>)
      requires Valid() && o in owners
      modifies this
      ensures Valid()
      ensures (View(session), stop) == Finished(old(View(session)), o)
      ensures forall s :: s != session ==> View(s).cur == old(View(s)).cur
    {
      if owners[o].stop.Some? {
        stop := owners[o].stop;
        owners := owners[o := owners[o].(stop := None)];
      } else {
        stop := None;
        if session in sessions && sessions[session] == o {
          sessions := sessions - {session};
        }
        owners := owners[o := owners[o].(settled := false)];
      }
    }

    /** `settle` while other threads ask for stops: it serves every stop that is recorded before it leaves, in the
        order in which they were recorded, and then retires the owner without a stop and without waiters. */
    method Settle(session: string, o: nat, asks: seq<seq<Spec>>) returns (served: seq<nat>)
      requires Valid() && o in owners
      modifies this
      ensures Valid() && o in owners
      ensures served == Serves(old(owners)[o].stop, asks)
      ensures owners[o].stop.None? && !owners[o].settled
      ensures View(session).cur == if old(View(session)).cur == Some(o) then None else old(View(session)).cur
      ensures forall s :: s != session ==> View(s).cur == old(View(s)).cur
    {
      served := [];
      var heard := 0;
      var stop := Finish(session, o);
      while stop.Some?
        invariant Valid() && o in owners && heard <= |asks| && owners[o].stop.None?
        invariant served + Serves(stop, asks[heard..]) == Serves(old(owners)[o].stop, asks)
        invariant View(session).cur ==
                  if stop.None? && old(View(session)).cur == Some(o) then None else old(View(session)).cur
        invariant stop.None? ==> !owners[o].settled
        invariant forall s :: s != session ==> View(s).cur == old(View(s)).cur
        decreases |asks| - heard, stop.Some?
      {
        OneServed(served, stop.value, asks, heard);
        served := served + [stop.value];
        if heard < |asks| {
          AskAll(o, asks[heard]);
          heard := heard + 1;
        }
        stop := Finish(session, o);
      }
    }
  }
}
