/** One session under all the threads that may act on it: launches, revives, reconcile, sweeps, supervision and
    EndSession (harness/internal/harnessapi/lifecycle.go, launch.go, service.go), arbitrated by the owner table.

    A thread is named by the owner it works for. The machine keeps what decides about terminal states and stop
    requests: the owner table, where each thread stands, the stored status and log, and the requests. Calls to
    the launcher and to the run service take no step of their own; any thread may skip any optional step. */
module SessionEnd {
  import opened Common
  import opened Ownership
  import opened Sessions

  /** Where the thread of an owner stands. `Checked` and `Tail(true)` are inside `write`, between its check and
      its update. `Waiting(b)` is a stop in front of the `ready` channel of binding `b`; `Tail` is the rest of
      an activation after it registered its binding, up to closing `ready`; a `Parked` owner is live and has no
      thread left. `Serving` runs a stop that was asked of the owner. */
  datatype Pc =
    | Working
    | Checked
    | Waiting(on: nat)
    | Serving(stop: nat)
    | Settling
    | Tail(checked: bool)
    | Parked
    | Over

  /** `orphans` are launches whose claim failed. */
  datatype Hold = Hold(t: Table, pcs: map<nat, Pc>, orphans: set<nat>)

  /** Recorded and served stop requests, and the waiters that are still blocked, with the owner they wait for. */
  datatype Asks = Asks(recorded: set<nat>, done: set<nat>, waiters: map<nat, nat>)

  datatype Entry = SessionEnded | Other

  /** `late` counts events that were appended to an ended session, and `over` updates of an ended status. */
  datatype Store = Store(status: Status, log: seq<Entry>, late: nat, over: nat)

  datatype State = State(h: Hold, a: Asks, d: Store, created: bool, orphaned: bool)

  function Init(): State {
    State(Hold(Table(None, map[]), map[], {}), Asks({}, {}, map[]), Store(Pending, [], 0, 0), false, false)
  }

  datatype Step =
    | Create(o: nat)
    | Claim(o: nat, launch: bool)
    | Detach(want: Option<nat>, spec: Spec, closes: bool, o: nat, w: nat)
    | Register(o: nat)
    | TailDone(o: nat)
    | Resume(o: nat)
    | TakeStop(o: nat)
    | BeginSettle(o: nat)
    | FinishOwner(o: nat)
    | Served(o: nat)
    | Check(o: nat)
    | Update(o: nat, to: Status, again: bool)
    | UpdateFails(o: nat)
    | End(o: nat, interrupted: bool)
    | Emit(readFails: bool)
    | Crash

  predicate At(h: Hold, o: nat) {
    o in h.t.owners && o in h.pcs && (h.t.cur.Some? ==> h.t.cur.value in h.t.owners)
  }

  predicate Enabled(s: State, st: Step) {
    match st
    case Create(o) => !s.created && o !in s.h.t.owners
    case Claim(o, _) => s.h.t.cur.None? && o !in s.h.t.owners
    case Detach(want, spec, closes, o, w) =>
      && o !in s.h.t.owners && spec.id !in s.a.recorded && w !in s.a.waiters
      && (s.h.t.cur.Some? ==> s.h.t.cur.value in s.h.t.owners)
    case Register(o) => At(s.h, o) && s.h.pcs[o].Working?
    case TailDone(o) => At(s.h, o) && s.h.pcs[o] == Tail(false)
    case Resume(o) => At(s.h, o) && s.h.pcs[o].Waiting? && At(s.h, s.h.pcs[o].on) && !s.h.pcs[s.h.pcs[o].on].Tail?
    case TakeStop(o) => At(s.h, o) && s.h.pcs[o].Working? && s.h.t.owners[o].launch && s.h.t.owners[o].stop.Some?
    case BeginSettle(o) => At(s.h, o) && s.h.pcs[o].Working?
    case FinishOwner(o) => At(s.h, o) && s.h.pcs[o].Settling?
    case Served(o) => At(s.h, o) && s.h.pcs[o].Serving?
    case Check(o) => At(s.h, o) && (s.h.pcs[o].Working? || s.h.pcs[o] == Tail(false)) && !Terminal(s.d.status)
    case Update(o, to, _) => At(s.h, o) && (s.h.pcs[o].Checked? || s.h.pcs[o] == Tail(true)) && !Terminal(to)
    case UpdateFails(o) => At(s.h, o) && (s.h.pcs[o].Checked? || s.h.pcs[o] == Tail(true))
    case End(o, _) => At(s.h, o) && (s.h.pcs[o].Working? || s.h.pcs[o].Serving?)
    case Emit(_) => true
    case Crash => true
  }

  // ------------------------------------------------------------------ steps on the table and the threads

  function SetPc(h: Hold, o: nat, pc: Pc): Hold {
    h.(pcs := h.pcs[o := pc])
  }

  function CreateHold(h: Hold, o: nat): Hold {
    if h.t.cur.None? then h.(t := Claimed(h.t, o, true), pcs := h.pcs[o := Working])
    else Hold(h.t.(owners := h.t.owners[o := NewOwner(true)]), h.pcs[o := Working], h.orphans + {o})
  }

  function DetachHold(h: Hold, want: Option<nat>, spec: Spec, closes: bool, o: nat): Hold
    requires h.t.cur.Some? ==> h.t.cur.value in h.t.owners
  {
    var (t, d) := Detached(h.t, want, spec, closes, o);
    if d.Held? then h.(t := t, pcs := h.pcs[o := if d.displaced.Some? then Waiting(d.displaced.value) else Working])
    else h.(t := t)
  }

  function RegisterHold(h: Hold, o: nat): Hold
    requires At(h, o)
  {
    if CanRegister(h.t, o) then h.(t := Registered(h.t, o), pcs := h.pcs[o := Tail(false)]) else h
  }

  function FinishHold(h: Hold, o: nat): Hold
    requires At(h, o)
  {
    var (t, stop) := Finished(h.t, o);
    h.(t := t, pcs := h.pcs[o := if stop.Some? then Serving(stop.value) else Over])
  }

  // ------------------------------------------------------------------ steps on the requests

  /** A stop is recorded on an owner that is not live and has none yet; only an end is recorded. */
  function DetachAsks(t: Table, a: Asks, want: Option<nat>, spec: Spec, closes: bool, o: nat, w: nat): Asks
    requires t.cur.Some? ==> t.cur.value in t.owners
  {
    var (t', d) := Detached(t, want, spec, closes, o);
    var recorded :=
      if (want.None? || t.cur == want) && t.cur.Some? && !t.owners[t.cur.value].live
         && !spec.suspend && t.owners[t.cur.value].stop.None?
      then a.recorded + {spec.id} else a.recorded;
    a.(recorded := recorded, waiters := if d.Wait? then a.waiters[w := d.o] else a.waiters)
  }

  function FinishAsks(t: Table, a: Asks, o: nat): Asks
    requires o in t.owners
  {
    if t.owners[o].stop.Some? then a
    else a.(waiters := map w | w in a.waiters && a.waiters[w] != o :: a.waiters[w])
  }

  // ------------------------------------------------------------------ steps on the store

  /** FinishSession: one transaction that refuses an ended session. */
  function EndStore(d: Store, interrupted: bool): Store {
    if Terminal(d.status) then d
    else d.(status := if interrupted then Interrupted else Ended, log := d.log + [Other, SessionEnded])
  }

  /** One store update inside `write`, which may make several after one check. */
  function UpdateStore(d: Store, to: Status): Store {
    d.(status := to, over := if Terminal(d.status) then d.over + 1 else d.over)
  }

  /** `recordEvent`: the event is dropped when the session is read as ended, and appended when the read
      fails. */
  function EmitStore(d: Store, readFails: bool): Store {
    if !readFails && Terminal(d.status) then d
    else d.(log := d.log + [Other], late := if Terminal(d.status) then d.late + 1 else d.late)
  }

  function Apply(s: State, st: Step): State
    requires Enabled(s, st)
  {
    match st
    case Create(o) => s.(h := CreateHold(s.h, o), created := true, orphaned := s.orphaned || s.h.t.cur.Some?)
    case Claim(o, launch) => s.(h := s.h.(t := Claimed(s.h.t, o, launch), pcs := s.h.pcs[o := Working]))
    case Detach(want, spec, closes, o, w) =>
      s.(h := DetachHold(s.h, want, spec, closes, o), a := DetachAsks(s.h.t, s.a, want, spec, closes, o, w))
    case Register(o) => s.(h := RegisterHold(s.h, o))
    case TailDone(o) => s.(h := SetPc(s.h, o, Parked))
    case Resume(o) => s.(h := SetPc(s.h, o, Working))
    case TakeStop(o) =>
      s.(h := s.h.(t := Unasked(s.h.t, o), pcs := s.h.pcs[o := Serving(s.h.t.owners[o].stop.value)]))
    case BeginSettle(o) => s.(h := SetPc(s.h, o, Settling))
    case FinishOwner(o) => s.(h := FinishHold(s.h, o), a := FinishAsks(s.h.t, s.a, o))
    case Served(o) => s.(h := SetPc(s.h, o, Settling), a := s.a.(done := s.a.done + {s.h.pcs[o].stop}))
    case Check(o) => s.(h := SetPc(s.h, o, if s.h.pcs[o].Tail? then Tail(true) else Checked))
    case Update(o, to, again) =>
      s.(h := if again then s.h else SetPc(s.h, o, if s.h.pcs[o].Tail? then Tail(false) else Working),
         d := UpdateStore(s.d, to))
    case UpdateFails(o) => s.(h := SetPc(s.h, o, if s.h.pcs[o].Tail? then Tail(false) else Working))
    case End(o, interrupted) => s.(d := EndStore(s.d, interrupted))
    case Emit(readFails) => s.(d := EmitStore(s.d, readFails))
    case Crash => s.(h := Init().h, a := Asks(s.a.done, s.a.done, map[]))
  }

  ghost predicate IsRun(ss: seq<State>, steps: seq<Step>) {
    && |ss| == |steps| + 1
    && ss[0] == Init()
    && forall i :: 0 <= i < |steps| ==> Enabled(ss[i], steps[i]) && ss[i + 1] == Apply(ss[i], steps[i])
  }

  // ------------------------------------------------------------------ invariant

  /** What holds of one owner and its thread. */
  ghost predicate OwnerOk(o: nat, w: Owner, pc: Pc, cur: Option<nat>, orphan: bool) {
    && (w.live <==> pc.Tail? || pc.Parked?)
    && (w.live ==> w.stop.None? && !w.settled)
    && (w.stop.Some? ==> cur == Some(o))
    && (w.settled ==> cur == Some(o) && !w.launch && (w.stop.Some? || pc.Serving? || pc.Settling?))
    && (pc.Over? ==> cur != Some(o))
    && (!w.live && !pc.Over? && !orphan ==> cur == Some(o))
    && (orphan ==> cur != Some(o) && !w.live && !pc.Serving? && !pc.Waiting?)
  }

  ghost predicate OwnersOk(h: Hold) {
    && h.pcs.Keys == h.t.owners.Keys && h.orphans <= h.pcs.Keys
    && (h.t.cur.Some? ==> h.t.cur.value in h.t.owners)
    && forall o :: o in h.t.owners ==> OwnerOk(o, h.t.owners[o], h.pcs[o], h.t.cur, o in h.orphans)
  }

  /** An activation that is not over is the owner's, or the current owner waits for it. */
  ghost predicate TailsOk(h: Hold)
    requires h.pcs.Keys == h.t.owners.Keys
  {
    && (forall o :: o in h.pcs && h.pcs[o].Waiting? ==> h.pcs[o].on in h.t.owners && h.t.owners[h.pcs[o].on].live)
    && (forall o :: o in h.pcs && h.pcs[o].Tail? ==>
          h.t.cur == Some(o) || (h.t.cur.Some? && h.t.cur.value in h.pcs && h.pcs[h.t.cur.value] == Waiting(o)))
  }

  /** A recorded stop is pending on the current owner, being served by it, or served; a blocked waiter waits
      for the current owner. */
  ghost predicate AsksOk(h: Hold, a: Asks)
    requires OwnersOk(h)
  {
    && (forall k :: k in a.recorded && k !in a.done ==>
          && h.t.cur.Some?
          && (h.t.owners[h.t.cur.value].stop == Some(k) || h.pcs[h.t.cur.value] == Serving(k)))
    && (forall w :: w in a.waiters ==> h.t.cur == Some(a.waiters[w]) && h.t.owners[a.waiters[w]].settled)
  }

  function Ends(log: seq<Entry>): nat {
    if log == [] then 0 else Ends(log[..|log| - 1]) + if log[|log| - 1].SessionEnded? then 1 else 0
  }

  /** Every end that was recorded is the current one or was written over. While none was written over, behind
      the one SessionEnded are only the late events. */
  ghost predicate StoreOk(d: Store) {
    && Ends(d.log) == d.over + (if Terminal(d.status) then 1 else 0)
    && (d.over == 0 && !Terminal(d.status) ==> d.late == 0 && forall i :: 0 <= i < |d.log| ==> !d.log[i].SessionEnded?)
    && (d.over == 0 && Terminal(d.status) ==>
          && d.late < |d.log|
          && forall i :: 0 <= i < |d.log| ==> (d.log[i].SessionEnded? <==> i == |d.log| - 1 - d.late))
  }

  ghost predicate ChecksOk(pcs: map<nat, Pc>, status: Status) {
    forall o :: o in pcs && (pcs[o].Checked? || pcs[o] == Tail(true)) ==> !Terminal(status)
  }

  ghost predicate HoldInv(s: State) {
    OwnersOk(s.h) && TailsOk(s.h) && AsksOk(s.h, s.a) && (s.h.orphans != {} ==> s.orphaned)
  }

  ghost predicate Inv(s: State) {
    HoldInv(s) && StoreOk(s.d) && (!s.orphaned ==> s.d.over == 0 && ChecksOk(s.h.pcs, s.d.status))
  }

  // ------------------------------------------------------------------ every step keeps it

  ghost predicate TableInv(h: Hold) {
    OwnersOk(h) && TailsOk(h)
  }

  /** A thread moves on without a change to the table. */
  lemma PcMoves(h: Hold, a: Asks, o: nat, pc: Pc)
    requires TableInv(h) && AsksOk(h, a) && At(h, o)
    requires OwnerOk(o, h.t.owners[o], pc, h.t.cur, o in h.orphans)
    requires !pc.Waiting? && (pc.Tail? ==> h.pcs[o].Tail?)
    requires h.pcs[o].Waiting? ==> h.pcs[o].on in h.pcs && !h.pcs[h.pcs[o].on].Tail?
    requires h.pcs[o].Serving? ==> h.pcs[o].stop in a.done
    ensures TableInv(SetPc(h, o, pc)) && AsksOk(SetPc(h, o, pc), a)
  {
  }

  lemma CreateKeeps(h: Hold, a: Asks, o: nat)
    requires TableInv(h) && AsksOk(h, a) && o !in h.t.owners
    ensures TableInv(CreateHold(h, o)) && AsksOk(CreateHold(h, o), a)
  {
  }

  lemma ClaimKeeps(h: Hold, a: Asks, o: nat, launch: bool)
    requires TableInv(h) && AsksOk(h, a) && h.t.cur.None? && o !in h.t.owners
    ensures var h' := h.(t := Claimed(h.t, o, launch), pcs := h.pcs[o := Working]); TableInv(h') && AsksOk(h', a)
  {
  }

  lemma AskKeeps(h: Hold, o: nat, spec: Spec)
    requires TableInv(h) && h.t.cur == Some(o) && !h.t.owners[o].live
    ensures TableInv(h.(t := Asked(h.t, o, spec)))
  {
  }

  lemma AskIsRecorded(h: Hold, a: Asks, o: nat, spec: Spec, w: nat)
    requires TableInv(h) && AsksOk(h, a) && h.t.cur == Some(o) && !h.t.owners[o].live
    requires TableInv(h.(t := Asked(h.t, o, spec)))
    requires spec.id !in a.recorded && w !in a.waiters
    ensures
      var recorded := if !spec.suspend && h.t.owners[o].stop.None? then a.recorded + {spec.id} else a.recorded;
      var waiters := if AskAnswer(h.t, o, spec).Wait? then a.waiters[w := o] else a.waiters;
      AsksOk(h.(t := Asked(h.t, o, spec)), Asks(recorded, a.done, waiters))
  {
  }

  function ReplaceHold(h: Hold, o: nat): Hold {
    h.(t := Replaced(h.t, o), pcs := h.pcs[o := if h.t.cur.Some? then Waiting(h.t.cur.value) else Working])
  }

  lemma ReplaceKeeps(h: Hold, a: Asks, o: nat)
    requires TableInv(h) && AsksOk(h, a) && o !in h.t.owners
    requires h.t.cur.Some? ==> h.t.owners[h.t.cur.value].live
    ensures TableInv(ReplaceHold(h, o)) && AsksOk(ReplaceHold(h, o), a)
  {
    assert h.t.cur.Some? ==>
        OwnerOk(h.t.cur.value, h.t.owners[h.t.cur.value], h.pcs[h.t.cur.value], h.t.cur, h.t.cur.value in h.orphans);
    assert forall p :: p in h.t.owners ==> OwnerOk(p, h.t.owners[p], h.pcs[p], h.t.cur, p in h.orphans);
  }

  lemma DetachKeeps(h: Hold, a: Asks, want: Option<nat>, spec: Spec, closes: bool, o: nat, w: nat)
    requires TableInv(h) && AsksOk(h, a) && o !in h.t.owners && spec.id !in a.recorded && w !in a.waiters
    ensures TableInv(DetachHold(h, want, spec, closes, o))
    ensures AsksOk(DetachHold(h, want, spec, closes, o), DetachAsks(h.t, a, want, spec, closes, o, w))
  {
    var h', a' := DetachHold(h, want, spec, closes, o), DetachAsks(h.t, a, want, spec, closes, o, w);
    if (want.Some? && h.t.cur != want) || (h.t.cur.Some? && h.t.owners[h.t.cur.value].live && !closes) {
      assert h' == h && a' == a;
    } else if h.t.cur.Some? && !h.t.owners[h.t.cur.value].live {
      assert h' == h.(t := Asked(h.t, h.t.cur.value, spec));
      AskKeeps(h, h.t.cur.value, spec);
      AskIsRecorded(h, a, h.t.cur.value, spec, w);
    } else {
      assert h' == ReplaceHold(h, o) && a' == a;
      ReplaceKeeps(h, a, o);
    }
  }

  lemma RegisterKeeps(h: Hold, a: Asks, o: nat)
    requires TableInv(h) && AsksOk(h, a) && At(h, o) && h.pcs[o].Working?
    ensures TableInv(RegisterHold(h, o)) && AsksOk(RegisterHold(h, o), a)
  {
  }

  function TakeHold(h: Hold, o: nat, k: nat): Hold
    requires At(h, o)
  {
    h.(t := Unasked(h.t, o), pcs := h.pcs[o := Serving(k)])
  }

  /** The current owner takes the stop that was asked of it. */
  lemma TakeKeeps(h: Hold, a: Asks, o: nat, k: nat)
    requires TableInv(h) && AsksOk(h, a) && At(h, o) && h.t.owners[o].stop == Some(k)
    requires h.pcs[o].Working? || h.pcs[o].Settling?
    ensures TableInv(TakeHold(h, o, k)) && AsksOk(TakeHold(h, o, k), a)
  {
  }

  lemma RetireKeeps(h: Hold, o: nat)
    requires TableInv(h) && At(h, o) && h.pcs[o].Settling? && h.t.owners[o].stop.None?
    ensures TableInv(h.(t := Retired(h.t, o), pcs := h.pcs[o := Over]))
  {
  }

  lemma RetireReleases(h: Hold, a: Asks, o: nat)
    requires TableInv(h) && AsksOk(h, a) && At(h, o) && h.pcs[o].Settling? && h.t.owners[o].stop.None?
    requires TableInv(h.(t := Retired(h.t, o), pcs := h.pcs[o := Over]))
    ensures AsksOk(h.(t := Retired(h.t, o), pcs := h.pcs[o := Over]), FinishAsks(h.t, a, o))
  {
  }

  lemma FinishKeeps(h: Hold, a: Asks, o: nat)
    requires TableInv(h) && AsksOk(h, a) && At(h, o) && h.pcs[o].Settling?
    ensures TableInv(FinishHold(h, o)) && AsksOk(FinishHold(h, o), FinishAsks(h.t, a, o))
  {
    if h.t.owners[o].stop.Some? {
      TakeKeeps(h, a, o, h.t.owners[o].stop.value);
      assert FinishHold(h, o) == TakeHold(h, o, h.t.owners[o].stop.value);
    } else {
      RetireKeeps(h, o);
      RetireReleases(h, a, o);
    }
  }

  lemma HoldKeeps(s: State, st: Step)
    requires HoldInv(s) && Enabled(s, st)
    ensures HoldInv(Apply(s, st))
  {
    match st
    case Create(o) => CreateKeeps(s.h, s.a, o);
    case Claim(o, launch) => ClaimKeeps(s.h, s.a, o, launch);
    case Detach(want, spec, closes, o, w) => DetachKeeps(s.h, s.a, want, spec, closes, o, w);
    case Register(o) => RegisterKeeps(s.h, s.a, o);
    case TailDone(o) => PcMoves(s.h, s.a, o, Parked);
    case Resume(o) => PcMoves(s.h, s.a, o, Working);
    case TakeStop(o) => TakeKeeps(s.h, s.a, o, s.h.t.owners[o].stop.value);
    case BeginSettle(o) => PcMoves(s.h, s.a, o, Settling);
    case FinishOwner(o) => FinishKeeps(s.h, s.a, o);
    case Served(o) =>
      PcMoves(s.h, s.a.(done := s.a.done + {s.h.pcs[o].stop}), o, Settling);
    case Check(o) => PcMoves(s.h, s.a, o, if s.h.pcs[o].Tail? then Tail(true) else Checked);
    case Update(o, _, again) =>
      if !again {
        PcMoves(s.h, s.a, o, if s.h.pcs[o].Tail? then Tail(false) else Working);
      }
    case UpdateFails(o) => PcMoves(s.h, s.a, o, if s.h.pcs[o].Tail? then Tail(false) else Working);
    case _ =>
  }

  /** Two threads are never inside the store at once: while one is between a check and its update, no thread
      is where it could end the session. */
  lemma OneActs(s: State, o: nat, p: nat)
    requires HoldInv(s) && s.h.orphans == {} && At(s.h, o) && At(s.h, p)
    requires s.h.pcs[o].Checked? || s.h.pcs[o].Tail?
    ensures !s.h.pcs[p].Working? && !s.h.pcs[p].Serving?
  {
    assert OwnerOk(o, s.h.t.owners[o], s.h.pcs[o], s.h.t.cur, o in s.h.orphans);
    assert OwnerOk(p, s.h.t.owners[p], s.h.pcs[p], s.h.t.cur, p in s.h.orphans);
  }

  lemma EndsPush(log: seq<Entry>, e: Entry)
    ensures Ends(log + [e]) == Ends(log) + if e.SessionEnded? then 1 else 0
  {
    assert (log + [e])[..|log|] == log;
  }

  lemma EndStoreOk(d: Store, interrupted: bool)
    requires StoreOk(d)
    ensures StoreOk(EndStore(d, interrupted))
  {
    EndsPush(d.log, Other);
    EndsPush(d.log + [Other], SessionEnded);
    assert d.log + [Other] + [SessionEnded] == d.log + [Other, SessionEnded];
  }

  lemma EmitStoreOk(d: Store, readFails: bool)
    requires StoreOk(d)
    ensures StoreOk(EmitStore(d, readFails))
  {
    EndsPush(d.log, Other);
  }

  lemma StoreKeeps(s: State, st: Step)
    requires StoreOk(s.d) && Enabled(s, st)
    ensures StoreOk(Apply(s, st).d)
  {
    match st
    case End(_, interrupted) => EndStoreOk(s.d, interrupted);
    case Emit(readFails) => EmitStoreOk(s.d, readFails);
    case _ =>
  }

  lemma EndMeetsNoCheck(s: State, o: nat, interrupted: bool)
    requires HoldInv(s) && Enabled(s, End(o, interrupted)) && s.h.orphans == {} && ChecksOk(s.h.pcs, s.d.status)
    ensures ChecksOk(s.h.pcs, EndStore(s.d, interrupted).status)
  {
    forall p | p in s.h.pcs
      ensures !s.h.pcs[p].Checked? && !s.h.pcs[p].Tail?
    {
      if s.h.pcs[p].Checked? || s.h.pcs[p].Tail? {
        OneActs(s, p, o);
      }
    }
  }

  lemma ChecksKeep(s: State, st: Step)
    requires HoldInv(s) && Enabled(s, st) && s.h.orphans == {} && ChecksOk(s.h.pcs, s.d.status)
    ensures ChecksOk(Apply(s, st).h.pcs, Apply(s, st).d.status) && Apply(s, st).d.over == s.d.over
  {
    match st
    case End(o, interrupted) => EndMeetsNoCheck(s, o, interrupted);
    case Update(o, _, _) => assert s.h.pcs[o].Checked? || s.h.pcs[o] == Tail(true);
    case _ =>
  }

  lemma StepKeeps(s: State, st: Step)
    requires Inv(s) && Enabled(s, st)
    ensures Inv(Apply(s, st)) && (s.orphaned ==> Apply(s, st).orphaned)
  {
    HoldKeeps(s, st);
    StoreKeeps(s, st);
    if !s.orphaned {
      ChecksKeep(s, st);
    }
  }

  lemma {:induction false} RunKeeps(ss: seq<State>, steps: seq<Step>, i: nat)
    requires IsRun(ss, steps) && i < |ss|
    ensures Inv(ss[i])
    ensures forall j :: 0 <= j <= i && ss[j].orphaned ==> ss[i].orphaned
  {
    if i > 0 {
      RunKeeps(ss, steps, i - 1);
      StepKeeps(ss[i - 1], steps[i - 1]);
    }
  }

  // ------------------------------------------------------------------ terminal states

  /** No thread is inside `write`, between a check and its update. */
  predicate NobodyWrites(h: Hold) {
    forall o :: o in h.pcs ==> !h.pcs[o].Checked? && h.pcs[o] != Tail(true)
  }

  ghost predicate IsPath(ss: seq<State>, steps: seq<Step>) {
    && |ss| == |steps| + 1
    && forall i :: 0 <= i < |steps| ==> Enabled(ss[i], steps[i]) && ss[i + 1] == Apply(ss[i], steps[i])
  }

  /** Whatever happens next, the status stays what it is. */
  ghost predicate EndIsKept(s: State) {
    forall ss: seq<State>, steps: seq<Step> :: IsPath(ss, steps) && ss[0] == s ==> ss[|ss| - 1].d.status == s.d.status
  }

  lemma QuietEndStays(s: State, st: Step)
    requires Enabled(s, st) && Terminal(s.d.status) && NobodyWrites(s.h)
    ensures Apply(s, st).d.status == s.d.status && NobodyWrites(Apply(s, st).h)
  {
  }

  lemma {:induction false} QuietEndLasts(ss: seq<State>, steps: seq<Step>, i: nat)
    requires IsPath(ss, steps) && i < |ss| && Terminal(ss[0].d.status) && NobodyWrites(ss[0].h)
    ensures ss[i].d.status == ss[0].d.status && NobodyWrites(ss[i].h)
  {
    if i > 0 {
      QuietEndLasts(ss, steps, i - 1);
      QuietEndStays(ss[i - 1], steps[i - 1]);
      assert ss[i - 1 + 1] == Apply(ss[i - 1], steps[i - 1]);
    }
  }

  lemma WriterOverwrites(s: State, o: nat)
    requires At(s.h, o) && (s.h.pcs[o].Checked? || s.h.pcs[o] == Tail(true)) && Terminal(s.d.status)
    ensures !EndIsKept(s)
  {
    var t := Apply(s, Update(o, Launching, false));
    var ss, steps := [s, t], [Update(o, Launching, false)];
    assert IsPath(ss, steps) && ss[0] == s;
    assert ss[|ss| - 1].d.status == Launching;
  }

  /** A session that ended keeps its status, over every later step of every thread and over crashes, if and only
      if no thread is inside `write` at that moment. */
  lemma EndIsKeptIff(s: State)
    requires Reachable(s) && Terminal(s.d.status)
    ensures EndIsKept(s) <==> NobodyWrites(s.h)
  {
    ReachableInv(s);
    if NobodyWrites(s.h) {
      forall ss: seq<State>, steps: seq<Step> | IsPath(ss, steps) && ss[0] == s
        ensures ss[|ss| - 1].d.status == s.d.status
      {
        QuietEndLasts(ss, steps, |ss| - 1);
      }
    } else {
      var o :| o in s.h.pcs && (s.h.pcs[o].Checked? || s.h.pcs[o] == Tail(true));
      WriterOverwrites(s, o);
    }
  }

  /** When the launch that created the session got its claim, no thread is inside `write` once the session has
      ended, so the end is kept. */
  lemma ClaimedSessionKeepsItsEnd(ss: seq<State>, steps: seq<Step>, i: nat)
    requires IsRun(ss, steps) && i < |ss| && !ss[i].orphaned && Terminal(ss[i].d.status)
    ensures NobodyWrites(ss[i].h) && EndIsKept(ss[i])
  {
    RunKeeps(ss, steps, i);
    assert IsRun(ss[..i + 1], steps[..i]) && ss[..i + 1][|ss[..i + 1]| - 1] == ss[i];
    EndIsKeptIff(ss[i]);
  }

  /** How many events were appended to an ended session because the status read before the append failed. */
  ghost function LateAppends(ss: seq<State>, steps: seq<Step>, i: nat): nat
    requires i <= |steps| && |ss| == |steps| + 1
  {
    if i == 0 then 0
    else LateAppends(ss, steps, i - 1) + if steps[i - 1] == Emit(true) && Terminal(ss[i - 1].d.status) then 1 else 0
  }

  /** How often an ended status was written over. */
  ghost function Overwrites(ss: seq<State>, steps: seq<Step>, i: nat): nat
    requires i <= |steps| && |ss| == |steps| + 1
  {
    if i == 0 then 0
    else Overwrites(ss, steps, i - 1) + if steps[i - 1].Update? && Terminal(ss[i - 1].d.status) then 1 else 0
  }

  lemma CountStep(s: State, st: Step)
    requires Enabled(s, st)
    ensures Apply(s, st).d.late == s.d.late + if st == Emit(true) && Terminal(s.d.status) then 1 else 0
    ensures Apply(s, st).d.over == s.d.over + if st.Update? && Terminal(s.d.status) then 1 else 0
  {
  }

  lemma {:induction false} CountsAreKept(ss: seq<State>, steps: seq<Step>, i: nat)
    requires IsRun(ss, steps) && i < |ss|
    ensures ss[i].d.late == LateAppends(ss, steps, i) && ss[i].d.over == Overwrites(ss, steps, i)
  {
    if i > 0 {
      CountsAreKept(ss, steps, i - 1);
      CountStep(ss[i - 1], steps[i - 1]);
    }
  }

  /** In every run the log has one SessionEnded for the current end and one for each end that was written over:
      an ended session has exactly one if and only if its end was never written over. Then what is behind it are
      exactly the events whose status read failed; so nothing follows it if and only if no such read failed. */
  lemma SessionEndedOnce(ss: seq<State>, steps: seq<Step>, i: nat)
    requires IsRun(ss, steps) && i < |ss|
    ensures Ends(ss[i].d.log) == Overwrites(ss, steps, i) + if Terminal(ss[i].d.status) then 1 else 0
    ensures Overwrites(ss, steps, i) == 0 && Terminal(ss[i].d.status) ==>
              var log, late := ss[i].d.log, LateAppends(ss, steps, i);
              && late < |log|
              && (forall k :: 0 <= k < |log| ==> (log[k] == SessionEnded <==> k == |log| - 1 - late))
              && (log[|log| - 1] == SessionEnded <==> late == 0)
    ensures !ss[i].orphaned ==> Overwrites(ss, steps, i) == 0
  {
    RunKeeps(ss, steps, i);
    CountsAreKept(ss, steps, i);
  }

  ghost predicate Reachable(s: State) {
    exists ss: seq<State>, steps: seq<Step> :: IsRun(ss, steps) && ss[|ss| - 1] == s
  }

  lemma ReachStep(s: State, st: Step)
    requires Reachable(s) && Enabled(s, st)
    ensures Reachable(Apply(s, st))
  {
    var ss: seq<State>, steps: seq<Step> :| IsRun(ss, steps) && ss[|ss| - 1] == s;
    assert IsRun(ss + [Apply(s, st)], steps + [st]);
  }

  lemma ReachableInv(s: State)
    requires Reachable(s)
    ensures Inv(s)
  {
    var ss: seq<State>, steps: seq<Step> :| IsRun(ss, steps) && ss[|ss| - 1] == s;
    RunKeeps(ss, steps, |ss| - 1);
  }

  lemma ReachInit()
    ensures Reachable(Init())
  {
    assert IsRun([Init()], []);
  }

  /** A stop holds the session as owner `a` and the unclaimed launch `b` is inside `write`. */
  lemma UnclaimedLaunchChecks(a: nat, b: nat) returns (s: State)
    requires a != b
    ensures Reachable(s) && Enabled(s, End(a, false))
    ensures Enabled(s, Update(b, Launching, false)) && s.h.pcs[b] == Checked
    ensures s.d.status == Pending && s.d.over == 0
  {
    var stop := Detach(None, Spec(0, false), true, a, 0);
    ReachInit();
    ReachStep(Init(), stop);
    var s1 := Apply(Init(), stop);
    assert s1.h == Hold(Table(Some(a), map[a := NewOwner(false)]), map[a := Working], {});
    ReachStep(s1, Create(b));
    var s2 := Apply(s1, Create(b));
    assert s2.h.t.cur == Some(a) && s2.h.pcs == map[a := Working, b := Working];
    ReachStep(s2, Check(b));
    s := Apply(s2, Check(b));
  }

  /** The other case is real: when a stop gets hold of a session between its row being stored and the claim of
      the launch that created it, that launch runs without owning it and can write over the end. */
  lemma UnclaimedLaunchOverwritesEnd(a: nat, b: nat)
    requires a != b
    ensures exists s: State ::
              && Reachable(s) && Terminal(s.d.status) && Enabled(s, Update(b, Launching, false))
              && Apply(s, Update(b, Launching, false)).d.status == Launching
  {
    var s := UnclaimedLaunchChecks(a, b);
    ReachStep(s, End(a, false));
    var t := Apply(s, End(a, false));
    assert Reachable(t) && Terminal(t.d.status) && Enabled(t, Update(b, Launching, false));
  }

  /** And the session can then end again, with a second SessionEnded in its log. */
  lemma OverwrittenSessionEndsTwice(a: nat, b: nat)
    requires a != b
    ensures exists s: State :: Reachable(s) && Ends(s.d.log) == 2 && s.d.over == 1
  {
    var s := UnclaimedLaunchChecks(a, b);
    ReachStep(s, End(a, false));
    var t := Apply(s, End(a, false));
    ReachStep(t, Update(b, Launching, false));
    var u := Apply(t, Update(b, Launching, false));
    assert Enabled(u, End(b, false));
    ReachStep(u, End(b, false));
    var v := Apply(u, End(b, false));
    ReachableInv(v);
    assert v.d.over == 1 && Terminal(v.d.status);
  }

  // ------------------------------------------------------------------ stop requests

  /** The owner in the table has stop `k` pending, or serves it. */
  ghost predicate OwnerHas(h: Hold, k: nat) {
    && h.t.cur.Some? && At(h, h.t.cur.value)
    && (h.t.owners[h.t.cur.value].stop == Some(k) || h.pcs[h.t.cur.value] == Serving(k))
  }

  /** A live owner carries no stop; a stop is only on the owner in the table; an owner that retired has neither
      a stop nor waiters; every recorded stop is served, being served, or pending on the owner in the table;
      and whoever is blocked waits for that owner. */
  lemma NoStopIsLost(ss: seq<State>, steps: seq<Step>, i: nat)
    requires IsRun(ss, steps) && i < |ss|
    ensures forall o :: o in ss[i].h.t.owners ==>
              var w := ss[i].h.t.owners[o];
              && (w.live ==> w.stop.None?)
              && (w.stop.Some? ==> ss[i].h.t.cur == Some(o))
              && (o in ss[i].h.pcs && ss[i].h.pcs[o].Over? ==> w.stop.None? && !w.settled)
    ensures forall k :: k in ss[i].a.recorded && k !in ss[i].a.done ==> OwnerHas(ss[i].h, k)
    ensures forall w :: w in ss[i].a.waiters ==> ss[i].h.t.cur == Some(ss[i].a.waiters[w])
  {
    RunKeeps(ss, steps, i);
    var h := ss[i].h;
    assert forall o :: o in h.t.owners ==> OwnerOk(o, h.t.owners[o], h.pcs[o], h.t.cur, o in h.orphans);
  }

  lemma LeavingOwnerIsServed(s: State, st: Step)
    requires HoldInv(s) && Enabled(s, st) && HoldInv(Apply(s, st)) && s.h.t.cur.Some?
    requires Apply(s, st).h.t.cur != s.h.t.cur
    ensures Apply(s, st).a.recorded <= Apply(s, st).a.done
    ensures Apply(s, st).a.waiters == map[]
  {
    var s' := Apply(s, st);
    if s'.h.t.cur.Some? {
      assert st.Detach? && s'.h == ReplaceHold(s.h, st.o);
    }
  }

  /** When an owner leaves the table, by retiring or by being displaced, every stop that was ever recorded is
      served and nobody is left waiting. */
  lemma OwnerLeavesWithNothingPending(ss: seq<State>, steps: seq<Step>, i: nat)
    requires IsRun(ss, steps) && i < |steps| && ss[i].h.t.cur.Some? && ss[i + 1].h.t.cur != ss[i].h.t.cur
    ensures ss[i + 1].a.recorded <= ss[i + 1].a.done && ss[i + 1].a.waiters == map[]
  {
    RunKeeps(ss, steps, i);
    RunKeeps(ss, steps, i + 1);
    LeavingOwnerIsServed(ss[i], steps[i]);
  }
}
