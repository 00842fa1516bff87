/** The quotas of one client (harness/internal/harnessapi/quota.go, owner.go, service.go): admission reads the
    stored sessions and then the owner table, decides, and accepts, all under one mutex, while launches, revives
    and stops go on beside it. */
module Quotas {
  import opened Sessions

  type Int32 = n: int | -0x8000_0000 <= n < 0x8000_0000

  /** The conversion of a length to 32 bits wraps around. */
  function ToInt32(n: nat): Int32 {
    (n + 0x8000_0000) % 0x1_0000_0000 - 0x8000_0000
  }

  /** A cap of 0 or less is no cap; a client without quotas has none. */
  datatype Quota = Quota(maxLive: Int32, maxPending: Int32)

  /** What the owner table has for a session: nothing, a launch that is not live, or anything else. */
  datatype Owner = NoOwner | LaunchOwner | OtherOwner

  datatype Session = Session(status: Status, owner: Owner)

  // ------------------------------------------------------------------ the check

  datatype Verdict = Admitted | RateExceeded | Unavailable | LiveExceeded | PendingExceeded

  datatype Row = Row(id: nat, status: Status)

  /** The sessions of the rows whose approval is outstanding. */
  function AwaitingRows(rows: seq<Row>): set<nat> {
    set i | 0 <= i < |rows| && Awaits(rows[i].status) :: rows[i].id
  }

  /** A length as `checkQuotas` compares it reaches a cap. */
  predicate Reaches(n: nat, cap: Int32) {
    0 < cap <= ToInt32(n)
  }

  /** `checkQuotas` on the live sessions read from the store and the launches read from the owner table. `rate` is
      the quota on creations and `allowed` the verdict of the limiter, `readable` tells that the store was read. */
  method CheckQuotas(q: Quota, newSession: bool, rate: Int32, allowed: bool, readable: bool, rows: seq<Row>,
                     launches: set<nat>) returns (v: Verdict)
    ensures v.RateExceeded? <==> rate > 0 && !allowed
    ensures v.Unavailable? <==>
              !v.RateExceeded? && !readable && ((q.maxLive > 0 && newSession) || q.maxPending > 0)
    ensures v.LiveExceeded? <==> !v.RateExceeded? && readable && newSession && Reaches(|rows|, q.maxLive)
    ensures v.PendingExceeded? <==>
              && !v.RateExceeded? && readable && !v.LiveExceeded?
              && Reaches(|launches + AwaitingRows(rows)|, q.maxPending)
  {
    if rate > 0 && !allowed {
      return RateExceeded;
    }
    if (q.maxLive <= 0 || !newSession) && q.maxPending <= 0 {
      return Admitted;
    }
    if !readable {
      return Unavailable;
    }
    if newSession && q.maxLive > 0 && ToInt32(|rows|) >= q.maxLive {
      return LiveExceeded;
    }
    if q.maxPending > 0 {
      var pending, i := launches, 0;
      while i < |rows|
        invariant 0 <= i <= |rows|
        invariant pending == launches + set k | 0 <= k < i && Awaits(rows[k].status) :: rows[k].id
      {
        if Awaits(rows[i].status) {
          pending := pending + {rows[i].id};
        }
        i := i + 1;
      }
      assert pending == launches + AwaitingRows(rows);
      if ToInt32(|pending|) >= q.maxPending {
        return PendingExceeded;
      }
    }
    return Admitted;
  }

  // ------------------------------------------------------------------ the machine

  /** The admission mutex: held after the store was read (which showed these waiting sessions), after the owner
      table was read and the request admitted, or after the row of a new session was stored. */
  datatype Admission =
    | Open
    | Reading(newSession: bool, waiting: set<nat>, count: nat)
    | Accepting(newSession: bool)
    | Claiming(id: nat)

  /** `strays` are sessions whose creating launch did not get its claim and goes on, and `writing` those of them
      that are inside `write`. */
  datatype State = State(sessions: map<nat, Session>, lock: Admission, strays: set<nat>, writing: set<nat>)

  function LiveSet(m: map<nat, Session>): set<nat> {
    set id | id in m && !Terminal(m[id].status)
  }

  function WaitingSet(m: map<nat, Session>): set<nat> {
    set id | id in m && Awaits(m[id].status)
  }

  function LaunchSet(m: map<nat, Session>): set<nat> {
    set id | id in m && m[id].owner.LaunchOwner?
  }

  /** Launch owners united with the sessions whose approval is outstanding. */
  function PendingSet(m: map<nat, Session>): set<nat> {
    LaunchSet(m) + WaitingSet(m)
  }

  function Init(): State {
    State(map[], Open, {}, {})
  }

  datatype Step =
    | ReadStore(newSession: bool)
    | ReadOwners
    | Reject
    | CreateRow(id: nat)
    | ClaimNew
    | ClaimRevive(id: nat)
    | SetStatus(id: nat, to: Status)
    | SetOwner(id: nat, other: bool)
    | StrayChecks(id: nat)
    | StrayWrites(id: nat, to: Status)
    | StrayLeaves(id: nat)
    | Crash

  predicate Enabled(s: State, st: Step) {
    match st
    case ReadStore(_) => s.lock.Open?
    case ReadOwners => s.lock.Reading?
    case Reject => !s.lock.Open?
    case CreateRow(id) => s.lock == Accepting(true) && id !in s.sessions
    case ClaimNew => s.lock.Claiming? && s.lock.id in s.sessions
    case ClaimRevive(id) => s.lock == Accepting(false) && id in s.sessions && s.sessions[id].owner.NoOwner?
    case SetStatus(id, to) =>
      && id in s.sessions && !Terminal(s.sessions[id].status)
      && (Awaits(to) ==> s.sessions[id].owner.LaunchOwner? || Awaits(s.sessions[id].status))
    case SetOwner(id, _) => id in s.sessions
    case StrayChecks(id) => id in s.strays && id in s.sessions && !Terminal(s.sessions[id].status)
    case StrayWrites(id, to) => id in s.writing && id in s.sessions && !Terminal(to)
    case StrayLeaves(id) => id in s.writing
    case Crash => true
  }

  function ReadOwnersStep(q: Quota, s: State): State
    requires s.lock.Reading?
  {
    var over :=
      || (s.lock.newSession && Reaches(s.lock.count, q.maxLive))
      || Reaches(|LaunchSet(s.sessions) + s.lock.waiting|, q.maxPending);
    s.(lock := if over then Open else Accepting(s.lock.newSession))
  }

  function Owned(m: map<nat, Session>, id: nat, o: Owner): map<nat, Session>
    requires id in m
  {
    m[id := m[id].(owner := o)]
  }

  /** The result of the claim is ignored: a launch that did not get it goes on. */
  function ClaimNewStep(s: State): State
    requires s.lock.Claiming? && s.lock.id in s.sessions
  {
    var id := s.lock.id;
    if s.sessions[id].owner.NoOwner? then
      s.(sessions := s.sessions[id := s.sessions[id].(owner := LaunchOwner)], lock := Open)
    else s.(lock := Open, strays := s.strays + {id})
  }

  function Disown(m: map<nat, Session>): map<nat, Session> {
    map id | id in m :: m[id].(owner := NoOwner)
  }

  function Apply(q: Quota, s: State, st: Step): State
    requires Enabled(s, st)
  {
    match st
    case ReadStore(newSession) => s.(lock := Reading(newSession, WaitingSet(s.sessions), |LiveSet(s.sessions)|))
    case ReadOwners => ReadOwnersStep(q, s)
    case Reject => s.(lock := Open)
    case CreateRow(id) => s.(sessions := s.sessions[id := Session(Status.Pending, NoOwner)], lock := Claiming(id))
    case ClaimNew => ClaimNewStep(s)
    case ClaimRevive(id) => s.(sessions := s.sessions[id := s.sessions[id].(owner := LaunchOwner)], lock := Open)
    case SetStatus(id, to) => s.(sessions := s.sessions[id := s.sessions[id].(status := to)])
    case SetOwner(id, other) => s.(sessions := Owned(s.sessions, id, if other then OtherOwner else NoOwner))
    case StrayChecks(id) => s.(writing := s.writing + {id})
    case StrayWrites(id, to) => s.(sessions := s.sessions[id := s.sessions[id].(status := to)])
    case StrayLeaves(id) => s.(writing := s.writing - {id})
    case Crash => s.(sessions := Disown(s.sessions), lock := Open, strays := {}, writing := {})
  }

  ghost predicate IsPath(q: Quota, ss: seq<State>, steps: seq<Step>) {
    && |ss| == |steps| + 1
    && forall i :: 0 <= i < |steps| ==> Enabled(ss[i], steps[i]) && ss[i + 1] == Apply(q, ss[i], steps[i])
  }

  // ------------------------------------------------------------------ two faults

  /** While an admission is between its two reads, a launch it did not read as waiting leaves the launch owners with
      its approval outstanding: the admission counts it in neither. */
  predicate Tears(s: State, st: Step) {
    && st.SetOwner? && st.id in s.sessions && s.lock.Reading?
    && s.sessions[st.id].owner.LaunchOwner? && Awaits(s.sessions[st.id].status) && st.id !in s.lock.waiting
  }

  /** A stray launch writes a waiting status to a session that was not pending, or any status over its end. */
  predicate Strays(s: State, st: Step) {
    && st.StrayWrites? && st.id in s.sessions
    && ((Awaits(st.to) && st.id !in PendingSet(s.sessions)) || st.id !in LiveSet(s.sessions))
  }

  datatype Fault = TornRead | StrayWrite

  predicate Commits(s: State, st: Step, f: Fault) {
    match f
    case TornRead => Tears(s, st)
    case StrayWrite => Strays(s, st)
  }

  // ------------------------------------------------------------------ invariant

  ghost predicate Within(n: nat, cap: int, room: nat) {
    cap > 0 ==> n + room <= cap
  }

  /** What the admission in progress may rely on: nobody else adds sessions or pending approvals. */
  ghost predicate AdmissionOk(q: Quota, m: map<nat, Session>, lock: Admission) {
    match lock
    case Open => true
    case Reading(_, waiting, count) =>
      && |LiveSet(m)| <= count && Within(count, q.maxLive, 0)
      && PendingSet(m) <= LaunchSet(m) + waiting && Within(|LaunchSet(m) + waiting|, q.maxPending, 0)
    case Accepting(newSession) =>
      Within(|PendingSet(m)|, q.maxPending, 1) && (newSession ==> Within(|LiveSet(m)|, q.maxLive, 1))
    case Claiming(id) => Within(|PendingSet(m) + {id}|, q.maxPending, 0)
  }

  ghost predicate Inv(q: Quota, s: State) {
    && Within(|LiveSet(s.sessions)|, q.maxLive, 0)
    && Within(|PendingSet(s.sessions)|, q.maxPending, 0)
    && AdmissionOk(q, s.sessions, s.lock)
  }

  lemma {:induction false} SubsetSize<T>(a: set<T>, b: set<T>)
    requires a <= b
    ensures |a| <= |b|
  {
    if a != {} {
      var x :| x in a;
      SubsetSize(a - {x}, b - {x});
    }
  }

  /** A change that adds neither live nor pending sessions keeps everything, if it also keeps what an
      admission between its reads relies on. */
  lemma ShrinkKeeps(q: Quota, m: map<nat, Session>, m': map<nat, Session>, lock: Admission)
    requires Within(|LiveSet(m)|, q.maxLive, 0) && Within(|PendingSet(m)|, q.maxPending, 0) && AdmissionOk(q, m, lock)
    requires LiveSet(m') <= LiveSet(m) && PendingSet(m') <= PendingSet(m)
    requires lock.Reading? ==> PendingSet(m') <= LaunchSet(m') + lock.waiting && LaunchSet(m') <= LaunchSet(m)
    ensures Within(|LiveSet(m')|, q.maxLive, 0) && Within(|PendingSet(m')|, q.maxPending, 0) && AdmissionOk(q, m', lock)
  {
    SubsetSize(LiveSet(m'), LiveSet(m));
    SubsetSize(PendingSet(m'), PendingSet(m));
    if lock.Claiming? {
      SubsetSize(PendingSet(m') + {lock.id}, PendingSet(m) + {lock.id});
    } else if lock.Reading? {
      SubsetSize(LaunchSet(m') + lock.waiting, LaunchSet(m) + lock.waiting);
    }
  }

  lemma OwnerSets(m: map<nat, Session>, id: nat, o: Owner)
    requires id in m
    ensures var m' := m[id := m[id].(owner := o)];
      && LiveSet(m') == LiveSet(m) && WaitingSet(m') == WaitingSet(m)
      && LaunchSet(m') == if o.LaunchOwner? then LaunchSet(m) + {id} else LaunchSet(m) - {id}
  {
  }

  lemma StatusSets(m: map<nat, Session>, id: nat, to: Status)
    requires id in m
    ensures var m' := m[id := m[id].(status := to)];
      && LiveSet(m') == (if Terminal(to) then LiveSet(m) - {id} else LiveSet(m) + {id})
      && LaunchSet(m') == LaunchSet(m)
      && WaitingSet(m') == if Awaits(to) then WaitingSet(m) + {id} else WaitingSet(m) - {id}
  {
  }

  lemma DisownSets(m: map<nat, Session>)
    ensures LiveSet(Disown(m)) == LiveSet(m) && WaitingSet(Disown(m)) == WaitingSet(m) && LaunchSet(Disown(m)) == {}
  {
  }

  lemma ReadOwnersKeeps(q: Quota, s: State)
    requires Inv(q, s) && s.lock.Reading?
    ensures Inv(q, ReadOwnersStep(q, s))
  {
    SubsetSize(PendingSet(s.sessions), LaunchSet(s.sessions) + s.lock.waiting);
  }

  lemma NewRowSets(m: map<nat, Session>, id: nat)
    requires id !in m
    ensures var m' := m[id := Session(Status.Pending, NoOwner)];
      && LiveSet(m') == LiveSet(m) + {id} && LaunchSet(m') == LaunchSet(m) && WaitingSet(m') == WaitingSet(m) + {id}
  {
  }

  lemma CreateRowKeeps(q: Quota, s: State, id: nat)
    requires Inv(q, s) && s.lock == Accepting(true) && id !in s.sessions
    ensures Inv(q, s.(sessions := s.sessions[id := Session(Status.Pending, NoOwner)], lock := Claiming(id)))
  {
    NewRowSets(s.sessions, id);
    var m' := s.sessions[id := Session(Status.Pending, NoOwner)];
    assert PendingSet(m') == PendingSet(s.sessions) + {id};
    assert PendingSet(m') + {id} == PendingSet(m');
  }

  lemma ClaimKeeps(q: Quota, s: State, id: nat)
    requires Inv(q, s) && id in s.sessions && s.sessions[id].owner.NoOwner?
    requires s.lock == Accepting(false) || s.lock == Claiming(id)
    ensures Inv(q, s.(sessions := s.sessions[id := s.sessions[id].(owner := LaunchOwner)], lock := Open))
  {
    OwnerSets(s.sessions, id, LaunchOwner);
    var m' := s.sessions[id := s.sessions[id].(owner := LaunchOwner)];
    assert PendingSet(m') == PendingSet(s.sessions) + {id};
  }

  lemma SetStatusKeeps(q: Quota, s: State, id: nat, to: Status)
    requires Inv(q, s) && Enabled(s, SetStatus(id, to))
    ensures Inv(q, s.(sessions := s.sessions[id := s.sessions[id].(status := to)]))
  {
    StatusSets(s.sessions, id, to);
    var m, m' := s.sessions, s.sessions[id := s.sessions[id].(status := to)];
    assert id in LiveSet(m) && (Awaits(to) ==> id in PendingSet(m));
    assert PendingSet(m') <= PendingSet(m);
    ShrinkKeeps(q, m, m', s.lock);
  }

  lemma SetOwnerKeeps(q: Quota, s: State, id: nat, o: Owner)
    requires Inv(q, s) && id in s.sessions && !o.LaunchOwner? && !Tears(s, SetOwner(id, o.OtherOwner?))
    ensures Inv(q, s.(sessions := Owned(s.sessions, id, o)))
  {
    OwnerSets(s.sessions, id, o);
    var m, m' := s.sessions, Owned(s.sessions, id, o);
    if s.lock.Reading? {
      forall x | x in PendingSet(m')
        ensures x in LaunchSet(m') + s.lock.waiting
      {
        assert x in PendingSet(m);
      }
    }
    ShrinkKeeps(q, m, m', s.lock);
  }

  lemma StrayWritesKeeps(q: Quota, s: State, id: nat, to: Status)
    requires Inv(q, s) && Enabled(s, StrayWrites(id, to)) && !Strays(s, StrayWrites(id, to))
    ensures Inv(q, s.(sessions := s.sessions[id := s.sessions[id].(status := to)]))
  {
    StatusSets(s.sessions, id, to);
    var m, m' := s.sessions, s.sessions[id := s.sessions[id].(status := to)];
    assert LiveSet(m') == LiveSet(m) && PendingSet(m') <= PendingSet(m);
    ShrinkKeeps(q, m, m', s.lock);
  }

  lemma CrashKeeps(q: Quota, s: State)
    requires Inv(q, s)
    ensures Inv(q, Apply(q, s, Crash))
  {
    var m' := Disown(s.sessions);
    DisownSets(s.sessions);
    ShrinkKeeps(q, s.sessions, m', Open);
  }

  /** Every step but the two faults keeps the caps, and what an admission in progress relies on. */
  lemma StepKeeps(q: Quota, s: State, st: Step)
    requires Inv(q, s) && Enabled(s, st) && !Tears(s, st) && !Strays(s, st)
    ensures Inv(q, Apply(q, s, st))
  {
    match st
    case ReadStore(_) => assert LaunchSet(s.sessions) + WaitingSet(s.sessions) == PendingSet(s.sessions);
    case ReadOwners => ReadOwnersKeeps(q, s);
    case CreateRow(id) => CreateRowKeeps(q, s, id);
    case ClaimNew =>
      if s.sessions[s.lock.id].owner.NoOwner? {
        ClaimKeeps(q, s, s.lock.id);
      }
    case ClaimRevive(id) => ClaimKeeps(q, s, id);
    case SetStatus(id, to) => SetStatusKeeps(q, s, id, to);
    case SetOwner(id, other) => SetOwnerKeeps(q, s, id, if other then OtherOwner else NoOwner);
    case StrayWrites(id, to) => StrayWritesKeeps(q, s, id, to);
    case Crash => CrashKeeps(q, s);
    case _ =>
  }

  lemma InitKeeps(q: Quota)
    ensures Inv(q, Init())
  {
    assert LiveSet(Init().sessions) == {} && PendingSet(Init().sessions) == {};
  }

  /** From every state within the caps, in which an admission in progress has counted right, a client's live sessions
      and its pending set stay within their caps over all creates, revives, failures, stops and restarts, as long
      as no admission is torn and no stray launch adds a session. It does not matter what happened before: between
      admissions, and after every crash, being within the caps is enough. */
  lemma {:induction false} QuotasHold(q: Quota, ss: seq<State>, steps: seq<Step>, i: nat)
    requires IsPath(q, ss, steps) && i < |ss| && Inv(q, ss[0])
    requires forall k :: 0 <= k < i ==> !Tears(ss[k], steps[k]) && !Strays(ss[k], steps[k])
    ensures Inv(q, ss[i])
    ensures q.maxLive > 0 ==> |LiveSet(ss[i].sessions)| <= q.maxLive
    ensures q.maxPending > 0 ==> |PendingSet(ss[i].sessions)| <= q.maxPending
  {
    if i > 0 {
      QuotasHold(q, ss, steps, i - 1);
      StepKeeps(q, ss[i - 1], steps[i - 1]);
      assert ss[i - 1 + 1] == Apply(q, ss[i - 1], steps[i - 1]);
    }
  }

  /** Where the theorem starts: at the beginning, in every state within the caps without an admission, and so after
      a crash within the caps, whatever faults came before. */
  lemma CapsAreEnough(q: Quota, s: State)
    requires q.maxLive > 0 ==> |LiveSet(s.sessions)| <= q.maxLive
    requires q.maxPending > 0 ==> |PendingSet(s.sessions)| <= q.maxPending
    ensures Inv(q, Init())
    ensures s.lock.Open? ==> Inv(q, s)
    ensures Inv(q, Apply(q, s, Crash))
  {
    InitKeeps(q);
    DisownSets(s.sessions);
    SubsetSize(PendingSet(Disown(s.sessions)), PendingSet(s.sessions));
  }

  // ------------------------------------------------------------------ what a step adds

  /** The session that a step adds to the pending set, if it was not there: a new row, a claim, or a waiting
      status written by a stray. */
  function PendingAdded(s: State, st: Step): set<nat>
    requires Enabled(s, st)
  {
    match st
    case CreateRow(id) => {id}
    case ClaimNew => if s.sessions[s.lock.id].owner.NoOwner? then {s.lock.id} else {}
    case ClaimRevive(id) => {id}
    case StrayWrites(id, to) => if Awaits(to) then {id} else {}
    case _ => {}
  }

  /** The session that a step adds to the live ones: a new row, or an end that a stray writes over. */
  function LiveAdded(s: State, st: Step): set<nat>
    requires Enabled(s, st)
  {
    match st
    case CreateRow(id) => {id}
    case StrayWrites(id, _) => {id}
    case _ => {}
  }

  /** What becomes of the sessions in a step. */
  lemma StepSets(q: Quota, s: State, st: Step)
    requires Enabled(s, st)
    ensures var m, m' := s.sessions, Apply(q, s, st).sessions;
      match st
      case CreateRow(id) => m' == m[id := Session(Status.Pending, NoOwner)]
      case ClaimNew =>
        m' == m || (m[s.lock.id].owner.NoOwner? && m' == m[s.lock.id := m[s.lock.id].(owner := LaunchOwner)])
      case ClaimRevive(id) => m' == m[id := m[id].(owner := LaunchOwner)]
      case SetStatus(id, to) => m' == m[id := m[id].(status := to)]
      case SetOwner(id, other) => m' == m[id := m[id].(owner := if other then OtherOwner else NoOwner)]
      case StrayWrites(id, to) => m' == m[id := m[id].(status := to)]
      case Crash => m' == Disown(m)
      case _ => m' == m
  {
  }

  lemma StatusAdds(s: State, id: nat, to: Status)
    requires id in s.sessions
    ensures var m' := s.sessions[id := s.sessions[id].(status := to)];
      && PendingSet(m') <= PendingSet(s.sessions) + (if Awaits(to) then {id} else {})
      && LiveSet(m') <= LiveSet(s.sessions) + (if Terminal(to) then {} else {id})
      && (Awaits(to) ==> PendingSet(s.sessions) + {id} <= PendingSet(m'))
      && (!Terminal(to) ==> LiveSet(s.sessions) + {id} <= LiveSet(m'))
  {
    StatusSets(s.sessions, id, to);
  }

  lemma AddsAtMost(q: Quota, s: State, st: Step)
    requires Enabled(s, st)
    ensures PendingSet(Apply(q, s, st).sessions) <= PendingSet(s.sessions) + PendingAdded(s, st)
    ensures LiveSet(Apply(q, s, st).sessions) <= LiveSet(s.sessions) + LiveAdded(s, st)
  {
    StepSets(q, s, st);
    match st
    case CreateRow(id) => NewRowSets(s.sessions, id);
    case ClaimNew => OwnerSets(s.sessions, s.lock.id, LaunchOwner);
    case ClaimRevive(id) => OwnerSets(s.sessions, id, LaunchOwner);
    case SetStatus(id, to) => StatusAdds(s, id, to);
    case SetOwner(id, other) => OwnerSets(s.sessions, id, if other then OtherOwner else NoOwner);
    case StrayWrites(id, to) => StatusAdds(s, id, to);
    case Crash => DisownSets(s.sessions);
    case _ =>
  }

  lemma AddsAtLeast(q: Quota, s: State, st: Step)
    requires Enabled(s, st)
    ensures PendingAdded(s, st) != {} ==>
              PendingSet(s.sessions) + PendingAdded(s, st) <= PendingSet(Apply(q, s, st).sessions)
    ensures LiveAdded(s, st) != {} ==> LiveSet(s.sessions) + LiveAdded(s, st) <= LiveSet(Apply(q, s, st).sessions)
  {
    match st
    case CreateRow(id) => NewRowSets(s.sessions, id);
    case ClaimNew => OwnerSets(s.sessions, s.lock.id, LaunchOwner);
    case ClaimRevive(id) => OwnerSets(s.sessions, id, LaunchOwner);
    case StrayWrites(id, to) => StatusAdds(s, id, to);
    case _ =>
  }

  lemma OneMore(a: set<nat>, x: set<nat>, b: set<nat>, cap: nat)
    requires |x| <= 1 && b <= a + x && (x != {} ==> a + x <= b) && |a| <= cap
    ensures |b| > cap <==> |a| == cap && !(x <= a)
  {
    SubsetSize(b, a + x);
    if x <= a {
      assert a + x == a;
    } else {
      assert b == a + x && a * x == {};
      assert |a + x| == |a| + |x|;
    }
  }

  /** A step takes a client over its pending cap if and only if the cap is reached and the step adds a session
      that was not pending: one that an admission accepted, or one whose stray launch writes a waiting
      status. */
  lemma ExceedsPendingIff(q: Quota, s: State, st: Step)
    requires Enabled(s, st) && 0 < q.maxPending && |PendingSet(s.sessions)| <= q.maxPending
    ensures |PendingSet(Apply(q, s, st).sessions)| > q.maxPending <==>
              |PendingSet(s.sessions)| == q.maxPending && !(PendingAdded(s, st) <= PendingSet(s.sessions))
  {
    AddsAtMost(q, s, st);
    AddsAtLeast(q, s, st);
    OneMore(PendingSet(s.sessions), PendingAdded(s, st), PendingSet(Apply(q, s, st).sessions), q.maxPending);
  }

  /** The same for the live cap: a new row, or a stray launch that writes over the end of its session. */
  lemma ExceedsLiveIff(q: Quota, s: State, st: Step)
    requires Enabled(s, st) && 0 < q.maxLive && |LiveSet(s.sessions)| <= q.maxLive
    ensures |LiveSet(Apply(q, s, st).sessions)| > q.maxLive <==>
              |LiveSet(s.sessions)| == q.maxLive && !(LiveAdded(s, st) <= LiveSet(s.sessions))
  {
    AddsAtMost(q, s, st);
    AddsAtLeast(q, s, st);
    OneMore(LiveSet(s.sessions), LiveAdded(s, st), LiveSet(Apply(q, s, st).sessions), q.maxLive);
  }

  // ------------------------------------------------------------------ two reads are not one snapshot

  /** A run from the start reaches `s` with no fault but `f`. */
  ghost predicate Reachable(q: Quota, f: Fault, s: State) {
    exists ss: seq<State>, steps: seq<Step> ::
      && IsPath(q, ss, steps) && ss[0] == Init() && ss[|ss| - 1] == s
      && forall k :: 0 <= k < |steps| ==> Allowed(ss[k], steps[k], f)
  }

  predicate Allowed(s: State, st: Step, f: Fault) {
    forall g: Fault :: Commits(s, st, g) ==> g == f
  }

  lemma ReachInit(q: Quota, f: Fault)
    ensures Reachable(q, f, Init())
  {
    assert IsPath(q, [Init()], []) && [Init()][0] == Init();
  }

  lemma ReachStep(q: Quota, f: Fault, s: State, st: Step)
    requires Reachable(q, f, s) && Enabled(s, st) && Allowed(s, st, f)
    ensures Reachable(q, f, Apply(q, s, st))
  {
    var ss: seq<State>, steps: seq<Step> :|
      && IsPath(q, ss, steps) && ss[0] == Init() && ss[|ss| - 1] == s
      && forall k :: 0 <= k < |steps| ==> Allowed(ss[k], steps[k], f);
    var ss', steps' := ss + [Apply(q, s, st)], steps + [st];
    assert IsPath(q, ss', steps') && ss'[0] == Init() && ss'[|ss'| - 1] == Apply(q, s, st);
    assert forall k :: 0 <= k < |steps'| ==> Allowed(ss'[k], steps'[k], f);
  }

  /** A state without strays. */
  function Plain(m: map<nat, Session>, lock: Admission): State {
    State(m, lock, {}, {})
  }

  /** Session `a` as the only one. */
  function Only(a: nat, status: Status, owner: Owner): map<nat, Session> {
    map[a := Session(status, owner)]
  }

  lemma ReachCreated(q: Quota, f: Fault, a: nat)
    ensures Reachable(q, f, Plain(Only(a, Status.Pending, NoOwner), Claiming(a)))
  {
    ReachInit(q, f);
    assert WaitingSet(map[]) == {} && LiveSet(map[]) == {} && LaunchSet(map[]) == {};
    ReachStep(q, f, Init(), ReadStore(true));
    var s1 := Plain(map[], Reading(true, {}, 0));
    ReachStep(q, f, s1, ReadOwners);
    assert ReadOwnersStep(q, s1) == Plain(map[], Accepting(true));
    ReachStep(q, f, Plain(map[], Accepting(true)), CreateRow(a));
  }

  lemma ReachStatus(q: Quota, f: Fault, a: nat, from: Status, o: Owner, lock: Admission, to: Status)
    requires Reachable(q, f, Plain(Only(a, from, o), lock)) && !Terminal(from) && (Awaits(to) ==> o.LaunchOwner?)
    ensures Reachable(q, f, Plain(Only(a, to, o), lock))
  {
    var s := Plain(Only(a, from, o), lock);
    ReachStep(q, f, s, SetStatus(a, to));
    assert s.sessions[a := Session(to, o)] == Only(a, to, o);
  }

  lemma ReachOwner(q: Quota, f: Fault, a: nat, status: Status, o: Owner, other: bool)
    requires Reachable(q, f, Plain(Only(a, status, o), Open))
    ensures Reachable(q, f, Plain(Only(a, status, if other then OtherOwner else NoOwner), Open))
  {
    var s := Plain(Only(a, status, o), Open);
    var o' := if other then OtherOwner else NoOwner;
    ReachStep(q, f, s, SetOwner(a, other));
    assert s.sessions[a := Session(status, o')] == Only(a, status, o');
  }

  /** The session was launched, ran, and is suspended. */
  lemma ReachSuspended(q: Quota, f: Fault, a: nat)
    requires q == Quota(0, 1)
    ensures Reachable(q, f, Plain(Only(a, Suspended, NoOwner), Open))
  {
    ReachCreated(q, f, a);
    var s := Plain(Only(a, Status.Pending, NoOwner), Claiming(a));
    ReachStep(q, f, s, ClaimNew);
    assert s.sessions[a := Session(Status.Pending, LaunchOwner)] == Only(a, Status.Pending, LaunchOwner);
    ReachStatus(q, f, a, Status.Pending, LaunchOwner, Open, AwaitingApproval);
    ReachOwner(q, f, a, AwaitingApproval, LaunchOwner, true);
    ReachStatus(q, f, a, AwaitingApproval, OtherOwner, Open, Running);
    ReachStatus(q, f, a, Running, OtherOwner, Open, Suspended);
    ReachOwner(q, f, a, Suspended, OtherOwner, false);
  }

  /** Its revive is admitted and has not begun to launch. */
  lemma ReachReviving(q: Quota, f: Fault, a: nat)
    requires q == Quota(0, 1)
    ensures Reachable(q, f, Plain(Only(a, Suspended, LaunchOwner), Open))
  {
    ReachSuspended(q, f, a);
    var m := Only(a, Suspended, NoOwner);
    assert WaitingSet(m) == {} && LiveSet(m) == {a} && LaunchSet(m) == {};
    ReachStep(q, f, Plain(m, Open), ReadStore(false));
    var s := Plain(m, Reading(false, {}, 1));
    assert |LaunchSet(m) + {}| == 0;
    ReachStep(q, f, s, ReadOwners);
    assert ReadOwnersStep(q, s) == Plain(m, Accepting(false));
    ReachStep(q, f, Plain(m, Accepting(false)), ClaimRevive(a));
    assert m[a := Session(Suspended, LaunchOwner)] == Only(a, Suspended, LaunchOwner);
  }

  lemma ReachTorn(q: Quota, f: Fault, a: nat)
    requires q == Quota(0, 1) && f == TornRead
    ensures Reachable(q, f, Plain(Only(a, AwaitingApproval, OtherOwner), Accepting(true)))
  {
    ReachReviving(q, f, a);
    var s0 := Plain(Only(a, Suspended, LaunchOwner), Open);
    assert WaitingSet(s0.sessions) == {} && LiveSet(s0.sessions) == {a};
    ReachStep(q, f, s0, ReadStore(true));
    var s1 := s0.(lock := Reading(true, {}, 1));
    ReachStatus(q, f, a, Suspended, LaunchOwner, s1.lock, AwaitingApproval);
    var s2 := s1.(sessions := Only(a, AwaitingApproval, LaunchOwner));
    ReachStep(q, f, s2, SetOwner(a, true));
    assert s2.sessions[a := Session(AwaitingApproval, OtherOwner)] == Only(a, AwaitingApproval, OtherOwner);
    var s3 := s2.(sessions := Only(a, AwaitingApproval, OtherOwner));
    assert LaunchSet(s3.sessions) == {} && LaunchSet(s3.sessions) + {} == {};
    ReachStep(q, f, s3, ReadOwners);
  }

  /** A revive that goes from its claim to a live binding between the two reads of an admission is counted by
      neither, and the pending cap is exceeded. */
  lemma TornReadExceedsCap(a: nat, b: nat)
    requires a != b
    ensures exists s: State :: Reachable(Quota(0, 1), TornRead, s) && |PendingSet(s.sessions)| == 2
  {
    var q, f := Quota(0, 1), TornRead;
    ReachTorn(q, f, a);
    var s := Plain(Only(a, AwaitingApproval, OtherOwner), Accepting(true));
    ReachStep(q, f, s, CreateRow(b));
    var t := Apply(q, s, CreateRow(b));
    assert PendingSet(t.sessions) == {a, b};
    assert Reachable(q, f, t) && |PendingSet(t.sessions)| == 2;
  }

  // ------------------------------------------------------------------ an unclaimed launch is under no cap

  /** Session `a` was stored, a stop took hold of it before its launch claimed it, the launch is inside `write`,
      and the stop has ended the session. */
  function Ghostly(a: nat, m: map<nat, Session>, lock: Admission): State {
    State(m, lock, {a}, {a})
  }

  lemma ReachStray(q: Quota, f: Fault, a: nat)
    requires q == Quota(1, 1)
    ensures Reachable(q, f, Ghostly(a, Only(a, Ended, OtherOwner), Open))
  {
    ReachCreated(q, f, a);
    var s := Plain(Only(a, Status.Pending, NoOwner), Claiming(a));
    ReachStep(q, f, s, SetOwner(a, true));
    assert s.sessions[a := Session(Status.Pending, OtherOwner)] == Only(a, Status.Pending, OtherOwner);
    var t := Plain(Only(a, Status.Pending, OtherOwner), Claiming(a));
    ReachStep(q, f, t, ClaimNew);
    var u := t.(lock := Open, strays := {a});
    assert t.strays + {a} == {a};
    ReachStep(q, f, u, StrayChecks(a));
    assert u.writing + {a} == {a};
    var v := Ghostly(a, Only(a, Status.Pending, OtherOwner), Open);
    ReachStep(q, f, v, SetStatus(a, Ended));
    assert v.sessions[a := Session(Ended, OtherOwner)] == Only(a, Ended, OtherOwner);
  }

  /** Sessions `a` and `b`. */
  function Both(a: nat, b: nat, x: Session, y: Session): map<nat, Session> {
    map[a := x, b := y]
  }

  /** A second session is admitted, because the first has ended. */
  lemma ReachSecond(q: Quota, f: Fault, a: nat, b: nat)
    requires q == Quota(1, 1) && a != b
    ensures var m := Both(a, b, Session(Ended, OtherOwner), Session(Status.Pending, NoOwner));
      Reachable(q, f, Ghostly(a, m, Claiming(b)))
  {
    ReachStray(q, f, a);
    var m := Only(a, Ended, OtherOwner);
    assert WaitingSet(m) == {} && LiveSet(m) == {} && LaunchSet(m) == {};
    ReachStep(q, f, Ghostly(a, m, Open), ReadStore(true));
    var s := Ghostly(a, m, Reading(true, {}, 0));
    assert |LaunchSet(m) + {}| == 0;
    ReachStep(q, f, s, ReadOwners);
    assert ReadOwnersStep(q, s) == Ghostly(a, m, Accepting(true));
    ReachStep(q, f, Ghostly(a, m, Accepting(true)), CreateRow(b));
    var m' := Both(a, b, Session(Ended, OtherOwner), Session(Status.Pending, NoOwner));
    assert m[b := Session(Status.Pending, NoOwner)] == m';
  }

  lemma BothWait(a: nat, b: nat, m: map<nat, Session>)
    requires a != b && m == Both(a, b, Session(AwaitingApproval, OtherOwner), Session(Status.Pending, NoOwner))
    ensures |LiveSet(m)| == 2 && |PendingSet(m)| == 2
  {
    assert LiveSet(m) == {a, b} && PendingSet(m) == {a, b};
  }

  /** Without any torn read, a launch whose claim failed takes its client over both caps: it writes a waiting
      status over the end of its session after another session was admitted. */
  lemma UnclaimedLaunchExceedsCaps(a: nat, b: nat)
    requires a != b
    ensures exists s: State ::
              Reachable(Quota(1, 1), StrayWrite, s) && |LiveSet(s.sessions)| == 2 && |PendingSet(s.sessions)| == 2
  {
    var q, f := Quota(1, 1), StrayWrite;
    ReachSecond(q, f, a, b);
    var s := Ghostly(a, Both(a, b, Session(Ended, OtherOwner), Session(Status.Pending, NoOwner)), Claiming(b));
    ReachStep(q, f, s, StrayWrites(a, AwaitingApproval));
    var m := Both(a, b, Session(AwaitingApproval, OtherOwner), Session(Status.Pending, NoOwner));
    assert s.sessions[a := Session(AwaitingApproval, OtherOwner)] == m;
    BothWait(a, b, m);
    assert Reachable(q, f, Ghostly(a, m, Claiming(b)));
  }
}
