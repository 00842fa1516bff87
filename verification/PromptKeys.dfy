/** Idempotency keys of prompts (harness/internal/harnessapi/promptkeys.go, ttlmemo.go): the callers of one key
    share one start while it runs and, once it is accepted, its turn until the entry expires. */
module PromptKeys {
  import opened Common

  /** A start: for its key, begun at `begun`; `accepted` is the time of its success. */
  datatype Claim = Claim(key: string, begun: int, phase: Phase)

  datatype Phase = InFlight | Failed | Accepted(at: int, turn: string)

  /** The map under its lock; `claims` holds every claim object ever made, by identity. */
  datatype Memo = Memo(ttl: nat, entries: map<string, nat>, claims: seq<Claim>, nextPrune: int)

  predicate Valid(m: Memo) {
    forall k :: k in m.entries ==> m.entries[k] < |m.claims|
  }

  /** Only an accepted claim can expire. */
  predicate Expired(c: Claim, ttl: nat, now: int) {
    c.phase.Accepted? && now - c.phase.at > ttl
  }

  function Kept(m: Memo, now: int): map<string, nat>
    requires Valid(m)
  {
    map k | k in m.entries && !Expired(m.claims[m.entries[k]], m.ttl, now) :: m.entries[k]
  }

  function Pruned(m: Memo, now: int): Memo
    requires Valid(m)
  {
    if now < m.nextPrune then m else m.(entries := Kept(m, now), nextPrune := now + m.ttl)
  }

  /** The claim that a caller of `key` gets, and whether the caller has to start the turn itself. */
  predicate Repeats(m: Memo, key: string, now: int)
    requires Valid(m)
  {
    key in m.entries && !Expired(m.claims[m.entries[key]], m.ttl, now)
  }

  function Begun(m: Memo, key: string, now: int): Memo
    requires Valid(m)
  {
    var p := Pruned(m, now);
    if Repeats(p, key, now) then p
    else p.(entries := p.entries[key := |p.claims|], claims := p.claims + [Claim(key, now, InFlight)])
  }

  function Ended(m: Memo, c: nat, turn: Option<string>, now: int): Memo
    requires c < |m.claims|
  {
    var claim := m.claims[c];
    if turn.Some? then m.(claims := m.claims[c := claim.(phase := Accepted(now, turn.value))])
    else m.(entries := m.entries - {claim.key}, claims := m.claims[c := claim.(phase := Failed)])
  }

  /** The same as updates in place. */
  class Keys {
    var memo: Memo

    constructor (ttl: nat)
      ensures memo == Memo(ttl, map[], [], 0)
    {
      memo := Memo(ttl, map[], [], 0);
    }

    method Prune(now: int)
      requires Valid(memo)
      modifies this
      ensures Valid(memo) && memo == Pruned(old(memo), now)
    {
      if now < memo.nextPrune {
        return;
      }
      var todo, entries := memo.entries.Keys, memo.entries;
      while todo != {}
        invariant todo <= entries.Keys <= memo.entries.Keys && memo == old(memo)
        invariant forall k :: k in entries ==> entries[k] == memo.entries[k]
        invariant forall k :: k in memo.entries && k !in todo ==>
                    (k in entries <==> !Expired(memo.claims[memo.entries[k]], memo.ttl, now))
        decreases |todo|
      {
        var k :| k in todo;
        if Expired(memo.claims[entries[k]], memo.ttl, now) {
          entries := entries - {k};
        }
        todo := todo - {k};
      }
      assert entries == Kept(memo, now);
      memo := memo.(entries := entries, nextPrune := now + memo.ttl);
    }

    /** `do` up to the start: a repeated caller waits for the claim it gets, any other starts the turn. */
    method Begin(key: string, now: int) returns (c: nat, repeat: bool)
      requires Valid(memo)
      modifies this
      ensures Valid(memo) && memo == Begun(old(memo), key, now)
      ensures c < |memo.claims| && key in memo.entries && memo.entries[key] == c
      ensures repeat == Repeats(Pruned(old(memo), now), key, now)
    {
      Prune(now);
      repeat := key in memo.entries;
      if repeat && Expired(memo.claims[memo.entries[key]], memo.ttl, now) {
        repeat := false;
      }
      if !repeat {
        memo := memo.(entries := memo.entries[key := |memo.claims|],
                      claims := memo.claims + [Claim(key, now, InFlight)]);
      }
      c := memo.entries[key];
    }

    /** `do` after the start. */
    method End(c: nat, turn: Option<string>, now: int)
      requires Valid(memo) && c < |memo.claims|
      modifies this
      ensures Valid(memo) && memo == Ended(old(memo), c, turn, now)
    {
      var claim := memo.claims[c];
      if turn.None? {
        memo := memo.(entries := memo.entries - {claim.key}, claims := memo.claims[c := claim.(phase := Failed)]);
      } else {
        memo := memo.(claims := memo.claims[c := claim.(phase := Accepted(now, turn.value))]);
      }
    }
  }

  // ------------------------------------------------------------------ the machine

  /** Callers that got a claim, by caller. */
  datatype State = State(memo: Memo, now: int, callers: map<nat, nat>)

  function Init(ttl: nat, now: int): State {
    State(Memo(ttl, map[], [], 0), now, map[])
  }

  datatype Step =
    | Tick(to: int)
    | Begin(caller: nat, key: string)
    | End(c: nat, turn: Option<string>)

  predicate Enabled(s: State, st: Step) {
    match st
    case Tick(to) => s.now <= to
    case Begin(caller, _) => Valid(s.memo) && caller !in s.callers
    case End(c, _) => c < |s.memo.claims| && s.memo.claims[c].phase.InFlight?
  }

  function BeginStep(s: State, caller: nat, key: string): State
    requires Valid(s.memo)
  {
    var m := Begun(s.memo, key, s.now);
    State(m, s.now, if key in m.entries then s.callers[caller := m.entries[key]] else s.callers)
  }

  function Apply(s: State, st: Step): State
    requires Enabled(s, st)
  {
    match st
    case Tick(to) => s.(now := to)
    case Begin(caller, key) => BeginStep(s, caller, key)
    case End(c, turn) => s.(memo := Ended(s.memo, c, turn, s.now))
  }

  ghost predicate IsRun(ttl: nat, ss: seq<State>, steps: seq<Step>) {
    && |ss| == |steps| + 1
    && ss[0] == Init(ttl, ss[0].now)
    && forall i :: 0 <= i < |steps| ==> Enabled(ss[i], steps[i]) && ss[i + 1] == Apply(ss[i], steps[i])
  }

  // ------------------------------------------------------------------ invariant

  /** The entry of a claim's key is this claim while it runs, and while it is accepted and fresh. */
  predicate Holds(m: Memo, c: nat, now: int)
    requires c < |m.claims|
  {
    m.claims[c].phase.InFlight? || (m.claims[c].phase.Accepted? && now - m.claims[c].phase.at <= m.ttl)
  }

  ghost predicate EntriesOk(m: Memo, now: int) {
    && (forall k :: k in m.entries ==> m.entries[k] < |m.claims|)
    && (forall k :: k in m.entries ==> m.claims[m.entries[k]].key == k && !m.claims[m.entries[k]].phase.Failed?)
    && (forall c :: 0 <= c < |m.claims| && Holds(m, c, now) ==>
          m.claims[c].key in m.entries && m.entries[m.claims[c].key] == c)
  }

  /** Starts of one key do not overlap: a later start begins only after an earlier accepted one expired, and no
      start is accepted in the future. */
  ghost predicate StartsOk(m: Memo, now: int) {
    && (forall c :: 0 <= c < |m.claims| ==> m.claims[c].begun <= now)
    && (forall c :: 0 <= c < |m.claims| && m.claims[c].phase.Accepted? ==>
          m.claims[c].begun <= m.claims[c].phase.at <= now)
    && (forall c, d :: 0 <= c < d < |m.claims| && m.claims[c].key == m.claims[d].key && m.claims[c].phase.Accepted? ==>
          m.claims[d].begun - m.claims[c].phase.at > m.ttl)
    && (forall c, d :: 0 <= c < d < |m.claims| && m.claims[c].key == m.claims[d].key ==> !m.claims[c].phase.InFlight?)
  }

  ghost predicate Inv(s: State) {
    EntriesOk(s.memo, s.now) && StartsOk(s.memo, s.now)
  }

  lemma PruneKeeps(m: Memo, now: int)
    requires EntriesOk(m, now) && StartsOk(m, now)
    ensures EntriesOk(Pruned(m, now), now) && StartsOk(Pruned(m, now), now)
  {
  }

  lemma StartKeepsEntries(m: Memo, key: string, now: int)
    requires EntriesOk(m, now) && !Repeats(m, key, now)
    ensures EntriesOk(m.(entries := m.entries[key := |m.claims|],
                         claims := m.claims + [Claim(key, now, InFlight)]), now)
  {
  }

  /** A start that is not a repeat finds every earlier start of its key failed, or accepted and expired. */
  lemma StartIsLate(m: Memo, key: string, now: int, c: nat)
    requires EntriesOk(m, now) && !Repeats(m, key, now) && c < |m.claims| && m.claims[c].key == key
    ensures m.claims[c].phase.Failed? || Expired(m.claims[c], m.ttl, now)
  {
  }

  lemma StartKeepsStarts(m: Memo, key: string, now: int)
    requires EntriesOk(m, now) && StartsOk(m, now) && !Repeats(m, key, now)
    ensures StartsOk(m.(entries := m.entries[key := |m.claims|], claims := m.claims + [Claim(key, now, InFlight)]), now)
  {
    forall c | 0 <= c < |m.claims| && m.claims[c].key == key
      ensures m.claims[c].phase.Failed? || Expired(m.claims[c], m.ttl, now)
    {
      StartIsLate(m, key, now, c);
    }
  }

  lemma BeginKeeps(m: Memo, key: string, now: int)
    requires EntriesOk(m, now) && StartsOk(m, now)
    ensures EntriesOk(Begun(m, key, now), now) && StartsOk(Begun(m, key, now), now)
  {
    PruneKeeps(m, now);
    var p := Pruned(m, now);
    if !Repeats(p, key, now) {
      StartKeepsEntries(p, key, now);
      StartKeepsStarts(p, key, now);
    }
  }

  lemma EndKeeps(m: Memo, c: nat, turn: Option<string>, now: int)
    requires EntriesOk(m, now) && StartsOk(m, now) && c < |m.claims| && m.claims[c].phase.InFlight?
    ensures EntriesOk(Ended(m, c, turn, now), now) && StartsOk(Ended(m, c, turn, now), now)
  {
    assert Holds(m, c, now);
    var m' := Ended(m, c, turn, now);
    forall d | 0 <= d < |m'.claims| && Holds(m', d, now)
      ensures m'.claims[d].key in m'.entries && m'.entries[m'.claims[d].key] == d
    {
      assert d != c ==> Holds(m, d, now);
    }
  }

  lemma StepKeeps(s: State, st: Step)
    requires Inv(s) && Enabled(s, st)
    ensures Inv(Apply(s, st))
  {
    match st
    case Tick(to) =>
      assert forall c :: 0 <= c < |s.memo.claims| && Holds(s.memo, c, to) ==> Holds(s.memo, c, s.now);
    case Begin(_, key) => BeginKeeps(s.memo, key, s.now);
    case End(c, turn) => EndKeeps(s.memo, c, turn, s.now);
  }

  lemma {:induction false} RunKeeps(ttl: nat, ss: seq<State>, steps: seq<Step>, i: nat)
    requires IsRun(ttl, ss, steps) && i < |ss|
    ensures Inv(ss[i])
  {
    if i > 0 {
      RunKeeps(ttl, ss, steps, i - 1);
      StepKeeps(ss[i - 1], steps[i - 1]);
    }
  }

  /** Under any callers, prunings and a clock that does not run back: one start per key is in flight, a failed
      one leaves no entry, and two starts of a key that both succeed are further apart than the time to live. */
  lemma StartsAreExclusive(ttl: nat, ss: seq<State>, steps: seq<Step>, i: nat, c: nat, d: nat)
    requires IsRun(ttl, ss, steps) && i < |ss| && c < d < |ss[i].memo.claims|
    requires ss[i].memo.claims[c].key == ss[i].memo.claims[d].key
    ensures !ss[i].memo.claims[c].phase.InFlight?
    ensures ss[i].memo.claims[c].phase.Accepted? ==>
              ss[i].memo.claims[d].begun - ss[i].memo.claims[c].phase.at > ss[i].memo.ttl
  {
    RunKeeps(ttl, ss, steps, i);
  }

  lemma FailedLeavesNoEntry(ttl: nat, ss: seq<State>, steps: seq<Step>, i: nat, key: string)
    requires IsRun(ttl, ss, steps) && i < |ss| && key in ss[i].memo.entries
    ensures ss[i].memo.entries[key] < |ss[i].memo.claims| && !ss[i].memo.claims[ss[i].memo.entries[key]].phase.Failed?
  {
    RunKeeps(ttl, ss, steps, i);
  }

  /** From the start to the expiry of an accepted claim, every caller of its key gets that claim, and so the
      same turn, and starts nothing. */
  lemma CallersShareTheTurn(ttl: nat, ss: seq<State>, steps: seq<Step>, i: nat, c: nat, caller: nat)
    requires IsRun(ttl, ss, steps) && i < |ss| && c < |ss[i].memo.claims| && Holds(ss[i].memo, c, ss[i].now)
    requires caller !in ss[i].callers
    ensures Enabled(ss[i], Begin(caller, ss[i].memo.claims[c].key))
    ensures var s := Apply(ss[i], Begin(caller, ss[i].memo.claims[c].key));
      caller in s.callers && s.callers[caller] == c && s.memo.claims == ss[i].memo.claims
  {
    RunKeeps(ttl, ss, steps, i);
    var s := ss[i];
    var key := s.memo.claims[c].key;
    assert key in s.memo.entries && s.memo.entries[key] == c;
    assert Repeats(Pruned(s.memo, s.now), key, s.now);
  }
}
