/** The life of one permission request (harness/internal/harnessapi/sink.go, consume.go, service.go, lifecycle.go):
    the runner that asks it, the consumer that records it, answers, expiry, reconcile and the stop, with
    crashes of the manager in between. `permMu` is the machine's `lock`. */
module Permissions {

  /** What the runner's list of waiting requests says about this one. */
  datatype Listing = Unborn | Pending | Gone

  /** A consumer that could not record the request's event stops. */
  datatype Consumer = Idle | Handling(isNew: bool) | Stopped

  /** Who holds `permMu`, and how far it is.
      `Took`: an answer or an expiry took the waiter. `Saved`: its decision is saved. `Told`: the resolution is
      written (or its write failed). `Recon`: reconcile handles a State frame that lists the request or not, and
      saw a saved decision or not. `ReconTook`: it took a waiter that is not listed. `ReconClear`: it recorded
      the resolution. `Sweep` and `SweepTook` are the stop. */
  datatype Lock =
    | Open
    | Took
    | Saved
    | Told
    | Recon(listed: bool, saw: bool)
    | ReconTook
    | ReconClear
    | Sweep
    | SweepTook

  /** The runner, and the State frames on their way to the consumer. */
  datatype Pod = Pod(runner: Listing, frames: seq<Listing>)

  /** The binding: is there a waiter and does its timer run, what does the consumer do, who holds `permMu`, and
      is it not stopped. */
  datatype Desk = Desk(waiter: bool, armed: bool, consumer: Consumer, lock: Lock, bound: bool)

  /** `recorded` and `resolved` are in the log, `saved` in the command table; `sent` and `everSaved` are what
      ever happened. */
  datatype Book = Book(recorded: bool, saved: bool, everSaved: bool, sent: bool, resolved: nat)

  /** `again`: the request entered the waiter map although it was resolved, or while an answer was in hand.
      `early`: a waiter was taken before its request was recorded. `revived`: a manager adopted the pod of a
      binding that had been stopped. `guessed`: reconcile let a request wait although it could not read whether
      it was recorded. */
  datatype State = State(pod: Pod, desk: Desk, book: Book, again: bool, early: bool, revived: bool, guessed: bool)

  function Init(): State {
    State(Pod(Unborn, []), Desk(false, false, Idle, Open, true), Book(false, false, false, false, 0),
          false, false, false, false)
  }

  datatype RunStep = Asks | Drops | StreamOpens | Handle | Record(ok: bool) | TurnEnds

  datatype AnswerStep = Take(byTimer: bool) | Save(saves: bool) | Tell(tells: bool) | Send

  datatype ReconStep =
    | Reconcile(clears: bool)
    | Await(readFails: bool)
    | TakeUnlisted
    | RecordEnd(ok: bool)
    | Clear(clears: bool)
    | Leave

  datatype StopStep = StopLocks | SweepTake | SweepTell(tells: bool) | SweepClear(clears: bool) | Crash

  datatype Step = Run(r: RunStep) | Answer(a: AnswerStep) | Reconciles(c: ReconStep) | Stop(p: StopStep)

  predicate Reconciling(l: Lock) {
    l.Recon? || l.ReconTook? || l.ReconClear?
  }

  // What the methods of the sink do to the waiter of this request.

  /** A new request waits unarmed. */
  function Register(d: Desk): Desk {
    d.(waiter := true, consumer := Handling(!d.waiter))
  }

  /** Once its event is recorded, the timer of a new request that still waits runs. */
  function Arm(d: Desk): Desk {
    if d.consumer == Handling(true) && d.waiter then d.(armed := true) else d
  }

  function Drop(d: Desk): Desk {
    if d.consumer == Handling(true) then TakeOut(d) else d
  }

  function TakeOut(d: Desk): Desk {
    d.(waiter := false, armed := false)
  }

  /** `restore` puts a waiter back with its timer, `reinstate` without; neither displaces another. */
  function PutBack(d: Desk, armed: bool): Desk {
    if d.waiter then d else d.(waiter := true, armed := armed)
  }

  function AwaitListed(d: Desk): Desk {
    PutBack(d, true)
  }

  /** The request is resolved, or an answer that will resolve it is in hand. */
  predicate Answering(l: Lock, resolved: nat) {
    resolved > 0 || l.Took? || l.Saved?
  }

  predicate RunEnabled(s: State, st: RunStep) {
    match st
    case Asks => s.pod.runner.Unborn?
    case Drops => s.pod.runner.Pending?
    case StreamOpens => s.desk.bound
    case Handle =>
      && s.desk.bound && s.desk.consumer.Idle? && !Reconciling(s.desk.lock)
      && !s.book.recorded && !s.pod.runner.Unborn? && Unborn !in s.pod.frames
    case Record(_) => s.desk.consumer.Handling?
    case TurnEnds =>
      && s.desk.bound && s.desk.consumer.Idle? && !Reconciling(s.desk.lock)
      && s.book.recorded && s.pod.runner.Gone? && Pending !in s.pod.frames && Unborn !in s.pod.frames
  }

  function RunApply(s: State, st: RunStep): State
    requires RunEnabled(s, st)
  {
    match st
    case Asks => s.(pod := s.pod.(runner := Pending))
    case Drops => s.(pod := s.pod.(runner := Gone))
    case StreamOpens => s.(pod := s.pod.(frames := s.pod.frames + [s.pod.runner]))
    case Handle =>
      s.(desk := Register(s.desk), again := s.again || (!s.desk.waiter && Answering(s.desk.lock, s.book.resolved)))
    case Record(ok) =>
      if ok then s.(book := s.book.(recorded := true), desk := Arm(s.desk).(consumer := Idle))
      else s.(desk := Drop(s.desk).(consumer := Stopped))
    case TurnEnds => s.(book := s.book.(saved := false))
  }

  predicate AnswerEnabled(d: Desk, st: AnswerStep) {
    match st
    case Take(byTimer) => d.lock.Open? && d.waiter && (byTimer ==> d.armed && d.bound)
    case Save(_) => d.lock.Took?
    case Tell(_) => d.lock.Saved?
    case Send => d.lock.Told?
  }

  function Resolve(b: Book, ok: bool): Book {
    if ok then b.(resolved := b.resolved + 1) else b
  }

  /** RespondPermission and `expirePermission`: take, save, write the resolution, send the decision; a decision
      that cannot be saved puts the waiter back. */
  function AnswerApply(s: State, st: AnswerStep): State
    requires AnswerEnabled(s.desk, st)
  {
    match st
    case Take(_) => s.(desk := TakeOut(s.desk).(lock := Took), early := s.early || !s.book.recorded)
    case Save(ok) =>
      if ok then s.(book := s.book.(saved := true, everSaved := true), desk := s.desk.(lock := Saved))
      else s.(desk := PutBack(s.desk, true).(lock := Open))
    case Tell(ok) => s.(book := Resolve(s.book, ok), desk := s.desk.(lock := Told))
    case Send => s.(book := s.book.(sent := true), desk := s.desk.(lock := Open))
  }

  predicate ReconEnabled(s: State, st: ReconStep) {
    match st
    case Reconcile(_) => s.desk.bound && s.desk.lock.Open? && s.desk.consumer.Idle? && s.pod.frames != []
    case Await(readFails) => s.desk.lock == Recon(true, false) && !s.desk.waiter && (s.book.recorded || readFails)
    case TakeUnlisted => s.desk.lock.Recon? && !s.desk.lock.listed && s.desk.waiter
    case RecordEnd(_) => s.desk.lock.ReconTook?
    case Clear(_) => s.desk.lock.ReconClear?
    case Leave => s.desk.lock.Recon? && (s.desk.waiter ==> s.desk.lock.listed)
  }

  /** `reconcileState`: a saved decision of a listed request is sent again, of any other dropped; a listed and
      recorded request without either waits again; a waiter that is not listed is resolved. */
  function ReconApply(s: State, st: ReconStep): State
    requires ReconEnabled(s, st)
  {
    match st
    case Reconcile(clears) =>
      var listed := s.pod.frames[0].Pending?;
      s.(pod := s.pod.(frames := s.pod.frames[1..]), desk := s.desk.(lock := Recon(listed, s.book.saved)),
         book := s.book.(saved := s.book.saved && (listed || !clears), sent := s.book.sent || (s.book.saved && listed)))
    case Await(_) =>
      s.(desk := AwaitListed(s.desk), again := s.again || s.book.resolved > 0, guessed := s.guessed || !s.book.recorded)
    case TakeUnlisted => s.(desk := TakeOut(s.desk).(lock := ReconTook), early := s.early || !s.book.recorded)
    case RecordEnd(ok) =>
      if ok then s.(book := Resolve(s.book, true), desk := s.desk.(lock := ReconClear))
      else s.(desk := PutBack(s.desk, false).(lock := Open))
    case Clear(clears) => s.(book := s.book.(saved := s.book.saved && !clears), desk := s.desk.(lock := Open))
    case Leave => s.(desk := s.desk.(lock := Open))
  }

  predicate StopEnabled(d: Desk, st: StopStep) {
    match st
    case StopLocks => d.bound && d.lock.Open? && !d.consumer.Handling?
    case SweepTake => d.lock.Sweep? && d.waiter
    case SweepTell(_) => d.lock.SweepTook?
    case SweepClear(_) => d.lock.Sweep? && !d.waiter
    case Crash => true
  }

  function StopApply(s: State, st: StopStep): State
    requires StopEnabled(s.desk, st)
  {
    match st
    case StopLocks => s.(desk := s.desk.(bound := false, lock := Sweep))
    case SweepTake => s.(desk := TakeOut(s.desk).(lock := SweepTook), early := s.early || !s.book.recorded)
    case SweepTell(ok) => s.(book := Resolve(s.book, ok), desk := s.desk.(lock := Sweep))
    case SweepClear(clears) => s.(book := s.book.(saved := s.book.saved && !clears), desk := s.desk.(lock := Open))
    case Crash =>
      s.(pod := s.pod.(frames := []), desk := Desk(false, false, Idle, Open, true),
         revived := s.revived || !s.desk.bound)
  }

  predicate Enabled(s: State, st: Step) {
    match st
    case Run(r) => RunEnabled(s, r)
    case Answer(a) => AnswerEnabled(s.desk, a)
    case Reconciles(c) => ReconEnabled(s, c)
    case Stop(p) => StopEnabled(s.desk, p)
  }

  function Apply(s: State, st: Step): State
    requires Enabled(s, st)
  {
    match st
    case Run(r) => RunApply(s, r)
    case Answer(a) => AnswerApply(s, a)
    case Reconciles(c) => ReconApply(s, c)
    case Stop(p) => StopApply(s, p)
  }

  ghost predicate IsRun(ss: seq<State>, steps: seq<Step>) {
    && |ss| == |steps| + 1
    && ss[0] == Init()
    && forall i :: 0 <= i < |steps| ==> Enabled(ss[i], steps[i]) && ss[i + 1] == Apply(ss[i], steps[i])
  }

  // ------------------------------------------------------------------ invariant

  function Age(l: Listing): nat {
    match l case Unborn => 0 case Pending => 1 case Gone => 2
  }

  /** The runner will never be seen to list the request again. */
  predicate Unlisted(p: Pod) {
    p.runner.Gone? && Pending !in p.frames
  }

  /** State frames show the runner's list as it develops. */
  ghost predicate PodOk(p: Pod) {
    && (forall i, j :: 0 <= i < j < |p.frames| ==> Age(p.frames[i]) <= Age(p.frames[j]))
    && (forall i :: 0 <= i < |p.frames| ==> Age(p.frames[i]) <= Age(p.runner))
  }

  /** The request's own event comes behind every frame from before it was asked. */
  ghost predicate EventOk(p: Pod, d: Desk, recorded: bool) {
    && (Unborn in p.frames ==> !recorded && !d.consumer.Handling?)
    && (recorded || d.consumer.Handling? ==> !p.runner.Unborn?)
    && (d.consumer.Handling? ==> !recorded && !Reconciling(d.lock) && d.bound)
    && (d.lock.Sweep? || d.lock.SweepTook? ==> !d.bound)
  }

  ghost predicate SavedOk(lock: Lock, b: Book) {
    && (b.saved || lock.Saved? || lock.Told? || b.sent ==> b.everSaved)
    && (lock.Recon? && lock.saw ==> b.everSaved)
  }

  /** What `permMu` protects. */
  ghost predicate LockOk(p: Pod, d: Desk, b: Book) {
    match d.lock
    case Open => !d.bound ==> !d.waiter
    case Took => b.recorded && !d.waiter && !b.saved && b.resolved == 0 && d.bound
    case Saved => b.recorded && !d.waiter && b.resolved == 0 && d.bound && (b.saved || Unlisted(p))
    case Told => b.recorded && !d.waiter && d.bound && (b.saved || Unlisted(p))
    case Recon(listed, saw) =>
      && d.bound
      && (listed && !saw ==> b.resolved == 0 && !b.saved)
      && (!listed && b.recorded ==> Unlisted(p))
    case ReconTook => b.recorded && !d.waiter && !b.saved && b.resolved == 0 && d.bound && Unlisted(p)
    case ReconClear => b.recorded && !d.waiter && d.bound && Unlisted(p)
    case Sweep => !d.bound
    case SweepTook => b.recorded && !d.waiter && b.resolved == 0 && !d.bound
  }

  ghost predicate BookOk(p: Pod, d: Desk, b: Book) {
    && b.resolved <= 1
    && (d.waiter ==> b.resolved == 0 && !b.saved)
    && (b.saved ==> b.recorded)
    && (b.resolved == 1 ==> b.recorded && (b.saved || Unlisted(p) || !d.bound))
  }

  /** A resolution is due: the request waits, or somebody took its waiter to resolve it. */
  predicate Due(d: Desk) {
    d.waiter || d.lock.Took? || d.lock.Saved? || d.lock.ReconTook? || d.lock.SweepTook?
  }

  /** Without a second entry a resolution is due only once, and not after one was written. */
  ghost predicate EntryOk(d: Desk, resolved: nat, again: bool) {
    !again ==>
      && resolved <= 1
      && (Due(d) ==> resolved == 0)
      && (d.waiter ==> !d.lock.Took? && !d.lock.Saved? && !d.lock.ReconTook? && !d.lock.SweepTook?)
  }

  /** A timer runs only for a waiting request, and only behind its record unless reconcile guessed. */
  ghost predicate TimerOk(d: Desk, recorded: bool, early: bool, guessed: bool) {
    && (d.armed ==> d.waiter)
    && (d.armed ==> recorded || early || guessed)
    && (d.lock.Took? || d.lock.Saved? || d.lock.Told? ==> recorded || early)
  }

  /** The part that holds of every run. */
  ghost predicate BaseInv(s: State) {
    && PodOk(s.pod) && EventOk(s.pod, s.desk, s.book.recorded) && SavedOk(s.desk.lock, s.book)
    && EntryOk(s.desk, s.book.resolved, s.again)
    && TimerOk(s.desk, s.book.recorded, s.early, s.guessed)
    && (s.book.saved ==> s.book.recorded || s.early)
  }

  ghost predicate OnceInv(s: State) {
    LockOk(s.pod, s.desk, s.book) && BookOk(s.pod, s.desk, s.book)
  }

  ghost predicate Inv(s: State) {
    BaseInv(s) && (!s.early && !s.revived ==> OnceInv(s) && !s.again)
  }

  lemma RunnerKeepsInv(s: State, st: RunStep)
    requires Inv(s) && RunEnabled(s, st) && (st.Asks? || st.Drops? || st.StreamOpens?)
    ensures Inv(RunApply(s, st))
  {
    assert st.StreamOpens? ==>
        forall l :: l in s.pod.frames + [s.pod.runner] <==> l in s.pod.frames || l == s.pod.runner;
  }

  lemma HandleKeepsInv(s: State, st: RunStep)
    requires Inv(s) && RunEnabled(s, st) && (st.Handle? || st.Record?)
    ensures Inv(RunApply(s, st))
  {
  }

  lemma TurnEndsKeepsInv(s: State)
    requires Inv(s) && RunEnabled(s, TurnEnds)
    ensures Inv(RunApply(s, TurnEnds))
  {
  }

  lemma AnswerKeepsInv(s: State, st: AnswerStep)
    requires Inv(s) && AnswerEnabled(s.desk, st)
    ensures Inv(AnswerApply(s, st))
  {
  }

  lemma FramesAfterGone(p: Pod)
    requires PodOk(p) && p.frames != [] && p.frames[0].Gone?
    ensures p.runner.Gone? && forall l :: l in p.frames ==> l.Gone?
  {
    assert Age(p.frames[0]) <= Age(p.runner);
    assert forall j :: 0 < j < |p.frames| ==> Age(p.frames[0]) <= Age(p.frames[j]);
  }

  lemma ReconcileKeepsInv(s: State, clears: bool)
    requires Inv(s) && ReconEnabled(s, Reconcile(clears))
    ensures Inv(ReconApply(s, Reconcile(clears)))
  {
    var f := s.pod.frames[0];
    assert f in s.pod.frames;
    assert forall l :: l in s.pod.frames[1..] ==> l in s.pod.frames;
    if f.Gone? {
      FramesAfterGone(s.pod);
    }
  }

  lemma ReconKeepsInv(s: State, st: ReconStep)
    requires Inv(s) && ReconEnabled(s, st) && !st.Reconcile?
    ensures Inv(ReconApply(s, st))
  {
  }

  lemma StopKeepsInv(s: State, st: StopStep)
    requires Inv(s) && StopEnabled(s.desk, st)
    ensures Inv(StopApply(s, st))
  {
  }

  lemma StepKeeps(s: State, st: Step)
    requires Inv(s) && Enabled(s, st)
    ensures Inv(Apply(s, st))
  {
    match st
    case Run(r) =>
      if r.TurnEnds? {
        TurnEndsKeepsInv(s);
      } else if r.Handle? || r.Record? {
        HandleKeepsInv(s, r);
      } else {
        RunnerKeepsInv(s, r);
      }
    case Answer(a) => AnswerKeepsInv(s, a);
    case Reconciles(c) =>
      if c.Reconcile? {
        ReconcileKeepsInv(s, c.clears);
      } else {
        ReconKeepsInv(s, c);
      }
    case Stop(p) => StopKeepsInv(s, p);
  }

  lemma {:induction false} RunKeeps(ss: seq<State>, steps: seq<Step>, i: nat)
    requires IsRun(ss, steps) && i < |ss|
    ensures Inv(ss[i])
  {
    if i > 0 {
      RunKeeps(ss, steps, i - 1);
      StepKeeps(ss[i - 1], steps[i - 1]);
    }
  }

  /** Over all races of answer, expiry, reconcile and stop, and over crashes, a request that never enters the
      waiter map again after it was resolved, or while it is being answered, gets at most one
      PermissionResolved, and none is due any more once it has one. */
  lemma AtMostOneResolution(ss: seq<State>, steps: seq<Step>, i: nat)
    requires IsRun(ss, steps) && i < |ss| && !ss[i].again
    ensures ss[i].book.resolved <= 1
    ensures Due(ss[i].desk) ==> ss[i].book.resolved == 0
  {
    RunKeeps(ss, steps, i);
  }

  /** A request enters again only if a waiter was taken before its request was recorded, or a stopped binding's
      pod was adopted; in all other runs a resolved request is recorded, and one with a saved decision never
      waits. */
  lemma OnlyTwoWaysBackIn(ss: seq<State>, steps: seq<Step>, i: nat)
    requires IsRun(ss, steps) && i < |ss| && !ss[i].early && !ss[i].revived
    ensures !ss[i].again && ss[i].book.resolved <= 1
    ensures ss[i].desk.waiter ==> !ss[i].book.saved
    ensures ss[i].book.resolved == 1 ==> ss[i].book.recorded
  {
    RunKeeps(ss, steps, i);
  }

  /** Nothing expires before its request is recorded, unless reconcile could not read the log or the request was
      taken early. */
  lemma TimerRunsBehindRecord(ss: seq<State>, steps: seq<Step>, i: nat)
    requires IsRun(ss, steps) && i < |ss| && AnswerEnabled(ss[i].desk, Take(true))
    ensures ss[i].book.recorded || ss[i].early || ss[i].guessed
  {
    RunKeeps(ss, steps, i);
  }

  // ------------------------------------------------------------------ when a further resolution is possible

  ghost predicate IsPath(ss: seq<State>, steps: seq<Step>) {
    && |ss| == |steps| + 1
    && forall i :: 0 <= i < |steps| ==> Enabled(ss[i], steps[i]) && ss[i + 1] == Apply(ss[i], steps[i])
  }

  /** The step does not let the request into the waiter map. */
  predicate NoEntry(st: Step) {
    st != Run(Handle) && st != Reconciles(Await(true)) && st != Reconciles(Await(false))
  }

  /** A further resolution can be written before the request enters the waiter map again. */
  ghost predicate CanResolve(s: State) {
    exists ss: seq<State>, steps: seq<Step> ::
      && IsPath(ss, steps) && ss[0] == s && (forall k :: 0 <= k < |steps| ==> NoEntry(steps[k]))
      && ss[|ss| - 1].book.resolved > s.book.resolved
  }

  /** Nothing has become due and nothing was resolved. */
  predicate StillNothingDue(s: State, t: State) {
    !Due(t.desk) && t.book.resolved == s.book.resolved
  }

  lemma RunLeavesNothingDue(s: State, st: RunStep)
    requires RunEnabled(s, st) && !Due(s.desk) && !st.Handle?
    ensures StillNothingDue(s, RunApply(s, st))
  {
  }

  lemma AnswerLeavesNothingDue(s: State, st: AnswerStep)
    requires AnswerEnabled(s.desk, st) && !Due(s.desk)
    ensures StillNothingDue(s, AnswerApply(s, st))
  {
  }

  lemma ReconLeavesNothingDue(s: State, st: ReconStep)
    requires ReconEnabled(s, st) && !Due(s.desk) && !st.Await?
    ensures StillNothingDue(s, ReconApply(s, st))
  {
  }

  lemma StopLeavesNothingDue(s: State, st: StopStep)
    requires StopEnabled(s.desk, st) && !Due(s.desk)
    ensures StillNothingDue(s, StopApply(s, st))
  {
  }

  lemma NothingDueStays(s: State, st: Step)
    requires Enabled(s, st) && !Due(s.desk) && NoEntry(st)
    ensures StillNothingDue(s, Apply(s, st))
  {
    match st
    case Run(r) => RunLeavesNothingDue(s, r);
    case Answer(a) => AnswerLeavesNothingDue(s, a);
    case Reconciles(c) => ReconLeavesNothingDue(s, c);
    case Stop(p) => StopLeavesNothingDue(s, p);
  }

  lemma {:induction false} NothingDueLasts(ss: seq<State>, steps: seq<Step>, i: nat)
    requires IsPath(ss, steps) && i < |ss| && !Due(ss[0].desk) && forall k :: 0 <= k < |steps| ==> NoEntry(steps[k])
    ensures !Due(ss[i].desk) && ss[i].book.resolved == ss[0].book.resolved
  {
    if i > 0 {
      NothingDueLasts(ss, steps, i - 1);
      NothingDueStays(ss[i - 1], steps[i - 1]);
      assert ss[i - 1 + 1] == Apply(ss[i - 1], steps[i - 1]);
    }
  }

  /** One step towards a resolution: whoever holds `permMu` goes on, or the waiter is answered. */
  function Towards(d: Desk): Step
    requires Due(d)
  {
    match d.lock
    case Took => Answer(Save(true))
    case Saved => Answer(Tell(true))
    case Told => Answer(Send)
    case Recon(listed, _) => if listed || !d.waiter then Reconciles(Leave) else Reconciles(TakeUnlisted)
    case ReconTook => Reconciles(RecordEnd(true))
    case ReconClear => Reconciles(Clear(true))
    case Sweep => if d.waiter then Stop(SweepTake) else Stop(SweepClear(true))
    case SweepTook => Stop(SweepTell(true))
    case Open => Answer(Take(false))
  }

  /** How far it is. */
  function Distance(d: Desk): nat {
    match d.lock
    case Saved => 1
    case ReconTook => 1
    case SweepTook => 1
    case Took => 2
    case Sweep => 2
    case Open => 3
    case Told => 4
    case ReconClear => 4
    case Recon(listed, _) => if listed then 4 else 2
  }

  lemma TowardsWorks(s: State)
    requires Due(s.desk)
    ensures Enabled(s, Towards(s.desk)) && NoEntry(Towards(s.desk))
    ensures var t := Apply(s, Towards(s.desk));
      t.book.resolved > s.book.resolved ||
        (t.book.resolved == s.book.resolved && Due(t.desk) && Distance(t.desk) < Distance(s.desk))
  {
  }

  lemma PathCons(s: State, st: Step, ss: seq<State>, steps: seq<Step>)
    requires Enabled(s, st) && NoEntry(st) && IsPath(ss, steps) && ss[0] == Apply(s, st)
    requires forall k :: 0 <= k < |steps| ==> NoEntry(steps[k])
    ensures IsPath([s] + ss, [st] + steps) && forall k :: 0 <= k < |[st] + steps| ==> NoEntry(([st] + steps)[k])
  {
  }

  lemma {:induction false} DueResolves(s: State)
    requires Due(s.desk)
    ensures CanResolve(s)
    decreases Distance(s.desk)
  {
    TowardsWorks(s);
    var st := Towards(s.desk);
    var t := Apply(s, st);
    if t.book.resolved > s.book.resolved {
      PathCons(s, st, [t], []);
      assert ([s] + [t])[|[s] + [t]| - 1] == t;
    } else {
      DueResolves(t);
      var ss: seq<State>, steps: seq<Step> :|
        && IsPath(ss, steps) && ss[0] == t && (forall k :: 0 <= k < |steps| ==> NoEntry(steps[k]))
        && ss[|ss| - 1].book.resolved > t.book.resolved;
      PathCons(s, st, ss, steps);
      assert ([s] + ss)[|[s] + ss| - 1] == ss[|ss| - 1];
    }
  }

  /** A further resolution is possible without a new entry if and only if one is due; so a request that has its
      resolution gets a second one exactly when it enters the waiter map again. */
  lemma FurtherResolutionIff(s: State)
    ensures CanResolve(s) <==> Due(s.desk)
  {
    if Due(s.desk) {
      DueResolves(s);
    } else if CanResolve(s) {
      var ss: seq<State>, steps: seq<Step> :|
        && IsPath(ss, steps) && ss[0] == s && (forall k :: 0 <= k < |steps| ==> NoEntry(steps[k]))
        && ss[|ss| - 1].book.resolved > s.book.resolved;
      NothingDueLasts(ss, steps, |ss| - 1);
      assert false;
    }
  }

  /** No decision goes to the runner that was not saved first. */
  lemma SavedBeforeSent(ss: seq<State>, steps: seq<Step>, i: nat)
    requires IsRun(ss, steps) && i < |ss|
    ensures ss[i].book.sent ==> ss[i].book.everSaved
  {
    RunKeeps(ss, steps, i);
  }

  // ------------------------------------------------------------------ both ways back in are real

  ghost predicate Reachable(s: State) {
    exists ss: seq<State>, steps: seq<Step> :: IsRun(ss, steps) && ss[|ss| - 1] == s
  }

  lemma ReachStep(s: State, st: Step)
    requires Reachable(s) && Enabled(s, st)
    ensures Reachable(Apply(s, st))
  {
    var ss: seq<State>, steps: seq<Step> :| IsRun(ss, steps) && ss[|ss| - 1] == s;
    assert IsRun(ss + [Apply(s, st)], steps + [st]);
  }

  /** The book after an answer. */
  function Answered(b: Book): Book {
    b.(saved := true, everSaved := true, sent := true, resolved := b.resolved + 1)
  }

  lemma ReachAnswer(s: State)
    requires Reachable(s) && s.desk.lock.Open? && s.desk.waiter
    ensures Reachable(s.(desk := TakeOut(s.desk), book := Answered(s.book), early := s.early || !s.book.recorded))
  {
    ReachStep(s, Answer(Take(false)));
    var s1 := AnswerApply(s, Take(false));
    ReachStep(s1, Answer(Save(true)));
    var s2 := AnswerApply(s1, Save(true));
    ReachStep(s2, Answer(Tell(true)));
    var s3 := AnswerApply(s2, Tell(true));
    ReachStep(s3, Answer(Send));
  }

  /** A desk nobody works at. */
  function Quiet(waiter: bool, armed: bool, consumer: Consumer): Desk {
    Desk(waiter, armed, consumer, Open, true)
  }

  /** The request is asked and registered, and its event is not recorded yet. */
  function Registered(): State {
    State(Pod(Pending, []), Quiet(true, false, Handling(true)), Book(false, false, false, false, 0),
          false, false, false, false)
  }

  lemma ReachRegistered()
    ensures Reachable(Registered())
  {
    assert IsRun([Init()], []);
    ReachStep(Init(), Run(Asks));
    ReachStep(RunApply(Init(), Asks), Run(Handle));
  }

  /** A request that is answered before its event is recorded enters the waiter map again, saved decision or
      not, when the manager crashes before the record and its successor is sent the event again; it can then be
      resolved a second time. */
  lemma EarlyAnswerResolvesTwice()
    ensures exists s: State :: Reachable(s) && s.early && !s.revived && s.again && s.book.resolved == 2
  {
    ReachRegistered();
    ReachAnswer(Registered());
    var book := Book(false, true, true, true, 1);
    var t := State(Pod(Pending, []), Quiet(false, false, Handling(true)), book, false, true, false, false);
    ReachStep(t, Stop(Crash));
    var u := t.(desk := Quiet(false, false, Idle));
    ReachStep(u, Run(Handle));
    var v := u.(desk := Quiet(true, false, Handling(true)), again := true);
    ReachStep(v, Run(Record(true)));
    var w := v.(desk := Quiet(true, true, Idle), book := Book(true, true, true, true, 1));
    ReachAnswer(w);
    assert Reachable(w.(desk := TakeOut(w.desk), book := Answered(w.book), early := true));
  }

  /** A recorded request whose binding was stopped, under a manager that adopted the pod again. */
  function Adopted(waiting: bool): State {
    State(Pod(Pending, []), Quiet(waiting, waiting, Idle), Book(true, false, false, false, 1),
          waiting, false, true, false)
  }

  lemma ReachAdopted()
    ensures Reachable(Adopted(false))
  {
    ReachRegistered();
    ReachStep(Registered(), Run(Record(true)));
    var t := Registered().(desk := Quiet(true, true, Idle), book := Book(true, false, false, false, 0));
    ReachStep(t, Stop(StopLocks));
    var u := t.(desk := Desk(true, true, Idle, Sweep, false));
    ReachStep(u, Stop(SweepTake));
    var v := u.(desk := Desk(false, false, Idle, SweepTook, false));
    ReachStep(v, Stop(SweepTell(true)));
    ReachStep(StopApply(v, SweepTell(true)), Stop(Crash));
  }

  lemma ReachAwaited()
    requires Reachable(Adopted(false))
    ensures Reachable(Adopted(true))
  {
    var s := Adopted(false);
    ReachStep(s, Run(StreamOpens));
    assert s.pod.frames + [Pending] == [Pending];
    var t := s.(pod := Pod(Pending, [Pending]));
    ReachStep(t, Reconciles(Reconcile(true)));
    assert t.pod.frames[1..] == [];
    var u := s.(desk := s.desk.(lock := Recon(true, false)));
    ReachStep(u, Reconciles(Await(false)));
    ReachStep(ReconApply(u, Await(false)), Reconciles(Leave));
  }

  /** A stop resolves what waits and clears the saved decisions; if the pod survives it and a restarted
      manager adopts it, the request waits again and can be resolved twice. */
  lemma AdoptedAfterStopResolvesTwice()
    ensures exists s: State :: Reachable(s) && !s.early && s.revived && s.again && s.book.resolved == 2
  {
    ReachAdopted();
    ReachAwaited();
    var s := Adopted(true);
    ReachAnswer(s);
    assert Reachable(s.(desk := TakeOut(s.desk), book := Answered(s.book), early := false));
  }
}
