/**
  A scheduled finish: claimed and run by any number of schedulers, any of which
  may stop at any point, and settled afterwards against the ledger and the audit
  log. A submission left without a verdict may still be accepted until it expires.
 */
module FinishSchedule {
  import opened Common

  type ProcId = nat

  const NOTICE := 24 * 60 * 60 * 1000
  const EXPIRY_MARGIN := 60 * 1000

  datatype Status = Scheduled | Running | Finished | Refused | Cancelled

  datatype Schedule = Schedule(status: Status, finishAt: int, noticed: bool)

  datatype Outcome = Pending | Settled | Rejected | Failed

  /** A submission's audit row, written before it is signed; `expires` is what the command itself says. */
  datatype Audit = Audit(outcome: Outcome, recordedAt: int, expires: int)

  /** What became of a submission: not sent (or not yet), sent, accepted, refused. */
  datatype Fate = Unsent | InFlight | Accepted | Turned

  datatype EventStatus = Selling | SealedEvent | OffEvent | FinishedEvent

  /** Where a scheduler that holds the run lock is. */
  datatype Proc =
    | Locked                     // it has taken the lock
    | Claimed                    // it has set the schedule running
    | Signing(entry: nat)        // its submission is audited
    | Waiting(entry: nat)        // its submission is sent
    | Recorded(entry: nat)       // the audit row has the verdict
    | Reading                    // it found the schedule left running
    | Unfinished                 // the ledger did not have the event finished
    | Stale(at: int)             // nothing audited can land any more

  datatype State = State(
    now: int,
    ledgerClock: int,
    lifetime: nat,
    event: EventStatus,
    schedule: Option<Schedule>,
    audit: seq<Audit>,
    fates: seq<Fate>,
    lock: Option<ProcId>,
    procs: map<ProcId, Proc>)

  predicate Init(s: State) {
    && s.schedule.None? && s.audit == [] && s.fates == [] && s.lock.None? && s.procs == map[]
    && s.now - EXPIRY_MARGIN < s.ledgerClock
  }

  // ----- What happens -----

  datatype Step =
    | Tick(now: int, ledgerClock: int)
    | EventMoves(to: EventStatus)
    | Set(finishAt: int)
    | Cancel
    | Notice
    | TakeLock(p: ProcId)
    | Claim(p: ProcId, at: int)
    | RefuseEarly(p: ProcId)
    | WriteAudit(p: ProcId, expires: int)
    | Send(p: ProcId)
    | Accept(i: nat)
    | Turn(i: nat)
    | Verdict(p: ProcId, outcome: Outcome)
    | Conclude(p: ProcId)
    | FindRunning(p: ProcId)
    | AskLedger(p: ProcId)
    | FindRejected(p: ProcId)
    | FindStale(p: ProcId)
    | Resume(p: ProcId)
    | Leave(p: ProcId)

  predicate At(s: State, p: ProcId, proc: Proc) {
    p in s.procs && s.procs[p] == proc
  }

  predicate StatusIs(s: State, status: Status) {
    s.schedule.Some? && s.schedule.value.status == status
  }

  predicate Open(event: EventStatus) {
    event.Selling? || event.SealedEvent?
  }

  /** The submission may still be accepted: it is sent, or about to be, and the ledger takes it for current. */
  predicate MayLand(s: State, i: nat)
    requires i < |s.audit| && |s.fates| == |s.audit|
  {
    && Open(s.event) && s.ledgerClock <= s.audit[i].expires
    && (s.fates[i].InFlight? || (s.fates[i].Unsent? && exists p | p in s.procs :: s.procs[p] == Signing(i)))
  }

  predicate Stuck(s: State, i: nat, at: int)
    requires i < |s.audit|
  {
    (s.audit[i].outcome.Pending? || s.audit[i].outcome.Failed?) && s.audit[i].recordedAt + s.lifetime + EXPIRY_MARGIN > at
  }

  predicate AnyRejected(s: State) {
    exists i | 0 <= i < |s.audit| :: s.audit[i].outcome.Rejected?
  }

  predicate CanStep(s: State, step: Step)
    requires |s.fates| == |s.audit|
  {
    match step
    case Tick(now, ledgerClock) =>
      // Clocks never go back, and the ledger's runs less than the margin behind Kippu's.
      s.now <= now && s.ledgerClock <= ledgerClock && now - EXPIRY_MARGIN < ledgerClock
    case EventMoves(to) => Open(s.event) && !to.Selling?
    // The ledger had the event open when it was asked, which may be over by now.
    case Set(finishAt) =>
      s.now < finishAt
      && (s.schedule.None? || (!s.schedule.value.status.Running? && !s.schedule.value.status.Finished?))
    case Cancel => StatusIs(s, Scheduled)
    case Notice => StatusIs(s, Scheduled) && !s.schedule.value.noticed && s.schedule.value.finishAt - NOTICE <= s.now
    case TakeLock(p) => s.lock.None? && p !in s.procs
    case Claim(p, at) =>
      At(s, p, Locked) && StatusIs(s, Scheduled) && s.schedule.value.noticed && s.schedule.value.finishAt <= at <= s.now
    case RefuseEarly(p) => At(s, p, Claimed) && s.schedule.Some?
    case WriteAudit(p, expires) => At(s, p, Claimed) && expires <= s.now + s.lifetime
    case Send(p) => p in s.procs && s.procs[p].Signing? && s.procs[p].entry < |s.fates|
    case Accept(i) => i < |s.audit| && s.fates[i].InFlight? && MayLand(s, i)
    case Turn(i) => i < |s.fates| && s.fates[i].InFlight?
    case Verdict(p, outcome) =>
      p in s.procs && s.procs[p].Waiting? && s.procs[p].entry < |s.fates|
      && !outcome.Pending?
      && (outcome.Settled? ==> s.fates[s.procs[p].entry].Accepted?)
      && (outcome.Rejected? ==> s.fates[s.procs[p].entry].Turned?)
    case Conclude(p) =>
      p in s.procs && s.procs[p].Recorded? && s.procs[p].entry < |s.audit| && s.schedule.Some?
      && (s.audit[s.procs[p].entry].outcome.Settled? || s.audit[s.procs[p].entry].outcome.Rejected?)
    case FindRunning(p) => At(s, p, Locked) && StatusIs(s, Running)
    case AskLedger(p) => At(s, p, Reading) && s.schedule.Some?
    case FindRejected(p) => At(s, p, Unfinished) && AnyRejected(s) && s.schedule.Some?
    case FindStale(p) => At(s, p, Unfinished) && !AnyRejected(s) && forall i | 0 <= i < |s.audit| :: !Stuck(s, i, s.now)
    case Resume(p) => p in s.procs && s.procs[p].Stale? && s.schedule.Some?
    case Leave(p) => p in s.procs
  }

  function Released(s: State, p: ProcId): State {
    s.(lock := None, procs := s.procs - {p})
  }

  function WithStatus(s: State, status: Status): State
    requires s.schedule.Some?
  {
    s.(schedule := Some(s.schedule.value.(status := status)))
  }

  function Become(s: State, p: ProcId, proc: Proc): State {
    s.(procs := s.procs[p := proc])
  }

  function Do(s: State, step: Step): State
    requires |s.fates| == |s.audit| && CanStep(s, step)
  {
    match step
    case Tick(now, ledgerClock) => s.(now := now, ledgerClock := ledgerClock)
    case EventMoves(to) => s.(event := to)
    case Set(finishAt) => s.(schedule := Some(Schedule(Scheduled, finishAt, false)))
    case Cancel => WithStatus(s, Cancelled)
    case Notice => s.(schedule := Some(s.schedule.value.(noticed := true)))
    case TakeLock(p) => Become(s, p, Locked).(lock := Some(p))
    case Claim(p, _) => Become(WithStatus(s, Running), p, Claimed)
    // Refused before anything is signed.
    case RefuseEarly(p) => Released(WithStatus(s, Refused), p)
    case WriteAudit(p, expires) =>
      Become(s, p, Signing(|s.audit|)).(audit := s.audit + [Audit(Pending, s.now, expires)], fates := s.fates + [Unsent])
    case Send(p) => Become(s, p, Waiting(s.procs[p].entry)).(fates := s.fates[s.procs[p].entry := InFlight])
    case Accept(i) => s.(event := FinishedEvent, fates := s.fates[i := Accepted])
    case Turn(i) => s.(fates := s.fates[i := Turned])
    case Verdict(p, outcome) =>
      var i := s.procs[p].entry;
      Become(s, p, Recorded(i)).(audit := s.audit[i := s.audit[i].(outcome := outcome)])
    case Conclude(p) =>
      Released(WithStatus(s, if s.audit[s.procs[p].entry].outcome.Settled? then Finished else Refused), p)
    case FindRunning(p) => Become(s, p, Reading)
    case AskLedger(p) =>
      if s.event.FinishedEvent? then Released(WithStatus(s, Finished), p) else Become(s, p, Unfinished)
    case FindRejected(p) => Released(WithStatus(s, Refused), p)
    case FindStale(p) => Become(s, p, Stale(s.now))
    case Resume(p) => Released(WithStatus(s, Scheduled), p)
    // Done without a change, left for a later pass, or stopped: the lock goes with it.
    case Leave(p) => Released(s, p)
  }

  // ----- What every step keeps -----

  ghost predicate ProcsOk(s: State)
    requires |s.fates| == |s.audit|
  {
    && (forall p | p in s.procs :: s.lock == Some(p))
    && (s.lock.Some? ==> s.lock.value in s.procs)
    && (forall p | p in s.procs && !s.procs[p].Locked? :: StatusIs(s, Running))
    && (forall p | p in s.procs && s.procs[p].Signing? ::
          s.procs[p].entry == |s.audit| - 1 && s.fates[s.procs[p].entry].Unsent? && s.audit[s.procs[p].entry].outcome.Pending?)
    && (forall p | p in s.procs && s.procs[p].Waiting? ::
          s.procs[p].entry == |s.audit| - 1 && s.audit[s.procs[p].entry].outcome.Pending?)
    && (forall p | p in s.procs && s.procs[p].Recorded? :: s.procs[p].entry == |s.audit| - 1)
  }

  ghost predicate AuditOk(s: State) {
    && |s.fates| == |s.audit| && s.now - EXPIRY_MARGIN < s.ledgerClock
    && (forall i | 0 <= i < |s.audit| ::
          && s.audit[i].recordedAt <= s.now && s.audit[i].expires <= s.audit[i].recordedAt + s.lifetime
          && (s.audit[i].outcome.Settled? ==> s.fates[i].Accepted?)
          && (s.audit[i].outcome.Rejected? ==> s.fates[i].Turned?)
          && (s.fates[i].Accepted? ==> s.event.FinishedEvent?))
  }

  ghost predicate NoneMayLand(s: State)
    requires |s.fates| == |s.audit|
  {
    forall i | 0 <= i < |s.audit| :: !MayLand(s, i)
  }

  /** Only the last submission may still be accepted, and only while the schedule runs. */
  ghost predicate LandingOk(s: State)
    requires |s.fates| == |s.audit|
  {
    && (forall i | 0 <= i < |s.audit| - 1 :: !MayLand(s, i))
    && (!StatusIs(s, Running) ==> NoneMayLand(s))
    && (forall p | p in s.procs && (s.procs[p].Claimed? || s.procs[p].Stale?) :: NoneMayLand(s) && !AnyRejected(s))
    && (AnyRejected(s) ==> NoneMayLand(s) && !StatusIs(s, Scheduled) && !StatusIs(s, Cancelled))
    && (forall p | p in s.procs && (s.procs[p].Signing? || s.procs[p].Waiting?) :: !AnyRejected(s))
    && (StatusIs(s, Finished) ==> s.event.FinishedEvent?)
  }

  ghost predicate Inv(s: State) {
    AuditOk(s) && ProcsOk(s) && LandingOk(s)
  }

  /** The schedule is not set again once one of its submissions was refused. */
  predicate FirstRefusal(s: State, step: Step) {
    step.Set? ==> !AnyRejected(s)
  }

  /** What may not land never may again, while no new submission is made. */
  ghost predicate Settles(s: State, s': State)
    requires |s.fates| == |s.audit| && |s'.fates| == |s'.audit|
  {
    && |s'.audit| == |s.audit| && (forall i | 0 <= i < |s.audit| :: MayLand(s', i) ==> MayLand(s, i))
  }

  lemma StepSettles(s: State, step: Step)
    requires AuditOk(s) && ProcsOk(s) && CanStep(s, step) && !step.WriteAudit?
    ensures |Do(s, step).fates| == |Do(s, step).audit| && Settles(s, Do(s, step))
  {
    var s' := Do(s, step);
    forall i | 0 <= i < |s.audit| && MayLand(s', i) ensures MayLand(s, i) {
      if s'.fates[i].Unsent? {
        var p :| p in s'.procs && s'.procs[p] == Signing(i);
        assert p in s.procs && s.procs[p] == Signing(i);
      }
    }
  }

  lemma AuditStepOk(s: State, step: Step)
    requires AuditOk(s) && ProcsOk(s) && CanStep(s, step)
    ensures AuditOk(Do(s, step))
  {
  }

  lemma ProcsStepOk(s: State, step: Step)
    requires AuditOk(s) && ProcsOk(s) && CanStep(s, step)
    ensures ProcsOk(Do(s, step))
  {
  }

  /** A pass that finds every unanswered submission past its lifetime and the margin finds none that may land. */
  lemma StaleMeansNoneMayLand(s: State)
    requires AuditOk(s) && !AnyRejected(s) && forall i | 0 <= i < |s.audit| :: !Stuck(s, i, s.now)
    ensures NoneMayLand(s)
  {
    forall i | 0 <= i < |s.audit| ensures !MayLand(s, i) {
      assert !Stuck(s, i, s.now);
    }
  }

  lemma LandingStepOk(s: State, step: Step)
    requires Inv(s) && CanStep(s, step) && FirstRefusal(s, step)
    ensures AuditOk(Do(s, step)) && LandingOk(Do(s, step))
  {
    var s' := Do(s, step);
    AuditStepOk(s, step);
    if step.WriteAudit? {
      forall i | 0 <= i < |s.audit| ensures !MayLand(s', i) {
        assert !MayLand(s, i);
      }
    } else {
      StepSettles(s, step);
      if step.FindStale? {
        StaleMeansNoneMayLand(s);
      }
    }
  }

  lemma StepKeepsInv(s: State, step: Step)
    requires Inv(s) && CanStep(s, step) && FirstRefusal(s, step)
    ensures Inv(Do(s, step))
  {
    AuditStepOk(s, step);
    ProcsStepOk(s, step);
    LandingStepOk(s, step);
  }

  predicate IsRun(s: State, steps: seq<Step>)
    decreases |steps|
  {
    |s.fates| == |s.audit| && (steps == [] || (CanStep(s, steps[0]) && IsRun(Do(s, steps[0]), steps[1..])))
  }

  function After(s: State, steps: seq<Step>): (r: State)
    requires IsRun(s, steps)
    ensures |r.fates| == |r.audit|
    decreases |steps|
  {
    if steps == [] then s else After(Do(s, steps[0]), steps[1..])
  }

  /** The schedule is never set again after one of its submissions was refused. */
  predicate NotRefusedBefore(s: State, steps: seq<Step>)
    requires IsRun(s, steps)
    decreases |steps|
  {
    steps == [] || (FirstRefusal(s, steps[0]) && NotRefusedBefore(Do(s, steps[0]), steps[1..]))
  }

  lemma {:induction false} RunKeepsInv(s: State, steps: seq<Step>)
    requires Inv(s) && IsRun(s, steps) && NotRefusedBefore(s, steps)
    ensures Inv(After(s, steps))
    decreases |steps|
  {
    hide CanStep, Do, FirstRefusal;
    if steps != [] {
      StepKeepsInv(s, steps[0]);
      RunKeepsInv(Do(s, steps[0]), steps[1..]);
    }
  }

  /**
    However many schedulers run, and wherever they stop: at most one submission may
    still be accepted; a finished schedule's event is finished; and of a cancelled or
    refused schedule nothing can land.
   */
  lemma ScheduledFinishIsSafe(start: State, steps: seq<Step>)
    requires Init(start) && IsRun(start, steps) && NotRefusedBefore(start, steps)
    ensures var s := After(start, steps);
            && |s.fates| == |s.audit|
            && (forall i, j | 0 <= i < |s.audit| && 0 <= j < |s.audit| && MayLand(s, i) && MayLand(s, j) :: i == j)
            && (StatusIs(s, Finished) ==> s.event.FinishedEvent?)
            && (StatusIs(s, Cancelled) || StatusIs(s, Refused) || StatusIs(s, Scheduled) ==>
                  forall i | 0 <= i < |s.audit| :: !MayLand(s, i))
  {
    RunKeepsInv(start, steps);
  }

  // ----- A schedule set again after a refusal -----

  /** A run from `start` ends in `s`. */
  ghost predicate Reaches(start: State, s: State) {
    exists steps :: IsRun(start, steps) && After(start, steps) == s
  }

  lemma {:induction false} RunsExtend(start: State, steps: seq<Step>, step: Step)
    requires IsRun(start, steps) && |After(start, steps).fates| == |After(start, steps).audit|
    requires CanStep(After(start, steps), step)
    requires |Do(After(start, steps), step).fates| == |Do(After(start, steps), step).audit|
    ensures IsRun(start, steps + [step]) && After(start, steps + [step]) == Do(After(start, steps), step)
    decreases |steps|
  {
    hide CanStep, Do;
    if steps == [] {
      assert [step][1..] == [] && [] + [step] == [step];
    } else {
      assert (steps + [step])[1..] == steps[1..] + [step];
      RunsExtend(Do(start, steps[0]), steps[1..], step);
    }
  }

  predicate Goes(s: State, step: Step, s': State) {
    |s.fates| == |s.audit| && CanStep(s, step) && Do(s, step) == s' && |s'.fates| == |s'.audit|
  }

  lemma Then(start: State, s: State, step: Step, s': State)
    requires Reaches(start, s) && Goes(s, step, s')
    ensures Reaches(start, s')
  {
    hide CanStep, Do;
    var steps :| IsRun(start, steps) && After(start, steps) == s;
    RunsExtend(start, steps, step);
  }

  const FIRST := Audit(Pending, 1, 1001)
  const FIRST_REFUSED := Audit(Rejected, 1, 1001)
  const SECOND := Audit(Pending, 2, 1002)
  const THIRD := Audit(Pending, 3, 1003)

  function Plan(status: Status, at: int, noticed: bool): Option<Schedule> {
    Some(Schedule(status, at, noticed))
  }

  /** An event on sale, both clocks the same, and the scheduler 0 or nobody at work. */
  function Scene(now: int, schedule: Option<Schedule>, audit: seq<Audit>, fates: seq<Fate>, proc: Option<Proc>): State {
    State(now, now, 1000, Selling, schedule, audit, fates, if proc.Some? then Some(0) else None,
          if proc.Some? then map[0 := proc.value] else map[])
  }

  /** A first run falls due. */
  lemma FirstRunIsDue()
    ensures Reaches(Scene(0, None, [], [], None), Scene(1, Plan(Scheduled, 1, true), [], [], None))
  {
    var s := Scene(0, None, [], [], None);
    assert IsRun(s, []) && After(s, []) == s;
    assert Reaches(s, s);
    hide Reaches, IsRun, After;
    Then(s, Scene(0, None, [], [], None), Set(1),
         Scene(0, Plan(Scheduled, 1, false), [], [], None));
    Then(s, Scene(0, Plan(Scheduled, 1, false), [], [], None), Notice,
         Scene(0, Plan(Scheduled, 1, true), [], [], None));
    Then(s, Scene(0, Plan(Scheduled, 1, true), [], [], None), Tick(1, 1),
         Scene(1, Plan(Scheduled, 1, true), [], [], None));
  }

  /** It is claimed. */
  lemma FirstRunIsClaimed()
    ensures Reaches(Scene(0, None, [], [], None), Scene(1, Plan(Running, 1, true), [], [], Some(Claimed)))
  {
    var s := Scene(0, None, [], [], None);
    FirstRunIsDue();
    hide Reaches, IsRun, After;
    Then(s, Scene(1, Plan(Scheduled, 1, true), [], [], None), TakeLock(0),
         Scene(1, Plan(Scheduled, 1, true), [], [], Some(Locked)));
    Then(s, Scene(1, Plan(Scheduled, 1, true), [], [], Some(Locked)), Claim(0, 1),
         Scene(1, Plan(Running, 1, true), [], [], Some(Claimed)));
  }

  /** It submits. */
  lemma FirstRunSubmits()
    ensures Reaches(Scene(0, None, [], [], None),
                    Scene(1, Plan(Running, 1, true), [FIRST], [InFlight], Some(Waiting(0))))
  {
    var s := Scene(0, None, [], [], None);
    FirstRunIsClaimed();
    hide Reaches, IsRun, After;
    Then(s, Scene(1, Plan(Running, 1, true), [], [], Some(Claimed)), WriteAudit(0, 1001),
         Scene(1, Plan(Running, 1, true), [FIRST], [Unsent], Some(Signing(0))));
    Then(s, Scene(1, Plan(Running, 1, true), [FIRST], [Unsent], Some(Signing(0))), Send(0),
         Scene(1, Plan(Running, 1, true), [FIRST], [InFlight], Some(Waiting(0))));
  }

  /** The ledger refuses it. */
  lemma FirstRunIsRefused()
    ensures Reaches(Scene(0, None, [], [], None), Scene(1, Plan(Refused, 1, true), [FIRST_REFUSED], [Turned], None))
  {
    var s := Scene(0, None, [], [], None);
    FirstRunSubmits();
    hide Reaches, IsRun, After;
    Then(s, Scene(1, Plan(Running, 1, true), [FIRST], [InFlight], Some(Waiting(0))), Turn(0),
         Scene(1, Plan(Running, 1, true), [FIRST], [Turned], Some(Waiting(0))));
    Then(s, Scene(1, Plan(Running, 1, true), [FIRST], [Turned], Some(Waiting(0))), Verdict(0, Rejected),
         Scene(1, Plan(Running, 1, true), [FIRST_REFUSED], [Turned], Some(Recorded(0))));
    Then(s, Scene(1, Plan(Running, 1, true), [FIRST_REFUSED], [Turned], Some(Recorded(0))), Conclude(0),
         Scene(1, Plan(Refused, 1, true), [FIRST_REFUSED], [Turned], None));
  }

  /** Set again, it falls due. */
  lemma SecondRunIsDue()
    ensures Reaches(Scene(0, None, [], [], None),
                    Scene(2, Plan(Scheduled, 2, true), [FIRST_REFUSED], [Turned], Some(Locked)))
  {
    var s := Scene(0, None, [], [], None);
    FirstRunIsRefused();
    hide Reaches, IsRun, After;
    Then(s, Scene(1, Plan(Refused, 1, true), [FIRST_REFUSED], [Turned], None), Set(2),
         Scene(1, Plan(Scheduled, 2, false), [FIRST_REFUSED], [Turned], None));
    Then(s, Scene(1, Plan(Scheduled, 2, false), [FIRST_REFUSED], [Turned], None), Notice,
         Scene(1, Plan(Scheduled, 2, true), [FIRST_REFUSED], [Turned], None));
    Then(s, Scene(1, Plan(Scheduled, 2, true), [FIRST_REFUSED], [Turned], None), Tick(2, 2),
         Scene(2, Plan(Scheduled, 2, true), [FIRST_REFUSED], [Turned], None));
    Then(s, Scene(2, Plan(Scheduled, 2, true), [FIRST_REFUSED], [Turned], None), TakeLock(0),
         Scene(2, Plan(Scheduled, 2, true), [FIRST_REFUSED], [Turned], Some(Locked)));
  }

  /** It submits. */
  lemma SecondRunSubmits()
    ensures Reaches(Scene(0, None, [], [], None),
                    Scene(2, Plan(Running, 2, true), [FIRST_REFUSED, SECOND], [Turned, Unsent], Some(Signing(1))))
  {
    var s := Scene(0, None, [], [], None);
    SecondRunIsDue();
    hide Reaches, IsRun, After;
    Then(s, Scene(2, Plan(Scheduled, 2, true), [FIRST_REFUSED], [Turned], Some(Locked)), Claim(0, 2),
         Scene(2, Plan(Running, 2, true), [FIRST_REFUSED], [Turned], Some(Claimed)));
    Then(s, Scene(2, Plan(Running, 2, true), [FIRST_REFUSED], [Turned], Some(Claimed)), WriteAudit(0, 1002),
         Scene(2, Plan(Running, 2, true), [FIRST_REFUSED, SECOND], [Turned, Unsent], Some(Signing(1))));
  }

  /** Its scheduler stops while the submission may still land. */
  lemma SecondRunStops()
    ensures Reaches(Scene(0, None, [], [], None),
                    Scene(2, Plan(Running, 2, true), [FIRST_REFUSED, SECOND], [Turned, InFlight], None))
  {
    var s := Scene(0, None, [], [], None);
    SecondRunSubmits();
    hide Reaches, IsRun, After;
    Then(s, Scene(2, Plan(Running, 2, true), [FIRST_REFUSED, SECOND], [Turned, Unsent], Some(Signing(1))), Send(0),
         Scene(2, Plan(Running, 2, true), [FIRST_REFUSED, SECOND], [Turned, InFlight], Some(Waiting(1))));
    Then(s, Scene(2, Plan(Running, 2, true), [FIRST_REFUSED, SECOND], [Turned, InFlight], Some(Waiting(1))), Leave(0),
         Scene(2, Plan(Running, 2, true), [FIRST_REFUSED, SECOND], [Turned, InFlight], None));
  }

  /** Another finds it running. */
  lemma SecondRunIsFound()
    ensures Reaches(Scene(0, None, [], [], None),
                    Scene(2, Plan(Running, 2, true), [FIRST_REFUSED, SECOND], [Turned, InFlight], Some(Reading)))
  {
    var s := Scene(0, None, [], [], None);
    SecondRunStops();
    hide Reaches, IsRun, After;
    Then(s, Scene(2, Plan(Running, 2, true), [FIRST_REFUSED, SECOND], [Turned, InFlight], None), TakeLock(0),
         Scene(2, Plan(Running, 2, true), [FIRST_REFUSED, SECOND], [Turned, InFlight], Some(Locked)));
    Then(s, Scene(2, Plan(Running, 2, true), [FIRST_REFUSED, SECOND], [Turned, InFlight], Some(Locked)), FindRunning(0),
         Scene(2, Plan(Running, 2, true), [FIRST_REFUSED, SECOND], [Turned, InFlight], Some(Reading)));
  }

  /** It settles it by the older refusal. */
  lemma SecondRunReadAsRefused()
    ensures Reaches(Scene(0, None, [], [], None),
                    Scene(2, Plan(Refused, 2, true), [FIRST_REFUSED, SECOND], [Turned, InFlight], None))
  {
    var s := Scene(0, None, [], [], None);
    SecondRunIsFound();
    assert Scene(2, Plan(Running, 2, true), [FIRST_REFUSED, SECOND], [Turned, InFlight], Some(Unfinished)).audit[0].outcome.Rejected?;
    hide Reaches, IsRun, After;
    Then(s, Scene(2, Plan(Running, 2, true), [FIRST_REFUSED, SECOND], [Turned, InFlight], Some(Reading)), AskLedger(0),
         Scene(2, Plan(Running, 2, true), [FIRST_REFUSED, SECOND], [Turned, InFlight], Some(Unfinished)));
    Then(s, Scene(2, Plan(Running, 2, true), [FIRST_REFUSED, SECOND], [Turned, InFlight], Some(Unfinished)), FindRejected(0),
         Scene(2, Plan(Refused, 2, true), [FIRST_REFUSED, SECOND], [Turned, InFlight], None));
  }

  /** Set a third time, it falls due. */
  lemma ThirdRunIsDue()
    ensures Reaches(Scene(0, None, [], [], None),
                    Scene(3, Plan(Scheduled, 3, true), [FIRST_REFUSED, SECOND], [Turned, InFlight], Some(Locked)))
  {
    var s := Scene(0, None, [], [], None);
    SecondRunReadAsRefused();
    hide Reaches, IsRun, After;
    Then(s, Scene(2, Plan(Refused, 2, true), [FIRST_REFUSED, SECOND], [Turned, InFlight], None), Set(3),
         Scene(2, Plan(Scheduled, 3, false), [FIRST_REFUSED, SECOND], [Turned, InFlight], None));
    Then(s, Scene(2, Plan(Scheduled, 3, false), [FIRST_REFUSED, SECOND], [Turned, InFlight], None), Notice,
         Scene(2, Plan(Scheduled, 3, true), [FIRST_REFUSED, SECOND], [Turned, InFlight], None));
    Then(s, Scene(2, Plan(Scheduled, 3, true), [FIRST_REFUSED, SECOND], [Turned, InFlight], None), Tick(3, 3),
         Scene(3, Plan(Scheduled, 3, true), [FIRST_REFUSED, SECOND], [Turned, InFlight], None));
    Then(s, Scene(3, Plan(Scheduled, 3, true), [FIRST_REFUSED, SECOND], [Turned, InFlight], None), TakeLock(0),
         Scene(3, Plan(Scheduled, 3, true), [FIRST_REFUSED, SECOND], [Turned, InFlight], Some(Locked)));
  }

  /** It submits again. */
  lemma ThirdRunSubmits()
    ensures Reaches(Scene(0, None, [], [], None),
                    Scene(3, Plan(Running, 3, true), [FIRST_REFUSED, SECOND, THIRD], [Turned, InFlight, InFlight], Some(Waiting(2))))
  {
    var s := Scene(0, None, [], [], None);
    ThirdRunIsDue();
    hide Reaches, IsRun, After;
    Then(s, Scene(3, Plan(Scheduled, 3, true), [FIRST_REFUSED, SECOND], [Turned, InFlight], Some(Locked)), Claim(0, 3),
         Scene(3, Plan(Running, 3, true), [FIRST_REFUSED, SECOND], [Turned, InFlight], Some(Claimed)));
    Then(s, Scene(3, Plan(Running, 3, true), [FIRST_REFUSED, SECOND], [Turned, InFlight], Some(Claimed)), WriteAudit(0, 1003),
         Scene(3, Plan(Running, 3, true), [FIRST_REFUSED, SECOND, THIRD], [Turned, InFlight, Unsent], Some(Signing(2))));
    Then(s, Scene(3, Plan(Running, 3, true), [FIRST_REFUSED, SECOND, THIRD], [Turned, InFlight, Unsent], Some(Signing(2))), Send(0),
         Scene(3, Plan(Running, 3, true), [FIRST_REFUSED, SECOND, THIRD], [Turned, InFlight, InFlight], Some(Waiting(2))));
  }

  /**
    Setting a schedule again after a refusal keeps its audit rows, so a later run can
    be settled by an older run's refusal: it is recorded refused while its submission
    may still land, and a third run then has two submissions that may.
   */
  lemma ASecondRefusalBreaksIt()
    ensures exists start, steps :: Init(start) && IsRun(start, steps)
                                   && StatusIs(After(start, steps), Refused) && !NoneMayLand(After(start, steps))
    ensures exists start, steps :: Init(start) && IsRun(start, steps) && TwoMayLand(After(start, steps))
  {
    hide IsRun, After;
    SecondRunReadAsRefused();
    ThirdRunSubmits();
    var start := Scene(0, None, [], [], None);
    var refused := Scene(2, Plan(Refused, 2, true), [FIRST_REFUSED, SECOND], [Turned, InFlight], None);
    var steps :| IsRun(start, steps) && After(start, steps) == refused;
    assert MayLand(refused, 1);
    var third := Scene(3, Plan(Running, 3, true), [FIRST_REFUSED, SECOND, THIRD], [Turned, InFlight, InFlight], Some(Waiting(2)));
    var more :| IsRun(start, more) && After(start, more) == third;
    assert MayLand(third, 1) && MayLand(third, 2);
    assert TwoMayLand(third);
  }

  ghost predicate TwoMayLand(s: State)
    requires |s.fates| == |s.audit|
  {
    exists i, j | 0 <= i < j < |s.audit| :: MayLand(s, i) && MayLand(s, j)
  }

  // ----- Setting a schedule again, in general -----

  /** A run from `start`, in which the schedule is not set again, ends in `s`. */
  ghost predicate RunsTo(start: State, s: State) {
    exists steps :: IsRun(start, steps) && NeverSets(steps) && After(start, steps) == s
  }

  predicate NeverSets(steps: seq<Step>) {
    forall i | 0 <= i < |steps| :: !steps[i].Set?
  }

  lemma RunsToItself(s: State)
    requires |s.fates| == |s.audit|
    ensures RunsTo(s, s)
  {
    assert IsRun(s, []) && NeverSets([]) && After(s, []) == s;
  }

  lemma Next(start: State, s: State, step: Step, s': State)
    requires RunsTo(start, s) && Goes(s, step, s') && !step.Set?
    ensures RunsTo(start, s')
  {
    hide CanStep, Do;
    var steps :| IsRun(start, steps) && NeverSets(steps) && After(start, steps) == s;
    RunsExtend(start, steps, step);
    assert NeverSets(steps + [step]);
  }

  /** What a run leaves alone. */
  datatype Setting = Setting(at: int, lifetime: nat, event: EventStatus, finishAt: int)

  /** Both clocks the same, and the scheduler 0 or nobody at work. */
  function View(w: Setting, status: Status, noticed: bool, audit: seq<Audit>, fates: seq<Fate>, proc: Option<Proc>): State {
    State(w.at, w.at, w.lifetime, w.event, Plan(status, w.finishAt, noticed), audit, fates,
          if proc.Some? then Some(0) else None, if proc.Some? then map[0 := proc.value] else map[])
  }

  predicate Due(w: Setting, audit: seq<Audit>, fates: seq<Fate>) {
    w.finishAt <= w.at && Open(w.event) && |fates| == |audit|
  }

  lemma ItFallsDue(s: State, at: int)
    requires |s.fates| == |s.audit| && s.lock.None? && s.procs == map[] && s.now <= at && s.ledgerClock <= at
    requires StatusIs(s, Scheduled) && !s.schedule.value.noticed && s.schedule.value.finishAt <= at
    ensures var w := Setting(at, s.lifetime, s.event, s.schedule.value.finishAt);
            && Goes(s, Tick(at, at), View(w, Scheduled, false, s.audit, s.fates, None))
            && Goes(View(w, Scheduled, false, s.audit, s.fates, None), Notice, View(w, Scheduled, true, s.audit, s.fates, None))
  {
  }

  lemma ItIsClaimed(w: Setting, audit: seq<Audit>, fates: seq<Fate>)
    requires Due(w, audit, fates)
    ensures Goes(View(w, Scheduled, true, audit, fates, None), TakeLock(0), View(w, Scheduled, true, audit, fates, Some(Locked)))
    ensures Goes(View(w, Scheduled, true, audit, fates, Some(Locked)), Claim(0, w.at),
                 View(w, Running, true, audit, fates, Some(Claimed)))
  {
  }

  function Latest(w: Setting): Audit {
    Audit(Pending, w.at, w.at + w.lifetime)
  }

  lemma ItIsAudited(w: Setting, audit: seq<Audit>, fates: seq<Fate>)
    requires Due(w, audit, fates)
    ensures Goes(View(w, Running, true, audit, fates, Some(Claimed)), WriteAudit(0, w.at + w.lifetime),
                 View(w, Running, true, audit + [Latest(w)], fates + [Unsent], Some(Signing(|audit|))))
  {
  }

  lemma ItIsSent(w: Setting, audit: seq<Audit>, fates: seq<Fate>)
    requires Due(w, audit, fates)
    ensures Goes(View(w, Running, true, audit + [Latest(w)], fates + [Unsent], Some(Signing(|audit|))), Send(0),
                 View(w, Running, true, audit + [Latest(w)], fates + [InFlight], Some(Waiting(|audit|))))
  {
    assert (fates + [Unsent])[|fates| := InFlight] == fates + [InFlight];
  }

  lemma ItIsLeft(w: Setting, audit: seq<Audit>, fates: seq<Fate>, proc: Proc)
    requires |fates| == |audit|
    ensures Goes(View(w, Running, true, audit, fates, Some(proc)), Leave(0), View(w, Running, true, audit, fates, None))
  {
    assert map[0 := proc] - {0} == map[];
  }

  lemma ItIsFound(w: Setting, audit: seq<Audit>, fates: seq<Fate>)
    requires |fates| == |audit|
    ensures Goes(View(w, Running, true, audit, fates, None), TakeLock(0), View(w, Running, true, audit, fates, Some(Locked)))
    ensures Goes(View(w, Running, true, audit, fates, Some(Locked)), FindRunning(0),
                 View(w, Running, true, audit, fates, Some(Reading)))
  {
  }

  lemma ItReadsARefusal(w: Setting, audit: seq<Audit>, fates: seq<Fate>)
    requires Due(w, audit, fates) && exists i | 0 <= i < |audit| :: audit[i].outcome.Rejected?
    ensures Goes(View(w, Running, true, audit, fates, Some(Reading)), AskLedger(0),
                 View(w, Running, true, audit, fates, Some(Unfinished)))
    ensures Goes(View(w, Running, true, audit, fates, Some(Unfinished)), FindRejected(0),
                 View(w, Refused, true, audit, fates, None))
  {
    assert map[0 := Unfinished] - {0} == map[];
    var i :| 0 <= i < |audit| && audit[i].outcome.Rejected?;
    assert View(w, Running, true, audit, fates, Some(Unfinished)).audit[i].outcome.Rejected?;
  }

  /** It runs, and its scheduler stops with the submission sent. */
  lemma ItRuns(start: State, w: Setting, audit: seq<Audit>, fates: seq<Fate>)
    requires Due(w, audit, fates) && RunsTo(start, View(w, Scheduled, true, audit, fates, None))
    ensures RunsTo(start, View(w, Running, true, audit + [Latest(w)], fates + [InFlight], None))
  {
    ItIsClaimed(w, audit, fates);
    ItIsAudited(w, audit, fates);
    ItIsSent(w, audit, fates);
    ItIsLeft(w, audit + [Latest(w)], fates + [InFlight], Waiting(|audit|));
    hide Goes, RunsTo, View;
    Next(start, View(w, Scheduled, true, audit, fates, None), TakeLock(0), View(w, Scheduled, true, audit, fates, Some(Locked)));
    Next(start, View(w, Scheduled, true, audit, fates, Some(Locked)), Claim(0, w.at),
         View(w, Running, true, audit, fates, Some(Claimed)));
    Next(start, View(w, Running, true, audit, fates, Some(Claimed)), WriteAudit(0, w.at + w.lifetime),
         View(w, Running, true, audit + [Latest(w)], fates + [Unsent], Some(Signing(|audit|))));
    Next(start, View(w, Running, true, audit + [Latest(w)], fates + [Unsent], Some(Signing(|audit|))), Send(0),
         View(w, Running, true, audit + [Latest(w)], fates + [InFlight], Some(Waiting(|audit|))));
    Next(start, View(w, Running, true, audit + [Latest(w)], fates + [InFlight], Some(Waiting(|audit|))), Leave(0),
         View(w, Running, true, audit + [Latest(w)], fates + [InFlight], None));
  }

  /** Another scheduler settles it by an older refusal. */
  lemma ItIsSettledRefused(start: State, w: Setting, audit: seq<Audit>, fates: seq<Fate>)
    requires Due(w, audit, fates) && RunsTo(start, View(w, Running, true, audit, fates, None))
    requires exists i | 0 <= i < |audit| :: audit[i].outcome.Rejected?
    ensures RunsTo(start, View(w, Refused, true, audit, fates, None))
  {
    ItIsFound(w, audit, fates);
    ItReadsARefusal(w, audit, fates);
    hide Goes, RunsTo, View;
    Next(start, View(w, Running, true, audit, fates, None), TakeLock(0), View(w, Running, true, audit, fates, Some(Locked)));
    Next(start, View(w, Running, true, audit, fates, Some(Locked)), FindRunning(0),
         View(w, Running, true, audit, fates, Some(Reading)));
    Next(start, View(w, Running, true, audit, fates, Some(Reading)), AskLedger(0),
         View(w, Running, true, audit, fates, Some(Unfinished)));
    Next(start, View(w, Running, true, audit, fates, Some(Unfinished)), FindRejected(0),
         View(w, Refused, true, audit, fates, None));
  }

  /** Set again with an older refusal in the audit log, a schedule may be recorded refused while its submission may land. */
  lemma AnOlderRefusalMisleads(start: State, s: State)
    requires RunsTo(start, s) && |s.fates| == |s.audit| && s.lock.None? && s.procs == map[]
    requires StatusIs(s, Scheduled) && !s.schedule.value.noticed && Open(s.event) && AnyRejected(s)
    ensures exists s' :: RunsTo(start, s') && StatusIs(s', Refused) && |s'.fates| == |s'.audit| && !NoneMayLand(s')
  {
    var finishAt := s.schedule.value.finishAt;
    var later := if s.now < s.ledgerClock then s.ledgerClock else s.now;
    var at := if later < finishAt then finishAt else later;
    var w := Setting(at, s.lifetime, s.event, finishAt);
    var audit, fates := s.audit + [Latest(w)], s.fates + [InFlight];
    var i :| 0 <= i < |s.audit| && s.audit[i].outcome.Rejected?;
    assert audit[i].outcome.Rejected?;
    ItFallsDue(s, at);
    LatestMayLand(w, s.audit, s.fates);
    hide Goes, RunsTo, View, AnyRejected, MayLand, StatusIs;
    Next(start, s, Tick(at, at), View(w, Scheduled, false, s.audit, s.fates, None));
    Next(start, View(w, Scheduled, false, s.audit, s.fates, None), Notice, View(w, Scheduled, true, s.audit, s.fates, None));
    ItRuns(start, w, s.audit, s.fates);
    ItIsSettledRefused(start, w, audit, fates);
  }

  lemma LatestMayLand(w: Setting, audit: seq<Audit>, fates: seq<Fate>)
    requires Due(w, audit, fates)
    ensures var s := View(w, Refused, true, audit + [Latest(w)], fates + [InFlight], None);
            StatusIs(s, Refused) && |s.fates| == |s.audit| && !NoneMayLand(s)
  {
    var s := View(w, Refused, true, audit + [Latest(w)], fates + [InFlight], None);
    assert MayLand(s, |audit|);
  }

  // ----- A refusal stays in the audit log -----

  ghost predicate Kept(s: State) {
    AuditOk(s) && ProcsOk(s)
  }

  /** Whatever was refused before, every step keeps these, and forgets no refusal. */
  lemma StepKeepsRefusals(s: State, step: Step)
    requires Kept(s) && CanStep(s, step)
    ensures Kept(Do(s, step)) && (AnyRejected(s) ==> AnyRejected(Do(s, step)))
  {
    AuditStepOk(s, step);
    ProcsStepOk(s, step);
    if AnyRejected(s) {
      var i :| 0 <= i < |s.audit| && s.audit[i].outcome.Rejected?;
      RejectedStays(s, step, i);
    }
    hide Kept, CanStep, Do;
  }

  lemma RejectedStays(s: State, step: Step, i: nat)
    requires Kept(s) && CanStep(s, step) && i < |s.audit| && s.audit[i].outcome.Rejected?
    ensures i < |Do(s, step).audit| && Do(s, step).audit[i].outcome.Rejected?
  {
  }

  lemma {:induction false} RunKeepsRefusals(s: State, steps: seq<Step>)
    requires Kept(s) && IsRun(s, steps)
    ensures Kept(After(s, steps)) && (AnyRejected(s) ==> AnyRejected(After(s, steps)))
    ensures !AnyRejected(After(s, steps)) ==> NotRefusedBefore(s, steps)
    decreases |steps|
  {
    hide Kept, CanStep, Do, AnyRejected;
    if steps != [] {
      StepKeepsRefusals(s, steps[0]);
      RunKeepsRefusals(Do(s, steps[0]), steps[1..]);
    }
  }

  // ----- Setting it, in any state a run reaches -----

  /** Whoever holds the lock when the schedule is set has only taken it, and may leave. */
  lemma NobodyAtWork(s: State, finishAt: int)
    requires Kept(s) && CanStep(s, Set(finishAt))
    ensures RunsTo(Do(s, Set(finishAt)), Do(s, Set(finishAt)).(lock := None, procs := map[]))
  {
    var again := Do(s, Set(finishAt));
    var free := again.(lock := None, procs := map[]);
    RunsToItself(again);
    if s.lock.Some? {
      assert s.procs - {s.lock.value} == map[];
      assert Goes(again, Leave(s.lock.value), free);
      Next(again, again, Leave(s.lock.value), free);
    } else {
      assert s.procs == map[];
      assert again == free;
    }
  }

  lemma {:induction false} NeverSetAgain(s: State, steps: seq<Step>)
    requires IsRun(s, steps) && NeverSets(steps)
    ensures NotRefusedBefore(s, steps)
    decreases |steps|
  {
    hide CanStep, Do;
    if steps != [] {
      NeverSetAgain(Do(s, steps[0]), steps[1..]);
    }
  }

  /** From here on, until it is set again, being recorded refused means that nothing of the schedule can land. */
  ghost predicate RefusalsAreFinal(s: State) {
    forall steps | IsRun(s, steps) && NeverSets(steps) && StatusIs(After(s, steps), Refused) :: NoneMayLand(After(s, steps))
  }

  lemma SettingWithARefusalIsUnsafe(s: State, finishAt: int)
    requires Kept(s) && CanStep(s, Set(finishAt)) && Open(s.event) && AnyRejected(s)
    ensures !RefusalsAreFinal(Do(s, Set(finishAt)))
  {
    var start := Do(s, Set(finishAt));
    NobodyAtWork(s, finishAt);
    var free := start.(lock := None, procs := map[]);
    AnyRejectedStays(s, free);
    AnOlderRefusalMisleads(start, free);
  }

  lemma SettingWithoutARefusalIsSafe(s: State, finishAt: int)
    requires Inv(s) && CanStep(s, Set(finishAt)) && !AnyRejected(s)
    ensures RefusalsAreFinal(Do(s, Set(finishAt)))
  {
    var start := Do(s, Set(finishAt));
    StepKeepsInv(s, Set(finishAt));
    forall steps | IsRun(start, steps) && NeverSets(steps) && StatusIs(After(start, steps), Refused)
      ensures NoneMayLand(After(start, steps))
    {
      NeverSetAgain(start, steps);
      RunKeepsInv(start, steps);
    }
  }

  /**
    Whenever the schedule of an open event may be set, however it came to that: from
    then on, until it is set again, being recorded refused means that nothing of it can
    land, exactly if none of its earlier submissions was refused.
   */
  lemma SettingAgainIsSafeExactlyWhen(start: State, before: seq<Step>, finishAt: int)
    requires Init(start) && IsRun(start, before)
    requires CanStep(After(start, before), Set(finishAt)) && Open(After(start, before).event)
    ensures RefusalsAreFinal(Do(After(start, before), Set(finishAt))) <==> !AnyRejected(After(start, before))
  {
    var s := After(start, before);
    hide CanStep, Do, RefusalsAreFinal, AnyRejected;
    StartIsKept(start);
    RunKeepsRefusals(start, before);
    if AnyRejected(s) {
      SettingWithARefusalIsUnsafe(s, finishAt);
    } else {
      RunKeepsInv(start, before);
      SettingWithoutARefusalIsSafe(s, finishAt);
    }
  }

  lemma StartIsKept(start: State)
    requires Init(start)
    ensures Kept(start) && Inv(start)
  {
  }

  lemma AnyRejectedStays(s: State, s': State)
    requires AnyRejected(s) && s'.audit == s.audit
    ensures AnyRejected(s')
  {
    var i :| 0 <= i < |s.audit| && s.audit[i].outcome.Rejected?;
    assert s'.audit[i].outcome.Rejected?;
  }
}
