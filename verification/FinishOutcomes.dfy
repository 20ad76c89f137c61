/**
  How a scheduled finish is recorded to have ended: what a pass that settles one left
  running makes of it, what a live run makes of it, and when a finish the ledger
  accepted is recorded as such.
 */
module FinishOutcomes {
  import opened Common
  import opened FinishSchedule

  // ----- A scheduler's pass, whatever happens meanwhile -----

  /** From here on until it is over the scheduler is at work, and whatever else happens happens. */
  predicate IsPass(s: State, p: ProcId, pass: seq<Step>)
    requires |s.fates| == |s.audit|
    decreases |pass|
  {
    && pass != [] && p in s.procs && CanStep(s, pass[0]) && |Do(s, pass[0]).fates| == |Do(s, pass[0]).audit|
    && if p in Do(s, pass[0]).procs then IsPass(Do(s, pass[0]), p, pass[1..]) else |pass| == 1
  }

  /** The ledger had the event finished when the pass asked it. */
  predicate FinishedWhenAsked(s: State, p: ProcId, pass: seq<Step>)
    requires |s.fates| == |s.audit| && IsPass(s, p, pass)
    decreases |pass|
  {
    || (pass[0] == AskLedger(p) && s.event.FinishedEvent?)
    || (p in Do(s, pass[0]).procs && FinishedWhenAsked(Do(s, pass[0]), p, pass[1..]))
  }

  /** It stopped, or left the schedule for a later pass. */
  predicate LeftIt(pass: seq<Step>, p: ProcId) {
    pass != [] && pass[|pass| - 1] == Leave(p)
  }

  /** Where the schedule is recorded to be at the end of the pass. */
  function EndOf(s: State, p: ProcId, pass: seq<Step>): State
    requires |s.fates| == |s.audit| && IsPass(s, p, pass)
    decreases |pass|
  {
    if p in Do(s, pass[0]).procs then EndOf(Do(s, pass[0]), p, pass[1..]) else Do(s, pass[0])
  }

  lemma {:induction false} PassIsRun(s: State, p: ProcId, pass: seq<Step>)
    requires |s.fates| == |s.audit| && IsPass(s, p, pass)
    ensures IsRun(s, pass) && After(s, pass) == EndOf(s, p, pass)
    decreases |pass|
  {
    hide CanStep, Do;
    if p in Do(s, pass[0]).procs {
      PassIsRun(Do(s, pass[0]), p, pass[1..]);
    } else {
      assert pass[1..] == [];
    }
  }

  /** Some submission without a verdict is within its lifetime and the margin. */
  predicate AnyStuck(s: State) {
    exists i | 0 <= i < |s.audit| :: Stuck(s, i, s.now)
  }

  // ----- Settling a schedule left running -----

  /** A settling pass that has found, in this order: the event not finished, no refusal, nothing that may land. */
  predicate Settling(s: State, p: ProcId) {
    p in s.procs && (s.procs[p].Reading? || s.procs[p].Unfinished? || s.procs[p].Stale?)
  }

  /** While it settles nobody else touches the schedule, its audit log or their submissions' outcomes. */
  lemma OthersLeaveASettlingPass(s: State, p: ProcId, step: Step)
    requires Kept(s) && Settling(s, p) && CanStep(s, step)
    requires step != AskLedger(p) && step != FindRejected(p) && step != FindStale(p) && step != Resume(p) && step != Leave(p)
    ensures var s' := Do(s, step);
            p in s'.procs && s'.procs[p] == s.procs[p] && s'.schedule == s.schedule && s'.audit == s.audit && s'.lifetime == s.lifetime
            && s.now <= s'.now
  {
  }

  lemma StaleMeansNoneStuck(s: State)
    requires forall i | 0 <= i < |s.audit| :: !Stuck(s, i, s.now)
    ensures !AnyStuck(s)
  {
  }

  lemma TimePasses(s: State, s': State)
    requires !AnyStuck(s) && s'.audit == s.audit && s'.lifetime == s.lifetime && s.now <= s'.now
    ensures !AnyStuck(s')
  {
    forall i | 0 <= i < |s.audit| ensures !Stuck(s', i, s'.now) {
      assert !Stuck(s, i, s.now);
    }
  }

  lemma SameAuditSameRefusals(s: State, s': State)
    requires s'.audit == s.audit
    ensures AnyRejected(s') <==> AnyRejected(s)
  {
    if AnyRejected(s) {
      AnyRejectedStays(s, s');
    }
    if AnyRejected(s') {
      AnyRejectedStays(s', s);
    }
  }

  /** What a pass has established by where it is. */
  ghost predicate Established(s: State, p: ProcId)
    requires p in s.procs
  {
    s.procs[p].Stale? ==> !AnyRejected(s) && !AnyStuck(s)
  }

  lemma EstablishedStays(s: State, s': State, p: ProcId)
    requires p in s.procs && p in s'.procs && s'.procs[p] == s.procs[p] && Established(s, p)
    requires s'.audit == s.audit && s'.lifetime == s.lifetime && s.now <= s'.now
    ensures Established(s', p)
  {
    if s.procs[p].Stale? {
      TimePasses(s, s');
      SameAuditSameRefusals(s, s');
    }
  }

  /** What the pass's end says of what it found. */
  ghost predicate SettledAs(s: State, s': State, finished: bool, left: bool) {
    && s'.audit == s.audit && s'.schedule.Some? && s'.lifetime == s.lifetime
    && (StatusIs(s', Finished) <==> finished)
    && (StatusIs(s', Refused) <==> !finished && !left && AnyRejected(s))
    && (StatusIs(s', Scheduled) <==> !finished && !left && !AnyRejected(s))
    && (StatusIs(s', Running) <==> left)
    && (StatusIs(s', Scheduled) ==> !AnyStuck(s'))
  }

  lemma SettlingStepEnds(s: State, p: ProcId, step: Step)
    requires Kept(s) && Settling(s, p) && Established(s, p) && StatusIs(s, Running) && CanStep(s, step) && p !in Do(s, step).procs
    ensures SettledAs(s, Do(s, step), step == AskLedger(p) && s.event.FinishedEvent?, step == Leave(p))
  {
    if step != AskLedger(p) && step != FindRejected(p) && step != FindStale(p) && step != Resume(p) && step != Leave(p) {
      OthersLeaveASettlingPass(s, p, step);
    }
    if step == Resume(p) {
      ResumedIsStale(s, p);
    }
  }

  lemma ResumedIsStale(s: State, p: ProcId)
    requires |s.fates| == |s.audit| && p in s.procs && s.procs[p].Stale? && Established(s, p) && CanStep(s, Resume(p))
    ensures !AnyStuck(Do(s, Resume(p)))
  {
    TimePasses(s, Do(s, Resume(p)));
  }

  /** One step of the pass that does not end it. */
  lemma SettlingStepGoesOn(s: State, p: ProcId, step: Step)
    requires Kept(s) && Settling(s, p) && Established(s, p) && StatusIs(s, Running) && CanStep(s, step) && p in Do(s, step).procs
    ensures var s' := Do(s, step);
            && Settling(s', p) && Established(s', p) && StatusIs(s', Running) && s'.audit == s.audit && s'.lifetime == s.lifetime
            && (s.procs[p].Reading? || !s'.procs[p].Reading?)
            && (s.procs[p].Reading? && step == AskLedger(p) ==> !s.event.FinishedEvent?)
  {
    if step == FindStale(p) {
      StaleMeansNoneStuck(s);
      TimePasses(s, Do(s, step));
      SameAuditSameRefusals(s, Do(s, step));
    } else if step != AskLedger(p) && step != FindRejected(p) && step != Resume(p) && step != Leave(p) {
      OthersLeaveASettlingPass(s, p, step);
      EstablishedStays(s, Do(s, step), p);
    }
  }


  lemma {:induction false} SettlingPass(s: State, p: ProcId, pass: seq<Step>)
    requires Kept(s) && Settling(s, p) && Established(s, p) && StatusIs(s, Running) && IsPass(s, p, pass)
    ensures SettledAs(s, EndOf(s, p, pass), FinishedWhenAsked(s, p, pass), LeftIt(pass, p))
    decreases |pass|
  {
    var next := Do(s, pass[0]);
    if p in next.procs {
      SettlingStepGoesOn(s, p, pass[0]);
      StepKeepsRefusals(s, pass[0]);
      hide CanStep, Do, Kept, Settling, Established, AnyRejected, AnyStuck;
      SettlingPass(next, p, pass[1..]);
      SameAuditSameRefusals(s, next);
      assert pass[1..][|pass[1..]| - 1] == pass[|pass| - 1];
    } else {
      SettlingStepEnds(s, p, pass[0]);
    }
  }

  lemma StartReading(s: State, p: ProcId)
    requires Kept(s) && At(s, p, Reading)
    ensures Settling(s, p) && Established(s, p) && StatusIs(s, Running)
  {
  }

  /**
    A pass that settles a schedule left running, in any state a run reaches, whatever
    else happens until it is over: the schedule is finished exactly if the ledger had the
    event finished when asked; otherwise refused exactly if the audit log has a refusal;
    otherwise scheduled again, unless the pass stopped or left it running, which it must
    while a submission without a verdict is within its lifetime and the margin.
   */
  lemma ASettlingPassEnds(start: State, before: seq<Step>, p: ProcId, pass: seq<Step>)
    requires Init(start) && IsRun(start, before) && At(After(start, before), p, Reading)
    requires IsPass(After(start, before), p, pass)
    ensures var s := After(start, before);
            && IsRun(s, pass) && |After(s, pass).fates| == |After(s, pass).audit|
            && SettledAs(s, After(s, pass), FinishedWhenAsked(s, p, pass), LeftIt(pass, p))
            && (AnyStuck(After(s, pass)) && !FinishedWhenAsked(s, p, pass) && !AnyRejected(s) ==> LeftIt(pass, p))
  {
    var s := After(start, before);
    StartIsKept(start);
    RunKeepsRefusals(start, before);
    StartReading(s, p);
    PassIsRun(s, p, pass);
    hide CanStep, Do, Kept, AnyRejected, AnyStuck, IsPass, IsRun, After, FinishedWhenAsked, LeftIt;
    SettlingPass(s, p, pass);
  }

  /** What a pass nobody disturbs records. */
  function Settlement(s: State): Status {
    if s.event.FinishedEvent? then Finished
    else if AnyRejected(s) then Refused
    else if AnyStuck(s) then Running
    else Scheduled
  }

  /** Its steps: it asks the ledger, reads the audit log, and then the clock. */
  function Undisturbed(s: State, p: ProcId): seq<Step> {
    if s.event.FinishedEvent? then [AskLedger(p)]
    else if AnyRejected(s) then [AskLedger(p), FindRejected(p)]
    else if AnyStuck(s) then [AskLedger(p), Leave(p)]
    else [AskLedger(p), FindStale(p), Resume(p)]
  }

  lemma NoneStuck(s: State)
    requires !AnyStuck(s)
    ensures forall i | 0 <= i < |s.audit| :: !Stuck(s, i, s.now)
  {
  }

  lemma FindsItStale(s: State, p: ProcId)
    requires |s.fates| == |s.audit| && At(s, p, Unfinished) && s.schedule.Some? && !AnyRejected(s)
    requires forall i | 0 <= i < |s.audit| :: !Stuck(s, i, s.now)
    ensures IsPass(s, p, [FindStale(p), Resume(p)]) && StatusIs(EndOf(s, p, [FindStale(p), Resume(p)]), Scheduled)
  {
    hide AnyRejected, Stuck;
    var found := Do(s, FindStale(p));
    assert [FindStale(p), Resume(p)][1..] == [Resume(p)];
    assert IsPass(found, p, [Resume(p)]) && StatusIs(EndOf(found, p, [Resume(p)]), Scheduled);
  }

  lemma FindsItRefused(s: State, p: ProcId)
    requires |s.fates| == |s.audit| && At(s, p, Unfinished) && s.schedule.Some? && AnyRejected(s)
    ensures IsPass(s, p, [FindRejected(p)]) && StatusIs(EndOf(s, p, [FindRejected(p)]), Refused)
  {
    hide AnyRejected;
  }

  lemma LeavesItRunning(s: State, p: ProcId)
    requires |s.fates| == |s.audit| && At(s, p, Unfinished) && StatusIs(s, Running)
    ensures IsPass(s, p, [Leave(p)]) && StatusIs(EndOf(s, p, [Leave(p)]), Running)
  {
  }

  lemma AsksFirst(s: State, p: ProcId, rest: seq<Step>)
    requires |s.fates| == |s.audit| && At(s, p, Reading) && s.schedule.Some? && !s.event.FinishedEvent?
    requires IsPass(Do(s, AskLedger(p)), p, rest)
    ensures IsPass(s, p, [AskLedger(p)] + rest)
    ensures EndOf(s, p, [AskLedger(p)] + rest) == EndOf(Do(s, AskLedger(p)), p, rest)
  {
    assert ([AskLedger(p)] + rest)[1..] == rest;
  }

  lemma PassAsSettlement(s: State, p: ProcId)
    requires |s.fates| == |s.audit| && At(s, p, Reading) && StatusIs(s, Running)
    ensures IsPass(s, p, Undisturbed(s, p)) && StatusIs(EndOf(s, p, Undisturbed(s, p)), Settlement(s))
  {
    if !s.event.FinishedEvent? {
      var asked := Do(s, AskLedger(p));
      SameAuditSameRefusals(s, asked);
      hide AnyRejected, AnyStuck, Stuck, IsPass, EndOf;
      if AnyRejected(s) {
        FindsItRefused(asked, p);
        AsksFirst(s, p, [FindRejected(p)]);
        assert [AskLedger(p)] + [FindRejected(p)] == Undisturbed(s, p);
      } else if AnyStuck(s) {
        LeavesItRunning(asked, p);
        AsksFirst(s, p, [Leave(p)]);
        assert [AskLedger(p)] + [Leave(p)] == Undisturbed(s, p);
      } else {
        NoneStuck(s);
        SameStuck(s, asked);
        FindsItStale(asked, p);
        AsksFirst(s, p, [FindStale(p), Resume(p)]);
        assert [AskLedger(p)] + [FindStale(p), Resume(p)] == Undisturbed(s, p);
      }
    }
  }

  /** In every state a run reaches such a pass can be made, and it records that. */
  lemma AnUndisturbedPass(start: State, before: seq<Step>, p: ProcId)
    requires Init(start) && IsRun(start, before) && At(After(start, before), p, Reading)
    ensures var s := After(start, before);
            IsPass(s, p, Undisturbed(s, p)) && StatusIs(EndOf(s, p, Undisturbed(s, p)), Settlement(s))
  {
    StartIsKept(start);
    RunKeepsRefusals(start, before);
    StartReading(After(start, before), p);
    KeptInStep(After(start, before));
    hide Kept, IsRun, After, IsPass, EndOf, Undisturbed, Settlement;
    PassAsSettlement(After(start, before), p);
  }

  lemma KeptInStep(s: State)
    requires Kept(s)
    ensures |s.fates| == |s.audit|
  {
  }

  lemma SameStuck(s: State, s': State)
    requires s'.audit == s.audit && s'.lifetime == s.lifetime && s'.now == s.now
    requires forall i | 0 <= i < |s.audit| :: !Stuck(s, i, s.now)
    ensures forall i | 0 <= i < |s'.audit| :: !Stuck(s', i, s'.now)
  {
    forall i | 0 <= i < |s'.audit| ensures !Stuck(s', i, s'.now) {
      assert !Stuck(s, i, s.now);
    }
  }

  // ----- A live run -----

  predicate Live(s: State, p: ProcId) {
    p in s.procs && (s.procs[p].Claimed? || s.procs[p].Signing? || s.procs[p].Waiting? || s.procs[p].Recorded?)
  }

  /** Since it was claimed, with `n` rows in the audit log: the run has audited nothing, or one submission, the last. */
  ghost predicate Submitted(s: State, p: ProcId, n: nat)
    requires p in s.procs
  {
    && n <= |s.audit|
    && (s.procs[p].Claimed? ==> |s.audit| == n)
    && (s.procs[p].Signing? || s.procs[p].Waiting? || s.procs[p].Recorded? ==> |s.audit| == n + 1)
    && (s.procs[p].Recorded? ==> !s.audit[n].outcome.Pending? && s.procs[p].entry == n)
  }

  /** How the run's end is recorded, by its own submission's verdict. */
  ghost predicate RanAs(s': State, n: nat, left: bool) {
    && |s'.fates| == |s'.audit| && n <= |s'.audit| <= n + 1 && s'.schedule.Some?
    && (StatusIs(s', Finished) <==> !left && |s'.audit| == n + 1 && s'.audit[n].outcome.Settled?)
    && (StatusIs(s', Refused) <==> !left && (|s'.audit| == n || s'.audit[n].outcome.Rejected?))
    && (StatusIs(s', Running) <==> left)
    && (|s'.audit| == n + 1 ==>
          && (s'.audit[n].outcome.Settled? ==> s'.fates[n].Accepted?) && (s'.audit[n].outcome.Rejected? ==> s'.fates[n].Turned?))
  }

  lemma LiveStepGoesOn(s: State, p: ProcId, step: Step, n: nat)
    requires Kept(s) && Live(s, p) && StatusIs(s, Running) && Submitted(s, p, n) && CanStep(s, step) && p in Do(s, step).procs
    ensures var s' := Do(s, step); Live(s', p) && StatusIs(s', Running) && Submitted(s', p, n)
  {
  }

  lemma LiveStepEnds(s: State, p: ProcId, step: Step, n: nat)
    requires Kept(s) && Live(s, p) && StatusIs(s, Running) && Submitted(s, p, n) && CanStep(s, step) && p !in Do(s, step).procs
    ensures RanAs(Do(s, step), n, step == Leave(p))
  {
  }

  lemma {:induction false} LivePass(s: State, p: ProcId, pass: seq<Step>, n: nat)
    requires Kept(s) && Live(s, p) && StatusIs(s, Running) && Submitted(s, p, n) && IsPass(s, p, pass)
    ensures RanAs(EndOf(s, p, pass), n, LeftIt(pass, p))
    decreases |pass|
  {
    var next := Do(s, pass[0]);
    if p in next.procs {
      LiveStepGoesOn(s, p, pass[0], n);
      StepKeepsRefusals(s, pass[0]);
      hide CanStep, Do, Kept, Live, Submitted, AnyRejected, RanAs;
      LivePass(next, p, pass[1..], n);
      assert pass[1..][|pass[1..]| - 1] == pass[|pass| - 1];
    } else {
      LiveStepEnds(s, p, pass[0], n);
    }
  }

  lemma StartClaimed(s: State, p: ProcId)
    requires Kept(s) && At(s, p, Claimed)
    ensures Live(s, p) && StatusIs(s, Running) && Submitted(s, p, |s.audit|)
  {
  }

  /**
    A claimed run, in any state a run reaches, whatever else happens until it is over: it
    makes at most one submission; the schedule is finished exactly if the ledger accepted
    it and said so, refused exactly if the ledger refused it and said so or nothing was
    signed, and left running exactly if the run stopped or had no verdict.
   */
  lemma ALiveRunEnds(start: State, before: seq<Step>, p: ProcId, pass: seq<Step>)
    requires Init(start) && IsRun(start, before) && At(After(start, before), p, Claimed)
    requires IsPass(After(start, before), p, pass)
    ensures var s := After(start, before);
            IsRun(s, pass) && RanAs(After(s, pass), |s.audit|, LeftIt(pass, p))
  {
    var s := After(start, before);
    StartIsKept(start);
    RunKeepsRefusals(start, before);
    StartClaimed(s, p);
    PassIsRun(s, p, pass);
    hide CanStep, Do, Kept, AnyRejected, IsPass, IsRun, After, RanAs, LeftIt;
    LivePass(s, p, pass, |s.audit|);
  }

  // ----- Recorded refused -----

  /** Since it was last set, a run was refused before anything was signed. */
  predicate RefusedEarlyIn(steps: seq<Step>) {
    exists i | 0 <= i < |steps| :: steps[i].RefuseEarly? && forall j | i < j < |steps| :: !steps[j].Set?
  }

  lemma StepRefuses(s: State, step: Step)
    requires Kept(s) && CanStep(s, step) && StatusIs(Do(s, step), Refused)
    ensures step.RefuseEarly? || AnyRejected(Do(s, step)) || (StatusIs(s, Refused) && !step.Set?)
  {
    if step.FindRejected? {
      SameAuditSameRefusals(s, Do(s, step));
    }
  }

  lemma {:induction false} RefusedSince(s: State, steps: seq<Step>)
    requires Kept(s) && IsRun(s, steps) && StatusIs(After(s, steps), Refused)
    ensures AnyRejected(After(s, steps)) || RefusedEarlyIn(steps) || (StatusIs(s, Refused) && NeverSets(steps))
    decreases |steps|
  {
    if steps != [] {
      var next := Do(s, steps[0]);
      StepKeepsRefusals(s, steps[0]);
      RunKeepsRefusals(next, steps[1..]);
      RefusedSince(next, steps[1..]);
      if StatusIs(next, Refused) {
        StepRefuses(s, steps[0]);
      }
      hide CanStep, Do, Kept, AnyRejected;
      if RefusedEarlyIn(steps[1..]) {
        var i :| 0 <= i < |steps[1..]| && steps[1..][i].RefuseEarly? && forall j | i < j < |steps[1..]| :: !steps[1..][j].Set?;
        assert steps[i + 1].RefuseEarly? && forall j | i + 1 < j < |steps| :: !steps[j].Set? by {
          forall j | i + 1 < j < |steps| ensures !steps[j].Set? {
            assert !steps[1..][j - 1].Set?;
          }
        }
      } else if StatusIs(next, Refused) && NeverSets(steps[1..]) {
        forall j | 0 < j < |steps| ensures !steps[j].Set? {
          assert !steps[1..][j - 1].Set?;
        }
        assert steps[0].RefuseEarly? ==> RefusedEarlyIn(steps);
      }
    }
  }

  /** A schedule is recorded refused only if a submission of it was refused, or nothing was signed when it ran. */
  lemma RefusedMeans(start: State, steps: seq<Step>)
    requires Init(start) && IsRun(start, steps) && StatusIs(After(start, steps), Refused)
    ensures var s := After(start, steps);
            && |s.fates| == |s.audit|
            && ((exists i | 0 <= i < |s.audit| :: s.audit[i].outcome.Rejected? && s.fates[i].Turned?) || RefusedEarlyIn(steps))
  {
    StartIsKept(start);
    RunKeepsRefusals(start, steps);
    RefusedSince(start, steps);
    var s := After(start, steps);
    if AnyRejected(s) {
      var i :| 0 <= i < |s.audit| && s.audit[i].outcome.Rejected?;
      assert s.fates[i].Turned?;
    }
  }

  // ----- Cancelled, or over -----

  predicate Over(s: State) {
    StatusIs(s, Cancelled) || StatusIs(s, Refused) || StatusIs(s, Finished)
  }

  lemma OverStays(s: State, step: Step)
    requires Kept(s) && Over(s) && CanStep(s, step) && !step.Set?
    ensures Do(s, step).schedule == s.schedule && Do(s, step).audit == s.audit
  {
  }

  lemma {:induction false} OverIsFinal(s: State, steps: seq<Step>)
    requires Kept(s) && Over(s) && IsRun(s, steps) && NeverSets(steps)
    ensures After(s, steps).schedule == s.schedule && After(s, steps).audit == s.audit
    decreases |steps|
  {
    if steps != [] {
      OverStays(s, steps[0]);
      StepKeepsRefusals(s, steps[0]);
      hide CanStep, Do, Kept;
      OverIsFinal(Do(s, steps[0]), steps[1..]);
    }
  }

  /** Cancelled before it runs, a schedule is not run, nor anything submitted for it, until it is set again. */
  lemma ACancelledFinishNeverRuns(start: State, before: seq<Step>, later: seq<Step>)
    requires Init(start) && IsRun(start, before) && CanStep(After(start, before), Cancel)
    requires IsRun(Do(After(start, before), Cancel), later) && NeverSets(later)
    ensures var s := After(Do(After(start, before), Cancel), later);
            StatusIs(s, Cancelled) && s.audit == After(start, before).audit
  {
    var s := After(start, before);
    StartIsKept(start);
    RunKeepsRefusals(start, before);
    StepKeepsRefusals(s, Cancel);
    OverIsFinal(Do(s, Cancel), later);
  }

  // ----- A finish the ledger accepted -----

  /** A submission is accepted after a settling pass was told that the event is not finished. */
  predicate LandsBehind(s: State, step: Step) {
    step.Accept? && exists p | p in s.procs :: s.procs[p].Unfinished?
  }

  predicate NoneLandsBehind(s: State, steps: seq<Step>)
    requires IsRun(s, steps)
    decreases |steps|
  {
    steps == [] || (!LandsBehind(s, steps[0]) && NoneLandsBehind(Do(s, steps[0]), steps[1..]))
  }

  predicate AnyAccepted(s: State) {
    exists i | 0 <= i < |s.fates| :: s.fates[i].Accepted?
  }

  /** Once accepted, it is the last submission, and nobody is about to make another. */
  ghost predicate AcceptedOk(s: State)
    requires |s.fates| == |s.audit|
  {
    AnyAccepted(s) ==>
      && !AnyRejected(s) && s.fates[|s.fates| - 1].Accepted? && s.event.FinishedEvent?
      && (StatusIs(s, Running) || StatusIs(s, Finished))
      && (forall p | p in s.procs :: s.procs[p].Locked? || s.procs[p].Waiting? || s.procs[p].Recorded? || s.procs[p].Reading?)
  }

  lemma AcceptKeepsAccepted(s: State, i: nat)
    requires Inv(s) && CanStep(s, Accept(i)) && !LandsBehind(s, Accept(i))
    ensures AcceptedOk(Do(s, Accept(i)))
  {
    var s' := Do(s, Accept(i));
    assert MayLand(s, i);
    SameAuditSameRefusals(s, s');
    forall p | p in s'.procs ensures s'.procs[p].Locked? || s'.procs[p].Waiting? || s'.procs[p].Recorded? || s'.procs[p].Reading? {
      assert p in s.procs && s.procs[p] == s'.procs[p];
    }
  }

  lemma OthersAcceptNothing(s: State, step: Step)
    requires Inv(s) && CanStep(s, step) && !step.Accept?
    ensures |Do(s, step).fates| == |Do(s, step).audit| && (AnyAccepted(Do(s, step)) ==> AnyAccepted(s))
  {
    var s' := Do(s, step);
    if AnyAccepted(s') {
      var i :| 0 <= i < |s'.fates| && s'.fates[i].Accepted?;
      assert i < |s.fates| && s.fates[i].Accepted?;
    }
  }

  lemma OthersKeepAccepted(s: State, step: Step)
    requires Inv(s) && AcceptedOk(s) && CanStep(s, step) && FirstRefusal(s, step) && !step.Accept?
    ensures |Do(s, step).fates| == |Do(s, step).audit| && AcceptedOk(Do(s, step))
  {
    OthersAcceptNothing(s, step);
    hide AnyAccepted;
  }

  lemma StepKeepsAccepted(s: State, step: Step)
    requires Inv(s) && AcceptedOk(s) && CanStep(s, step) && FirstRefusal(s, step) && !LandsBehind(s, step)
    ensures |Do(s, step).fates| == |Do(s, step).audit| && AcceptedOk(Do(s, step))
  {
    hide AcceptedOk, LandsBehind;
    if step.Accept? {
      AcceptKeepsAccepted(s, step.i);
    } else {
      OthersKeepAccepted(s, step);
    }
  }

  lemma {:induction false} RunKeepsAccepted(s: State, steps: seq<Step>)
    requires Inv(s) && AcceptedOk(s) && IsRun(s, steps) && NotRefusedBefore(s, steps) && NoneLandsBehind(s, steps)
    ensures AcceptedOk(After(s, steps))
    decreases |steps|
  {
    hide CanStep, Do, FirstRefusal, LandsBehind;
    if steps != [] {
      StepKeepsInv(s, steps[0]);
      StepKeepsAccepted(s, steps[0]);
      hide Inv, AcceptedOk;
      RunKeepsAccepted(Do(s, steps[0]), steps[1..]);
    }
  }

  /**
    A schedule not set again after a refusal, none of whose submissions is accepted
    between a settling pass's question to the ledger and its end: once the ledger
    accepted one, the schedule is running or finished, no other was refused, and none is
    made any more.
   */
  lemma AnAcceptedFinishIsNeverRefused(start: State, steps: seq<Step>)
    requires Init(start) && IsRun(start, steps) && NotRefusedBefore(start, steps) && NoneLandsBehind(start, steps)
    ensures var s := After(start, steps);
            AnyAccepted(s) ==>
              && (StatusIs(s, Running) || StatusIs(s, Finished)) && !AnyRejected(s)
              && (forall p | p in s.procs :: !s.procs[p].Claimed? && !s.procs[p].Signing?)
  {
    StartIsKept(start);
    assert AcceptedOk(start);
    RunKeepsAccepted(start, steps);
  }

  // ----- When a pass may schedule a run again -----

  /** Unless it is set again or one lands behind a pass, an accepted finish is not recorded refused from here on. */
  ghost predicate AcceptedIsKept(s: State) {
    forall steps | IsRun(s, steps) && NeverSets(steps) && NoneLandsBehind(s, steps) :: !AcceptedYetRefused(After(s, steps))
  }

  predicate AcceptedYetRefused(s: State) {
    AnyAccepted(s) && StatusIs(s, Refused)
  }

  lemma NotYetKept(s: State)
    requires |s.fates| == |s.audit| && AcceptedYetRefused(s)
    ensures !AcceptedIsKept(s)
  {
    assert IsRun(s, []) && NeverSets([]) && NoneLandsBehind(s, []) && After(s, []) == s;
  }

  lemma KeptFrom(s: State, step: Step)
    requires |s.fates| == |s.audit| && CanStep(s, step) && !step.Set? && !step.Accept?
    requires !AcceptedIsKept(Do(s, step))
    ensures !AcceptedIsKept(s)
  {
    var rest :| IsRun(Do(s, step), rest) && NeverSets(rest) && NoneLandsBehind(Do(s, step), rest)
                && AcceptedYetRefused(After(Do(s, step), rest));
    hide CanStep, Do, AcceptedYetRefused;
    var steps := [step] + rest;
    assert steps[1..] == rest;
    assert IsRun(s, steps) && NeverSets(steps) && NoneLandsBehind(s, steps) && After(s, steps) == After(Do(s, step), rest);
  }

  /** Due again, and claimed, it may be refused before anything is signed. */
  lemma ADueOneMayBeRefused(s: State)
    requires |s.fates| == |s.audit| && s.lock.None? && s.procs == map[] && AnyAccepted(s)
    requires StatusIs(s, Scheduled) && s.schedule.value.noticed && s.schedule.value.finishAt <= s.now
    ensures !AcceptedIsKept(s)
  {
    var locked := Do(s, TakeLock(0));
    var claimed := Do(locked, Claim(0, s.now));
    var refused := Do(claimed, RefuseEarly(0));
    assert refused.fates == s.fates && refused.audit == s.audit && StatusIs(refused, Refused);
    hide AcceptedIsKept;
    NotYetKept(refused);
    KeptFrom(claimed, RefuseEarly(0));
    KeptFrom(locked, Claim(0, s.now));
    KeptFrom(s, TakeLock(0));
  }

  lemma AScheduledOneMayBeRefused(s: State)
    requires |s.fates| == |s.audit| && s.now - EXPIRY_MARGIN < s.ledgerClock && s.lock.None? && s.procs == map[]
    requires AnyAccepted(s) && StatusIs(s, Scheduled)
    ensures !AcceptedIsKept(s)
  {
    var finishAt := s.schedule.value.finishAt;
    var later := if s.now < s.ledgerClock then s.ledgerClock else s.now;
    var at := if later < finishAt then finishAt else later;
    var ticked := Do(s, Tick(at, at));
    hide AcceptedIsKept;
    if ticked.schedule.value.noticed {
      ADueOneMayBeRefused(ticked);
    } else {
      ADueOneMayBeRefused(Do(ticked, Notice));
      KeptFrom(ticked, Notice);
    }
    KeptFrom(s, Tick(at, at));
  }

  lemma SchedulingAgainIsSafe(s: State, p: ProcId)
    requires Inv(s) && CanStep(s, Resume(p)) && !AnyAccepted(s)
    ensures AcceptedIsKept(Do(s, Resume(p)))
  {
    var again := Do(s, Resume(p));
    StepKeepsInv(s, Resume(p));
    assert !AnyAccepted(again);
    forall steps | IsRun(again, steps) && NeverSets(steps) && NoneLandsBehind(again, steps)
      ensures !AcceptedYetRefused(After(again, steps))
    {
      NeverSetAgain(again, steps);
      RunKeepsAccepted(again, steps);
    }
  }

  /**
    Whenever a settling pass is about to schedule a run again: from then on, until it is
    set again and while none lands behind a later pass, an accepted finish is never
    recorded refused, exactly if none was accepted since the pass asked the ledger.
   */
  lemma SchedulingAgainIsSafeExactlyWhen(start: State, before: seq<Step>, p: ProcId)
    requires Init(start) && IsRun(start, before) && NotRefusedBefore(start, before)
    requires CanStep(After(start, before), Resume(p))
    ensures AcceptedIsKept(Do(After(start, before), Resume(p))) <==> !AnyAccepted(After(start, before))
  {
    var s := After(start, before);
    StartIsKept(start);
    RunKeepsInv(start, before);
    hide AcceptedIsKept;
    if AnyAccepted(s) {
      assert s.procs - {p} == map[];
      AScheduledOneMayBeRefused(Do(s, Resume(p)));
    } else {
      SchedulingAgainIsSafe(s, p);
    }
  }

  // ----- One accepted behind a settling pass -----

  const SENT := Audit(Pending, 1, 1001)
  const AGAIN := Audit(Pending, 61001, 62001)
  const TURNED_DOWN := Audit(Rejected, 61001, 62001)

  /** Set for once, to fall due. */
  function JustSet(): State {
    Scene(0, Plan(Scheduled, 1, false), [], [], None)
  }

  /** The ledger's clock is just within the margin behind, and the event is finished once the first submission is accepted. */
  function Late(now: int, status: Status, audit: seq<Audit>, fates: seq<Fate>, proc: Option<Proc>): State {
    State(now, now - 59999, 1000, if Accepted in fates then FinishedEvent else Selling, Plan(status, 1, true), audit, fates,
          if proc.Some? then Some(0) else None, if proc.Some? then map[0 := proc.value] else map[])
  }

  /** Its submission is sent, and its scheduler stops; the ledger takes its time. */
  lemma ItIsSentAndLeft()
    ensures RunsTo(JustSet(), Late(61000, Running, [SENT], [InFlight], None))
  {
    var w := Setting(1, 1000, Selling, 1);
    RunsToItself(JustSet());
    ItFallsDue(JustSet(), 1);
    hide RunsTo;
    Next(JustSet(), JustSet(), Tick(1, 1), View(w, Scheduled, false, [], [], None));
    Next(JustSet(), View(w, Scheduled, false, [], [], None), Notice, View(w, Scheduled, true, [], [], None));
    ItRuns(JustSet(), w, [], []);
    var sent := View(w, Running, true, [SENT], [InFlight], None);
    assert [] + [Latest(w)] == [SENT] && [] + [InFlight] == [InFlight];
    assert Goes(sent, Tick(61000, 1001), Late(61000, Running, [SENT], [InFlight], None));
    Next(JustSet(), sent, Tick(61000, 1001), Late(61000, Running, [SENT], [InFlight], None));
  }

  lemma ASettlingPassReads()
    ensures RunsTo(JustSet(), Late(61000, Running, [SENT], [InFlight], Some(Reading)))
  {
    var s := JustSet();
    ItIsSentAndLeft();
    hide RunsTo, JustSet;
    Next(s, Late(61000, Running, [SENT], [InFlight], None), TakeLock(0), Late(61000, Running, [SENT], [InFlight], Some(Locked)));
    Next(s, Late(61000, Running, [SENT], [InFlight], Some(Locked)), FindRunning(0),
         Late(61000, Running, [SENT], [InFlight], Some(Reading)));
  }

  /** The pass is told that the event is not finished, and only then the submission is accepted. */
  lemma ItLandsBehind()
    ensures RunsTo(JustSet(), Late(61000, Running, [SENT], [Accepted], Some(Unfinished)))
  {
    var s := JustSet();
    ASettlingPassReads();
    hide RunsTo, JustSet;
    Next(s, Late(61000, Running, [SENT], [InFlight], Some(Reading)), AskLedger(0),
         Late(61000, Running, [SENT], [InFlight], Some(Unfinished)));
    Next(s, Late(61000, Running, [SENT], [InFlight], Some(Unfinished)), Accept(0),
         Late(61000, Running, [SENT], [Accepted], Some(Unfinished)));
  }

  /** By the clock the pass reads then, nothing of the run can land any more. */
  lemma ItIsScheduledAgain()
    ensures RunsTo(JustSet(), Late(61001, Scheduled, [SENT], [Accepted], None))
  {
    var s := JustSet();
    ItLandsBehind();
    hide RunsTo, JustSet;
    Next(s, Late(61000, Running, [SENT], [Accepted], Some(Unfinished)), Tick(61001, 1002),
         Late(61001, Running, [SENT], [Accepted], Some(Unfinished)));
    Next(s, Late(61001, Running, [SENT], [Accepted], Some(Unfinished)), FindStale(0),
         Late(61001, Running, [SENT], [Accepted], Some(Stale(61001))));
    assert map[0 := Stale(61001)] - {0} == map[];
    Next(s, Late(61001, Running, [SENT], [Accepted], Some(Stale(61001))), Resume(0),
         Late(61001, Scheduled, [SENT], [Accepted], None));
  }

  lemma ItIsClaimedAgain()
    ensures RunsTo(JustSet(), Late(61001, Running, [SENT], [Accepted], Some(Claimed)))
  {
    var s := JustSet();
    ItIsScheduledAgain();
    hide RunsTo, JustSet;
    Next(s, Late(61001, Scheduled, [SENT], [Accepted], None), TakeLock(0), Late(61001, Scheduled, [SENT], [Accepted], Some(Locked)));
    Next(s, Late(61001, Scheduled, [SENT], [Accepted], Some(Locked)), Claim(0, 61001),
         Late(61001, Running, [SENT], [Accepted], Some(Claimed)));
  }

  lemma ItIsSubmittedAgain()
    ensures RunsTo(JustSet(), Late(61001, Running, [SENT, AGAIN], [Accepted, InFlight], Some(Waiting(1))))
  {
    var s := JustSet();
    ItIsClaimedAgain();
    hide RunsTo, JustSet;
    assert [SENT] + [AGAIN] == [SENT, AGAIN] && [Accepted] + [Unsent] == [Accepted, Unsent];
    Next(s, Late(61001, Running, [SENT], [Accepted], Some(Claimed)), WriteAudit(0, 62001),
         Late(61001, Running, [SENT, AGAIN], [Accepted, Unsent], Some(Signing(1))));
    Next(s, Late(61001, Running, [SENT, AGAIN], [Accepted, Unsent], Some(Signing(1))), Send(0),
         Late(61001, Running, [SENT, AGAIN], [Accepted, InFlight], Some(Waiting(1))));
  }

  lemma ItIsRefusedInTheEnd()
    ensures RunsTo(JustSet(), Late(61001, Refused, [SENT, TURNED_DOWN], [Accepted, Turned], None))
  {
    var s := JustSet();
    ItIsSubmittedAgain();
    hide RunsTo, JustSet;
    Next(s, Late(61001, Running, [SENT, AGAIN], [Accepted, InFlight], Some(Waiting(1))), Turn(1),
         Late(61001, Running, [SENT, AGAIN], [Accepted, Turned], Some(Waiting(1))));
    Next(s, Late(61001, Running, [SENT, AGAIN], [Accepted, Turned], Some(Waiting(1))), Verdict(0, Rejected),
         Late(61001, Running, [SENT, TURNED_DOWN], [Accepted, Turned], Some(Recorded(1))));
    assert map[0 := Recorded(1)] - {0} == map[];
    Next(s, Late(61001, Running, [SENT, TURNED_DOWN], [Accepted, Turned], Some(Recorded(1))), Conclude(0),
         Late(61001, Refused, [SENT, TURNED_DOWN], [Accepted, Turned], None));
  }

  /**
    A settling pass asks the ledger first and reads the clock last. A submission accepted
    in between, at the very end of its lifetime, is taken for one that never landed: the
    schedule runs again, and what finished the event is recorded refused.
   */
  lemma AnAcceptedFinishMayBeRefused()
    ensures exists start, finishAt, steps ::
              && Init(start) && CanStep(start, Set(finishAt)) && IsRun(Do(start, Set(finishAt)), steps) && NeverSets(steps)
              && AnyAccepted(After(Do(start, Set(finishAt)), steps)) && StatusIs(After(Do(start, Set(finishAt)), steps), Refused)
  {
    ItIsRefusedInTheEnd();
    var start, s := Scene(0, None, [], [], None), Late(61001, Refused, [SENT, TURNED_DOWN], [Accepted, Turned], None);
    assert Init(start) && CanStep(start, Set(1)) && Do(start, Set(1)) == JustSet();
    var steps :| IsRun(JustSet(), steps) && NeverSets(steps) && After(JustSet(), steps) == s;
    assert s.fates[0].Accepted?;
    assert AnyAccepted(s) && StatusIs(s, Refused);
    hide IsRun, After, Init, NeverSets, AnyAccepted, StatusIs, JustSet, Late;
  }
}
