/**
  Capacity counted by status alone. A capacity decrease writes its bound to the
  ledger before the lapses it counted on are committed; if it is rolled back in
  between, holds past their lifetime are again recorded as outstanding, above the
  bound. Otherwise even the holds merely recorded as outstanding fit.
 */
module SaleStatusCount {
  import opened Common
  import opened Allocation
  import opened SaleProtocol
  import opened SaleLocks
  import opened SaleRoom
  import opened SaleQuiet
  import opened SaleProgress
  import opened SaleCommit
  import opened SaleSafety
  import opened SaleRuns

  /** The lapses a decrease has still to commit, its bound already on the ledger. */
  function Owed(s: State): set<HoldId> {
    if s.lock.Some? && In(s, s.lock.value, Written) then s.txns[s.lock.value].a.gone else {}
  }

  predicate FitsByStatus(s: State, owed: set<HoldId>) {
    Bounded(s.ledger, |LiveHolds(Lapsing(s.holds, owed))| + |CountedGrants(s.grants)|)
  }

  /** Everything recorded fits, but for lapses still to be committed. */
  predicate ByStatus(s: State) {
    FitsByStatus(s, Owed(s))
  }

  // ----- Steps outside the lock -----

  lemma EasingFits(s: State, s': State, owed: set<HoldId>)
    requires Eased(s, s') && FitsByStatus(s, owed)
    ensures FitsByStatus(s', owed)
  {
    assert forall h | h in s'.holds :: Eases(s.now, h in BeingPaid(s.txns), s.holds[h], s'.holds[h]);
    SubsetIsSmaller(LiveHolds(Lapsing(s'.holds, owed)), LiveHolds(Lapsing(s.holds, owed)));
    SubsetIsSmaller(CountedGrants(s'.grants), CountedGrants(s.grants));
  }

  lemma QuietKeepsByStatus(s: State, s': State)
    requires Locks(s) && Quiet(s, s') && ByStatus(s) && s'.lock == s.lock
    requires forall t | t in s.txns && s.txns[t].Allocating? :: t in s'.txns && s'.txns[t] == s.txns[t]
    ensures ByStatus(s')
  {
    EasingFits(s, s', Owed(s));
    assert Owed(s') == Owed(s);
  }

  // ----- Progress under the lock -----

  /** The step is not the loss of a decrease whose bound is on the ledger. */
  predicate LosesNoDecrease(s: State, step: Step) {
    step.InProgress? && step.progress.DoAbort? ==> !In(s, step.progress.t, Written)
  }

  lemma ProgressKeepsByStatus(s: State, step: Progress)
    requires Locks(s) && ByStatus(s) && ProgressEnabled(s, step) && LosesNoDecrease(s, InProgress(step))
    ensures ByStatus(ApplyProgress(s, step))
  {
    hide ApplyProgress, ProgressEnabled;
    ProgressKeepsTables(s, step);
    ProgressKeepsOwed(s, step);
  }

  lemma ProgressKeepsTables(s: State, step: Progress)
    requires ProgressEnabled(s, step)
    ensures var s' := ApplyProgress(s, step); s'.holds == s.holds && s'.grants == s.grants && s'.ledger == s.ledger
  {
  }

  lemma ProgressKeepsOwed(s: State, step: Progress)
    requires Locks(s) && ProgressEnabled(s, step) && LosesNoDecrease(s, InProgress(step))
    ensures Owed(ApplyProgress(s, step)) == Owed(s)
  {
    hide Unlocked;
  }

  // ----- Commits -----

  /** After the commit nobody holds the lock, and nothing is owed. */
  lemma CommitOwesNothing(s: State, step: Commit)
    requires Locks(s) && CommitEnabled(s, step) && !step.DoShrink?
    ensures Owed(ApplyCommit(s, step)) == {} && (!step.DoKeepShrink? ==> Owed(s) == {})
  {
    hide Unlocked, PlaceFree, PlaceTaken, PlaceRefused, RoomSeen, AllocatedCount, CountsSeen, QuotaHasRoom,
      Lapsing, EndHold, SetHold, Entitle;
  }

  lemma LapsingNothing(holds: Holds)
    ensures Lapsing(holds, {}) == holds
  {
  }

  lemma HoldFitsByStatus(ledger: Ledger, quotas: Quotas, a: Alloc, cls: ClassId, seat: Option<SeatId>,
                         holds: Holds, grants: Grants, h: HoldId)
    requires h in holds && OnTop(a, holds, h) && GrantsWithin(a, grants)
    requires Bounded(ledger, |LiveHolds(a.holds)| + |CountedGrants(a.grants)|)
    requires InSnapshot(a, holds, h)
             || exists issued: nat :: CapacityHasRoom(ledger.capacity, issued, CountsOf(a.holds, a.grants, quotas, cls, seat))
    ensures Bounded(ledger, |LiveHolds(holds)| + |CountedGrants(grants)|)
  {
    SubsetIsSmaller(CountedGrants(grants), CountedGrants(a.grants));
    if InSnapshot(a, holds, h) {
      SubsetIsSmaller(LiveHolds(holds), LiveHolds(a.holds));
    } else {
      SubsetIsSmaller(LiveHolds(holds), LiveHolds(a.holds) + {h});
      var issued: nat :| CapacityHasRoom(ledger.capacity, issued, CountsOf(a.holds, a.grants, quotas, cls, seat));
      if ledger.capacity.Some? {
        CapacityRoomMeans(a.holds, a.grants, quotas, cls, seat, ledger.capacity.value, issued);
      }
    }
  }

  lemma PlaceFitsByStatus(s: State, t: TxnId)
    requires Windows(s) && CanPlace(s, t)
    ensures FitsByStatus(Place(s, t), {})
  {
    var a := s.txns[t].a;
    assert WindowIn(s, a);
    var s' := Place(s, t);
    LapsedTop(s, t, a.goal.hold, s'.holds[a.goal.hold]);
    HoldFitsByStatus(s.ledger, s.quotas, a, a.goal.cls, a.goal.seat, s'.holds, s.grants, a.goal.hold);
    LapsingNothing(s'.holds);
  }

  lemma SellFitsByStatus(s: State, t: TxnId, x: SaleId)
    requires Windows(s) && CanSell(s, t, x)
    ensures FitsByStatus(Sell(s, t, x), {})
  {
    var a := s.txns[t].a;
    assert WindowIn(s, a);
    var s' := Sell(s, t, x);
    LapsedTop(s, t, a.goal.hold, s'.holds[a.goal.hold]);
    HoldFitsByStatus(s.ledger, s.quotas, a, a.goal.cls, a.goal.seat, s'.holds, s.grants, a.goal.hold);
    LapsingNothing(s'.holds);
  }

  lemma ReserveFitsByStatus(s: State, t: TxnId)
    requires Windows(s) && CanReserve(s, t)
    ensures FitsByStatus(Reserve(s, t), {})
  {
    var a := s.txns[t].a;
    assert WindowIn(s, a);
    var s' := Reserve(s, t);
    LapsingNothing(s'.holds);
    ReservedOnTop(s, t);
    if s.ledger.status.Active? && s.ledger.capacity.Some? {
      CapacityRoomMeans(a.holds, a.grants, s.quotas, a.goal.cls, a.goal.seat, s.ledger.capacity.value, a.view.value.issued);
    }
  }

  /** The new bound holds what is left once the decrease's lapses are committed. */
  lemma ShrinkKeepsByStatus(s: State, t: TxnId)
    requires Locks(s) && Windows(s) && CanShrink(s, t)
    ensures ByStatus(Shrink(s, t))
  {
    var a := s.txns[t].a;
    assert WindowIn(s, a);
    var s' := Shrink(s, t);
    assert Owed(s') == a.gone;
    if s.ledger.status.Active? {
      AllocatedCountMeans(a.holds, a.grants, s.quotas, 0, None, a.view.value.issued, a.goal.to);
      SubsetIsSmaller(LiveHolds(Lapsing(s.holds, a.gone)), LiveHolds(a.holds));
      SubsetIsSmaller(CountedGrants(s.grants), CountedGrants(a.grants));
    }
  }

  lemma KeepShrinkKeepsByStatus(s: State, t: TxnId)
    requires Locks(s) && ByStatus(s) && CanKeepShrink(s, t)
    ensures FitsByStatus(CommitLapses(s, t), {})
  {
    LapsingNothing(CommitLapses(s, t).holds);
  }

  lemma RaiseFitsByStatus(s: State, t: TxnId)
    requires FitsByStatus(s, {}) && CanRaise(s, t)
    ensures FitsByStatus(Raise(s, t), {})
  {
  }

  lemma CommitKeepsByStatus(s: State, step: Commit)
    requires Locks(s) && Windows(s) && ByStatus(s) && CommitEnabled(s, step)
    ensures ByStatus(ApplyCommit(s, step))
  {
    if step.DoShrink? {
      ShrinkKeepsByStatus(s, step.t);
    } else {
      CommitOwesNothing(s, step);
      match step {
        case DoPlace(t) => PlaceFitsByStatus(s, t);
        case DoSell(t, x) => SellFitsByStatus(s, t, x);
        case DoReserve(t) => ReserveFitsByStatus(s, t);
        case DoKeepShrink(t) => KeepShrinkKeepsByStatus(s, t);
        case DoRaise(t) => RaiseFitsByStatus(s, t);
        case DoPlaceNothing(_) => LapsingCommitEases(s, step); EasingFits(s, ApplyCommit(s, step), {});
        case DoMiss(_) => LapsingCommitEases(s, step); EasingFits(s, ApplyCommit(s, step), {});
        case DoSkip(t) => PlainCommitEases(s, step); EasingFits(s, Skip(s, t), {});
        case DoTurnAway(t, at, reason) => PlainCommitEases(s, step); EasingFits(s, TurnAway(s, t, at, reason), {});
        case DoClose(t) => PlainCommitEases(s, step); EasingFits(s, Close(s, t), {});
        case _ =>
      }
      hide ApplyCommit, CommitEnabled, LocksOk, Windows, Owed, FitsByStatus;
    }
  }

  // ----- Every run that loses no decrease -----

  lemma QuietStep(s: State, step: Step)
    requires Safe(s) && Enabled(s, step) && !step.InProgress? && !step.InCommit?
    ensures var s' := Apply(s, step);
            && Quiet(s, s') && s'.lock == s.lock
            && forall t | t in s.txns && s.txns[t].Allocating? :: t in s'.txns && s'.txns[t] == s.txns[t]
  {
    match step {
      case AtDesk(p) => DeskIsQuiet(s, p); DeskLock(s, p);
      case AtTill(p) => TillIsQuiet(s, p); TillLock(s, p);
      case InWorld(p) => WorldIsQuiet(s, p); WorldLock(s, p);
      case InLedger(p) => OutcomeIsQuiet(s, p); OutcomeLock(s, p);
    }
    hide Safe, ApplyDesk, ApplyTill, ApplyWorld, ApplyOutcome, DeskEnabled, TillEnabled, WorldEnabled,
      OutcomeEnabled, Quiet;
  }

  lemma DeskLock(s: State, step: Desk)
    requires DeskEnabled(s, step)
    ensures var s' := ApplyDesk(s, step); s'.lock == s.lock && s'.txns == s.txns
  {
  }

  lemma TillLock(s: State, step: Till)
    requires Locks(s) && TillEnabled(s, step)
    ensures var s' := ApplyTill(s, step);
            s'.lock == s.lock && forall t | t in s.txns && s.txns[t].Allocating? :: t in s'.txns && s'.txns[t] == s.txns[t]
  {
    hide Unlocked, NoOtherOpen, CancelRemote, RetiredRows, EndedRows, HoldsEnded;
  }

  lemma WorldLock(s: State, step: World)
    requires WorldEnabled(s, step)
    ensures var s' := ApplyWorld(s, step); s'.lock == s.lock && s'.txns == s.txns
  {
  }

  lemma OutcomeLock(s: State, step: Outcome)
    requires OutcomeEnabled(s, step)
    ensures var s' := ApplyOutcome(s, step); s'.lock == s.lock && s'.txns == s.txns
  {
  }

  /** Every decrease whose bound reached the ledger commits. */
  predicate KeepsDecreases(s: State, steps: seq<Step>)
    requires IsRun(s, steps)
    decreases |steps|
  {
    steps == [] || (LosesNoDecrease(s, steps[0]) && KeepsDecreases(Apply(s, steps[0]), steps[1..]))
  }

  lemma StepKeepsByStatus(s: State, step: Step)
    requires Safe(s) && ByStatus(s) && Enabled(s, step) && LosesNoDecrease(s, step)
    ensures ByStatus(Apply(s, step))
  {
    if step.InProgress? {
      ProgressKeepsByStatus(s, step.progress);
    } else if step.InCommit? {
      CommitKeepsByStatus(s, step.commit);
    } else {
      QuietStep(s, step);
      hide Apply, Enabled, Quiet, ByStatus, LosesNoDecrease;
      QuietKeepsByStatus(s, Apply(s, step));
    }
  }

  lemma {:induction false} RunKeepsByStatus(s: State, steps: seq<Step>)
    requires Safe(s) && ByStatus(s) && IsRun(s, steps) && KeepsDecreases(s, steps)
    ensures ByStatus(After(s, steps))
    decreases |steps|
  {
    hide Safe, ByStatus, Enabled, Apply, LosesNoDecrease;
    if steps != [] {
      StepKeepsByStatus(s, steps[0]);
      StepKeepsSafe(s, steps[0]);
      RunKeepsByStatus(Apply(s, steps[0]), steps[1..]);
    }
  }

  /** While every decrease commits, what is recorded never exceeds the capacity, between decreases. */
  lemma RecordedFitsCapacity(start: State, steps: seq<Step>)
    requires Init(start) && IsRun(start, steps) && KeepsDecreases(start, steps)
    ensures var s := After(start, steps);
            ByStatus(s) && (Owed(s) == {} ==> Bounded(s.ledger, |LiveHolds(s.holds)| + |CountedGrants(s.grants)|))
  {
    InitIsSafe(start);
    assert LiveHolds(Lapsing(start.holds, Owed(start))) == {};
    assert CountedGrants(start.grants) == {};
    RunKeepsByStatus(start, steps);
    LapsingNothing(After(start, steps).holds);
  }

  // ----- Decreases that count before they lapse -----

  /** What is recorded before the decrease's own lapses fits the bound it writes. */
  predicate Covers(s: State, t: TxnId)
    requires CanShrink(s, t)
  {
    s.ledger.status.Active? ==> |LiveHolds(s.holds)| + |CountedGrants(s.grants)| <= s.txns[t].a.goal.to
  }

  /** Every decrease written covers what is recorded when it is. */
  predicate CoveringDecreases(s: State, steps: seq<Step>)
    requires IsRun(s, steps)
    decreases |steps|
  {
    steps == [] || (CoveringDecrease(s, steps[0]) && CoveringDecreases(Apply(s, steps[0]), steps[1..]))
  }

  predicate CoveringDecrease(s: State, step: Step)
    requires Enabled(s, step)
  {
    step.InCommit? && step.commit.DoShrink? ==> Covers(s, step.commit.t)
  }

  lemma ShrinkFits(s: State, t: TxnId)
    requires CanShrink(s, t)
    ensures FitsByStatus(Shrink(s, t), {}) <==> Covers(s, t)
  {
    LapsingNothing(s.holds);
  }

  lemma AbortFits(s: State, t: TxnId)
    requires CanAbort(s, t)
    ensures FitsByStatus(Abort(s, t), {}) <==> FitsByStatus(s, {})
  {
  }

  lemma ProgressFits(s: State, step: Progress)
    requires FitsByStatus(s, {}) && ProgressEnabled(s, step)
    ensures FitsByStatus(ApplyProgress(s, step), {})
  {
    hide ApplyProgress, ProgressEnabled;
    ProgressKeepsTables(s, step);
  }

  lemma CommitFits(s: State, step: Commit)
    requires Windows(s) && FitsByStatus(s, {}) && CommitEnabled(s, step)
    requires step.DoShrink? ==> Covers(s, step.t)
    ensures FitsByStatus(ApplyCommit(s, step), {})
  {
    match step {
      case DoPlace(t) => PlaceFitsByStatus(s, t);
      case DoSell(t, x) => SellFitsByStatus(s, t, x);
      case DoReserve(t) => ReserveFitsByStatus(s, t);
      case DoShrink(t) => ShrinkFits(s, t);
      case DoRaise(t) => RaiseFitsByStatus(s, t);
      case DoPlaceNothing(_) => LapsingCommitEases(s, step); EasingFits(s, ApplyCommit(s, step), {});
      case DoMiss(_) => LapsingCommitEases(s, step); EasingFits(s, ApplyCommit(s, step), {});
      case DoKeepShrink(_) => LapsingCommitEases(s, step); EasingFits(s, ApplyCommit(s, step), {});
      case DoSkip(t) => PlainCommitEases(s, step); EasingFits(s, Skip(s, t), {});
      case DoTurnAway(t, at, reason) => PlainCommitEases(s, step); EasingFits(s, TurnAway(s, t, at, reason), {});
      case DoClose(t) => PlainCommitEases(s, step); EasingFits(s, Close(s, t), {});
    }
    hide ApplyCommit, CommitEnabled, Windows, FitsByStatus, Covers;
  }

  lemma StepFits(s: State, step: Step)
    requires Safe(s) && FitsByStatus(s, {}) && Enabled(s, step) && CoveringDecrease(s, step)
    ensures FitsByStatus(Apply(s, step), {})
  {
    if step.InProgress? {
      ProgressFits(s, step.progress);
    } else if step.InCommit? {
      CommitFits(s, step.commit);
    } else {
      QuietStep(s, step);
      hide Apply, Enabled, FitsByStatus, CoveringDecrease;
      EasingFits(s, Apply(s, step), {});
    }
  }

  lemma {:induction false} RunFits(s: State, steps: seq<Step>)
    requires Safe(s) && FitsByStatus(s, {}) && IsRun(s, steps) && CoveringDecreases(s, steps)
    ensures FitsByStatus(After(s, steps), {})
    decreases |steps|
  {
    hide Safe, FitsByStatus, Enabled, Apply, CoveringDecrease;
    if steps != [] {
      StepFits(s, steps[0]);
      StepKeepsSafe(s, steps[0]);
      RunFits(Apply(s, steps[0]), steps[1..]);
    }
  }

  /** When every decrease covers what is recorded, the losses included, what is recorded always fits. */
  lemma CoveringDecreasesFit(start: State, steps: seq<Step>)
    requires Init(start) && IsRun(start, steps) && CoveringDecreases(start, steps)
    ensures FitsByStatus(After(start, steps), {})
  {
    InitIsSafe(start);
    assert LiveHolds(Lapsing(start.holds, {})) == {};
    assert CountedGrants(start.grants) == {};
    hide Safe, IsRun, After, FitsByStatus, CoveringDecreases;
    RunFits(start, steps);
  }

  /** What is recorded fits from here on, whenever no lapse is still to be committed, while further decreases cover. */
  ghost predicate KeepsFitting(s: State) {
    forall steps | IsRun(s, steps) && CoveringDecreases(s, steps) && Owed(After(s, steps)) == {} ::
      FitsByStatus(After(s, steps), {})
  }

  /** The write is lost next. */
  lemma LosingIt(s: State, t: TxnId)
    requires Locks(s) && CanShrink(s, t) && KeepsFitting(Shrink(s, t))
    ensures Covers(s, t)
  {
    var s1, step := Shrink(s, t), InProgress(DoAbort(t));
    AbortRuns(s1, t);
    assert s1.lock == Some(t);
    assert Owed(Abort(s1, t)) == {};
    hide CanShrink, Shrink, Abort, IsRun, After, CoveringDecreases, FitsByStatus, Covers, Owed;
    assert IsRun(s1, [step]);
    AbortFits(s1, t);
    ShrinkFits(s, t);
  }

  lemma AbortRuns(s: State, t: TxnId)
    requires CanAbort(s, t)
    ensures var step := InProgress(DoAbort(t));
            IsRun(s, [step]) && After(s, [step]) == Abort(s, t) && CoveringDecreases(s, [step])
  {
    var step := InProgress(DoAbort(t));
    assert Enabled(s, step) && Apply(s, step) == Abort(s, t);
    hide Enabled, Apply, Abort;
    assert [step][1..] == [];
    assert CoveringDecrease(s, step);
  }

  lemma ShrinkKeepsSafe(s: State, t: TxnId)
    requires Safe(s) && CanShrink(s, t)
    ensures Safe(Shrink(s, t))
  {
    hide Safe, Shrink, CanShrink;
    CommitKeepsSafe(s, DoShrink(t));
  }

  lemma FittingKeepsFitting(s: State)
    requires Safe(s) && FitsByStatus(s, {})
    ensures KeepsFitting(s)
  {
    hide Safe, IsRun, After, FitsByStatus, CoveringDecreases, Owed;
    forall steps | IsRun(s, steps) && CoveringDecreases(s, steps) ensures FitsByStatus(After(s, steps), {}) {
      RunFits(s, steps);
    }
  }

  /**
    A decrease written to the ledger of an event on sale: on every run from there, its
    own loss included, what is recorded fits the capacity, exactly when it covered what
    was recorded before its lapses.
   */
  lemma LostDecreaseFitsExactlyWhen(s: State, t: TxnId)
    requires Safe(s) && CanShrink(s, t) && s.ledger.status.Active?
    ensures KeepsFitting(Shrink(s, t)) <==> |LiveHolds(s.holds)| + |CountedGrants(s.grants)| <= s.txns[t].a.goal.to
  {
    assert Locks(s);
    hide Safe, KeepsFitting, Shrink, FitsByStatus, CanShrink, LiveHolds, CountedGrants, LocksOk;
    if Covers(s, t) {
      ShrinkKeepsSafe(s, t);
      ShrinkFits(s, t);
      FittingKeepsFitting(Shrink(s, t));
    } else if KeepsFitting(Shrink(s, t)) {
      LosingIt(s, t);
    }
  }

  // ----- A run that loses one -----

  /** The decrease's transaction, the hold's row locked once it is swept. */
  function Shrunk(stage: Stage, at: int, gone: set<HoldId>, holds: Holds, view: Option<View>): Txn {
    Allocating(Alloc(ToShrink(0), stage, at, gone, holds, map[], view, None, None))
  }

  function Shrinking(rows: map<HoldId, TxnId>, capacity: Option<nat>, txn: Txn): State {
    Held().(now := HOLD_LIFETIME, lock := Some(1), rows := rows, ledger := Ledger(Active, capacity), txns := map[1 := txn])
  }

  const LAPSED: Holds := map[0 := Hold(0, None, PRICE, Lapsed, HOLD_LIFETIME, false)]

  function ShrinkWaiting(): State {
    Held().(now := HOLD_LIFETIME, txns := map[1 := Shrunk(Waiting, 0, {}, map[], None)])
  }

  function ShrinkEntered(): State {
    Shrinking(map[], None, Shrunk(Entered, 0, {}, map[], None))
  }

  function ShrinkTimed(): State {
    Shrinking(map[], None, Shrunk(Timed, HOLD_LIFETIME, {}, map[], None))
  }

  function ShrinkSwept(): State {
    Shrinking(map[0 := 1], None, Shrunk(Swept, HOLD_LIFETIME, {0}, map[], None))
  }

  function ShrinkCounted(view: Option<View>): State {
    Shrinking(map[0 := 1], None, Shrunk(Stage.Counted, HOLD_LIFETIME, {0}, LAPSED, view))
  }

  function ShrinkWritten(): State {
    Shrinking(map[0 := 1], Some(0), Shrunk(Written, HOLD_LIFETIME, {0}, LAPSED, SEEN))
  }

  lemma ShrinkingBegins()
    ensures Goes(Held(), InWorld(DoTick(HOLD_LIFETIME)), Held().(now := HOLD_LIFETIME))
    ensures Goes(Held().(now := HOLD_LIFETIME), InProgress(DoBegin(1, ToShrink(0))), ShrinkWaiting())
  {
  }

  lemma ShrinkingStarts()
    ensures Goes(ShrinkWaiting(), InProgress(DoEnter(1)), ShrinkEntered())
    ensures Goes(ShrinkEntered(), InProgress(DoReadClock(1)), ShrinkTimed())
  {
  }

  lemma ShrinkingSweeps()
    ensures Goes(ShrinkTimed(), InProgress(DoSweep(1)), ShrinkSwept())
  {
    assert ExpiredHolds(Held().holds, HOLD_LIFETIME) == {0};
    assert LockedToo(map[], {0}, 1) == map[0 := 1];
    hide ExpiredHolds, LockedToo;
  }

  lemma ShrinkingCounts()
    ensures Goes(ShrinkSwept(), InProgress(DoCount(1)), ShrinkCounted(None))
  {
    assert Lapsing(Held().holds, {0}) == LAPSED;
    hide Lapsing;
  }

  lemma ShrinkingLooks()
    ensures Goes(ShrinkCounted(None), InProgress(DoLook(1)), ShrinkCounted(SEEN))
  {
    assert LandedClaims(map[]) == {};
  }

  lemma NothingLeft()
    ensures AllocatedCount(0, CountsOf(LAPSED, map[], map[], 0, None)) == 0
  {
    CountsAddUp(LAPSED, 0);
    assert LiveHolds(LAPSED) == {} && CountedGrants(map[]) == {};
  }

  lemma ShrinkingWrites()
    ensures Goes(ShrinkCounted(SEEN), InCommit(DoShrink(1)), ShrinkWritten())
  {
    hide CountsOf, AllocatedCount;
    NothingLeft();
  }

  lemma ShrinkingIsLost()
    ensures Goes(ShrinkWritten(), InProgress(DoAbort(1)),
                 Held().(now := HOLD_LIFETIME, ledger := Ledger(Active, Some(0))))
  {
    assert Unlocked(map[0 := 1], 1) == map[];
  }

  /** Counted by status alone, an active event may have more than its capacity. */
  lemma ALostDecreaseExceedsByStatus()
    ensures exists start, steps :: Init(start) && IsRun(start, steps) && !FitsByStatus(After(start, steps), {})
                                   && Owed(After(start, steps)) == {}
  {
    LostReaches();
    var s := Held().(now := HOLD_LIFETIME, ledger := Ledger(Active, Some(0)));
    var steps :| IsRun(NewEvent(), steps) && After(NewEvent(), steps) == s;
    LapsingNothing(s.holds);
    assert 0 in LiveHolds(s.holds);
    hide IsRun, After;
    assert Init(NewEvent());
  }

  lemma LostReaches()
    ensures Reaches(NewEvent(), Held().(now := HOLD_LIFETIME, ledger := Ledger(Active, Some(0))))
  {
    PlacingReaches();
    ShrinkingBegins();
    ShrinkingStarts();
    ShrinkingSweeps();
    ShrinkingCounts();
    ShrinkingLooks();
    ShrinkingWrites();
    ShrinkingIsLost();
    var s := NewEvent();
    hide Goes, NewEvent, Reaches, Held, ShrinkWaiting, ShrinkEntered, ShrinkTimed, ShrinkSwept, ShrinkCounted, ShrinkWritten;
    Then(s, Held(), InWorld(DoTick(HOLD_LIFETIME)), Held().(now := HOLD_LIFETIME));
    Then(s, Held().(now := HOLD_LIFETIME), InProgress(DoBegin(1, ToShrink(0))), ShrinkWaiting());
    Then(s, ShrinkWaiting(), InProgress(DoEnter(1)), ShrinkEntered());
    Then(s, ShrinkEntered(), InProgress(DoReadClock(1)), ShrinkTimed());
    Then(s, ShrinkTimed(), InProgress(DoSweep(1)), ShrinkSwept());
    Then(s, ShrinkSwept(), InProgress(DoCount(1)), ShrinkCounted(None));
    Then(s, ShrinkCounted(None), InProgress(DoLook(1)), ShrinkCounted(SEEN));
    Then(s, ShrinkCounted(SEEN), InCommit(DoShrink(1)), ShrinkWritten());
    Then(s, ShrinkWritten(), InProgress(DoAbort(1)),
         Held().(now := HOLD_LIFETIME, ledger := Ledger(Active, Some(0))));
  }
}
