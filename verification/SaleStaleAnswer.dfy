/**
  A provider's answer recorded late. `releaseAll` leaves nothing payable, but a
  row may still be marked open again after it returned, by a request that asked
  the provider before the checkout was cancelled and records the answer now.
 */
module SaleStaleAnswer {
  import opened Common
  import opened Allocation
  import opened SaleProtocol
  import opened SaleLocks
  import opened SaleRoom
  import opened SaleMoney
  import opened SaleClosing
  import opened SaleSafety
  import opened SaleTheorems
  import opened SaleRuns

  predicate RowsClosed(s: State) {
    forall k | k in s.hosted :: !s.hosted[k].status.Open?
  }

  /** An answer "open", given some time ago, is still to be recorded. */
  predicate StaleAnswer(s: State) {
    exists p | p in s.polls :: s.polls[p].answer.Open?
  }

  // ----- When no such answer is on its way, rows stay closed -----

  ghost predicate Shut(s: State) {
    RowsClosed(s) && !StaleAnswer(s)
  }

  lemma TillKeepsShut(s: State, step: Till)
    requires AllReleased(s) && TxnsOk(s.txns, s.holds, s.hosted, s.remote) && Shut(s) && TillEnabled(s, step)
    ensures Shut(ApplyTill(s, step))
  {
    if step.t in s.txns {
      assert TxnOk(s.txns[step.t], s.holds, s.hosted, s.remote);
    }
    assert forall t | t in s.txns :: !PayPassed(s.txns[t]);
    hide Unlocked, CancelRemote, NoOtherOpen, HoldsEnded;
  }

  lemma WorldKeepsShut(s: State, step: World)
    requires AllReleased(s) && Shut(s) && WorldEnabled(s, step)
    ensures Shut(ApplyWorld(s, step))
  {
    if step.DoRetrieve? || step.DoSweepCancel? {
      assert !Payable(s, step.k);
    }
  }

  lemma CommitKeepsShut(s: State, step: Commit)
    requires Shut(s) && CommitEnabled(s, step)
    ensures Shut(ApplyCommit(s, step))
  {
    hide Unlocked, PlaceFree, PlaceTaken, PlaceRefused, RoomSeen, AllocatedCount, CountsSeen, QuotaHasRoom,
      Lapsing, EndHold, SetHold, Entitle;
  }

  lemma ProgressLeavesRows(s: State, step: Progress)
    requires ProgressEnabled(s, step)
    ensures ApplyProgress(s, step).hosted == s.hosted && ApplyProgress(s, step).polls == s.polls
  {
  }

  lemma DeskLeavesRows(s: State, step: Desk)
    requires DeskEnabled(s, step)
    ensures ApplyDesk(s, step).hosted == s.hosted && ApplyDesk(s, step).polls == s.polls
  {
  }

  lemma OutcomeLeavesRows(s: State, step: Outcome)
    requires OutcomeEnabled(s, step)
    ensures ApplyOutcome(s, step).hosted == s.hosted && ApplyOutcome(s, step).polls == s.polls
  {
  }

  lemma StepKeepsShut(s: State, step: Step)
    requires AllReleased(s) && Books(s) && Shut(s) && Enabled(s, step)
    ensures Shut(Apply(s, step))
  {
    hide ApplyProgress, ApplyCommit, ApplyDesk, ApplyTill, ApplyWorld, ApplyOutcome, ProgressEnabled, CommitEnabled,
      DeskEnabled, TillEnabled, WorldEnabled, OutcomeEnabled;
    match step {
      case AtTill(p) => TillKeepsShut(s, p);
      case InWorld(p) => WorldKeepsShut(s, p);
      case InCommit(p) => CommitKeepsShut(s, p);
      case InProgress(p) => ProgressLeavesRows(s, p);
      case AtDesk(p) => DeskLeavesRows(s, p);
      case InLedger(p) => OutcomeLeavesRows(s, p);
    }
  }

  lemma {:induction false} RunKeepsShut(s: State, steps: seq<Step>, r: DrainId)
    requires Safe(s) && Returned(s, r) && Shut(s) && IsRun(s, steps) && NeverReopens(steps)
    ensures Shut(After(s, steps))
    decreases |steps|
  {
    hide Returned, Enabled, Apply, Shut, AllReleased, Books, Locks, Windows, Room, Closing;
    if steps != [] {
      SafeReturnedReleased(s, r);
      assert steps[0] != AtDesk(DoReopen);
      StepKeepsShut(s, steps[0]);
      StepStaysReturned(s, steps[0], r);
      StepKeepsSafe(s, steps[0]);
      RunKeepsShut(Apply(s, steps[0]), steps[1..], r);
    }
  }

  /** Recording the late answer opens the row. */
  lemma RecordingReopens(s: State, p: PollId)
    requires PollsOk(s.polls, s.hosted, s.remote) && RowsClosed(s) && p in s.polls && s.polls[p].answer.Open?
    ensures IsRun(s, [InWorld(DoRecord(p))]) && !RowsClosed(After(s, [InWorld(DoRecord(p))]))
  {
    var step := InWorld(DoRecord(p));
    assert [step][1..] == [];
    assert Apply(s, step).hosted[s.polls[p].hosted].status.Open?;
  }

  /**
    After `releaseAll` returned, every row stays closed until sales reopen, whatever
    happens, exactly when none is open and no late answer "open" is on its way.
   */
  lemma RowsStayClosedExactlyWhen(s: State, r: DrainId)
    requires Safe(s) && Returned(s, r)
    ensures RowsStayClosed(s) <==> RowsClosed(s) && !StaleAnswer(s)
  {
    assert PollsOk(s.polls, s.hosted, s.remote);
    hide Safe, Returned, Enabled, Apply, PollsOk;
    if Shut(s) {
      forall steps | IsRun(s, steps) && NeverReopens(steps) ensures RowsClosed(After(s, steps)) {
        RunKeepsShut(s, steps, r);
      }
    } else if RowsClosed(s) {
      LateAnswerReopens(s);
    } else {
      assert IsRun(s, []) && NeverReopens([]) && After(s, []) == s;
    }
  }

  ghost predicate RowsStayClosed(s: State) {
    forall steps | IsRun(s, steps) && NeverReopens(steps) :: RowsClosed(After(s, steps))
  }

  lemma LateAnswerReopens(s: State)
    requires PollsOk(s.polls, s.hosted, s.remote) && RowsClosed(s) && StaleAnswer(s)
    ensures !RowsStayClosed(s)
  {
    var p :| p in s.polls && s.polls[p].answer.Open?;
    RecordingReopens(s, p);
    hide RowsClosed, IsRun, After;
    assert NeverReopens([InWorld(DoRecord(p))]);
  }

  // ----- A run that does it: the buyer starts paying, and a webhook has the provider asked -----

  /** The hosted checkout is open, and an answer saying so is still to be recorded. */
  function Asked(): State {
    AskedToPay().(polls := map[0 := Poll(0, Open)])
  }

  lemma AskedReaches()
    ensures Reaches(NewEvent(), Asked())
  {
    AskedToPayReaches();
    assert Goes(AskedToPay(), InWorld(DoRetrieve(0, 0)), Asked());
    hide Goes, NewEvent, Reaches, AskedToPay, Asked;
    Then(NewEvent(), AskedToPay(), InWorld(DoRetrieve(0, 0)), Asked());
  }

  // The organiser closes sales, and `releaseAll` visits the hold and returns.

  function SalesClosing(stage: Stage): State {
    Asked().(lock := if stage.Waiting? then None else Some(2),
             txns := map[2 := Allocating(Alloc(ToClose(0), stage, 0, {}, map[], map[], None, None, None))])
  }

  function Closed(drain: Drain): State {
    Asked().(closed := true, epoch := 1, drains := map[0 := drain])
  }

  function Visiting(end: EndStage): State {
    Closed(Drain(1, true, {0}, {}, false)).(
      rows := map[0 := 3], txns := map[3 := Ending(0, Some(0), end)],
      remote := map[0 := Remote(if end.EndReady? then Cancelled else Open, PRICE)])
  }

  function Ended(drain: Drain): State {
    Closed(drain).(holds := map[0 := Asked().holds[0].(status := Released)],
                   hosted := map[0 := Hosted(0, PRICE, Cancelled)], remote := map[0 := Remote(Cancelled, PRICE)])
  }

  lemma ClosingGoes()
    ensures Goes(Asked(), InProgress(DoBegin(2, ToClose(0))), SalesClosing(Waiting))
    ensures Goes(SalesClosing(Waiting), InProgress(DoEnter(2)), SalesClosing(Entered))
  {
  }

  lemma ClosingCommits()
    ensures Goes(SalesClosing(Entered), InCommit(DoClose(2)), Closed(Drain(1, false, {}, {}, false)))
  {
  }

  lemma ClosedLists()
    ensures Goes(Closed(Drain(1, false, {}, {}, false)), AtDesk(DoList(0)), Closed(Drain(1, true, {0}, {}, false)))
  {
    assert ToVisit(Closed(Drain(1, false, {}, {}, false))) == {0};
  }

  lemma VisitStarts()
    ensures Goes(Closed(Drain(1, true, {0}, {}, false)), AtTill(DoEnd(3, 0, Some(0))), Visiting(EndStarted))
  {
  }

  lemma VisitCancels()
    ensures Goes(Visiting(EndStarted), AtTill(DoEndCancel(3, Some(0))), Visiting(EndReady(Some(0))))
  {
  }

  lemma VisitEnds()
    ensures Goes(Visiting(EndReady(Some(0))), AtTill(DoEndCommit(3)), Ended(Drain(1, true, {}, {}, false)))
  {
    hide EndedRows, HoldsEnded, Visited, Unlocked, PaidFirst;
    VisitEndsTables();
    assert Unlocked(map[0 := 3], 3) == map[];
  }

  lemma VisitEndsTables()
    ensures var s, s' := Visiting(EndReady(Some(0))), Ended(Drain(1, true, {}, {}, false));
            && CanEndCommit(s, 3) && !PaidFirst(s, 3) && Visited(s, 3) == s'.drains && EndedRows(s, 3) == s'.hosted
            && HoldsEnded(s, 3) == s'.holds
  {
    var todo: set<HoldId> := {0};
    assert todo - {0} == {};
  }

  lemma VisitReturns()
    ensures Goes(Ended(Drain(1, true, {}, {}, false)), AtDesk(DoReturn(0)), Ended(Drain(1, true, {}, {}, true)))
  {
  }

  lemma ClosureReaches()
    ensures Reaches(NewEvent(), Ended(Drain(1, true, {}, {}, true)))
  {
    AskedReaches();
    ClosingGoes();
    ClosingCommits();
    ClosedLists();
    VisitStarts();
    VisitCancels();
    VisitEnds();
    VisitReturns();
    var s := NewEvent();
    hide Goes, NewEvent, Reaches, Asked, SalesClosing, Closed, Visiting, Ended;
    Then(s, Asked(), InProgress(DoBegin(2, ToClose(0))), SalesClosing(Waiting));
    Then(s, SalesClosing(Waiting), InProgress(DoEnter(2)), SalesClosing(Entered));
    Then(s, SalesClosing(Entered), InCommit(DoClose(2)), Closed(Drain(1, false, {}, {}, false)));
    Then(s, Closed(Drain(1, false, {}, {}, false)), AtDesk(DoList(0)), Closed(Drain(1, true, {0}, {}, false)));
    Then(s, Closed(Drain(1, true, {0}, {}, false)), AtTill(DoEnd(3, 0, Some(0))), Visiting(EndStarted));
    Then(s, Visiting(EndStarted), AtTill(DoEndCancel(3, Some(0))), Visiting(EndReady(Some(0))));
    Then(s, Visiting(EndReady(Some(0))), AtTill(DoEndCommit(3)), Ended(Drain(1, true, {}, {}, false)));
    Then(s, Ended(Drain(1, true, {}, {}, false)), AtDesk(DoReturn(0)), Ended(Drain(1, true, {}, {}, true)));
  }

  /** So the promise that no row is open after `releaseAll` returned fails on this run. */
  lemma ALateAnswerReopensARow()
    ensures exists start, steps :: Init(start) && IsRun(start, steps) && Returned(After(start, steps), 0)
                                   && !RowsStayClosed(After(start, steps))
  {
    ClosureReaches();
    var start, s := NewEvent(), Ended(Drain(1, true, {}, {}, true));
    var steps :| IsRun(start, steps) && After(start, steps) == s;
    assert Init(start) && Returned(s, 0) && s.polls[0].answer.Open?;
    hide IsRun, After, Enabled, Apply, NewEvent, Ended, RowsStayClosed, Returned;
    ReachedIsSafe(start, steps);
    RowsStayClosedExactlyWhen(s, 0);
  }
}
