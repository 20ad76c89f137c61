/**
  Recording a cancelled event's refunds. It lists the sales that are over, and refunds
  those with a ticket on the ledger. A sale still issuing then is not among them, though
  its ticket may be on the ledger already: it is not refunded, unless recorded again.
 */
module SaleRefunds {
  import opened Common
  import opened Allocation
  import opened SaleProtocol
  import opened SaleMoney
  import opened SaleSafety
  import opened SaleTheorems
  import opened SaleRuns

  /** The sale's ticket is on the ledger. */
  predicate Ticketed(s: State, x: SaleId) {
    x in s.sales && BySale(x) in s.writes && s.writes[BySale(x)].Landed?
  }

  /** What the recording looks at: sales issued, or left without a verdict. */
  predicate Listed(s: State, x: SaleId) {
    x in s.sales && (s.sales[x].status.SaleIssued? || s.sales[x].status.SaleFailed?)
  }

  predicate Refundable(s: State, x: SaleId) {
    Listed(s, x) && Ticketed(s, x)
  }

  ghost predicate AllRefunded(s: State) {
    forall x | Refundable(s, x) :: s.sales[x].hosted in s.refunds
  }

  /** Every purchased ticket on the ledger has its refund. */
  ghost predicate EveryTicketRefunded(s: State) {
    forall x | Ticketed(s, x) :: s.sales[x].hosted in s.refunds
  }

  /** A sale's ticket is on the ledger, and Kippu has not recorded its outcome. */
  predicate StillIssuing(s: State) {
    exists x | x in s.sales :: s.sales[x].status.SaleIssuing? && Ticketed(s, x)
  }

  predicate Records(steps: seq<Step>, x: SaleId) {
    InLedger(DoRefundTicket(x)) in steps
  }

  /** A recording that listed in `s`, from there until it returns: it refunds what it listed, and nothing else. */
  ghost predicate RecordsFrom(s: State, steps: seq<Step>) {
    && (forall x | Records(steps, x) :: Listed(s, x))
    && (forall x | Refundable(s, x) && s.sales[x].hosted !in s.refunds :: Records(steps, x))
  }

  /** Every ticket has its refund, and keeps it whatever follows, recorded again or not. */
  ghost predicate StaysRefunded(s: State) {
    forall more | IsRun(s, more) && (forall x :: !Records(more, x)) :: EveryTicketRefunded(After(s, more))
  }

  // ----- Nothing lands once the event was cancelled -----

  ghost predicate StaysOff(s: State, s': State) {
    && s'.ledger.status.EventOff?
    && forall c | c in s'.writes && s'.writes[c].Landed? :: c in s.writes && s.writes[c].Landed?
  }

  lemma CommitStaysOff(s: State, step: Commit)
    requires CommitEnabled(s, step) && s.ledger.status.EventOff?
    ensures StaysOff(s, ApplyCommit(s, step))
  {
    hide Unlocked, PlaceFree, PlaceTaken, PlaceRefused, RoomSeen, AllocatedCount, CountsSeen, QuotaHasRoom, Lapsing,
      SetHold, EndHold, SetHosted, Entitle, Handled;
  }

  lemma OutcomeStaysOff(s: State, step: Outcome)
    requires OutcomeEnabled(s, step) && s.ledger.status.EventOff?
    ensures StaysOff(s, ApplyOutcome(s, step))
  {
    hide SeatOf, OnLedger, SetHold, SetSale, Entitle;
  }

  lemma ProgressLeavesLedger(s: State, step: Progress)
    requires ProgressEnabled(s, step)
    ensures ApplyProgress(s, step).ledger == s.ledger
  {
  }

  lemma DeskLeavesLedger(s: State, step: Desk)
    requires DeskEnabled(s, step)
    ensures ApplyDesk(s, step).ledger == s.ledger
  {
  }

  lemma TillLeavesLedger(s: State, step: Till)
    requires TillEnabled(s, step)
    ensures ApplyTill(s, step).ledger == s.ledger
  {
  }

  lemma WorldLeavesLedger(s: State, step: World)
    requires WorldEnabled(s, step)
    ensures ApplyWorld(s, step).ledger == s.ledger
  {
  }

  lemma StepStaysOff(s: State, step: Step)
    requires Enabled(s, step) && s.ledger.status.EventOff?
    ensures StaysOff(s, Apply(s, step))
  {
    hide ApplyProgress, ApplyCommit, ApplyDesk, ApplyTill, ApplyWorld, ApplyOutcome, ProgressEnabled, CommitEnabled,
      DeskEnabled, TillEnabled, WorldEnabled, OutcomeEnabled;
    match step {
      case InCommit(p) => CommitStaysOff(s, p);
      case InLedger(p) => OutcomeStaysOff(s, p);
      case InProgress(p) => ProgressLeavesLedger(s, p); OthersLeaveRecords(s, step);
      case AtDesk(p) => DeskLeavesLedger(s, p); OthersLeaveRecords(s, step);
      case AtTill(p) => TillLeavesLedger(s, p); OthersLeaveRecords(s, step);
      case InWorld(p) => WorldLeavesLedger(s, p); OthersLeaveRecords(s, step);
    }
  }

  lemma {:induction false} RunStaysOff(s: State, steps: seq<Step>)
    requires IsRun(s, steps) && s.ledger.status.EventOff?
    ensures StaysOff(s, After(s, steps))
    decreases |steps|
  {
    hide Enabled, Apply;
    if steps != [] {
      StepStaysOff(s, steps[0]);
      RunStaysOff(Apply(s, steps[0]), steps[1..]);
    }
  }

  // ----- What is not recorded is not refunded -----

  /** The sale's ticket is on the ledger, and its payment has no refund. */
  predicate Unrefunded(s: State, x: SaleId) {
    Ticketed(s, x) && s.sales[x].hosted !in s.refunds
  }

  lemma CommitRefundsOthers(s: State, step: Commit, x: SaleId)
    requires FreshOk(s.txns, s.refunds, s.sales) && CommitEnabled(s, step) && Unrefunded(s, x)
    ensures x in ApplyCommit(s, step).sales && ApplyCommit(s, step).sales[x] == s.sales[x]
    ensures s.sales[x].hosted !in ApplyCommit(s, step).refunds
  {
    hide Unlocked, PlaceFree, PlaceTaken, PlaceRefused, RoomSeen, AllocatedCount, CountsSeen, QuotaHasRoom, Lapsing,
      SetHold, EndHold, SetHosted, Handled;
    if step.t in s.txns && s.txns[step.t].Allocating? {
      assert FreshIn(s.txns[step.t].a, s.refunds, s.sales);
    }
  }

  lemma OutcomeRefundsOthers(s: State, step: Outcome, x: SaleId)
    requires SalesOk(s.sales, s.hosted, s.remote) && OutcomeEnabled(s, step) && Unrefunded(s, x)
    requires step != DoRefundTicket(x)
    ensures x in ApplyOutcome(s, step).sales && ApplyOutcome(s, step).sales[x].hosted == s.sales[x].hosted
    ensures s.sales[x].hosted !in ApplyOutcome(s, step).refunds
  {
    hide SeatOf, OnLedger, SetHold;
  }

  lemma StepRefundsOthers(s: State, step: Step, x: SaleId)
    requires Safe(s) && Enabled(s, step) && Unrefunded(s, x) && step != InLedger(DoRefundTicket(x))
    ensures Unrefunded(Apply(s, step), x) && Apply(s, step).sales[x].hosted == s.sales[x].hosted
  {
    assert FreshOk(s.txns, s.refunds, s.sales) && SalesOk(s.sales, s.hosted, s.remote);
    StepIsFinal(s, step);
    hide Safe, ApplyCommit, ApplyOutcome, CommitEnabled, OutcomeEnabled;
    if step.InCommit? {
      CommitRefundsOthers(s, step.commit, x);
    } else if step.InLedger? {
      OutcomeRefundsOthers(s, step.outcome, x);
    } else {
      hide Apply, Enabled;
      OthersLeaveRecords(s, step);
    }
  }

  lemma {:induction false} UnrecordedStaysUnrefunded(s: State, steps: seq<Step>, x: SaleId)
    requires Safe(s) && IsRun(s, steps) && Unrefunded(s, x) && !Records(steps, x)
    ensures Unrefunded(After(s, steps), x)
    decreases |steps|
  {
    hide Safe, Enabled, Apply, Unrefunded;
    if steps != [] {
      StepKeepsSafe(s, steps[0]);
      assert steps[0] in steps && forall step | step in steps[1..] :: step in steps;
      StepRefundsOthers(s, steps[0], x);
      UnrecordedStaysUnrefunded(Apply(s, steps[0]), steps[1..], x);
    }
  }

  lemma {:induction false} RecordedIsRefunded(s: State, steps: seq<Step>, x: SaleId)
    requires IsRun(s, steps) && x in s.sales && (s.sales[x].hosted in s.refunds || Records(steps, x))
    ensures x in After(s, steps).sales && After(s, steps).sales[x].hosted == s.sales[x].hosted
    ensures s.sales[x].hosted in After(s, steps).refunds
    decreases |steps|
  {
    hide Enabled, Apply;
    RunIsFinal(s, steps);
    if s.sales[x].hosted !in s.refunds {
      StepIsFinal(s, steps[0]);
      if steps[0] == InLedger(DoRefundTicket(x)) {
        RefundingRefunds(s, x);
      } else {
        assert forall step | step in steps :: step == steps[0] || step in steps[1..];
      }
      RecordedIsRefunded(Apply(s, steps[0]), steps[1..], x);
    }
  }

  lemma RefundingRefunds(s: State, x: SaleId)
    requires Enabled(s, InLedger(DoRefundTicket(x)))
    ensures x in s.sales && s.sales[x].hosted in Apply(s, InLedger(DoRefundTicket(x))).refunds
  {
  }

  // ----- When every ticket is refunded -----

  /** A sale is over, or issuing: one still issuing has no refund. */
  lemma TicketIsListedOrIssuing(s: State, x: SaleId)
    requires Safe(s) && BySale(x) in s.writes && s.writes[BySale(x)].Landed?
    ensures Ticketed(s, x) && (Listed(s, x) <==> !s.sales[x].status.SaleIssuing?)
    ensures s.sales[x].status.SaleIssuing? ==> s.sales[x].hosted !in s.refunds
  {
    assert WritesOk(s.writes, s.sales, s.grants, s.faces, s.hosted);
    assert RefundsOk(s.refunds, s.sales, s.remote, s.writes, s.ledger.status);
    hide Safe;
  }

  lemma NoneIssuingMeansRefunded(s: State, steps: seq<Step>)
    requires Safe(s) && s.ledger.status.EventOff? && IsRun(s, steps) && RecordsFrom(s, steps) && !StillIssuing(s)
    ensures EveryTicketRefunded(After(s, steps))
  {
    hide Safe, IsRun, After, Records;
    RunStaysOff(s, steps);
    var s' := After(s, steps);
    forall x | Ticketed(s', x) ensures s'.sales[x].hosted in s'.refunds {
      TicketIsListedOrIssuing(s, x);
      RecordedIsRefunded(s, steps, x);
    }
  }

  lemma OneIssuingMeansUnrefunded(s: State, steps: seq<Step>)
    requires Safe(s) && IsRun(s, steps) && RecordsFrom(s, steps) && StillIssuing(s)
    ensures !EveryTicketRefunded(After(s, steps))
  {
    hide Safe, IsRun, After, Records;
    var x :| x in s.sales && s.sales[x].status.SaleIssuing? && Ticketed(s, x);
    TicketIsListedOrIssuing(s, x);
    assert !Records(steps, x);
    UnrecordedStaysUnrefunded(s, steps, x);
  }

  lemma RefundedStays(s: State, more: seq<Step>)
    requires IsRun(s, more) && s.ledger.status.EventOff? && EveryTicketRefunded(s)
    requires forall x | BySale(x) in s.writes :: x in s.sales
    ensures EveryTicketRefunded(After(s, more))
  {
    hide IsRun, After;
    RunStaysOff(s, more);
    RunIsFinal(s, more);
    var s' := After(s, more);
    forall x | Ticketed(s', x) ensures s'.sales[x].hosted in s'.refunds {
      assert Ticketed(s, x);
    }
  }

  /**
    A cancelled event's refunds, recorded while anything else goes on: once the recording
    has returned, every purchased ticket on the ledger has its refund, and keeps it,
    exactly when no ticket on the ledger was of a sale still issuing when it listed.
   */
  lemma RefundedExactlyWhen(s: State, steps: seq<Step>)
    requires Safe(s) && s.ledger.status.EventOff? && IsRun(s, steps) && RecordsFrom(s, steps)
    ensures StaysRefunded(After(s, steps)) <==> !StillIssuing(s)
  {
    hide Safe, IsRun, After, RecordsFrom, StillIssuing, EveryTicketRefunded, StaysRefunded;
    if StillIssuing(s) {
      OneIssuingMeansUnrefunded(s, steps);
      UnrefundedNow(After(s, steps));
    } else {
      NoneIssuingMeansRefunded(s, steps);
      RunStaysOff(s, steps);
      RunKeepsSafe(s, steps);
      RefundedForGood(After(s, steps));
    }
  }

  lemma UnrefundedNow(s: State)
    requires !EveryTicketRefunded(s)
    ensures !StaysRefunded(s)
  {
    hide EveryTicketRefunded;
    var more: seq<Step> := [];
    assert IsRun(s, more) && After(s, more) == s && forall x :: !Records(more, x);
  }

  lemma RefundedForGood(s: State)
    requires Safe(s) && s.ledger.status.EventOff? && EveryTicketRefunded(s)
    ensures StaysRefunded(s)
  {
    hide Safe, IsRun, After, EveryTicketRefunded;
    WritesAreOfSales(s);
    forall more | IsRun(s, more) ensures EveryTicketRefunded(After(s, more)) {
      RefundedStays(s, more);
    }
  }

  lemma WritesAreOfSales(s: State)
    requires Safe(s)
    ensures forall x | BySale(x) in s.writes :: x in s.sales
  {
    assert WritesOk(s.writes, s.sales, s.grants, s.faces, s.hosted);
  }

  /** With nothing else going on, the same of what a recording leaves. */
  lemma RecordedAll(s: State, s': State)
    requires Safe(s') && AllRefunded(s') && s'.sales == s.sales && s'.writes == s.writes
    ensures EveryTicketRefunded(s') <==> !StillIssuing(s)
  {
    forall x | Ticketed(s', x) ensures Listed(s', x) <==> !s'.sales[x].status.SaleIssuing? {
      TicketIsListedOrIssuing(s', x);
    }
    if StillIssuing(s) {
      var x :| x in s.sales && s.sales[x].status.SaleIssuing? && Ticketed(s, x);
      TicketIsListedOrIssuing(s', x);
      assert Ticketed(s', x);
    }
    hide Safe;
  }

  // ----- A run that leaves a ticket without a refund -----

  /** Taking the payment's place. */
  function Taker(stage: Stage, holds: Holds, current: Option<HoldStatus>): Txn {
    Allocating(Alloc(ToIssue(0, 0, 0, None), stage, 0, {}, holds, map[], None, None, current))
  }

  function BuyerWaiting(): State {
    Charged().(txns := map[1 := Taker(Waiting, map[], None)])
  }

  function Buying(stage: Stage): State {
    Charged().(lock := Some(1), txns := map[1 := Taker(stage, map[], None)])
  }

  function BuyingCounted(current: Option<HoldStatus>): State {
    Charged().(lock := Some(1), txns := map[1 := Taker(Stage.Counted, Charged().holds, current)])
  }

  lemma BuyingStarts()
    ensures Goes(Charged(), InProgress(DoBegin(1, ToIssue(0, 0, 0, None))), BuyerWaiting())
    ensures Goes(BuyerWaiting(), InProgress(DoEnter(1)), Buying(Entered))
  {
  }

  lemma BuyingIsUnhandled()
    ensures Goes(Buying(Entered), InProgress(DoFindUnhandled(1)), Buying(Unhandled))
  {
  }

  lemma BuyingClears()
    ensures Goes(Buying(Unhandled), InProgress(DoClear(1)), Buying(Cleared))
    ensures Goes(Buying(Cleared), InProgress(DoReadClock(1)), Buying(Timed))
  {
  }

  lemma BuyingSweeps()
    ensures Goes(Buying(Timed), InProgress(DoSweep(1)), Buying(Swept))
  {
    assert ExpiredHolds(Charged().holds, 0) == {};
    assert LockedToo(map[], {}, 1) == map[];
    hide ExpiredHolds, LockedToo;
  }

  lemma BuyingCounts()
    ensures Goes(Buying(Swept), InProgress(DoCount(1)), BuyingCounted(None))
  {
    assert Lapsing(Charged().holds, {}) == Charged().holds;
    hide Lapsing;
  }

  lemma BuyingRereads()
    ensures Goes(BuyingCounted(None), InProgress(DoReread(1)), BuyingCounted(Some(Outstanding)))
  {
  }

  /** Its sale started, its ticket's write as given. */
  function Bought(write: Write): State {
    Charged().(holds := map[0 := Charged().holds[0].(status := Issuing)], hosted := map[0 := Hosted(0, PRICE, Paid)],
               sales := map[0 := Sale(0, 0, SaleIssuing)], writes := map[BySale(0) := write])
  }

  lemma BuyingMaySell()
    ensures CanSell(BuyingCounted(Some(Outstanding)), 1, 0)
  {
    hide PlaceFree;
  }

  lemma BuyingSells()
    ensures Goes(BuyingCounted(Some(Outstanding)), InCommit(DoSell(1, 0)), Bought(Unsigned))
  {
    BuyingMaySell();
    assert Lapsing(Charged().holds, {}) == Charged().holds;
    hide Lapsing, CanSell, Unlocked;
  }

  lemma BoughtLands()
    ensures Goes(Bought(Unsigned), InLedger(DoSign(BySale(0))), Bought(InFlight))
    ensures Goes(Bought(InFlight), InLedger(DoLand(BySale(0))), Bought(Landed))
  {
  }

  lemma LandedReaches()
    ensures Reaches(NewEvent(), Bought(Landed))
  {
    ChargedReaches();
    BuyingStarts();
    BuyingIsUnhandled();
    BuyingClears();
    BuyingSweeps();
    BuyingCounts();
    BuyingRereads();
    BuyingSells();
    BoughtLands();
    var s := NewEvent();
    hide Goes, NewEvent, Reaches, Charged, Buying, BuyerWaiting, BuyingCounted, Bought;
    Then(s, Charged(), InProgress(DoBegin(1, ToIssue(0, 0, 0, None))), BuyerWaiting());
    Then(s, BuyerWaiting(), InProgress(DoEnter(1)), Buying(Entered));
    Then(s, Buying(Entered), InProgress(DoFindUnhandled(1)), Buying(Unhandled));
    Then(s, Buying(Unhandled), InProgress(DoClear(1)), Buying(Cleared));
    Then(s, Buying(Cleared), InProgress(DoReadClock(1)), Buying(Timed));
    Then(s, Buying(Timed), InProgress(DoSweep(1)), Buying(Swept));
    Then(s, Buying(Swept), InProgress(DoCount(1)), BuyingCounted(None));
    Then(s, BuyingCounted(None), InProgress(DoReread(1)), BuyingCounted(Some(Outstanding)));
    Then(s, BuyingCounted(Some(Outstanding)), InCommit(DoSell(1, 0)), Bought(Unsigned));
    Then(s, Bought(Unsigned), InLedger(DoSign(BySale(0))), Bought(InFlight));
    Then(s, Bought(InFlight), InLedger(DoLand(BySale(0))), Bought(Landed));
  }

  // The organiser cancels the event: sales close, nothing is left to release, and the ledger accepts.

  function Closer(stage: Stage): Txn {
    Allocating(Alloc(ToClose(0), stage, 0, {}, map[], map[], None, None, None))
  }

  function CloserWaiting(): State {
    Bought(Landed).(txns := map[2 := Closer(Waiting)])
  }

  function SalesClosing(): State {
    Bought(Landed).(lock := Some(2), txns := map[2 := Closer(Entered)])
  }

  function Closed(drain: Drain): State {
    Bought(Landed).(closed := true, epoch := 1, drains := map[0 := drain])
  }

  function CancelledEvent(): State {
    Closed(Drain(1, true, {}, {}, true)).(ledger := Ledger(EventOff, None))
  }

  lemma ClosingGoes()
    ensures Goes(Bought(Landed), InProgress(DoBegin(2, ToClose(0))), CloserWaiting())
    ensures Goes(CloserWaiting(), InProgress(DoEnter(2)), SalesClosing())
  {
  }

  lemma ClosingCommits()
    ensures Goes(SalesClosing(), InCommit(DoClose(2)), Closed(Drain(1, false, {}, {}, false)))
  {
  }

  lemma ClosedLists()
    ensures Goes(Closed(Drain(1, false, {}, {}, false)), AtDesk(DoList(0)), Closed(Drain(1, true, {}, {}, false)))
  {
    assert ToVisit(Closed(Drain(1, false, {}, {}, false))) == {};
    hide ToVisit;
  }

  lemma ClosedReturns()
    ensures Goes(Closed(Drain(1, true, {}, {}, false)), AtDesk(DoReturn(0)), Closed(Drain(1, true, {}, {}, true)))
  {
  }

  lemma ClosedIsCancelled()
    ensures Goes(Closed(Drain(1, true, {}, {}, true)), InLedger(DoMoveOn(EventOff)), CancelledEvent())
  {
  }

  lemma CancelledReaches()
    ensures Reaches(NewEvent(), CancelledEvent())
  {
    LandedReaches();
    ClosingGoes();
    ClosingCommits();
    ClosedLists();
    ClosedReturns();
    ClosedIsCancelled();
    var s := NewEvent();
    hide Goes, NewEvent, Reaches, Bought, CloserWaiting, SalesClosing, Closed, CancelledEvent;
    Then(s, Bought(Landed), InProgress(DoBegin(2, ToClose(0))), CloserWaiting());
    Then(s, CloserWaiting(), InProgress(DoEnter(2)), SalesClosing());
    Then(s, SalesClosing(), InCommit(DoClose(2)), Closed(Drain(1, false, {}, {}, false)));
    Then(s, Closed(Drain(1, false, {}, {}, false)), AtDesk(DoList(0)), Closed(Drain(1, true, {}, {}, false)));
    Then(s, Closed(Drain(1, true, {}, {}, false)), AtDesk(DoReturn(0)), Closed(Drain(1, true, {}, {}, true)));
    Then(s, Closed(Drain(1, true, {}, {}, true)), InLedger(DoMoveOn(EventOff)), CancelledEvent());
  }

  /** Cancelled after everything was released, its refunds recorded while a sale's outcome is, and its ticket unrefunded. */
  ghost predicate LeavesATicket(s: State, r: DrainId, x: SaleId, steps: seq<Step>) {
    && Returned(s, r) && s.ledger.status.EventOff? && IsRun(s, steps) && RecordsFrom(s, steps)
    && var s' := After(s, steps);
    && Ticketed(s', x) && s'.sales[x].status.SaleIssued? && s'.refunds == map[]
  }

  lemma CancelledLeavesATicket()
    ensures LeavesATicket(CancelledEvent(), 0, 0, [InLedger(DoConfirm(0))])
  {
    var s, step := CancelledEvent(), InLedger(DoConfirm(0));
    assert [step][1..] == [];
    assert Enabled(s, step);
    assert forall x :: !Listed(s, x);
    assert forall x :: !Records([step], x);
  }

  /** So an issued ticket of a cancelled event may be left without a refund. */
  lemma ATicketMayBeLeft()
    ensures exists start, steps :: Init(start) && IsRun(start, steps)
                                   && LeavesATicket(After(start, steps), 0, 0, [InLedger(DoConfirm(0))])
  {
    CancelledReaches();
    CancelledLeavesATicket();
    var steps :| IsRun(NewEvent(), steps) && After(NewEvent(), steps) == CancelledEvent();
    assert Init(NewEvent());
    hide IsRun, After, Init, LeavesATicket, CancelledEvent;
  }
}
