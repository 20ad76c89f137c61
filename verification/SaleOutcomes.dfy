/**
  What becomes of every payment. It is handled exactly when a transaction of its own
  committed; a checkout recorded as paid is handled, unless a `pay` found it paid and
  its reconciliation never came.
 */
module SaleOutcomes {
  import opened Allocation
  import opened SaleProtocol
  import opened SaleMoney
  import opened SaleSafety
  import opened SaleTheorems
  import opened SaleRuns

  predicate RecordedPaid(s: State, k: HostedId) {
    k in s.hosted && s.hosted[k].status.Paid?
  }

  /** The step commits a transaction of the payment. */
  predicate Settles(s: State, step: Step, k: HostedId) {
    step.InCommit? && PaymentCommits(s, step.commit) && s.txns[step.commit.t].a.goal.hosted == k
  }

  predicate SettledIn(s: State, steps: seq<Step>, k: HostedId)
    requires IsRun(s, steps)
    decreases |steps|
  {
    steps != [] && (Settles(s, steps[0], k) || SettledIn(Apply(s, steps[0]), steps[1..], k))
  }

  /** A `pay` finds the checkout paid, and commits its status. */
  predicate Finds(step: Step, k: HostedId) {
    step.AtTill? && step.till.DoPayFound? && step.till.k == k
  }

  predicate FoundIn(steps: seq<Step>, k: HostedId) {
    exists i | 0 <= i < |steps| :: Finds(steps[i], k)
  }

  // ----- One step -----

  lemma CommitHandles(s: State, step: Commit, k: HostedId)
    requires CommitEnabled(s, step) && !Handled(s, k) && Handled(ApplyCommit(s, step), k)
    ensures Settles(s, InCommit(step), k)
  {
    hide Unlocked, PlaceFree, PlaceTaken, PlaceRefused, RoomSeen, AllocatedCount, CountsSeen, QuotaHasRoom, Lapsing,
      SetHold, EndHold, SetHosted;
    var s' := ApplyCommit(s, step);
    if k !in s'.refunds {
      var x :| x in s'.sales && s'.sales[x].hosted == k;
      assert x !in s.sales;
    }
  }

  /** Outcomes of a sale refund a payment that has the sale. */
  lemma OutcomeHandlesNothing(s: State, step: Outcome, k: HostedId)
    requires OutcomeEnabled(s, step) && Handled(ApplyOutcome(s, step), k)
    ensures Handled(s, k)
  {
    hide SeatOf, OnLedger, SetHold;
    var s' := ApplyOutcome(s, step);
    if HasSale(s'.sales, k) {
      var x :| x in s'.sales && s'.sales[x].hosted == k;
      assert x in s.sales && s.sales[x].hosted == k;
    } else if step.DoReject? || step.DoRefundTicket? {
      assert k != s.sales[step.x].hosted || HasSale(s.sales, k);
    }
  }

  lemma StepHandles(s: State, step: Step, k: HostedId)
    requires Enabled(s, step) && !Handled(s, k) && Handled(Apply(s, step), k)
    ensures Settles(s, step, k)
  {
    hide ApplyProgress, ApplyCommit, ApplyDesk, ApplyTill, ApplyWorld, ApplyOutcome, ProgressEnabled, CommitEnabled,
      DeskEnabled, TillEnabled, WorldEnabled, OutcomeEnabled;
    if step.InCommit? {
      CommitHandles(s, step.commit, k);
    } else if step.InLedger? {
      OutcomeHandlesNothing(s, step.outcome, k);
    } else {
      OthersLeaveRecords(s, step);
    }
  }

  lemma CommitRecordsPaid(s: State, step: Commit, k: HostedId)
    requires CommitEnabled(s, step) && !RecordedPaid(s, k) && RecordedPaid(ApplyCommit(s, step), k)
    ensures Settles(s, InCommit(step), k)
  {
    hide Unlocked, PlaceFree, PlaceTaken, PlaceRefused, RoomSeen, AllocatedCount, CountsSeen, QuotaHasRoom, Lapsing,
      SetHold, EndHold, Entitle, Handled;
  }

  lemma TillRecordsPaid(s: State, step: Till, k: HostedId)
    requires TxnsOk(s.txns, s.holds, s.hosted, s.remote) && TillEnabled(s, step)
    requires !RecordedPaid(s, k) && RecordedPaid(ApplyTill(s, step), k)
    ensures Finds(AtTill(step), k)
  {
    hide Unlocked, CancelRemote, NoOtherOpen, HoldsEnded, Visited;
    if step.t in s.txns {
      assert TxnOk(s.txns[step.t], s.holds, s.hosted, s.remote);
    }
  }

  /** Answers recorded outside a transaction never say paid. */
  lemma OthersRecordNothingPaid(s: State, step: Step, k: HostedId)
    requires Enabled(s, step) && !step.InCommit? && !step.AtTill?
    ensures RecordedPaid(Apply(s, step), k) ==> RecordedPaid(s, k)
  {
    match step {
      case InProgress(p) => ProgressLeavesHosted(s, p);
      case AtDesk(p) => DeskLeavesHosted(s, p);
      case InWorld(p) => WorldRecordsNothingPaid(s, p, k);
      case InLedger(p) => OutcomeLeavesHosted(s, p);
    }
    hide ApplyProgress, ApplyDesk, ApplyWorld, ApplyOutcome, ProgressEnabled, DeskEnabled, WorldEnabled, OutcomeEnabled;
  }

  lemma ProgressLeavesHosted(s: State, step: Progress)
    requires ProgressEnabled(s, step)
    ensures ApplyProgress(s, step).hosted == s.hosted
  {
  }

  lemma DeskLeavesHosted(s: State, step: Desk)
    requires DeskEnabled(s, step)
    ensures ApplyDesk(s, step).hosted == s.hosted
  {
  }

  lemma OutcomeLeavesHosted(s: State, step: Outcome)
    requires OutcomeEnabled(s, step)
    ensures ApplyOutcome(s, step).hosted == s.hosted
  {
  }

  lemma WorldRecordsNothingPaid(s: State, step: World, k: HostedId)
    requires WorldEnabled(s, step)
    ensures RecordedPaid(ApplyWorld(s, step), k) ==> RecordedPaid(s, k)
  {
  }

  lemma StepRecordsPaid(s: State, step: Step, k: HostedId)
    requires Safe(s) && Enabled(s, step) && !RecordedPaid(s, k) && RecordedPaid(Apply(s, step), k)
    ensures Settles(s, step, k) || Finds(step, k)
  {
    assert TxnsOk(s.txns, s.holds, s.hosted, s.remote);
    hide Safe, ApplyCommit, ApplyTill, CommitEnabled, TillEnabled, RecordedPaid, Settles, Finds;
    if step.InCommit? {
      CommitRecordsPaid(s, step.commit, k);
    } else if step.AtTill? {
      TillRecordsPaid(s, step.till, k);
    } else {
      OthersRecordNothingPaid(s, step, k);
    }
  }

  // ----- Every run -----

  lemma HandledStays(s: State, steps: seq<Step>, k: HostedId)
    requires IsRun(s, steps) && Handled(s, k)
    ensures Handled(After(s, steps), k)
  {
    hide IsRun, After;
    RunIsFinal(s, steps);
    if k !in s.refunds {
      var x :| x in s.sales && s.sales[x].hosted == k;
      assert x in After(s, steps).sales && After(s, steps).sales[x].hosted == k;
    }
  }

  lemma {:induction false} HandledExactlyWhenSettled(s: State, steps: seq<Step>, k: HostedId)
    requires IsRun(s, steps) && !Handled(s, k)
    ensures Handled(After(s, steps), k) <==> SettledIn(s, steps, k)
    decreases |steps|
  {
    hide Enabled, Apply, Handled, Settles, PaymentCommits;
    if steps != [] {
      if Settles(s, steps[0], k) {
        SettlingHandles(s, steps[0], k);
        HandledStays(Apply(s, steps[0]), steps[1..], k);
      } else {
        if Handled(Apply(s, steps[0]), k) {
          StepHandles(s, steps[0], k);
        }
        HandledExactlyWhenSettled(Apply(s, steps[0]), steps[1..], k);
      }
    }
  }

  lemma SettlingHandles(s: State, step: Step, k: HostedId)
    requires Enabled(s, step) && Settles(s, step, k)
    ensures Handled(Apply(s, step), k)
  {
    hide ApplyCommit, CommitEnabled, Handled;
    CommittingHandles(s, step.commit);
  }

  lemma {:induction false} PaidIsSettledOrFound(s: State, steps: seq<Step>, k: HostedId)
    requires Safe(s) && IsRun(s, steps) && RecordedPaid(After(s, steps), k)
    ensures RecordedPaid(s, k) || SettledIn(s, steps, k) || FoundIn(steps, k)
    decreases |steps|
  {
    hide Safe, Enabled, Apply, RecordedPaid, Settles, Finds;
    if steps != [] {
      StepKeepsSafe(s, steps[0]);
      PaidIsSettledOrFound(Apply(s, steps[0]), steps[1..], k);
      if RecordedPaid(Apply(s, steps[0]), k) && !RecordedPaid(s, k) {
        StepRecordsPaid(s, steps[0], k);
      } else if FoundIn(steps[1..], k) {
        var i :| 0 <= i < |steps[1..]| && Finds(steps[1..][i], k);
        assert Finds(steps[i + 1], k);
      }
    }
  }

  lemma NothingAtFirst(start: State, k: HostedId)
    requires Init(start)
    ensures Safe(start) && !Handled(start, k) && !RecordedPaid(start, k)
  {
    InitIsSafe(start);
  }

  /**
    Every payment, over every run: it is handled exactly when one of its transactions
    committed; recorded as paid and not handled, it was found by a `pay`; and handled,
    it has exactly one of a sale and a direct refund, and never two sales.
   */
  lemma OneOutcomePerPayment(start: State, steps: seq<Step>, k: HostedId)
    requires Init(start) && IsRun(start, steps)
    ensures var s := After(start, steps);
            && (Handled(s, k) <==> SettledIn(start, steps, k))
            && (RecordedPaid(s, k) ==> Handled(s, k) || FoundIn(steps, k))
            && (Handled(s, k) ==>
                  && (HasSale(s.sales, k) <==> !RefundedDirectly(s, k))
                  && (forall x, y | x in s.sales && y in s.sales && s.sales[x].hosted == k && s.sales[y].hosted == k :: x == y)
                  && k in s.remote && s.remote[k].status.Paid?)
  {
    hide Safe, IsRun, After, Handled, RecordedPaid, SettledIn, FoundIn, RefundedDirectly, HasSale;
    NothingAtFirst(start, k);
    HandledExactlyWhenSettled(start, steps, k);
    if RecordedPaid(After(start, steps), k) {
      PaidIsSettledOrFound(start, steps, k);
    }
    if Handled(After(start, steps), k) {
      HandledHasOneOutcome(start, steps, k);
    }
  }

  /**
    Money is conserved: a payment settled, or recorded as paid and not merely found by a
    `pay`, is backed by an issued ticket whose face value is what was paid, by one
    refund of exactly that, or by a sale in doubt. A ticket and a refund go together
    only when the event was cancelled.
   */
  lemma MoneyIsConserved(start: State, steps: seq<Step>, k: HostedId)
    requires Init(start) && IsRun(start, steps)
    requires SettledIn(start, steps, k) || (RecordedPaid(After(start, steps), k) && !FoundIn(steps, k))
    ensures var s := After(start, steps);
            && ((exists x :: TicketFor(s, k, x)) || RefundedInFull(s, k) || (exists x :: InDoubt(s, k, x)))
            && (k in s.refunds ==> RefundedInFull(s, k))
            && (forall x | x in s.sales && s.sales[x].hosted == k && BySale(x) in s.writes && s.writes[BySale(x)].Landed?
                           && k in s.refunds ::
                  s.refunds[k].reason.EventCancelled? && s.ledger.status.EventOff?)
  {
    hide Safe, IsRun, After, Handled, RecordedPaid, SettledIn, FoundIn, TicketFor, RefundedInFull, InDoubt;
    OneOutcomePerPayment(start, steps, k);
    HandledIsBacked(start, steps, k);
  }

  // ----- A run that leaves a payment unhandled -----

  function PayingAgain(pay: PayStage): State {
    Charged().(rows := map[0 := 2], txns := map[2 := Paying(0, pay)])
  }

  /** Recorded as paid, and nobody at work. */
  function Found(): State {
    Charged().(hosted := map[0 := Hosted(0, PRICE, Paid)])
  }

  lemma PayingAgainStarts()
    ensures Goes(Charged(), AtTill(DoPay(2, 0)), PayingAgain(PayStarted))
    ensures Goes(PayingAgain(PayStarted), AtTill(DoPayClear(2)), PayingAgain(PayCleared))
  {
  }

  lemma PayingAgainFinds()
    ensures Goes(PayingAgain(PayCleared), AtTill(DoPayFound(2, 0)), Found())
  {
    assert Unlocked(map[0 := 2], 2) == map[];
  }

  lemma FoundReaches()
    ensures Reaches(NewEvent(), Found())
  {
    ChargedReaches();
    PayingAgainStarts();
    PayingAgainFinds();
    var s := NewEvent();
    hide Goes, NewEvent, Reaches, Charged, PayingAgain, Found;
    Then(s, Charged(), AtTill(DoPay(2, 0)), PayingAgain(PayStarted));
    Then(s, PayingAgain(PayStarted), AtTill(DoPayClear(2)), PayingAgain(PayCleared));
    Then(s, PayingAgain(PayCleared), AtTill(DoPayFound(2, 0)), Found());
  }

  /** A checkout recorded as paid, with neither a sale nor a refund, and no request left that would see to it. */
  lemma AFoundPaymentMayBeLeft()
    ensures exists start, steps :: Init(start) && IsRun(start, steps)
                                   && RecordedPaid(After(start, steps), 0) && !Handled(After(start, steps), 0)
                                   && After(start, steps).txns == map[] && After(start, steps).polls == map[]
  {
    FoundReaches();
    var s := Found();
    assert RecordedPaid(s, 0) && !Handled(s, 0) && s.txns == map[] && s.polls == map[];
    var steps :| IsRun(NewEvent(), steps) && After(NewEvent(), steps) == s;
    assert Init(NewEvent());
    hide IsRun, After, Init, RecordedPaid, Handled;
  }
}
