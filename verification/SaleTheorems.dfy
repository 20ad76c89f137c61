/** What the primary sale promises, over every run of the machine. */
module SaleTheorems {
  import opened Common
  import opened Allocation
  import opened SaleProtocol
  import opened SaleLocks
  import opened SaleRoom
  import opened SaleMoney
  import opened SaleClosing
  import opened SaleSafety

  // ----- Capacity, quotas and seats -----

  /** Seats, quotas and capacity are never allocated beyond what they admit. */
  lemma NeverOverAllocated(start: State, steps: seq<Step>)
    requires Init(start) && IsRun(start, steps)
    ensures var s := After(start, steps);
            && SeatsOk(s.holds, s.grants) && QuotaOk(s.quotas, s.holds, s.grants)
            && CapacityOk(s.now, BeingPaid(s.txns), s.holds, s.grants, s.ledger)
  {
    hide IsRun, After, Locks, Windows, Closing, Books, SeatsOk, QuotaOk, CapacityOk;
    ReachedIsSafe(start, steps);
  }

  function LandedSales(writes: map<Claim, Write>): set<Claim> {
    set c | c in LandedClaims(writes) && c.BySale?
  }

  function LandedGrants(writes: map<Claim, Write>): set<Claim> {
    set c | c in LandedClaims(writes) && c.ByGrant?
  }

  /** A sale's ticket on the ledger has a hold of its own, under way or confirmed. */
  lemma LandedSaleHasHold(s: State, c: Claim)
    requires SaleHoldsOk(s.sales, s.holds) && WritesOk(s.writes, s.sales, s.grants, s.faces, s.hosted)
    requires c in LandedSales(s.writes)
    ensures c.sale in s.sales && !s.sales[c.sale].status.SaleRejected?
    ensures s.sales[c.sale].hold in s.holds
            && (s.holds[s.sales[c.sale].hold].status.Issuing? || s.holds[s.sales[c.sale].hold].status.Confirmed?)
  {
  }

  lemma LandedSalesStand(s: State)
    requires SaleHoldsOk(s.sales, s.holds) && WritesOk(s.writes, s.sales, s.grants, s.faces, s.hosted)
    ensures |LandedSales(s.writes)| <= |StandingHolds(s.holds, BeingPaid(s.txns), s.now)|
  {
    var holdOf := (c: Claim) => if c.BySale? && c.sale in s.sales then s.sales[c.sale].hold else 0;
    forall c | c in LandedSales(s.writes) ensures holdOf(c) in StandingHolds(s.holds, BeingPaid(s.txns), s.now) {
      LandedSaleHasHold(s, c);
    }
    forall c, d | c in LandedSales(s.writes) && d in LandedSales(s.writes) && holdOf(c) == holdOf(d) ensures c == d {
      LandedSaleHasHold(s, c);
      LandedSaleHasHold(s, d);
    }
    InjectionIsSmaller(LandedSales(s.writes), StandingHolds(s.holds, BeingPaid(s.txns), s.now), holdOf);
  }

  lemma LandedGrantsCount(s: State)
    requires WritesOk(s.writes, s.sales, s.grants, s.faces, s.hosted)
    ensures |LandedGrants(s.writes)| <= |CountedGrants(s.grants)|
  {
    var grantOf := (c: Claim) => if c.ByGrant? then c.grant else 0;
    InjectionIsSmaller(LandedGrants(s.writes), CountedGrants(s.grants), grantOf);
  }

  lemma ClaimsSplit(writes: map<Claim, Write>)
    ensures |LandedClaims(writes)| == |LandedSales(writes)| + |LandedGrants(writes)|
  {
    assert LandedClaims(writes) == LandedSales(writes) + LandedGrants(writes);
  }

  /** The ledger never counts more tickets of an active event than its capacity. */
  lemma LedgerWithinCapacity(start: State, steps: seq<Step>)
    requires Init(start) && IsRun(start, steps)
    ensures var s := After(start, steps);
            s.ledger.status.Active? && s.ledger.capacity.Some? ==> Issued(s) <= s.ledger.capacity.value
  {
    var s := After(start, steps);
    ReachedIsSafe(start, steps);
    hide IsRun, After, Locks, Windows, Closing, ThreadsOk, SaleHoldsOk, WritesOk, HostedOk, SalesOk, RefundsOk, EndedOk,
      SeatsOk, QuotaOk, StandingHolds, CountedGrants, LandedSales, LandedGrants, LandedClaims;
    LandedSalesStand(s);
    LandedGrantsCount(s);
    ClaimsSplit(s.writes);
  }

  // ----- A hold and its sale -----

  predicate SaleOf(s: State, x: SaleId, h: HoldId) {
    x in s.sales && s.sales[x].hold == h && !s.sales[x].status.SaleRejected?
  }

  lemma SaleHoldsMatch(s: State, h: HoldId)
    requires SaleHoldsOk(s.sales, s.holds) && h in s.holds
    ensures s.holds[h].status.Issuing? || s.holds[h].status.Confirmed? <==> exists x :: SaleOf(s, x, h)
    ensures forall x, y | SaleOf(s, x, h) && SaleOf(s, y, h) :: x == y
    ensures s.holds[h].status.Confirmed? <==> exists x :: SaleOf(s, x, h) && s.sales[x].status.SaleIssued?
  {
    if s.holds[h].status.Issuing? || s.holds[h].status.Confirmed? {
      var x :| x in s.sales && s.sales[x].hold == h && !s.sales[x].status.SaleRejected?;
      assert SaleOf(s, x, h);
    }
  }

  /** A hold is issuing or confirmed exactly when it has a sale not rejected, and it never has two. */
  lemma HoldsMatchSales(start: State, steps: seq<Step>, h: HoldId)
    requires Init(start) && IsRun(start, steps) && h in After(start, steps).holds
    ensures var s := After(start, steps);
            && (s.holds[h].status.Issuing? || s.holds[h].status.Confirmed? <==> exists x :: SaleOf(s, x, h))
            && (forall x, y | SaleOf(s, x, h) && SaleOf(s, y, h) :: x == y)
            && (s.holds[h].status.Confirmed? <==> exists x :: SaleOf(s, x, h) && s.sales[x].status.SaleIssued?)
  {
    ReachedTables(start, steps);
    hide IsRun, After, SaleOf, HostedOk, OpenRowsOk, SalesOk, SaleHoldsOk, RefundsOk, WritesOk, EndedOk;
    SaleHoldsMatch(After(start, steps), h);
  }

  lemma ReachedTables(start: State, steps: seq<Step>)
    requires Init(start) && IsRun(start, steps)
    ensures TablesOk(After(start, steps))
  {
    hide IsRun, After, Locks, Windows, Room, TablesOk, ThreadsOk, Closing;
    ReachedIsSafe(start, steps);
  }

  // ----- A payment and its outcome -----

  predicate RefundedDirectly(s: State, k: HostedId) {
    k in s.refunds && (s.refunds[k].reason.AmountMismatch? || s.refunds[k].reason.EventClosed? || s.refunds[k].reason.PlaceGone?)
  }

  lemma OutcomeIsOne(s: State, k: HostedId)
    requires SalesOk(s.sales, s.hosted, s.remote) && Handled(s, k)
    requires RefundsOk(s.refunds, s.sales, s.remote, s.writes, s.ledger.status)
    ensures HasSale(s.sales, k) <==> !RefundedDirectly(s, k)
    ensures forall x, y | x in s.sales && y in s.sales && s.sales[x].hosted == k && s.sales[y].hosted == k :: x == y
    ensures k in s.remote && s.remote[k].status.Paid?
  {
  }

  /** A handled payment has a sale or was refunded directly: exactly one of them, and never two sales. */
  lemma HandledHasOneOutcome(start: State, steps: seq<Step>, k: HostedId)
    requires Init(start) && IsRun(start, steps) && Handled(After(start, steps), k)
    ensures var s := After(start, steps);
            && (HasSale(s.sales, k) <==> !RefundedDirectly(s, k))
            && (forall x, y | x in s.sales && y in s.sales && s.sales[x].hosted == k && s.sales[y].hosted == k :: x == y)
            && k in s.remote && s.remote[k].status.Paid?
  {
    ReachedTables(start, steps);
    hide IsRun, After, HostedOk, OpenRowsOk, SalesOk, SaleHoldsOk, RefundsOk, WritesOk, EndedOk, Handled, HasSale,
      RefundedDirectly;
    OutcomeIsOne(After(start, steps), k);
  }

  predicate TicketFor(s: State, k: HostedId, x: SaleId) {
    && x in s.sales && s.sales[x].hosted == k && s.sales[x].status.SaleIssued?
    && BySale(x) in s.writes && s.writes[BySale(x)].Landed?
    && k in s.remote && x in s.faces && s.faces[x] == s.remote[k].taken
  }

  predicate InDoubt(s: State, k: HostedId, x: SaleId) {
    x in s.sales && s.sales[x].hosted == k && (s.sales[x].status.SaleIssuing? || s.sales[x].status.SaleFailed?)
  }

  predicate RefundedInFull(s: State, k: HostedId) {
    k in s.remote && k in s.refunds && s.refunds[k].money == s.remote[k].taken
  }

  /**
    A handled payment is backed by an issued ticket whose face
    value is what was paid, by one refund of exactly that, or by a sale in doubt.
    A ticket and a refund go together only when the event was cancelled.
   */
  lemma HandledIsBacked(start: State, steps: seq<Step>, k: HostedId)
    requires Init(start) && IsRun(start, steps) && Handled(After(start, steps), k)
    ensures var s := After(start, steps);
            && ((exists x :: TicketFor(s, k, x)) || RefundedInFull(s, k) || (exists x :: InDoubt(s, k, x)))
            && (k in s.refunds ==> RefundedInFull(s, k))
            && (forall x | x in s.sales && s.sales[x].hosted == k && BySale(x) in s.writes && s.writes[BySale(x)].Landed?
                           && k in s.refunds ::
                  s.refunds[k].reason.EventCancelled? && s.ledger.status.EventOff?)
  {
    ReachedTables(start, steps);
    hide IsRun, After, HostedOk, OpenRowsOk, SaleHoldsOk, EndedOk;
    var s := After(start, steps);
    if k !in s.refunds {
      var x :| x in s.sales && s.sales[x].hosted == k;
      assert TicketFor(s, k, x) || InDoubt(s, k, x);
    }
  }

  // ----- What is recorded stays recorded -----

  /** Refunds, tickets on the ledger and finished sales are final. */
  ghost predicate Final(s: State, s': State) {
    && (forall k | k in s.refunds :: k in s'.refunds && s'.refunds[k] == s.refunds[k])
    && (forall c | c in s.writes && s.writes[c].Landed? :: c in s'.writes && s'.writes[c].Landed?)
    && (forall x | x in s.sales ::
          && x in s'.sales && s'.sales[x].hosted == s.sales[x].hosted && s'.sales[x].hold == s.sales[x].hold
          && (!s.sales[x].status.SaleIssuing? ==> s'.sales[x] == s.sales[x]))
  }

  /** Only commits and outcomes touch sales, refunds and the ledger's writes. */
  lemma OthersLeaveRecords(s: State, step: Step)
    requires Enabled(s, step) && !step.InCommit? && !step.InLedger?
    ensures var s' := Apply(s, step); s'.refunds == s.refunds && s'.sales == s.sales && s'.writes == s.writes
  {
    hide ApplyProgress, ApplyDesk, ApplyTill, ApplyWorld, ProgressEnabled, DeskEnabled, TillEnabled, WorldEnabled;
    match step {
      case InProgress(p) => ProgressLeavesRecords(s, p);
      case AtDesk(p) => DeskLeavesRecords(s, p);
      case AtTill(p) => TillLeavesRecords(s, p);
      case InWorld(p) => WorldLeavesRecords(s, p);
    }
  }

  lemma ProgressLeavesRecords(s: State, step: Progress)
    requires ProgressEnabled(s, step)
    ensures var s' := ApplyProgress(s, step); s'.refunds == s.refunds && s'.sales == s.sales && s'.writes == s.writes
  {
  }

  lemma DeskLeavesRecords(s: State, step: Desk)
    requires DeskEnabled(s, step)
    ensures var s' := ApplyDesk(s, step); s'.refunds == s.refunds && s'.sales == s.sales && s'.writes == s.writes
  {
  }

  lemma TillLeavesRecords(s: State, step: Till)
    requires TillEnabled(s, step)
    ensures var s' := ApplyTill(s, step); s'.refunds == s.refunds && s'.sales == s.sales && s'.writes == s.writes
  {
  }

  lemma WorldLeavesRecords(s: State, step: World)
    requires WorldEnabled(s, step)
    ensures var s' := ApplyWorld(s, step); s'.refunds == s.refunds && s'.sales == s.sales && s'.writes == s.writes
  {
  }

  lemma StepIsFinal(s: State, step: Step)
    requires Enabled(s, step)
    ensures Final(s, Apply(s, step))
  {
    hide ApplyProgress, ApplyCommit, ApplyDesk, ApplyTill, ApplyWorld, ApplyOutcome, ProgressEnabled, CommitEnabled,
      DeskEnabled, TillEnabled, WorldEnabled, OutcomeEnabled;
    if step.InCommit? {
      CommitIsFinal(s, step.commit);
    } else if step.InLedger? {
      OutcomeIsFinal(s, step.outcome);
    } else {
      OthersLeaveRecords(s, step);
    }
  }

  lemma CommitIsFinal(s: State, step: Commit)
    requires CommitEnabled(s, step)
    ensures Final(s, ApplyCommit(s, step))
  {
    hide Unlocked, PlaceFree, PlaceTaken, PlaceRefused, RoomSeen, AllocatedCount, CountsSeen, QuotaHasRoom, Lapsing,
      SetHold, EndHold, SetHosted;
  }

  lemma OutcomeIsFinal(s: State, step: Outcome)
    requires OutcomeEnabled(s, step)
    ensures Final(s, ApplyOutcome(s, step))
  {
  }

  lemma {:induction false} RunIsFinal(s: State, steps: seq<Step>)
    requires IsRun(s, steps)
    ensures Final(s, After(s, steps))
    decreases |steps|
  {
    hide Enabled, Apply;
    if steps != [] {
      StepIsFinal(s, steps[0]);
      RunIsFinal(Apply(s, steps[0]), steps[1..]);
    }
  }

  lemma RefundedIsThere(s: State, x: SaleId)
    requires CanRefundTicket(s, x)
    ensures x in RefundTicket(s, x).sales && RefundTicket(s, x).sales[x].hosted in RefundTicket(s, x).refunds
  {
  }

  lemma RefundedAlready(s: State, x: SaleId)
    requires CanRefundTicket(s, x) && s.sales[x].hosted in s.refunds
    ensures RefundTicket(s, x) == s
  {
  }

  /** A cancelled event's refund, once recorded, is there whatever follows, and recording it again changes nothing. */
  lemma RefundingAgainAddsNothing(s: State, x: SaleId, steps: seq<Step>)
    requires CanRefundTicket(s, x) && IsRun(RefundTicket(s, x), steps)
    ensures var s1, s' := RefundTicket(s, x), After(RefundTicket(s, x), steps);
            && x in s1.sales && s1.sales[x].hosted in s1.refunds
            && x in s'.sales && s'.sales[x].hosted == s1.sales[x].hosted && s1.sales[x].hosted in s'.refunds
            && s'.refunds[s1.sales[x].hosted] == s1.refunds[s1.sales[x].hosted]
            && (CanRefundTicket(s', x) ==> RefundTicket(s', x) == s')
  {
    RefundedIsThere(s, x);
    RunIsFinal(RefundTicket(s, x), steps);
    hide CanRefundTicket, RefundTicket, IsRun, After;
    if CanRefundTicket(After(RefundTicket(s, x), steps), x) {
      RefundedAlready(After(RefundTicket(s, x), steps), x);
    }
  }

  // ----- A verified payment comes to its outcome -----

  predicate PaymentCommits(s: State, step: Commit) {
    CommitEnabled(s, step) && step.t in s.txns && s.txns[step.t].Allocating? && s.txns[step.t].a.goal.ToIssue?
  }

  lemma SellingHandles(s: State, t: TxnId, x: SaleId)
    requires CanSell(s, t, x)
    ensures var s', k := Sell(s, t, x), s.txns[t].a.goal.hosted; HasSale(s'.sales, k) && s'.hosted[k].status.Paid?
  {
    assert Sell(s, t, x).sales[x].hosted == s.txns[t].a.goal.hosted;
  }

  lemma MissingHandles(s: State, t: TxnId)
    requires CanMiss(s, t)
    ensures var s', k := Miss(s, t), s.txns[t].a.goal.hosted; k in s'.refunds && s'.hosted[k].status.Paid?
  {
  }

  lemma SkippingHandles(s: State, t: TxnId)
    requires CanSkip(s, t)
    ensures var s', k := Skip(s, t), s.txns[t].a.goal.hosted; Handled(s', k) && s'.hosted[k].status.Paid?
  {
    assert Skip(s, t).sales == s.sales;
  }

  lemma TurningAwayHandles(s: State, t: TxnId, at: int, reason: RefundReason)
    requires CanTurnAway(s, t, at, reason)
    ensures var s', k := TurnAway(s, t, at, reason), s.txns[t].a.goal.hosted; k in s'.refunds && s'.hosted[k].status.Paid?
  {
  }

  /** A payment whose transaction commits is handled, and its row says paid. */
  lemma CommittingHandles(s: State, step: Commit)
    requires PaymentCommits(s, step)
    ensures var s', k := ApplyCommit(s, step), s.txns[step.t].a.goal.hosted;
            Handled(s', k) && k in s'.hosted && s'.hosted[k].status.Paid?
  {
    match step {
      case DoSell(t, x) => SellingHandles(s, t, x); hide Sell;
      case DoMiss(t) => MissingHandles(s, t); hide Miss;
      case DoSkip(t) => SkippingHandles(s, t); hide Skip;
      case DoTurnAway(t, at, reason) => TurningAwayHandles(s, t, at, reason); hide TurnAway;
      case _ =>
    }
    hide Sell, Miss, Skip, TurnAway, HasSale;
  }

  /** Found unhandled, another amount, or closed sales, turn it away, or it goes on. */
  lemma UnhandledIsDecided(s: State, t: TxnId)
    requires Safe(s) && In(s, t, Unhandled) && s.txns[t].a.goal.ToIssue? && RowFree(s, s.txns[t].a.goal.hold, t)
    ensures CanClear(s, t) <==> !CanTurnAway(s, t, s.now, AmountMismatch) && !CanBar(s, t)
    ensures !CanTurnAway(s, t, s.now, AmountMismatch) || !CanBar(s, t)
  {
    assert TxnOk(s.txns[t], s.holds, s.hosted, s.remote);
    assert Window(s.now, BeingPaid(s.txns), s.quotas, s.holds, s.grants, s.ledger, s.closed, s.txns[t].a);
  }

  lemma PlaceIsFreeOrTaken(s: State, a: Alloc)
    requires a.free.Some?
    ensures PlaceFree(s, a) <==> !PlaceTaken(s, a)
  {
    if a.free.value {
      assert a.free == Some(true);
    } else {
      assert a.free == Some(false);
    }
  }

  /** Having read all it reads, it is either sold or refunded: never both, and never neither. */
  lemma CountedIsDecided(s: State, t: TxnId, x: SaleId)
    requires Safe(s) && In(s, t, Stage.Counted) && s.txns[t].a.goal.ToIssue? && RowFree(s, s.txns[t].a.goal.hold, t)
    requires s.txns[t].a.current.Some? && s.txns[t].a.free.Some? && x !in s.sales && BySale(x) !in s.writes
    ensures CanSell(s, t, x) <==> !CanMiss(s, t)
  {
    var a := s.txns[t].a;
    assert AtPayment(s, t, Stage.Counted) by {
      assert TxnOk(s.txns[t], s.holds, s.hosted, s.remote);
      assert Window(s.now, BeingPaid(s.txns), s.quotas, s.holds, s.grants, s.ledger, s.closed, a);
    }
    PlaceIsFreeOrTaken(s, a);
    hide Safe, AtPayment, PlaceFree, PlaceTaken;
  }

  // ----- Closing sales -----

  predicate NeverReopens(steps: seq<Step>) {
    forall i | 0 <= i < |steps| :: steps[i] != AtDesk(DoReopen)
  }

  /** A `releaseAll` has returned, and its closure is still in force. */
  predicate Returned(s: State, r: DrainId) {
    r in s.drains && s.drains[r].done && s.closed && s.drains[r].epoch == s.epoch
  }

  /**
    Once `releaseAll` has returned, however requests interleaved with it, nothing of
    the event is outstanding or payable, and no payment is under way that could make
    anything so.
   */
  lemma ReturnedReleasedAll(start: State, steps: seq<Step>, r: DrainId)
    requires Init(start) && IsRun(start, steps) && Returned(After(start, steps), r)
    ensures AllReleased(After(start, steps))
  {
    ReachedIsSafe(start, steps);
    hide IsRun, After, Locks, Windows, Closing, ThreadsOk, Room, WritesOk, HostedOk, OpenRowsOk, SaleHoldsOk,
      SalesOk, EndedOk, RefundsOk;
    ReturnedMeansReleased(After(start, steps), r);
  }

  lemma CommitStaysReturned(s: State, step: Commit, r: DrainId)
    requires Windows(s) && CommitEnabled(s, step) && Returned(s, r)
    ensures Returned(ApplyCommit(s, step), r) && ApplyCommit(s, step).sales.Keys == s.sales.Keys
  {
    assert Window(s.now, BeingPaid(s.txns), s.quotas, s.holds, s.grants, s.ledger, s.closed, s.txns[step.t].a);
    hide Windows, Unlocked, PlaceFree, PlaceTaken, PlaceRefused, RoomSeen, AllocatedCount, CountsSeen, QuotaHasRoom,
      Lapsing, EndHold, SetHold, SetHosted, Entitle;
  }

  lemma DeskStaysReturned(s: State, step: Desk, r: DrainId)
    requires DeskEnabled(s, step) && step != DoReopen && Returned(s, r)
    ensures Returned(ApplyDesk(s, step), r)
  {
    hide Lapsing, EndHold, ToVisit;
  }

  lemma TillStaysReturned(s: State, step: Till, r: DrainId)
    requires TillEnabled(s, step) && Returned(s, r)
    ensures Returned(ApplyTill(s, step), r)
  {
    hide Unlocked, CancelRemote, NoOtherOpen, HoldsEnded, EndedRows, RetiredRows;
  }

  lemma ProgressStaysReturned(s: State, step: Progress, r: DrainId)
    requires ProgressEnabled(s, step) && Returned(s, r)
    ensures Returned(ApplyProgress(s, step), r)
  {
    hide Unlocked;
  }

  lemma WorldStaysReturned(s: State, step: World, r: DrainId)
    requires WorldEnabled(s, step) && Returned(s, r)
    ensures Returned(ApplyWorld(s, step), r)
  {
  }

  lemma OutcomeStaysReturned(s: State, step: Outcome, r: DrainId)
    requires OutcomeEnabled(s, step) && Returned(s, r)
    ensures Returned(ApplyOutcome(s, step), r) && ApplyOutcome(s, step).sales.Keys == s.sales.Keys
  {
  }

  lemma StepStaysReturned(s: State, step: Step, r: DrainId)
    requires Safe(s) && Enabled(s, step) && step != AtDesk(DoReopen) && Returned(s, r)
    ensures Returned(Apply(s, step), r) && Apply(s, step).sales.Keys == s.sales.Keys
  {
    hide ApplyProgress, ApplyCommit, ApplyDesk, ApplyTill, ApplyWorld, ApplyOutcome, ProgressEnabled, CommitEnabled,
      DeskEnabled, TillEnabled, WorldEnabled, OutcomeEnabled;
    match step {
      case InProgress(p) => ProgressStaysReturned(s, p, r);
      case InCommit(p) => CommitStaysReturned(s, p, r);
      case AtDesk(p) => DeskStaysReturned(s, p, r);
      case AtTill(p) => TillStaysReturned(s, p, r);
      case InWorld(p) => WorldStaysReturned(s, p, r);
      case InLedger(p) => OutcomeStaysReturned(s, p, r);
    }
    if !step.InCommit? && !step.InLedger? {
      OthersLeaveRecords(s, step);
    }
  }

  lemma SafeReturnedReleased(s: State, r: DrainId)
    requires Safe(s) && Returned(s, r)
    ensures AllReleased(s)
  {
    hide Locks, Windows, Closing, ThreadsOk, Room, WritesOk, HostedOk, OpenRowsOk, SaleHoldsOk, SalesOk,
      EndedOk, RefundsOk,
      AllReleased;
    ReturnedMeansReleased(s, r);
  }

  /** Until sales reopen, nothing becomes outstanding or payable again, and no sale starts. */
  lemma {:induction false} NothingStartsUntilReopened(s: State, steps: seq<Step>, r: DrainId)
    requires Safe(s) && Returned(s, r) && IsRun(s, steps) && NeverReopens(steps)
    ensures var s' := After(s, steps); Returned(s', r) && AllReleased(s') && s'.sales.Keys == s.sales.Keys
    decreases |steps|
  {
    hide Safe, Returned, Enabled, Apply, AllReleased;
    if steps == [] {
      SafeReturnedReleased(s, r);
    } else {
      assert steps[0] != AtDesk(DoReopen);
      StepStaysReturned(s, steps[0], r);
      StepKeepsSafe(s, steps[0]);
      NothingStartsUntilReopened(Apply(s, steps[0]), steps[1..], r);
    }
  }
}
