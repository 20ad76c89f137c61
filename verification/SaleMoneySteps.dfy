/** Every step keeps the money of the event in order. */
module SaleMoneySteps {
  import opened Allocation
  import opened SaleProtocol
  import opened SaleLocks
  import opened SaleRoom
  import opened SaleMoney

  // ----- Progress under the lock -----

  lemma MovingKeepsBooks(s: State, t: TxnId, a: Alloc)
    requires Books(s) && TxnOk(Allocating(a), s.holds, s.hosted, s.remote) && FreshIn(a, s.refunds, s.sales)
    ensures TxnsOk(s.txns[t := Allocating(a)], s.holds, s.hosted, s.remote)
    ensures FreshOk(s.txns[t := Allocating(a)], s.refunds, s.sales)
  {
  }

  lemma SamePayment(s: State, step: Progress)
    requires Books(s) && ProgressEnabled(s, step)
    requires !step.DoBegin? && !step.DoAbort? && !step.DoFindUnhandled?
    ensures var a := ApplyProgress(s, step).txns[step.t].a;
            a.goal == s.txns[step.t].a.goal && FreshIn(a, s.refunds, s.sales)
            && TxnOk(Allocating(a), s.holds, s.hosted, s.remote)
  {
    hide HostedOk, OpenRowsOk, SalesOk, SaleHoldsOk, RefundsOk, WritesOk, EndedOk, PollsOk;
    assert TxnOk(s.txns[step.t], s.holds, s.hosted, s.remote);
    assert FreshIn(s.txns[step.t].a, s.refunds, s.sales);
  }

  lemma ProgressKeepsBooks(s: State, step: Progress)
    requires Books(s) && ProgressEnabled(s, step)
    ensures Books(ApplyProgress(s, step))
  {
    hide HostedOk, OpenRowsOk, SalesOk, SaleHoldsOk, RefundsOk, WritesOk, EndedOk;
    if !step.DoAbort? {
      if step.t in s.txns {
        assert TxnOk(s.txns[step.t], s.holds, s.hosted, s.remote);
      }
      if !step.DoBegin? && !step.DoFindUnhandled? {
        SamePayment(s, step);
      }
      MovingKeepsBooks(s, step.t, ApplyProgress(s, step).txns[step.t].a);
    }
  }

  // ----- Commits under the lock -----

  /** A hold whose row another transaction keeps is not this commit's. */
  lemma PayersUntouched(s: State, t: TxnId)
    requires Locks(s) && t in s.txns && s.txns[t].Allocating?
    ensures forall t' | t' in s.txns && s.txns[t'].Paying? ::
              s.txns[t'].hold in s.rows && s.rows[s.txns[t'].hold] == t' && s.txns[t'].hold !in s.txns[t].a.gone
  {
    forall t' | t' in s.txns && s.txns[t'].Paying?
      ensures s.txns[t'].hold in s.rows && s.rows[s.txns[t'].hold] == t' && s.txns[t'].hold !in s.txns[t].a.gone
    {
      assert KeepsRow(s.txns[t'], s.txns[t'].hold);
      assert s.txns[t'].hold in s.txns[t].a.gone ==> KeepsRow(s.txns[t], s.txns[t'].hold);
    }
  }

  lemma CommitKeepsPrices(s: State, step: Commit)
    requires CommitEnabled(s, step)
    ensures forall h | h in s.holds :: h in ApplyCommit(s, step).holds && ApplyCommit(s, step).holds[h].price == s.holds[h].price
  {
    hide SetHosted, Entitle, PlaceFree, PlaceTaken, PlaceRefused, RoomSeen, AllocatedCount, Unlocked;
  }

  lemma CommitKeepsRows(s: State, step: Commit)
    requires CommitEnabled(s, step)
    ensures ApplyCommit(s, step).remote == s.remote
    ensures var hosted := ApplyCommit(s, step).hosted;
            forall k | k in s.hosted :: k in hosted && hosted[k].hold == s.hosted[k].hold && hosted[k].asked == s.hosted[k].asked
  {
    hide ApplyCommit, CommitEnabled;
    if OfPayment(step) {
      PaymentCommitRecords(s, step);
    } else {
      OtherCommitLeavesRows(s, step);
    }
  }

  predicate OfPayment(step: Commit) {
    step.DoSkip? || step.DoTurnAway? || step.DoSell? || step.DoMiss?
  }

  /** A payment's own row is recorded, as paid. */
  lemma PaymentCommitRecords(s: State, step: Commit)
    requires CommitEnabled(s, step) && OfPayment(step)
    ensures step.t in s.txns && s.txns[step.t].Allocating? && s.txns[step.t].a.goal.ToIssue?
    ensures var s', k := ApplyCommit(s, step), s.txns[step.t].a.goal.hosted;
            k in s.hosted && s'.hosted == SetHosted(s.hosted, k, Paid) && s'.remote == s.remote
  {
    hide Lapsing, EndHold, SetHold, SetHosted, Entitle, PlaceFree, PlaceTaken, RoomSeen, Unlocked,
      CountsSeen, QuotaHasRoom, Handled, AmountAsAsked, RowFree;
  }

  lemma OtherCommitLeavesRows(s: State, step: Commit)
    requires CommitEnabled(s, step) && !OfPayment(step)
    ensures ApplyCommit(s, step).hosted == s.hosted && ApplyCommit(s, step).remote == s.remote
  {
    hide Lapsing, PlaceRefused, RoomSeen, AllocatedCount, Unlocked, CountsSeen, QuotaHasRoom;
  }

  lemma CommitGrows(s: State, step: Commit)
    requires CommitEnabled(s, step)
    ensures Grows(s, ApplyCommit(s, step))
  {
    hide ApplyCommit, CommitEnabled;
    CommitKeepsPrices(s, step);
    CommitKeepsRows(s, step);
  }

  /** The rows payments are being started for are left alone. */
  lemma CommitLeavesPayers(s: State, step: Commit, t': TxnId)
    requires Locks(s) && CommitEnabled(s, step) && t' in s.txns && s.txns[t'].Paying? && s.txns[t'].hold in s.holds
    ensures ApplyCommit(s, step).holds[s.txns[t'].hold] == s.holds[s.txns[t'].hold]
  {
    PayersUntouched(s, step.t);
  }

  lemma OverKeepsTxns(s: State, s': State, t: TxnId)
    requires TxnsOk(s.txns, s.holds, s.hosted, s.remote) && Grows(s, s') && s'.txns == s.txns - {t}
    requires forall t' | t' in s'.txns && s.txns[t'].Paying? && s.txns[t'].hold in s.holds ::
               s'.holds[s.txns[t'].hold] == s.holds[s.txns[t'].hold]
    ensures TxnsOk(s'.txns, s'.holds, s'.hosted, s'.remote)
  {
    hide Grows;
    forall t' | t' in s'.txns ensures TxnOk(s'.txns[t'], s'.holds, s'.hosted, s'.remote) {
      assert TxnOk(s.txns[t'], s.holds, s.hosted, s.remote);
      GrowingKeepsTxn(s, s', s.txns[t']);
    }
  }

  /** Nobody else is past waiting. */
  lemma OverKeepsFresh(s: State, s': State, t: TxnId)
    requires Locks(s) && t in s.txns && s.txns[t].Allocating? && !s.txns[t].a.stage.Waiting? && s'.txns == s.txns - {t}
    ensures FreshOk(s'.txns, s'.refunds, s'.sales)
  {
  }

  lemma CommitKeepsThreads(s: State, step: Commit)
    requires Locks(s) && ThreadsOk(s) && CommitEnabled(s, step) && !step.DoShrink?
    ensures ThreadsOk(ApplyCommit(s, step))
  {
    var s' := ApplyCommit(s, step);
    CommitGrows(s, step);
    CommitEnds(s, step);
    hide ApplyCommit, CommitEnabled, Grows, TxnOk, LocksOk, FreshIn;
    forall t | t in s'.txns && s.txns[t].Paying? && s.txns[t].hold in s.holds
      ensures s'.holds[s.txns[t].hold] == s.holds[s.txns[t].hold]
    {
      CommitLeavesPayers(s, step, t);
    }
    OverKeepsTxns(s, s', step.t);
    OverKeepsFresh(s, s', step.t);
    GrowingKeepsPolls(s, s');
  }

  lemma CommitEnds(s: State, step: Commit)
    requires CommitEnabled(s, step) && !step.DoShrink?
    ensures step.t in s.txns && s.txns[step.t].Allocating? && !s.txns[step.t].a.stage.Waiting?
    ensures var s' := ApplyCommit(s, step); s'.txns == s.txns - {step.t} && s'.polls == s.polls
  {
  }

  /** Recording a payment as paid keeps the tables in order. */
  lemma PaidRowKeepsTables(s: State, k: HostedId)
    requires TablesOk(s) && k in s.hosted && k in s.remote && s.remote[k].status.Paid?
    ensures TablesOk(s.(hosted := SetHosted(s.hosted, k, Paid)))
  {
    hide SalesOk, SaleHoldsOk, RefundsOk, WritesOk, EndedOk;
    var s' := s.(hosted := SetHosted(s.hosted, k, Paid));
    GrowingKeepsSales(s, s');
    GrowingKeepsWrites(s, s');
    KeepingKeepsEnded(s, s');
  }

  /** Holds end, start or are extended; none becomes or stops being a sale's. */
  ghost predicate HoldsOnlyEnd(holds: Holds, holds': Holds) {
    && (forall h | h in holds ::
          && h in holds' && holds'[h].price == holds[h].price
          && (holds'[h].status == holds[h].status
              || (holds[h].status.Outstanding? && (holds'[h].status.Lapsed? || holds'[h].status.Released?))))
    && (forall h | h in holds' && h !in holds :: holds'[h].status.Outstanding?)
  }

  lemma EndingHoldsKeepsTables(s: State, s': State)
    requires TablesOk(s) && HoldsOnlyEnd(s.holds, s'.holds)
    requires s'.hosted == s.hosted && s'.remote == s.remote && s'.sales == s.sales && s'.refunds == s.refunds
    requires s'.faces == s.faces && s'.ledger.status == s.ledger.status && s'.writes == s.writes
    requires s'.grants == s.grants
    ensures TablesOk(s')
  {
    KeepingKeepsSaleHolds(s.sales, s.holds, s'.holds);
    KeepingKeepsEnded(s, s');
  }

  lemma LapsingOnlyEnds(s: State, t: TxnId)
    requires Windows(s) && t in s.txns && s.txns[t].Allocating? && !s.txns[t].a.stage.Waiting?
    requires s.txns[t].a.stage.Counted? || s.txns[t].a.stage.Written?
    ensures HoldsOnlyEnd(s.holds, Lapsing(s.holds, s.txns[t].a.gone))
  {
    var a := s.txns[t].a;
    assert Window(s.now, BeingPaid(s.txns), s.quotas, s.holds, s.grants, s.ledger, s.closed, a);
  }

  lemma PlaceKeepsTables(s: State, t: TxnId)
    requires Windows(s) && Books(s) && CanPlace(s, t)
    ensures TablesOk(Place(s, t))
  {
    hide HostedOk, OpenRowsOk, SalesOk, SaleHoldsOk, RefundsOk, WritesOk, EndedOk, PollsOk, TxnsOk, FreshOk;
    LapsingOnlyEnds(s, t);
    EndingHoldsKeepsTables(s, Place(s, t));
  }

  lemma CommitLapsesKeepsTables(s: State, t: TxnId)
    requires Windows(s) && Books(s) && (CanPlaceNothing(s, t) || CanKeepShrink(s, t))
    ensures TablesOk(CommitLapses(s, t))
  {
    hide HostedOk, OpenRowsOk, SalesOk, SaleHoldsOk, RefundsOk, WritesOk, EndedOk, PollsOk, TxnsOk, FreshOk;
    LapsingOnlyEnds(s, t);
    EndingHoldsKeepsTables(s, CommitLapses(s, t));
  }

  /** Refunds look only at the writes of sales. */
  lemma GrantWritesKeepRefunds(refunds: map<HostedId, Refund>, sales: map<SaleId, Sale>, remote: map<HostedId, Remote>,
                               writes: map<Claim, Write>, g: GrantId, write: Write, status: EventStatus)
    requires RefundsOk(refunds, sales, remote, writes, status)
    ensures RefundsOk(refunds, sales, remote, writes[ByGrant(g) := write], status)
  {
  }

  lemma ReservingKeepsWrites(s: State, g: GrantId, grant: Grant)
    requires WritesOk(s.writes, s.sales, s.grants, s.faces, s.hosted) && !grant.status.Rejected?
    ensures WritesOk(s.writes[ByGrant(g) := Unsigned], s.sales, s.grants[g := grant], s.faces, s.hosted)
  {
  }

  lemma ReserveKeepsTables(s: State, t: TxnId)
    requires Windows(s) && Books(s) && CanReserve(s, t)
    ensures TablesOk(Reserve(s, t))
  {
    hide HostedOk, OpenRowsOk, SalesOk, SaleHoldsOk, RefundsOk, WritesOk, EndedOk, PollsOk, TxnsOk, FreshOk;
    var lapsed := s.(holds := Lapsing(s.holds, s.txns[t].a.gone));
    LapsingOnlyEnds(s, t);
    EndingHoldsKeepsTables(s, lapsed);
    var goal := s.txns[t].a.goal;
    GrantWritesKeepRefunds(s.refunds, s.sales, s.remote, s.writes, goal.grant, Unsigned, s.ledger.status);
    ReservingKeepsWrites(s, goal.grant, Grant(goal.cls, goal.seat, Pending));
  }

  // ----- A payment handled -----

  /** Refunding a payment found unhandled, for a reason of its own. */
  lemma EntitlingKeepsRefunds(s: State, k: HostedId, money: Money, reason: RefundReason)
    requires RefundsOk(s.refunds, s.sales, s.remote, s.writes, s.ledger.status)
    requires !Handled(s, k) && k in s.remote && s.remote[k].status.Paid? && money == s.remote[k].taken
    requires reason.AmountMismatch? || reason.EventClosed? || reason.PlaceGone?
    ensures RefundsOk(Entitle(s.refunds, k, money, reason), s.sales, s.remote, s.writes, s.ledger.status)
  {
  }

  /** A payment refunded without a sale, its hold over. */
  lemma RefundingKeepsTables(s: State, s': State, k: HostedId, reason: RefundReason)
    requires TablesOk(s) && !Handled(s, k) && k in s.hosted && k in s.remote && s.remote[k].status.Paid?
    requires reason.AmountMismatch? || reason.EventClosed? || reason.PlaceGone?
    requires HoldsOnlyEnd(s.holds, s'.holds) && s'.holds.Keys == s.holds.Keys
    requires !s'.holds[s.hosted[k].hold].status.Outstanding?
    requires s'.hosted == SetHosted(s.hosted, k, Paid) && s'.remote == s.remote && s'.sales == s.sales
    requires s'.refunds == Entitle(s.refunds, k, s.remote[k].taken, reason)
    requires s'.faces == s.faces && s'.ledger.status == s.ledger.status && s'.writes == s.writes
    requires s'.grants == s.grants
    ensures TablesOk(s')
  {
    var ended := s.(holds := s'.holds);
    EndingHoldsKeepsTables(s, ended);
    var paid := ended.(hosted := s'.hosted);
    PaidRowKeepsTables(ended, k);
    EntitlingKeepsRefunds(s, k, s.remote[k].taken, reason);
    assert EndedOk(s'.refunds, s'.sales, s'.hosted, s'.holds);
  }

  lemma PaymentUnhandled(s: State, t: TxnId)
    requires Books(s) && t in s.txns && s.txns[t].Allocating? && s.txns[t].a.goal.ToIssue?
    requires !s.txns[t].a.stage.Waiting? && !s.txns[t].a.stage.Entered?
    ensures !Handled(s, s.txns[t].a.goal.hosted)
    ensures TxnOk(s.txns[t], s.holds, s.hosted, s.remote)
  {
    assert FreshIn(s.txns[t].a, s.refunds, s.sales);
  }

  lemma TurnAwayKeepsTables(s: State, t: TxnId, at: int, reason: RefundReason)
    requires Books(s) && CanTurnAway(s, t, at, reason)
    ensures TablesOk(TurnAway(s, t, at, reason))
  {
    hide HostedOk, OpenRowsOk, SalesOk, SaleHoldsOk, RefundsOk, WritesOk, EndedOk, PollsOk;
    PaymentUnhandled(s, t);
    RefundingKeepsTables(s, TurnAway(s, t, at, reason), s.txns[t].a.goal.hosted, reason);
  }

  lemma MissKeepsTables(s: State, t: TxnId)
    requires Windows(s) && Books(s) && CanMiss(s, t)
    ensures TablesOk(Miss(s, t))
  {
    hide HostedOk, OpenRowsOk, SalesOk, SaleHoldsOk, RefundsOk, WritesOk, EndedOk, PollsOk;
    PaymentUnhandled(s, t);
    LapsingOnlyEnds(s, t);
    assert Window(s.now, BeingPaid(s.txns), s.quotas, s.holds, s.grants, s.ledger, s.closed, s.txns[t].a);
    RefundingKeepsTables(s, Miss(s, t), s.txns[t].a.goal.hosted, PlaceGone);
  }

  lemma SkipKeepsTables(s: State, t: TxnId)
    requires Books(s) && CanSkip(s, t)
    ensures TablesOk(Skip(s, t))
  {
    hide HostedOk, OpenRowsOk, SalesOk, SaleHoldsOk, RefundsOk, WritesOk, EndedOk;
    assert TxnOk(s.txns[t], s.holds, s.hosted, s.remote);
    PaidRowKeepsTables(s, s.txns[t].a.goal.hosted);
  }

  // ----- A sale started -----

  predicate CanStartSale(s: State, x: SaleId, k: HostedId, h: HoldId) {
    && !Handled(s, k) && k in s.hosted && k in s.remote && s.remote[k].status.Paid?
    && s.remote[k].taken == s.hosted[k].asked && x !in s.sales && BySale(x) !in s.writes
    && s.hosted[k].hold == h && h in s.holds && !s.holds[h].status.Issuing? && !s.holds[h].status.Confirmed?
  }

  function StartSale(s: State, x: SaleId, k: HostedId, h: HoldId): State
    requires h in s.holds
  {
    s.(holds := SetHold(s.holds, h, Issuing), sales := s.sales[x := Sale(k, h, SaleIssuing)],
       writes := s.writes[BySale(x) := Unsigned])
  }

  lemma StartedSaleIsOk(s: State, x: SaleId, k: HostedId, h: HoldId)
    requires SalesOk(s.sales, s.hosted, s.remote) && CanStartSale(s, x, k, h)
    ensures SalesOk(s.sales[x := Sale(k, h, SaleIssuing)], s.hosted, s.remote)
  {
  }

  lemma StartedSaleWrites(s: State, x: SaleId, k: HostedId, h: HoldId)
    requires WritesOk(s.writes, s.sales, s.grants, s.faces, s.hosted) && CanStartSale(s, x, k, h)
    ensures WritesOk(s.writes[BySale(x) := Unsigned], s.sales[x := Sale(k, h, SaleIssuing)], s.grants, s.faces, s.hosted)
  {
  }

  lemma StartedSaleEnds(s: State, x: SaleId, k: HostedId, h: HoldId)
    requires EndedOk(s.refunds, s.sales, s.hosted, s.holds) && CanStartSale(s, x, k, h)
    ensures EndedOk(s.refunds, s.sales[x := Sale(k, h, SaleIssuing)], s.hosted, SetHold(s.holds, h, Issuing))
  {
  }

  lemma StartedSaleHolds(s: State, x: SaleId, k: HostedId, h: HoldId)
    requires SaleHoldsOk(s.sales, s.holds) && CanStartSale(s, x, k, h)
    ensures SaleHoldsOk(s.sales[x := Sale(k, h, SaleIssuing)], SetHold(s.holds, h, Issuing))
  {
    var sales, holds := s.sales[x := Sale(k, h, SaleIssuing)], SetHold(s.holds, h, Issuing);
    forall h' | h' in holds && (holds[h'].status.Issuing? || holds[h'].status.Confirmed?)
      ensures exists y | y in sales :: sales[y].hold == h' && !sales[y].status.SaleRejected?
    {
      if h' == h {
        assert sales[x].hold == h;
      } else {
        var y :| y in s.sales && s.sales[y].hold == h' && !s.sales[y].status.SaleRejected?;
        assert sales[y] == s.sales[y];
      }
    }
  }

  lemma StartedSaleRefunds(s: State, x: SaleId, k: HostedId, h: HoldId)
    requires RefundsOk(s.refunds, s.sales, s.remote, s.writes, s.ledger.status) && CanStartSale(s, x, k, h)
    ensures RefundsOk(s.refunds, s.sales[x := Sale(k, h, SaleIssuing)], s.remote, s.writes[BySale(x) := Unsigned],
                      s.ledger.status)
  {
    var sales := s.sales[x := Sale(k, h, SaleIssuing)];
    forall k' | k' in s.refunds && (s.refunds[k'].reason.IssuanceRejected? || s.refunds[k'].reason.EventCancelled?)
      ensures HasSale(sales, k')
    {
      var y :| y in s.sales && s.sales[y].hosted == k';
      assert sales[y] == s.sales[y];
    }
  }

  lemma SaleStarts(s: State, x: SaleId, k: HostedId, h: HoldId)
    requires TablesOk(s) && CanStartSale(s, x, k, h)
    ensures TablesOk(StartSale(s, x, k, h))
  {
    hide OpenRowsOk, SalesOk, SaleHoldsOk, RefundsOk, WritesOk, EndedOk;
    StartedSaleIsOk(s, x, k, h);
    StartedSaleWrites(s, x, k, h);
    StartedSaleEnds(s, x, k, h);
    StartedSaleHolds(s, x, k, h);
    StartedSaleRefunds(s, x, k, h);
    assert HostedOk(SetHold(s.holds, h, Issuing), s.hosted, s.remote);
  }

  lemma SellKeepsTables(s: State, t: TxnId, x: SaleId)
    requires Windows(s) && Books(s) && CanSell(s, t, x)
    ensures TablesOk(Sell(s, t, x))
  {
    hide HostedOk, OpenRowsOk, SalesOk, SaleHoldsOk, RefundsOk, WritesOk, EndedOk;
    var a := s.txns[t].a;
    var k, h := a.goal.hosted, a.goal.hold;
    PaymentUnhandled(s, t);
    LapsingOnlyEnds(s, t);
    assert PaymentOk(s.holds, s.closed, a) by {
      assert Window(s.now, BeingPaid(s.txns), s.quotas, s.holds, s.grants, s.ledger, s.closed, a);
    }
    var lapsed := s.(holds := Lapsing(s.holds, a.gone));
    EndingHoldsKeepsTables(s, lapsed);
    var paid := lapsed.(hosted := SetHosted(s.hosted, k, Paid));
    PaidRowKeepsTables(lapsed, k);
    SaleStarts(paid, x, k, h);
  }

  lemma CommitKeepsBooks(s: State, step: Commit)
    requires Locks(s) && Windows(s) && Books(s) && CommitEnabled(s, step)
    ensures Books(ApplyCommit(s, step))
  {
    hide HostedOk, OpenRowsOk, SalesOk, SaleHoldsOk, RefundsOk, WritesOk, EndedOk;
    if step.DoShrink? {
      var a' := ApplyCommit(s, step).txns[step.t].a;
      assert TxnOk(s.txns[step.t], s.holds, s.hosted, s.remote);
      MovingKeepsBooks(s, step.t, a');
    } else {
      CommitKeepsThreads(s, step);
      match step {
        case DoPlace(t) => PlaceKeepsTables(s, t);
        case DoPlaceNothing(t) => CommitLapsesKeepsTables(s, t);
        case DoReserve(t) => ReserveKeepsTables(s, t);
        case DoSkip(t) => SkipKeepsTables(s, t);
        case DoTurnAway(t, at, reason) => TurnAwayKeepsTables(s, t, at, reason);
        case DoSell(t, x) => SellKeepsTables(s, t, x);
        case DoMiss(t) => MissKeepsTables(s, t);
        case DoKeepShrink(t) => CommitLapsesKeepsTables(s, t);
        case _ =>
      }
    }
  }
}
