/** The ledger's verdicts, and what follows from them, keep the money of the event in order. */
module SaleOutcomeSteps {
  import opened Allocation
  import opened SaleProtocol
  import opened SaleMoney

  // ----- The ledger's writes -----

  /** How a write may change: it is signed, then recorded or refused. */
  predicate WriteMoves(s: State, c: Claim, write: Write) {
    && c in s.writes
    && ((s.writes[c].Unsigned? && write.InFlight?) || (s.writes[c].InFlight? && (write.Landed? || write.Refused?)))
  }

  lemma MovingWriteKeepsTables(s: State, c: Claim, write: Write)
    requires TablesOk(s) && WriteMoves(s, c, write)
    ensures TablesOk(s.(writes := s.writes[c := write]))
  {
    hide HostedOk, OpenRowsOk, SalesOk, SaleHoldsOk, EndedOk;
    assert RefundsOk(s.refunds, s.sales, s.remote, s.writes[c := write], s.ledger.status);
    assert WritesOk(s.writes[c := write], s.sales, s.grants, s.faces, s.hosted);
  }

  lemma MovingOnKeepsTables(s: State, status: EventStatus)
    requires TablesOk(s) && CanMoveOn(s, status)
    ensures TablesOk(MoveOn(s, status))
  {
    hide HostedOk, OpenRowsOk, SalesOk, SaleHoldsOk, EndedOk, WritesOk;
  }

  lemma SettlingKeepsTables(s: State, g: GrantId, outcome: GrantStatus)
    requires TablesOk(s) && CanSettle(s, g, outcome)
    ensures TablesOk(Settle(s, g, outcome))
  {
    hide HostedOk, OpenRowsOk, SalesOk, SaleHoldsOk, EndedOk, RefundsOk;
  }

  lemma UndertakingNothingKeepsTables(s: State, g: GrantId)
    requires TablesOk(s) && CanUndertakeNothing(s, g)
    ensures TablesOk(UndertakeNothing(s, g))
  {
    hide HostedOk, OpenRowsOk, SalesOk, SaleHoldsOk, EndedOk;
  }

  // ----- Outcomes of sales -----

  /** A sale changes status, with its hold. */
  ghost predicate Follows(s: State, x: SaleId, status: SaleStatus, holds: Holds)
    requires x in s.sales
  {
    var h := s.sales[x].hold;
    && h in s.holds && holds.Keys == s.holds.Keys
    && (forall h' | h' in holds && h' != h :: holds[h'] == s.holds[h'])
    && holds[h].price == s.holds[h].price
    && holds[h].status == (match status
                           case SaleIssuing => Issuing
                           case SaleIssued => Confirmed
                           case SaleFailed => Issuing
                           case SaleRejected => Released)
  }

  lemma FollowingKeepsHolds(s: State, x: SaleId, status: SaleStatus, holds: Holds)
    requires SaleHoldsOk(s.sales, s.holds) && x in s.sales && !s.sales[x].status.SaleRejected?
    requires Follows(s, x, status, holds)
    ensures SaleHoldsOk(SetSale(s.sales, x, status), holds)
  {
    var sales := SetSale(s.sales, x, status);
    forall h | h in holds && (holds[h].status.Issuing? || holds[h].status.Confirmed?)
      ensures exists y | y in sales :: sales[y].hold == h && !sales[y].status.SaleRejected?
    {
      var y :| y in s.sales && s.sales[y].hold == h && !s.sales[y].status.SaleRejected?;
      assert sales[y].hold == h;
    }
  }

  lemma FollowingKeepsRest(s: State, x: SaleId, status: SaleStatus, holds: Holds)
    requires HostedOk(s.holds, s.hosted, s.remote) && SalesOk(s.sales, s.hosted, s.remote)
    requires EndedOk(s.refunds, s.sales, s.hosted, s.holds)
    requires x in s.sales && Follows(s, x, status, holds)
    ensures HostedOk(holds, s.hosted, s.remote) && SalesOk(SetSale(s.sales, x, status), s.hosted, s.remote)
    ensures EndedOk(s.refunds, SetSale(s.sales, x, status), s.hosted, holds)
  {
  }

  lemma FailKeepsTables(s: State, x: SaleId)
    requires TablesOk(s) && CanFail(s, x)
    ensures TablesOk(Fail(s, x))
  {
    hide HostedOk, OpenRowsOk, SalesOk, EndedOk, RefundsOk;
    FollowingKeepsHolds(s, x, SaleFailed, s.holds);
    FollowingKeepsRest(s, x, SaleFailed, s.holds);
    FailKeepsRefunds(s, x);
    FailKeepsWrites(s, x);
    hide SaleHoldsOk, WritesOk, Follows;
  }

  lemma FailKeepsWrites(s: State, x: SaleId)
    requires WritesOk(s.writes, s.sales, s.grants, s.faces, s.hosted) && CanFail(s, x)
    ensures WritesOk(s.writes, SetSale(s.sales, x, SaleFailed), s.grants, s.faces, s.hosted)
  {
  }

  lemma FailKeepsRefunds(s: State, x: SaleId)
    requires RefundsOk(s.refunds, s.sales, s.remote, s.writes, s.ledger.status) && CanFail(s, x)
    ensures RefundsOk(s.refunds, SetSale(s.sales, x, SaleFailed), s.remote, s.writes, s.ledger.status)
    ensures RefundsOk(s.refunds, SetSale(s.sales, x, SaleIssued), s.remote, s.writes, s.ledger.status)
  {
    SaleStaysItsOwn(s, x, SaleFailed);
    SaleStaysItsOwn(s, x, SaleIssued);
  }

  /** A refunded checkout's sale is still its sale. */
  lemma SaleStaysItsOwn(s: State, x: SaleId, status: SaleStatus)
    requires x in s.sales
    ensures forall k :: HasSale(SetSale(s.sales, x, status), k) <==> HasSale(s.sales, k)
  {
    var sales := SetSale(s.sales, x, status);
    forall k ensures HasSale(sales, k) <==> HasSale(s.sales, k) {
      if HasSale(s.sales, k) {
        var y :| y in s.sales && s.sales[y].hosted == k;
        assert sales[y].hosted == k;
      }
    }
  }

  lemma ConfirmKeepsTables(s: State, x: SaleId)
    requires TablesOk(s) && CanConfirm(s, x)
    ensures TablesOk(Confirm(s, x))
  {
    hide HostedOk, OpenRowsOk, SalesOk, SaleHoldsOk, EndedOk, RefundsOk, WritesOk, SetSale;
    var holds := SetHold(s.holds, s.sales[x].hold, Confirmed);
    FollowingKeepsHolds(s, x, SaleIssued, holds);
    FollowingKeepsRest(s, x, SaleIssued, holds);
    FailKeepsRefunds(s, x);
    ConfirmKeepsWrites(s, x);
  }

  /** The ticket's face value is the hold's price, the amount its checkout asked. */
  lemma ConfirmKeepsWrites(s: State, x: SaleId)
    requires HostedOk(s.holds, s.hosted, s.remote) && SalesOk(s.sales, s.hosted, s.remote)
    requires WritesOk(s.writes, s.sales, s.grants, s.faces, s.hosted) && CanConfirm(s, x)
    ensures WritesOk(s.writes, SetSale(s.sales, x, SaleIssued), s.grants,
                     s.faces[x := s.holds[s.sales[x].hold].price], s.hosted)
  {
  }

  /** The rejected sale's payment had no refund yet, and gets one of exactly what was taken. */
  lemma RejectEntitles(s: State, x: SaleId)
    requires SalesOk(s.sales, s.hosted, s.remote) && CanReject(s, x)
    requires RefundsOk(s.refunds, s.sales, s.remote, s.writes, s.ledger.status)
    ensures var sale := s.sales[x];
            && sale.hosted !in s.refunds && sale.hosted in s.remote && s.remote[sale.hosted].status.Paid?
            && s.remote[sale.hosted].taken == s.hosted[sale.hosted].asked
            && (forall y | y in s.sales && y != x :: s.sales[y].hosted != sale.hosted)
  {
  }

  lemma RejectedRefundsOk(s: State, x: SaleId, refund: Refund, writes: map<Claim, Write>)
    requires RefundsOk(s.refunds, s.sales, s.remote, s.writes, s.ledger.status)
    requires x in s.sales && s.sales[x].hosted !in s.refunds && s.sales[x].hosted in s.remote
    requires s.remote[s.sales[x].hosted].status.Paid?
    requires refund == Refund(s.remote[s.sales[x].hosted].taken, IssuanceRejected)
    requires forall y | y in s.sales && y != x :: s.sales[y].hosted != s.sales[x].hosted
    requires forall y | y in s.sales && y != x && BySale(y) in s.writes :: BySale(y) in writes && writes[BySale(y)] == s.writes[BySale(y)]
    ensures RefundsOk(s.refunds[s.sales[x].hosted := refund], SetSale(s.sales, x, SaleRejected), s.remote, writes, s.ledger.status)
  {
    SaleStaysItsOwn(s, x, SaleRejected);
    assert HasSale(s.sales, s.sales[x].hosted);
    hide HasSale;
  }

  lemma RejectKeepsRefunds(s: State, x: SaleId)
    requires SalesOk(s.sales, s.hosted, s.remote) && CanReject(s, x)
    requires RefundsOk(s.refunds, s.sales, s.remote, s.writes, s.ledger.status)
    ensures var s' := Reject(s, x); RefundsOk(s'.refunds, s'.sales, s'.remote, s'.writes, s'.ledger.status)
  {
    RejectEntitles(s, x);
    hide RefundsOk, SalesOk;
    RejectedRefundsOk(s, x, Refund(s.hosted[s.sales[x].hosted].asked, IssuanceRejected), s.writes[BySale(x) := Refused]);
  }

  lemma RejectKeepsWrites(s: State, x: SaleId)
    requires WritesOk(s.writes, s.sales, s.grants, s.faces, s.hosted) && CanReject(s, x)
    ensures WritesOk(s.writes[BySale(x) := Refused], SetSale(s.sales, x, SaleRejected), s.grants, s.faces, s.hosted)
  {
  }

  /** A refund given for a sale: the sale's hold was never outstanding again. */
  lemma EntitlingKeepsEnded(s: State, x: SaleId, refund: Refund)
    requires EndedOk(s.refunds, s.sales, s.hosted, s.holds) && SalesOk(s.sales, s.hosted, s.remote) && x in s.sales
    ensures EndedOk(Entitle(s.refunds, s.sales[x].hosted, refund.money, refund.reason), s.sales, s.hosted, s.holds)
  {
  }

  /** An issuing sale's hold is issuing, and becomes released. */
  lemma RejectFollows(s: State, x: SaleId)
    requires SaleHoldsOk(s.sales, s.holds) && CanReject(s, x)
    ensures !s.sales[x].status.SaleRejected? && Reject(s, x).holds == SetHold(s.holds, s.sales[x].hold, Released)
    ensures Follows(s, x, SaleRejected, Reject(s, x).holds)
  {
    assert s.holds[s.sales[x].hold].status.Issuing?;
  }

  lemma RejectKeepsTables(s: State, x: SaleId)
    requires TablesOk(s) && CanReject(s, x)
    ensures TablesOk(Reject(s, x))
  {
    hide HostedOk, OpenRowsOk, SalesOk, SaleHoldsOk, EndedOk, RefundsOk, WritesOk, Entitle, SetHold, SetSale;
    var sale := s.sales[x];
    RejectFollows(s, x);
    var holds := Reject(s, x).holds;
    FollowingKeepsHolds(s, x, SaleRejected, holds);
    EntitlingKeepsEnded(s, x, Refund(s.hosted[sale.hosted].asked, IssuanceRejected));
    var entitled := s.(refunds := Entitle(s.refunds, sale.hosted, s.hosted[sale.hosted].asked, IssuanceRejected));
    FollowingKeepsRest(entitled, x, SaleRejected, holds);
    RejectKeepsRefunds(s, x);
    RejectKeepsWrites(s, x);
  }

  // ----- Cancellation refunds -----

  /** A ticket on the ledger of a cancelled event is refunded for its face value, which is what was paid. */
  lemma RefundTicketKeepsRefunds(s: State, x: SaleId)
    requires HostedOk(s.holds, s.hosted, s.remote) && SalesOk(s.sales, s.hosted, s.remote)
    requires WritesOk(s.writes, s.sales, s.grants, s.faces, s.hosted) && CanRefundTicket(s, x)
    requires RefundsOk(s.refunds, s.sales, s.remote, s.writes, s.ledger.status)
    ensures RefundsOk(RefundTicket(s, x).refunds, s.sales, s.remote, s.writes, s.ledger.status)
  {
  }

  lemma RefundTicketKeepsTables(s: State, x: SaleId)
    requires TablesOk(s) && CanRefundTicket(s, x)
    ensures TablesOk(RefundTicket(s, x))
  {
    hide HostedOk, OpenRowsOk, SalesOk, SaleHoldsOk, EndedOk, RefundsOk, WritesOk;
    var face := if x in s.faces then s.faces[x] else s.holds[s.sales[x].hold].price;
    EntitlingKeepsEnded(s, x, Refund(face, EventCancelled));
    RefundTicketKeepsRefunds(s, x);
  }

  // ----- Every outcome -----

  lemma OutcomeKeepsTables(s: State, step: Outcome)
    requires TablesOk(s) && OutcomeEnabled(s, step)
    ensures TablesOk(ApplyOutcome(s, step))
  {
    hide TablesOk;
    match step {
      case DoSign(c) => MovingWriteKeepsTables(s, c, InFlight);
      case DoLand(c) => MovingWriteKeepsTables(s, c, Landed);
      case DoRefuse(c) => MovingWriteKeepsTables(s, c, Refused);
      case DoConfirm(x) => ConfirmKeepsTables(s, x);
      case DoReject(x) => RejectKeepsTables(s, x);
      case DoFail(x) => FailKeepsTables(s, x);
      case DoSettle(g, outcome) => SettlingKeepsTables(s, g, outcome);
      case DoUndertakeNothing(g) => UndertakingNothingKeepsTables(s, g);
      case DoMoveOn(status) => MovingOnKeepsTables(s, status);
      case DoRefundTicket(x) => RefundTicketKeepsTables(s, x);
    }
  }

  /** An outcome touches no outstanding hold and no price. */
  lemma OutcomeHolds(s: State, step: Outcome)
    requires SaleHoldsOk(s.sales, s.holds) && OutcomeEnabled(s, step)
    ensures var s' := ApplyOutcome(s, step);
            && s'.holds.Keys == s.holds.Keys
            && (forall h | h in s.holds :: s'.holds[h].price == s.holds[h].price)
            && (forall h | h in s.holds && s.holds[h].status.Outstanding? :: s'.holds[h] == s.holds[h])
  {
    hide ApplyOutcome, OutcomeEnabled, SaleHoldsOk;
    if step.DoConfirm? || step.DoReject? {
      SaleOutcomeHolds(s, step);
    } else {
      OtherOutcomesLeaveHolds(s, step);
    }
  }

  lemma SaleOutcomeHolds(s: State, step: Outcome)
    requires SaleHoldsOk(s.sales, s.holds) && OutcomeEnabled(s, step) && (step.DoConfirm? || step.DoReject?)
    ensures var h, holds := s.sales[step.x].hold, ApplyOutcome(s, step).holds;
            && h in s.holds && !s.holds[h].status.Outstanding?
            && (holds == SetHold(s.holds, h, Confirmed) || holds == SetHold(s.holds, h, Released) || holds == s.holds)
  {
    hide Entitle, SetSale, SetHold;
  }

  lemma OtherOutcomesLeaveHolds(s: State, step: Outcome)
    requires OutcomeEnabled(s, step) && !step.DoConfirm? && !step.DoReject?
    ensures ApplyOutcome(s, step).holds == s.holds
  {
    hide Entitle, SetSale, SeatOf, OnLedger;
  }

  lemma OutcomeRows(s: State, step: Outcome)
    requires OutcomeEnabled(s, step)
    ensures var s' := ApplyOutcome(s, step);
            s'.hosted == s.hosted && s'.remote == s.remote && s'.txns == s.txns && s'.polls == s.polls
    ensures forall x | x in ApplyOutcome(s, step).sales :: x in s.sales && ApplyOutcome(s, step).sales[x].hosted == s.sales[x].hosted
  {
  }

  lemma OutcomeRefunds(s: State, step: Outcome)
    requires OutcomeEnabled(s, step)
    ensures forall k | k in ApplyOutcome(s, step).refunds :: k in s.refunds || HasSale(s.sales, k)
  {
  }

  lemma OutcomeKeepsThreads(s: State, step: Outcome)
    requires SaleHoldsOk(s.sales, s.holds) && ThreadsOk(s) && OutcomeEnabled(s, step)
    ensures ThreadsOk(ApplyOutcome(s, step))
  {
    var s' := ApplyOutcome(s, step);
    OutcomeHolds(s, step);
    OutcomeRows(s, step);
    OutcomeRefunds(s, step);
    hide ApplyOutcome, OutcomeEnabled, SaleHoldsOk;
    forall t | t in s.txns ensures TxnOk(s.txns[t], s'.holds, s'.hosted, s'.remote) {
      assert TxnOk(s.txns[t], s.holds, s.hosted, s.remote);
    }
    forall t | t in s.txns && s.txns[t].Allocating? ensures FreshIn(s.txns[t].a, s'.refunds, s'.sales) {
      assert FreshIn(s.txns[t].a, s.refunds, s.sales);
    }
  }

  lemma OutcomeKeepsBooks(s: State, step: Outcome)
    requires Books(s) && OutcomeEnabled(s, step)
    ensures Books(ApplyOutcome(s, step))
  {
    OutcomeKeepsTables(s, step);
    OutcomeKeepsThreads(s, step);
  }
}
