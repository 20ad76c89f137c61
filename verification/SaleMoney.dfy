/**
  Money: what every hosted checkout, sale, refund and ledger write of the event
  has to do with one another, in every reachable state.
 */
module SaleMoney {
  import opened Common
  import opened Allocation
  import opened SaleProtocol

  /** A hosted checkout asks its hold's price; its row never claims an end the provider does not know. */
  ghost predicate HostedOk(holds: Holds, hosted: map<HostedId, Hosted>, remote: map<HostedId, Remote>) {
    forall k | k in hosted ::
      && hosted[k].hold in holds && hosted[k].asked == holds[hosted[k].hold].price
      && k in remote && (!hosted[k].status.Open? ==> remote[k].status == hosted[k].status)
  }

  /** At most one open row a hold. */
  ghost predicate OpenRowsOk(hosted: map<HostedId, Hosted>) {
    forall k, k' | k in hosted && k' in hosted && k != k' && hosted[k].status.Open? && hosted[k'].status.Open? ::
      hosted[k].hold != hosted[k'].hold
  }

  /** An answer other than open is final. */
  ghost predicate PollsOk(polls: map<PollId, Poll>, hosted: map<HostedId, Hosted>, remote: map<HostedId, Remote>) {
    forall p | p in polls ::
      && polls[p].hosted in hosted && polls[p].hosted in remote
      && (!polls[p].answer.Open? ==> remote[polls[p].hosted].status == polls[p].answer)
  }

  /** What transactions hold of hosted checkouts: replaced and cancelled ones are no longer open. */
  ghost predicate TxnOk(txn: Txn, holds: Holds, hosted: map<HostedId, Hosted>, remote: map<HostedId, Remote>) {
    match txn
    case Allocating(a) =>
      a.goal.ToIssue? ==>
        && a.goal.hosted in hosted && a.goal.hosted in remote && remote[a.goal.hosted].status.Paid?
        && hosted[a.goal.hosted].hold == a.goal.hold
        && (!a.stage.Waiting? && !a.stage.Entered? && !a.stage.Unhandled? ==>
              remote[a.goal.hosted].taken == hosted[a.goal.hosted].asked)
    case Paying(h, pay) =>
      && h in holds && holds[h].status.Outstanding?
      && (pay.PayReady? || pay.PayCreated? ==>
            Replaced(pay.prior, h, hosted, remote) && (pay.prior.Some? ==> !remote[pay.prior.value].status.Paid?))
      && (pay.PayCreated? ==> pay.made in remote)
    case Ending(h, _, end) =>
      h in holds && (end.EndReady? ==> Replaced(end.open, h, hosted, remote))
  }

  ghost predicate Replaced(k: Option<HostedId>, h: HoldId, hosted: map<HostedId, Hosted>, remote: map<HostedId, Remote>) {
    k.Some? ==> k.value in hosted && hosted[k.value].hold == h && k.value in remote && !remote[k.value].status.Open?
  }

  ghost predicate TxnsOk(txns: map<TxnId, Txn>, holds: Holds, hosted: map<HostedId, Hosted>, remote: map<HostedId, Remote>) {
    forall t | t in txns :: TxnOk(txns[t], holds, hosted, remote)
  }

  /** A sale is of a paid hosted checkout, for the amount asked; a hosted checkout has at most one. */
  ghost predicate SalesOk(sales: map<SaleId, Sale>, hosted: map<HostedId, Hosted>, remote: map<HostedId, Remote>) {
    && (forall x | x in sales ::
          && sales[x].hosted in hosted && hosted[sales[x].hosted].hold == sales[x].hold
          && sales[x].hosted in remote && remote[sales[x].hosted].status.Paid?
          && remote[sales[x].hosted].taken == hosted[sales[x].hosted].asked)
    && (forall x, y | x in sales && y in sales && x != y :: sales[x].hosted != sales[y].hosted)
  }

  /** A hold is issuing or confirmed exactly when it has a sale not rejected, and never has two. */
  ghost predicate SaleHoldsOk(sales: map<SaleId, Sale>, holds: Holds) {
    && (forall x | x in sales && !sales[x].status.SaleRejected? ::
          sales[x].hold in holds && holds[sales[x].hold].status == (if sales[x].status.SaleIssued? then Confirmed else Issuing))
    && (forall h | h in holds && (holds[h].status.Issuing? || holds[h].status.Confirmed?) ::
          exists x | x in sales :: sales[x].hold == h && !sales[x].status.SaleRejected?)
    && (forall x, y | x in sales && y in sales && x != y && !sales[x].status.SaleRejected? && !sales[y].status.SaleRejected? ::
          sales[x].hold != sales[y].hold)
  }

  /** A refund is of what was taken, and for a reason its sale, if any, agrees with. */
  ghost predicate RefundsOk(refunds: map<HostedId, Refund>, sales: map<SaleId, Sale>, remote: map<HostedId, Remote>,
                            writes: map<Claim, Write>, status: EventStatus)
  {
    && (forall k | k in refunds ::
          && k in remote && remote[k].status.Paid? && refunds[k].money == remote[k].taken
          && (refunds[k].reason.IssuanceRejected? || refunds[k].reason.EventCancelled? ==> HasSale(sales, k)))
    && (forall x | x in sales && sales[x].hosted in refunds ::
          var reason := refunds[sales[x].hosted].reason;
          if sales[x].status.SaleRejected? then reason.IssuanceRejected?
          else reason.EventCancelled? && status.EventOff? && BySale(x) in writes && writes[BySale(x)].Landed?
               && (sales[x].status.SaleIssued? || sales[x].status.SaleFailed?))
    && (forall x | x in sales && sales[x].status.SaleRejected? :: sales[x].hosted in refunds)
  }

  /** A sale's or grant's status agrees with what became of its write. */
  ghost predicate WritesOk(writes: map<Claim, Write>, sales: map<SaleId, Sale>, grants: Grants,
                           faces: map<SaleId, Money>, hosted: map<HostedId, Hosted>)
  {
    && (forall x | x in sales ::
          && BySale(x) in writes && sales[x].hosted in hosted
          && (sales[x].status.SaleIssued? ==> writes[BySale(x)].Landed? && x in faces)
          && (sales[x].status.SaleRejected? ==> writes[BySale(x)].Refused?))
    && (forall x | x in faces :: x in sales && sales[x].hosted in hosted && faces[x] == hosted[sales[x].hosted].asked)
    && (forall x | BySale(x) in writes :: x in sales)
    && (forall g | g in grants :: ByGrant(g) in writes && (grants[g].status.Rejected? ==> writes[ByGrant(g)].Refused?))
    && (forall g | ByGrant(g) in writes && g !in grants :: writes[ByGrant(g)].Refused?)
  }

  /** Once a payment of a hold is handled, the hold is never outstanding again. */
  ghost predicate EndedOk(refunds: map<HostedId, Refund>, sales: map<SaleId, Sale>, hosted: map<HostedId, Hosted>,
                          holds: Holds)
  {
    && (forall k | k in refunds :: k in hosted && hosted[k].hold in holds && !holds[hosted[k].hold].status.Outstanding?)
    && (forall x | x in sales :: sales[x].hold in holds && !holds[sales[x].hold].status.Outstanding?)
  }

  /** A payment found unhandled under the event's lock stays unhandled there. */
  ghost predicate FreshIn(a: Alloc, refunds: map<HostedId, Refund>, sales: map<SaleId, Sale>) {
    a.goal.ToIssue? && !a.stage.Waiting? && !a.stage.Entered? ==>
      a.goal.hosted !in refunds && forall x | x in sales :: sales[x].hosted != a.goal.hosted
  }

  ghost predicate FreshOk(txns: map<TxnId, Txn>, refunds: map<HostedId, Refund>, sales: map<SaleId, Sale>) {
    forall t | t in txns && txns[t].Allocating? :: FreshIn(txns[t].a, refunds, sales)
  }

  /** What the tables say. */
  ghost predicate TablesOk(s: State) {
    && HostedOk(s.holds, s.hosted, s.remote) && OpenRowsOk(s.hosted)
    && SalesOk(s.sales, s.hosted, s.remote) && SaleHoldsOk(s.sales, s.holds)
    && RefundsOk(s.refunds, s.sales, s.remote, s.writes, s.ledger.status)
    && WritesOk(s.writes, s.sales, s.grants, s.faces, s.hosted)
    && EndedOk(s.refunds, s.sales, s.hosted, s.holds)
  }

  /** What requests in progress know. */
  ghost predicate ThreadsOk(s: State) {
    && PollsOk(s.polls, s.hosted, s.remote) && TxnsOk(s.txns, s.holds, s.hosted, s.remote)
    && FreshOk(s.txns, s.refunds, s.sales)
  }

  ghost predicate Books(s: State) {
    TablesOk(s) && ThreadsOk(s)
  }

  // ----- What every step keeps of the tables -----

  /** A checkout's end at the provider is final; rows keep their hold and price. */
  ghost predicate Grows(s: State, s': State) {
    && (forall k | k in s.remote :: k in s'.remote && (!s.remote[k].status.Open? ==> s'.remote[k] == s.remote[k]))
    && (forall k | k in s.hosted :: k in s'.hosted && s'.hosted[k].hold == s.hosted[k].hold && s'.hosted[k].asked == s.hosted[k].asked)
    && (forall h | h in s.holds :: h in s'.holds && s'.holds[h].price == s.holds[h].price)
  }

  lemma GrowingKeepsSales(s: State, s': State)
    requires SalesOk(s.sales, s.hosted, s.remote) && Grows(s, s')
    ensures SalesOk(s.sales, s'.hosted, s'.remote)
  {
  }

  lemma GrowingKeepsPolls(s: State, s': State)
    requires PollsOk(s.polls, s.hosted, s.remote) && Grows(s, s')
    ensures PollsOk(s.polls, s'.hosted, s'.remote)
  {
  }

  lemma GrowingKeepsTxn(s: State, s': State, txn: Txn)
    requires TxnOk(txn, s.holds, s.hosted, s.remote) && Grows(s, s')
    requires txn.Paying? ==> s'.holds[txn.hold].status.Outstanding?
    ensures TxnOk(txn, s'.holds, s'.hosted, s'.remote)
  {
  }

  lemma GrowingKeepsRefunds(s: State, s': State)
    requires RefundsOk(s.refunds, s.sales, s.remote, s.writes, s.ledger.status) && Grows(s, s')
    requires s'.writes == s.writes && s'.ledger == s.ledger
    ensures RefundsOk(s.refunds, s.sales, s'.remote, s'.writes, s'.ledger.status)
  {
  }

  lemma GrowingKeepsWrites(s: State, s': State)
    requires WritesOk(s.writes, s.sales, s.grants, s.faces, s.hosted) && Grows(s, s')
    ensures WritesOk(s.writes, s.sales, s.grants, s.faces, s'.hosted)
  {
  }

  /** Holds that are issuing or confirmed stay so, and no others become so. */
  lemma KeepingKeepsSaleHolds(sales: map<SaleId, Sale>, holds: Holds, holds': Holds)
    requires SaleHoldsOk(sales, holds)
    requires forall h | h in holds && (holds[h].status.Issuing? || holds[h].status.Confirmed?) ::
               h in holds' && holds'[h].status == holds[h].status
    requires forall h | h in holds' && (holds'[h].status.Issuing? || holds'[h].status.Confirmed?) ::
               h in holds && holds[h].status == holds'[h].status
    ensures SaleHoldsOk(sales, holds')
  {
  }

  lemma KeepingKeepsEnded(s: State, s': State)
    requires EndedOk(s.refunds, s.sales, s.hosted, s.holds) && Grows(s, s')
    requires forall h | h in s.holds && s'.holds[h].status.Outstanding? :: s.holds[h].status.Outstanding?
    ensures EndedOk(s.refunds, s.sales, s'.hosted, s'.holds)
  {
  }
}
