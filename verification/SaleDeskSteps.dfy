/** Steps outside the event's lock keep the money of the event in order. */
module SaleDeskSteps {
  import opened Allocation
  import opened SaleProtocol
  import opened SaleLocks
  import opened SaleMoney
  import opened SaleMoneySteps

  // ----- Single statements -----

  lemma ThreadsFollow(s: State, s': State)
    requires ThreadsOk(s) && Grows(s, s') && s'.txns == s.txns && s'.polls == s.polls
    requires s'.refunds == s.refunds && s'.sales == s.sales
    requires forall t | t in s.txns && s.txns[t].Paying? && s.txns[t].hold in s.holds ::
               s'.holds[s.txns[t].hold].status == s.holds[s.txns[t].hold].status
    ensures ThreadsOk(s')
  {
    GrowingKeepsPolls(s, s');
    forall t | t in s'.txns ensures TxnOk(s'.txns[t], s'.holds, s'.hosted, s'.remote) {
      assert TxnOk(s.txns[t], s.holds, s.hosted, s.remote);
      GrowingKeepsTxn(s, s', s.txns[t]);
    }
  }

  lemma PayersKeepRows(s: State)
    requires Locks(s)
    ensures forall t | t in s.txns && s.txns[t].Paying? :: s.txns[t].hold in s.rows && s.rows[s.txns[t].hold] == t
  {
    forall t | t in s.txns && s.txns[t].Paying? ensures s.txns[t].hold in s.rows && s.rows[s.txns[t].hold] == t {
      assert KeepsRow(s.txns[t], s.txns[t].hold);
    }
  }

  lemma DeskKeepsBooks(s: State, step: Desk)
    requires Locks(s) && Books(s) && DeskEnabled(s, step)
    ensures Books(ApplyDesk(s, step))
  {
    hide HostedOk, OpenRowsOk, SalesOk, SaleHoldsOk, RefundsOk, WritesOk, EndedOk;
    PayersKeepRows(s);
    DeskEndsHolds(s, step);
    EndingGrows(s, ApplyDesk(s, step));
    hide ApplyDesk, DeskEnabled, LocksOk, HoldsOnlyEnd, Grows;
    EndingHoldsKeepsTables(s, ApplyDesk(s, step));
    ThreadsFollow(s, ApplyDesk(s, step));
  }

  /** Holds only end, are extended, or stay; a row a payment locks is not among them. */
  lemma DeskEndsHolds(s: State, step: Desk)
    requires DeskEnabled(s, step)
    ensures var s' := ApplyDesk(s, step);
            && HoldsOnlyEnd(s.holds, s'.holds) && SameSales(s, s') && s'.hosted == s.hosted && s'.txns == s.txns
            && forall h | h in s.holds && h in s.rows :: s'.holds[h].status == s.holds[h].status
  {
    hide ToVisit;
  }

  lemma EndingGrows(s: State, s': State)
    requires HoldsOnlyEnd(s.holds, s'.holds) && s'.remote == s.remote && s'.hosted == s.hosted
    ensures Grows(s, s')
  {
  }

  // ----- Starting a payment -----

  lemma MovingTillKeepsThreads(s: State, t: TxnId, txn: Txn, remote: map<HostedId, Remote>)
    requires ThreadsOk(s) && !txn.Allocating? && TxnOk(txn, s.holds, s.hosted, remote)
    requires Grows(s, s.(remote := remote))
    ensures ThreadsOk(s.(txns := s.txns[t := txn], remote := remote))
  {
    var s' := s.(remote := remote);
    GrowingKeepsPolls(s, s');
    forall t' | t' in s.txns ensures TxnOk(s.txns[t'], s.holds, s.hosted, remote) {
      GrowingKeepsTxn(s, s', s.txns[t']);
    }
  }

  /** The provider's record growing keeps the tables in order. */
  lemma RemoteGrowsKeepsTables(s: State, remote: map<HostedId, Remote>)
    requires TablesOk(s) && Grows(s, s.(remote := remote))
    ensures TablesOk(s.(remote := remote))
  {
    GrowingKeepsSales(s, s.(remote := remote));
    GrowingKeepsRefunds(s, s.(remote := remote));
  }

  lemma OverTillKeepsThreads(s: State, t: TxnId, s': State)
    requires Locks(s) && ThreadsOk(s) && t in s.txns && !s.txns[t].Allocating? && s.txns[t].hold in s.holds
    requires Grows(s, s') && s'.txns == s.txns - {t} && s'.polls == s.polls && s'.refunds == s.refunds
    requires s'.sales == s.sales
    requires forall h | h in s.holds && h != s.txns[t].hold :: s'.holds[h].status == s.holds[h].status
    ensures ThreadsOk(s')
  {
    PayersKeepRows(s);
    GrowingKeepsPolls(s, s');
    forall t' | t' in s'.txns ensures TxnOk(s'.txns[t'], s'.holds, s'.hosted, s'.remote) {
      assert TxnOk(s.txns[t'], s.holds, s.hosted, s.remote);
      if s.txns[t'].Paying? {
        assert KeepsRow(s.txns[t], s.txns[t].hold);
      }
      GrowingKeepsTxn(s, s', s.txns[t']);
    }
  }

  /** The row of a checkout that ended at the provider may say so. */
  lemma EndedRowKeepsTables(s: State, k: HostedId)
    requires TablesOk(s) && k in s.hosted && k in s.remote && !s.remote[k].status.Open?
    ensures TablesOk(s.(hosted := SetHosted(s.hosted, k, s.remote[k].status)))
  {
    hide SalesOk, SaleHoldsOk, RefundsOk, WritesOk, EndedOk;
    var s' := s.(hosted := SetHosted(s.hosted, k, s.remote[k].status));
    GrowingKeepsSales(s, s');
    GrowingKeepsWrites(s, s');
    KeepingKeepsEnded(s, s');
  }

  /** A new hosted checkout of a hold that has no other open. */
  lemma NewRowKeepsTables(s: State, k: HostedId, h: HoldId)
    requires TablesOk(s) && k !in s.hosted && k in s.remote && h in s.holds && NoOtherOpen(s, h, {})
    ensures TablesOk(s.(hosted := s.hosted[k := Hosted(h, s.holds[h].price, Open)]))
  {
    hide SalesOk, SaleHoldsOk, RefundsOk, WritesOk, EndedOk;
    var s' := s.(hosted := s.hosted[k := Hosted(h, s.holds[h].price, Open)]);
    GrowingKeepsSales(s, s');
    GrowingKeepsWrites(s, s');
    KeepingKeepsEnded(s, s');
    assert OpenRowsOk(s'.hosted) by {
      forall k1, k2 | k1 in s'.hosted && k2 in s'.hosted && k1 != k2 && s'.hosted[k1].status.Open? && s'.hosted[k2].status.Open?
        ensures s'.hosted[k1].hold != s'.hosted[k2].hold
      {
        assert k1 == k ==> !OpenRow(s, k2, h);
        assert k2 == k ==> !OpenRow(s, k1, h);
      }
    }
  }

  /** The checkout a payment replaces is recorded as ended, and the hold has no other open one. */
  lemma RetiringKeepsTables(s: State, t: TxnId)
    requires TablesOk(s) && CanPayCommit(s, t) && TxnOk(s.txns[t], s.holds, s.hosted, s.remote)
    ensures TablesOk(s.(hosted := RetiredRows(s, t)))
    ensures NoOtherOpen(s.(hosted := RetiredRows(s, t)), s.txns[t].hold, {})
  {
    hide HostedOk, OpenRowsOk, SalesOk, SaleHoldsOk, RefundsOk, WritesOk, EndedOk;
    var h, pay := s.txns[t].hold, s.txns[t].pay;
    if pay.prior.Some? {
      EndedRowKeepsTables(s, pay.prior.value);
    }
    var retired := s.(hosted := RetiredRows(s, t));
    forall k | k in retired.hosted ensures !OpenRow(retired, k, h) {
      assert k !in Retired(pay) ==> !OpenRow(s, k, h);
    }
  }

  /** Two states that agree on sales, refunds and the ledger. */
  predicate SameSales(s: State, s': State) {
    && s'.remote == s.remote && s'.sales == s.sales && s'.refunds == s.refunds && s'.faces == s.faces
    && s'.ledger == s.ledger && s'.writes == s.writes && s'.grants == s.grants && s'.polls == s.polls
  }

  lemma PayCommitChanges(s: State, t: TxnId)
    requires CanPayCommit(s, t)
    ensures var s', h := PayCommit(s, t), s.txns[t].hold;
            && SameSales(s, s') && HoldsOnlyEnd(s.holds, s'.holds) && s'.txns == s.txns - {t}
            && s'.hosted == RetiredRows(s, t)[s.txns[t].pay.made := Hosted(h, s.holds[h].price, Open)]
            && forall h' | h' in s.holds :: s'.holds[h'].status == s.holds[h'].status
  {
  }

  lemma PayCommitKeepsTables(s: State, t: TxnId)
    requires TablesOk(s) && CanPayCommit(s, t) && TxnOk(s.txns[t], s.holds, s.hosted, s.remote)
    ensures TablesOk(PayCommit(s, t))
  {
    hide HostedOk, OpenRowsOk, SalesOk, SaleHoldsOk, RefundsOk, WritesOk, EndedOk;
    var h, pay, retired := s.txns[t].hold, s.txns[t].pay, s.(hosted := RetiredRows(s, t));
    RetiringKeepsTables(s, t);
    NewRowKeepsTables(retired, pay.made, h);
    PayCommitChanges(s, t);
    hide PayCommit, HoldsOnlyEnd, RetiredRows;
    EndingHoldsKeepsTables(retired.(hosted := retired.hosted[pay.made := Hosted(h, s.holds[h].price, Open)]), PayCommit(s, t));
  }

  lemma PayCommitKeepsBooks(s: State, t: TxnId)
    requires Locks(s) && Books(s) && CanPayCommit(s, t)
    ensures Books(PayCommit(s, t))
  {
    hide HostedOk, OpenRowsOk, SalesOk, SaleHoldsOk, RefundsOk, WritesOk, EndedOk;
    hide PollsOk, FreshOk, LocksOk;
    assert TxnOk(s.txns[t], s.holds, s.hosted, s.remote);
    PayCommitKeepsTables(s, t);
    OverTillKeepsThreads(s, t, PayCommit(s, t));
  }

  lemma PayStepKeepsBooks(s: State, step: Till)
    requires Locks(s) && Books(s) && TillEnabled(s, step)
    requires step.DoPay? || step.DoPayClear? || step.DoPayReplace? || step.DoPayCreate?
    ensures Books(ApplyTill(s, step))
  {
    hide HostedOk, OpenRowsOk, SalesOk, SaleHoldsOk, RefundsOk, WritesOk, EndedOk, LocksOk;
    PayStepMoves(s, step);
    hide ApplyTill, TillEnabled, TxnOk;
    TillMovesBooks(s, ApplyTill(s, step), step.t);
  }

  /** One transaction moves on, and the provider's record grows. */
  ghost predicate MovesTill(s: State, s': State, t: TxnId) {
    && t in s'.txns && !s'.txns[t].Allocating? && s'.txns == s.txns[t := s'.txns[t]]
    && s'.holds == s.holds && s'.hosted == s.hosted && s'.grants == s.grants && s'.sales == s.sales && s'.polls == s.polls
    && s'.refunds == s.refunds && s'.faces == s.faces && s'.writes == s.writes && s'.ledger == s.ledger
    && Grows(s, s.(remote := s'.remote)) && TxnOk(s'.txns[t], s.holds, s.hosted, s'.remote)
  }

  lemma TillMovesBooks(s: State, s': State, t: TxnId)
    requires Books(s) && MovesTill(s, s', t)
    ensures Books(s')
  {
    hide HostedOk, OpenRowsOk, SalesOk, SaleHoldsOk, RefundsOk, WritesOk, EndedOk, TxnOk;
    MovingTillKeepsThreads(s, t, s'.txns[t], s'.remote);
    RemoteGrowsKeepsTables(s, s'.remote);
  }

  lemma PayStepMoves(s: State, step: Till)
    requires Books(s) && TillEnabled(s, step)
    requires step.DoPay? || step.DoPayClear? || step.DoPayReplace? || step.DoPayCreate?
    ensures MovesTill(s, ApplyTill(s, step), step.t)
  {
    hide HostedOk, OpenRowsOk, SalesOk, SaleHoldsOk, RefundsOk, WritesOk, EndedOk, PollsOk, FreshOk, NoOtherOpen;
    if step.t in s.txns {
      assert TxnOk(s.txns[step.t], s.holds, s.hosted, s.remote);
    }
  }

  lemma PayFoundKeepsBooks(s: State, t: TxnId, k: HostedId)
    requires Locks(s) && Books(s) && CanPayFound(s, t, k)
    ensures Books(PayFound(s, t, k))
  {
    hide HostedOk, OpenRowsOk, SalesOk, SaleHoldsOk, RefundsOk, WritesOk, EndedOk;
    PaidRowKeepsTables(s, k);
    OverTillKeepsThreads(s, t, PayFound(s, t, k));
  }

  // ----- Ending a hold -----

  lemma EndStepKeepsBooks(s: State, step: Till)
    requires Locks(s) && Books(s) && TillEnabled(s, step) && (step.DoEnd? || step.DoEndCancel?)
    ensures Books(ApplyTill(s, step))
  {
    hide HostedOk, OpenRowsOk, SalesOk, SaleHoldsOk, RefundsOk, WritesOk, EndedOk, LocksOk;
    EndStepMoves(s, step);
    hide ApplyTill, TillEnabled, TxnOk;
    TillMovesBooks(s, ApplyTill(s, step), step.t);
  }

  lemma EndStepMoves(s: State, step: Till)
    requires Books(s) && TillEnabled(s, step) && (step.DoEnd? || step.DoEndCancel?)
    ensures MovesTill(s, ApplyTill(s, step), step.t)
  {
    hide HostedOk, OpenRowsOk, SalesOk, SaleHoldsOk, RefundsOk, WritesOk, EndedOk, PollsOk, FreshOk, NoOtherOpen;
    if step.t in s.txns {
      assert TxnOk(s.txns[step.t], s.holds, s.hosted, s.remote);
    }
  }

  lemma EndCommitChanges(s: State, t: TxnId)
    requires CanEndCommit(s, t)
    ensures var s' := EndCommit(s, t);
            && SameSales(s, s') && HoldsOnlyEnd(s.holds, s'.holds) && s'.txns == s.txns - {t}
            && s'.hosted == EndedRows(s, t)
            && forall h | h in s.holds && h != s.txns[t].hold :: s'.holds[h] == s.holds[h]
  {
  }

  lemma EndingRowKeepsTables(s: State, t: TxnId)
    requires TablesOk(s) && CanEndCommit(s, t) && TxnOk(s.txns[t], s.holds, s.hosted, s.remote)
    ensures TablesOk(s.(hosted := EndedRows(s, t)))
  {
    hide HostedOk, OpenRowsOk, SalesOk, SaleHoldsOk, RefundsOk, WritesOk, EndedOk;
    var open := s.txns[t].end.open;
    if open.Some? && !PaidFirst(s, t) {
      EndedRowKeepsTables(s, open.value);
    }
  }

  lemma EndCommitKeepsTables(s: State, t: TxnId)
    requires TablesOk(s) && CanEndCommit(s, t) && TxnOk(s.txns[t], s.holds, s.hosted, s.remote)
    ensures TablesOk(EndCommit(s, t))
  {
    hide HostedOk, OpenRowsOk, SalesOk, SaleHoldsOk, RefundsOk, WritesOk, EndedOk;
    EndingRowKeepsTables(s, t);
    EndCommitChanges(s, t);
    hide EndCommit, HoldsOnlyEnd, EndedRows;
    EndingHoldsKeepsTables(s.(hosted := EndedRows(s, t)), EndCommit(s, t));
  }

  lemma EndCommitKeepsBooks(s: State, t: TxnId)
    requires Locks(s) && Books(s) && CanEndCommit(s, t)
    ensures Books(EndCommit(s, t))
  {
    hide HostedOk, OpenRowsOk, SalesOk, SaleHoldsOk, RefundsOk, WritesOk, EndedOk;
    hide PollsOk, FreshOk, LocksOk;
    assert TxnOk(s.txns[t], s.holds, s.hosted, s.remote);
    EndCommitKeepsTables(s, t);
    EndCommitChanges(s, t);
    hide EndCommit;
    OverTillKeepsThreads(s, t, EndCommit(s, t));
  }

  lemma TillKeepsBooks(s: State, step: Till)
    requires Locks(s) && Books(s) && TillEnabled(s, step)
    ensures Books(ApplyTill(s, step))
  {
    hide HostedOk, OpenRowsOk, SalesOk, SaleHoldsOk, RefundsOk, WritesOk, EndedOk;
    if step.DoPayCommit? {
      PayCommitKeepsBooks(s, step.t);
    } else if step.DoPayFound? {
      PayFoundKeepsBooks(s, step.t, step.k);
    } else if step.DoEndCommit? {
      EndCommitKeepsBooks(s, step.t);
    } else if step.DoEnd? || step.DoEndCancel? {
      EndStepKeepsBooks(s, step);
    } else {
      PayStepKeepsBooks(s, step);
    }
  }

  // ----- The provider -----

  lemma WorldKeepsBooks(s: State, step: World)
    requires Books(s) && WorldEnabled(s, step)
    ensures Books(ApplyWorld(s, step))
  {
    hide HostedOk, OpenRowsOk, SalesOk, SaleHoldsOk, RefundsOk, WritesOk, EndedOk;
    if step.DoRecord? {
      RecordKeepsBooks(s, step.p);
    } else {
      AnsweringGrows(s, step);
      hide ApplyWorld, WorldEnabled;
      GrowingKeepsBooks(s, ApplyWorld(s, step));
    }
  }

  /** Of what the books are about only the provider's record grows; answers given are kept or dropped. */
  ghost predicate GrowsOnly(s: State, s': State) {
    && s'.txns == s.txns && s'.holds == s.holds && s'.hosted == s.hosted && s'.grants == s.grants && s'.sales == s.sales
    && s'.refunds == s.refunds && s'.faces == s.faces && s'.writes == s.writes && s'.ledger == s.ledger
    && Grows(s, s.(remote := s'.remote)) && PollsOk(s'.polls, s'.hosted, s'.remote)
  }

  lemma GrowingKeepsBooks(s: State, s': State)
    requires Books(s) && GrowsOnly(s, s')
    ensures Books(s')
  {
    hide HostedOk, OpenRowsOk, SalesOk, SaleHoldsOk, RefundsOk, WritesOk, EndedOk, PollsOk;
    RemoteGrowsKeepsTables(s, s'.remote);
    forall t | t in s'.txns ensures TxnOk(s'.txns[t], s'.holds, s'.hosted, s'.remote) {
      GrowingKeepsTxn(s, s.(remote := s'.remote), s.txns[t]);
    }
  }

  lemma AnsweringGrows(s: State, step: World)
    requires PollsOk(s.polls, s.hosted, s.remote) && WorldEnabled(s, step) && !step.DoRecord?
    ensures GrowsOnly(s, ApplyWorld(s, step))
  {
    hide PollsOk, Grows, CancelRemote;
    AnswerLeavesTables(s, step);
    AnswerGrows(s, step);
    AnswersAreKept(s, step);
  }

  lemma AnswerLeavesTables(s: State, step: World)
    requires WorldEnabled(s, step) && !step.DoRecord?
    ensures var s' := ApplyWorld(s, step);
            && s'.txns == s.txns && s'.holds == s.holds && s'.hosted == s.hosted && s'.grants == s.grants && s'.sales == s.sales
            && s'.refunds == s.refunds && s'.faces == s.faces && s'.writes == s.writes && s'.ledger == s.ledger
  {
    hide CancelRemote;
  }

  lemma AnswerGrows(s: State, step: World)
    requires WorldEnabled(s, step) && !step.DoRecord?
    ensures Grows(s, s.(remote := ApplyWorld(s, step).remote))
  {
  }

  /** A new answer is how the checkout is by then; others are kept or dropped. */
  lemma AnswersAreKept(s: State, step: World)
    requires PollsOk(s.polls, s.hosted, s.remote) && WorldEnabled(s, step) && !step.DoRecord?
    ensures var s' := ApplyWorld(s, step); PollsOk(s'.polls, s.hosted, s'.remote)
  {
    var s' := ApplyWorld(s, step);
    AnswerGrows(s, step);
    GrowingKeepsPolls(s, s.(remote := s'.remote));
    if step.DoRetrieve? || step.DoSweepCancel? {
      OneMoreAnswer(s.polls, s.hosted, s'.remote, step.p, step.k);
    }
    hide PollsOk, Grows, CancelRemote;
    if step.DoDropPoll? {
      OneAnswerLess(s.polls, s.hosted, s'.remote, step.p);
    }
  }

  lemma OneMoreAnswer(polls: map<PollId, Poll>, hosted: map<HostedId, Hosted>, remote: map<HostedId, Remote>, p: PollId, k: HostedId)
    requires PollsOk(polls, hosted, remote) && k in hosted && k in remote
    ensures PollsOk(polls[p := Poll(k, remote[k].status)], hosted, remote)
  {
  }

  lemma OneAnswerLess(polls: map<PollId, Poll>, hosted: map<HostedId, Hosted>, remote: map<HostedId, Remote>, p: PollId)
    requires PollsOk(polls, hosted, remote)
    ensures PollsOk(polls - {p}, hosted, remote)
  {
  }

  /** Recording an answer given earlier: an end is final, and an open row is its hold's only one. */
  lemma RecordKeepsTables(s: State, p: PollId)
    requires TablesOk(s) && PollsOk(s.polls, s.hosted, s.remote) && CanRecord(s, p)
    ensures TablesOk(Record(s, p))
  {
    hide SalesOk, SaleHoldsOk, RefundsOk, WritesOk, EndedOk;
    var s' := Record(s, p);
    var k := s.polls[p].hosted;
    GrowingKeepsSales(s, s');
    GrowingKeepsWrites(s, s');
    KeepingKeepsEnded(s, s');
    forall k1, k2 | k1 in s'.hosted && k2 in s'.hosted && k1 != k2 && s'.hosted[k1].status.Open? && s'.hosted[k2].status.Open?
      ensures s'.hosted[k1].hold != s'.hosted[k2].hold
    {
      assert k1 == k ==> !OpenRow(s, k2, s.hosted[k].hold);
      assert k2 == k ==> !OpenRow(s, k1, s.hosted[k].hold);
    }
  }

  lemma RecordKeepsBooks(s: State, p: PollId)
    requires Books(s) && CanRecord(s, p)
    ensures Books(Record(s, p))
  {
    hide HostedOk, OpenRowsOk, SalesOk, SaleHoldsOk, RefundsOk, WritesOk, EndedOk;
    var s' := Record(s, p);
    RecordKeepsTables(s, p);
    GrowingKeepsPolls(s, s');
    forall t | t in s'.txns ensures TxnOk(s'.txns[t], s'.holds, s'.hosted, s'.remote) {
      assert TxnOk(s.txns[t], s.holds, s.hosted, s.remote);
      GrowingKeepsTxn(s, s', s.txns[t]);
    }
  }
}
