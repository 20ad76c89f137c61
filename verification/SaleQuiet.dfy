/** Steps outside the event's lock only ease what stands against its room. */
module SaleQuiet {
  import opened SaleProtocol
  import opened SaleLocks
  import opened SaleRoom
  import opened SaleMoney

  lemma DeskIsQuiet(s: State, step: Desk)
    requires Locks(s) && DeskEnabled(s, step)
    ensures Quiet(s, ApplyDesk(s, step))
  {
    DeskEases(s, step);
    hide ApplyDesk, DeskEnabled, LocksOk, HoldsEase, SweptRows;
    EasingIsQuiet(s, ApplyDesk(s, step));
  }

  /** A single statement eases the holds whose rows it may touch, and closes no sales. */
  lemma DeskEases(s: State, step: Desk)
    requires Locks(s) && DeskEnabled(s, step)
    ensures var s' := ApplyDesk(s, step);
            && HoldsEase(s.now, BeingPaid(s.txns), s.holds, s'.holds, SweptRows(s))
            && s'.grants == s.grants && s'.quotas == s.quotas && s'.now == s.now && s'.ledger == s.ledger
            && s'.txns == s.txns && (s'.closed ==> s.closed)
  {
    hide ToVisit;
  }

  lemma TillHoldsRow(s: State, t: TxnId)
    requires Locks(s) && t in s.txns && !s.txns[t].Allocating?
    ensures s.txns[t].hold in s.rows && s.rows[s.txns[t].hold] == t && s.txns[t].hold !in SweptRows(s)
  {
    assert KeepsRow(s.txns[t], s.txns[t].hold);
  }

  lemma PayCommitIsQuiet(s: State, t: TxnId)
    requires Locks(s) && CanPayCommit(s, t)
    ensures Quiet(s, PayCommit(s, t))
  {
    TillHoldsRow(s, t);
    assert s.txns[t].hold in BeingPaid(s.txns);
  }

  lemma EndingEases(s: State, t: TxnId)
    requires Locks(s) && EndIn(s, t)
    ensures HoldsEase(s.now, BeingPaid(s.txns), s.holds, HoldsEnded(s, t), SweptRows(s))
  {
    TillHoldsRow(s, t);
  }

  /** A step that eases the holds and keeps the rest has only to start no payment of an expired hold. */
  lemma EasingIsQuiet(s: State, s': State)
    requires HoldsEase(s.now, BeingPaid(s.txns), s.holds, s'.holds, SweptRows(s))
    requires s'.grants == s.grants && s'.quotas == s.quotas && s'.now == s.now
    requires s'.ledger == s.ledger && (s'.closed ==> s.closed)
    requires forall t | t in s'.txns && s'.txns[t].Allocating? :: t in s.txns && s.txns[t] == s'.txns[t]
    requires forall h | h in BeingPaid(s'.txns) :: h in BeingPaid(s.txns) || (h in s.holds && s.now < s.holds[h].expires)
    ensures Quiet(s, s')
  {
  }

  lemma TillIsQuiet(s: State, step: Till)
    requires Locks(s) && TillEnabled(s, step)
    ensures Quiet(s, ApplyTill(s, step))
  {
    if step.DoPayCommit? {
      PayCommitIsQuiet(s, step.t);
    } else {
      var s' := ApplyTill(s, step);
      TillEases(s, step);
      TillKeepsAllocations(s, step);
      hide ApplyTill, TillEnabled, LocksOk, HoldsEase, SweptRows;
      forall h | h in BeingPaid(s'.txns) ensures h in BeingPaid(s.txns) || (h in s.holds && s.now < s.holds[h].expires) {
        var t :| t in s'.txns && s'.txns[t].Paying? && s'.txns[t].hold == h;
        assert t in s.txns ==> s.txns[t].Paying? && s.txns[t].hold == h;
      }
      EasingIsQuiet(s, s');
    }
  }

  lemma TillEases(s: State, step: Till)
    requires Locks(s) && TillEnabled(s, step) && !step.DoPayCommit?
    ensures var s' := ApplyTill(s, step);
            && HoldsEase(s.now, BeingPaid(s.txns), s.holds, s'.holds, SweptRows(s))
            && s'.grants == s.grants && s'.quotas == s.quotas && s'.now == s.now && s'.ledger == s.ledger
            && s'.closed == s.closed
  {
    if step.DoEndCommit? {
      EndingEases(s, step.t);
    } else {
      StayingEases(s);
    }
    hide LocksOk, HoldsEase, SweptRows, HoldsEnded, EndedRows, Visited, CancelRemote, NoOtherOpen, Unlocked;
  }

  lemma StayingEases(s: State)
    ensures HoldsEase(s.now, BeingPaid(s.txns), s.holds, s.holds, SweptRows(s))
  {
  }

  /** Only one transaction outside the lock begins, moves on or ends: a payment begins of a hold not expired. */
  lemma TillKeepsAllocations(s: State, step: Till)
    requires Locks(s) && TillEnabled(s, step) && !step.DoPayCommit?
    ensures forall t | t in ApplyTill(s, step).txns ::
              var txn := ApplyTill(s, step).txns[t];
              if txn.Allocating? then t in s.txns && s.txns[t] == txn
              else if t in s.txns then txn.Paying? == s.txns[t].Paying? && txn.hold == s.txns[t].hold
              else txn.Paying? ==> txn.hold in s.holds && s.now < s.holds[txn.hold].expires
  {
    hide HoldsEnded, EndedRows, Visited, CancelRemote, NoOtherOpen, Unlocked, LocksOk;
  }

  lemma WorldIsQuiet(s: State, step: World)
    requires WorldEnabled(s, step)
    ensures Quiet(s, ApplyWorld(s, step))
  {
  }

  /** Only a sale's outcome touches a hold, and no payment of an issuing hold is being started. */
  lemma SaleOutcomeIsQuiet(s: State, step: Outcome)
    requires Locks(s) && SaleHoldsOk(s.sales, s.holds) && OutcomeEnabled(s, step) && (step.DoConfirm? || step.DoReject?)
    ensures Quiet(s, ApplyOutcome(s, step))
  {
    EasingIsQuiet(s, ApplyOutcome(s, step));
  }

  lemma OutcomeIsQuiet(s: State, step: Outcome)
    requires Locks(s) && SaleHoldsOk(s.sales, s.holds) && OutcomeEnabled(s, step)
    ensures Quiet(s, ApplyOutcome(s, step))
  {
    if step.DoConfirm? || step.DoReject? {
      SaleOutcomeIsQuiet(s, step);
    } else {
      hide LocksOk, SaleHoldsOk;
    }
  }
}
