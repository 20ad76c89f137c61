/** Who may be where: the event's lock and the row locks on holds, in every reachable state. */
module SaleLocks {
  import opened Common
  import opened Allocation
  import opened SaleProtocol

  /** The row a transaction keeps locked. */
  predicate KeepsRow(txn: Txn, h: HoldId) {
    match txn
    case Allocating(a) => h in a.gone
    case Paying(hold, _) => h == hold
    case Ending(hold, _, _) => h == hold
  }

  predicate BeforeSweep(stage: Stage) {
    !stage.Swept? && !stage.Counted? && !stage.Written?
  }

  /** Only the holder of the event's lock is past waiting; a locked row is its transaction's. */
  ghost predicate LocksOk(lock: Option<TxnId>, rows: map<HoldId, TxnId>, txns: map<TxnId, Txn>) {
    && (forall t | t in txns && txns[t].Allocating? && !txns[t].a.stage.Waiting? :: lock == Some(t))
    && (lock.Some? ==> lock.value in txns && txns[lock.value].Allocating? && !txns[lock.value].a.stage.Waiting?)
    && (forall t | t in txns && txns[t].Allocating? && BeforeSweep(txns[t].a.stage) :: txns[t].a.gone == {})
    && (forall h | h in rows :: rows[h] in txns && KeepsRow(txns[rows[h]], h))
    && (forall t, h | t in txns && KeepsRow(txns[t], h) :: h in rows && rows[h] == t)
  }

  ghost predicate Locks(s: State) {
    LocksOk(s.lock, s.rows, s.txns)
  }

  lemma OverKeepsLocks(s: State, t: TxnId)
    requires Locks(s) && t in s.txns
    ensures Locks(Over(s, t))
  {
    var s' := Over(s, t);
    forall t', h | t' in s'.txns && KeepsRow(s'.txns[t'], h) ensures h in s'.rows && s'.rows[h] == t' {
    }
  }

  /** A transaction that moves on, keeping its rows, under the event's lock or outside it. */
  lemma MovingKeepsLocks(s: State, t: TxnId, txn: Txn)
    requires Locks(s) && t in s.txns
    requires forall h :: KeepsRow(txn, h) <==> KeepsRow(s.txns[t], h)
    requires txn.Allocating? <==> s.txns[t].Allocating?
    requires txn.Allocating? ==> s.lock == Some(t) && !txn.a.stage.Waiting? && (BeforeSweep(txn.a.stage) ==> txn.a.gone == {})
    ensures LocksOk(s.lock, s.rows, s.txns[t := txn])
  {
  }

  lemma EnterKeepsLocks(s: State, t: TxnId)
    requires Locks(s) && CanEnter(s, t)
    ensures Locks(Enter(s, t))
  {
  }

  lemma SweepKeepsLocks(s: State, t: TxnId)
    requires Locks(s) && CanSweep(s, t)
    ensures Locks(Sweep(s, t))
  {
    var s' := Sweep(s, t);
    var gone := s'.txns[t].a.gone;
    forall h | h in s'.rows ensures s'.rows[h] in s'.txns && KeepsRow(s'.txns[s'.rows[h]], h) {
      if h !in gone {
        assert s.rows[h] == s'.rows[h];
        assert KeepsRow(s.txns[s.rows[h]], h);
        assert !KeepsRow(s.txns[t], h);
      }
    }
    forall t', h | t' in s'.txns && KeepsRow(s'.txns[t'], h) ensures h in s'.rows && s'.rows[h] == t' {
      if t' != t {
        assert h in s.rows && s.rows[h] == t';
      }
    }
  }

  lemma TakingARowKeepsLocks(s: State, t: TxnId, h: HoldId, txn: Txn)
    requires Locks(s) && t !in s.txns && h !in s.rows && !txn.Allocating?
    requires forall h' :: KeepsRow(txn, h') <==> h' == h
    ensures LocksOk(s.lock, s.rows[h := t], s.txns[t := txn])
  {
  }

  lemma ProgressKeepsLocks(s: State, step: Progress)
    requires Locks(s) && ProgressEnabled(s, step)
    ensures Locks(ApplyProgress(s, step))
  {
    if step.DoBegin? {
    } else if step.DoEnter? {
      EnterKeepsLocks(s, step.t);
    } else if step.DoSweep? {
      SweepKeepsLocks(s, step.t);
    } else if step.DoAbort? {
      OverKeepsLocks(s, step.t);
    } else {
      OtherProgressMoves(s, step);
      hide ApplyProgress, ProgressEnabled;
      MovingKeepsLocks(s, step.t, ApplyProgress(s, step).txns[step.t]);
    }
  }

  /** Only these steps take or free a lock; any other one keeps its rows. */
  lemma OtherProgressMoves(s: State, step: Progress)
    requires Locks(s) && ProgressEnabled(s, step)
    requires !step.DoBegin? && !step.DoEnter? && !step.DoSweep? && !step.DoAbort?
    ensures step.t in s.txns && s.txns[step.t].Allocating? && s.lock == Some(step.t) && step.t in ApplyProgress(s, step).txns
    ensures var s' := ApplyProgress(s, step);
            && s'.txns == s.txns[step.t := s'.txns[step.t]] && s'.lock == s.lock && s'.rows == s.rows
            && s'.txns[step.t].Allocating? && !s'.txns[step.t].a.stage.Waiting?
            && s'.txns[step.t].a.gone == s.txns[step.t].a.gone
            && (BeforeSweep(s'.txns[step.t].a.stage) ==> s'.txns[step.t].a.gone == {})
  {
    hide OnLedger, GrantedSeat, Handled, Lapsing, LandedClaims, Issued;
  }

  lemma CommitKeepsLocks(s: State, step: Commit)
    requires Locks(s) && CommitEnabled(s, step)
    ensures Locks(ApplyCommit(s, step))
  {
    if step.DoShrink? {
      MovingKeepsLocks(s, step.t, ApplyCommit(s, step).txns[step.t]);
    } else {
      OverKeepsLocks(s, step.t);
    }
  }

  lemma TillKeepsLocks(s: State, step: Till)
    requires Locks(s) && TillEnabled(s, step)
    ensures Locks(ApplyTill(s, step))
  {
    if step.DoPay? {
      TakingARowKeepsLocks(s, step.t, step.h, Paying(step.h, PayStarted));
    } else if step.DoEnd? {
      TakingARowKeepsLocks(s, step.t, step.h, Ending(step.h, step.cause, EndStarted));
    } else if step.DoPayFound? || step.DoPayCommit? || step.DoEndCommit? {
      OverKeepsLocks(s, step.t);
    } else {
      MovingKeepsLocks(s, step.t, ApplyTill(s, step).txns[step.t]);
    }
  }
}
