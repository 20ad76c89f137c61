/** What an allocation reads under the event's lock holds when it reads it. */
module SaleProgress {
  import opened Common
  import opened Allocation
  import opened SaleProtocol
  import opened SaleLocks
  import opened SaleRoom
  import opened SaleQuiet

  ghost predicate WindowIn(s: State, a: Alloc) {
    Window(s.now, BeingPaid(s.txns), s.quotas, s.holds, s.grants, s.ledger, s.closed, a)
  }

  lemma MovingKeepsPaying(s: State, t: TxnId, a: Alloc)
    requires t in s.txns ==> s.txns[t].Allocating?
    ensures BeingPaid(s.txns[t := Allocating(a)]) == BeingPaid(s.txns)
  {
    var txns := s.txns[t := Allocating(a)];
    forall h | h in BeingPaid(s.txns) ensures h in BeingPaid(txns) {
      var t' :| t' in s.txns && s.txns[t'].Paying? && s.txns[t'].hold == h;
      assert t' in txns && txns[t'].Paying?;
    }
    forall h | h in BeingPaid(txns) ensures h in BeingPaid(s.txns) {
      var t' :| t' in txns && txns[t'].Paying? && txns[t'].hold == h;
      assert t' in s.txns && s.txns[t'].Paying?;
    }
  }

  /** A transaction that moves on under the lock leaves the others' windows alone. */
  lemma MovingKeepsWindows(s: State, t: TxnId, a: Alloc)
    requires Windows(s) && (t in s.txns ==> s.txns[t].Allocating?) && WindowIn(s, a)
    ensures BeingPaid(s.txns[t := Allocating(a)]) == BeingPaid(s.txns)
    ensures Windows(With(s, t, a))
  {
    MovingKeepsPaying(s, t, a);
  }

  /** Marking expired holds lapsed frees room and takes none. */
  lemma LapsingKeepsRoom(quotas: Quotas, holds: Holds, grants: Grants, gone: set<HoldId>)
    requires SeatsOk(holds, grants) && QuotaOk(quotas, holds, grants)
    ensures SeatsOk(Lapsing(holds, gone), grants) && QuotaOk(quotas, Lapsing(holds, gone), grants)
  {
    forall c | c in quotas
      ensures |LiveHoldsOf(Lapsing(holds, gone), c)| + |CountedGrantsOf(grants, c)| <= quotas[c]
    {
      SubsetIsSmaller(LiveHoldsOf(Lapsing(holds, gone), c), LiveHoldsOf(holds, c));
    }
  }

  lemma ReadClockWindow(s: State, t: TxnId)
    requires Windows(s) && Room(s) && CanReadClock(s, t)
    ensures WindowIn(s, ReadClock(s, t).txns[t].a)
  {
    assert WindowIn(s, s.txns[t].a);
  }

  lemma SweepWindow(s: State, t: TxnId)
    requires Windows(s) && CanSweep(s, t)
    ensures WindowIn(s, Sweep(s, t).txns[t].a)
  {
    assert WindowIn(s, s.txns[t].a);
    var a := s.txns[t].a;
  }

  lemma CountedSnapshot(s: State, a: Alloc)
    requires Room(s) && a.stage.Swept? && WindowIn(s, a)
    ensures var a' := a.(stage := Counted, holds := Lapsing(s.holds, a.gone), grants := s.grants);
            Covered(s.holds, s.grants, a') && SnapshotOk(s.quotas, s.ledger, a')
  {
    LapsingKeepsRoom(s.quotas, s.holds, s.grants, a.gone);
    SubsetIsSmaller(LiveHolds(Lapsing(s.holds, a.gone)), StandingHolds(s.holds, BeingPaid(s.txns), a.at));
  }

  lemma CountWindow(s: State, t: TxnId)
    requires Windows(s) && Room(s) && CanCount(s, t)
    ensures WindowIn(s, Count(s, t).txns[t].a)
  {
    assert WindowIn(s, s.txns[t].a);
    CountedSnapshot(s, s.txns[t].a);
  }

  lemma ProbeWindow(s: State, t: TxnId)
    requires Windows(s) && CanProbe(s, t)
    ensures WindowIn(s, Probe(s, t).txns[t].a)
  {
    assert WindowIn(s, s.txns[t].a);
    hide Windows, Covered, SnapshotOk, PaymentOk, ViewOk, GoneOk, OnLedger;
    PaymentLooksAlike(s, s.txns[t].a, Probe(s, t).txns[t].a);
    CountedLooksAlike(s, s.txns[t].a, Probe(s, t).txns[t].a);
  }

  /** Entering, looking, finding the payment unhandled, and finding sales closed: what is read holds then. */
  lemma ReadWindow(s: State, step: Progress)
    requires Windows(s) && ProgressEnabled(s, step)
    requires step.DoEnter? || step.DoLook? || step.DoFindUnhandled? || step.DoBar?
    ensures WindowIn(s, ApplyProgress(s, step).txns[step.t].a)
  {
    assert WindowIn(s, s.txns[step.t].a);
  }

  /** Whether the place is free is no part of these. */
  lemma PaymentLooksAlike(s: State, a: Alloc, b: Alloc)
    requires PaymentOk(s.holds, s.closed, a) && b == a.(free := b.free)
    ensures PaymentOk(s.holds, s.closed, b)
  {
  }

  lemma CountedLooksAlike(s: State, a: Alloc, b: Alloc)
    requires b == a.(free := b.free)
    ensures Covered(s.holds, s.grants, a) ==> Covered(s.holds, s.grants, b)
    ensures SnapshotOk(s.quotas, s.ledger, a) ==> SnapshotOk(s.quotas, s.ledger, b)
    ensures ViewOk(s.ledger, s.closed, a) ==> ViewOk(s.ledger, s.closed, b)
    ensures GoneOk(s.now, s.holds, a) ==> GoneOk(s.now, s.holds, b)
  {
  }

  lemma PaymentWindow(s: State, step: Progress)
    requires Windows(s) && ProgressEnabled(s, step)
    requires step.DoClear? || step.DoReread?
    ensures WindowIn(s, ApplyProgress(s, step).txns[step.t].a)
  {
    assert WindowIn(s, s.txns[step.t].a);
  }

  /** A new allocation, or one rolled back. */
  lemma EdgeKeepsWindows(s: State, step: Progress)
    requires Locks(s) && Windows(s) && ProgressEnabled(s, step) && (step.DoBegin? || step.DoAbort?)
    ensures Windows(ApplyProgress(s, step))
    ensures Quiet(s, ApplyProgress(s, step)) || BeingPaid(ApplyProgress(s, step).txns) == BeingPaid(s.txns)
  {
    if step.DoBegin? {
      var a := Begin(s, step.t, step.goal).txns[step.t].a;
      MovingKeepsWindows(s, step.t, a);
    } else {
      var s' := Abort(s, step.t);
      EasingIsQuiet(s, s');
      QuietKeepsWindows(s, s');
    }
  }

  lemma ProgressKeepsWindows(s: State, step: Progress)
    requires Locks(s) && Windows(s) && Room(s) && ProgressEnabled(s, step)
    ensures Windows(ApplyProgress(s, step)) && Room(ApplyProgress(s, step))
  {
    if step.DoBegin? || step.DoAbort? {
      EdgeKeepsWindows(s, step);
      if step.DoAbort? {
        EasingKeepsRoom(s, ApplyProgress(s, step));
      }
    } else {
      ProgressMoves(s, step);
      MovedWindow(s, step);
      hide ApplyProgress, ProgressEnabled, LocksOk;
      MovingKeepsWindows(s, step.t, ApplyProgress(s, step).txns[step.t].a);
      WindowsAlike(With(s, step.t, ApplyProgress(s, step).txns[step.t].a), ApplyProgress(s, step));
    }
  }

  /** Of the tables nothing changes, and of the transactions only the one that moves on. */
  lemma ProgressMoves(s: State, step: Progress)
    requires ProgressEnabled(s, step) && !step.DoBegin? && !step.DoAbort?
    ensures step.t in s.txns && s.txns[step.t].Allocating?
    ensures var s' := ApplyProgress(s, step);
            && step.t in s'.txns && s'.txns[step.t].Allocating? && s'.txns == s.txns[step.t := s'.txns[step.t]]
            && s'.now == s.now && s'.quotas == s.quotas && s'.holds == s.holds && s'.grants == s.grants
            && s'.ledger == s.ledger && s'.closed == s.closed
  {
    hide OnLedger, GrantedSeat, Handled, Lapsing, LandedClaims, Issued;
  }

  lemma MovedWindow(s: State, step: Progress)
    requires Windows(s) && Room(s) && ProgressEnabled(s, step) && !step.DoBegin? && !step.DoAbort?
    requires step.t in ApplyProgress(s, step).txns && ApplyProgress(s, step).txns[step.t].Allocating?
    ensures WindowIn(s, ApplyProgress(s, step).txns[step.t].a)
  {
    hide ReadClock, Sweep, Count, Look, Probe, FindUnhandled, Bar, Clear, Reread, Enter, Windows, Room, WindowIn;
    match step {
      case DoReadClock(t) => ReadClockWindow(s, t);
      case DoSweep(t) => SweepWindow(s, t);
      case DoCount(t) => CountWindow(s, t);
      case DoProbe(t) => ProbeWindow(s, t);
      case DoClear(_) => PaymentWindow(s, step);
      case DoReread(_) => PaymentWindow(s, step);
      case _ => ReadWindow(s, step);
    }
  }

  lemma WindowsAlike(s: State, s': State)
    requires s'.txns == s.txns && s'.now == s.now && s'.quotas == s.quotas && s'.holds == s.holds && s'.grants == s.grants
    requires s'.ledger == s.ledger && s'.closed == s.closed
    ensures Windows(s) ==> Windows(s')
    ensures Room(s) ==> Room(s')
  {
  }
}
