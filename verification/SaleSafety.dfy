/** The primary sale's promises, in every state any run of the machine reaches. */
module SaleSafety {
  import opened Allocation
  import opened SaleProtocol
  import opened SaleLocks
  import opened SaleRoom
  import opened SaleQuiet
  import opened SaleProgress
  import opened SaleCommit
  import opened SaleMoney
  import opened SaleMoneySteps
  import opened SaleDeskSteps
  import opened SaleOutcomeSteps
  import opened SaleClosing

  // ----- What every step keeps -----

  ghost predicate Safe(s: State) {
    Locks(s) && Windows(s) && Room(s) && Books(s) && Closing(s)
  }

  lemma SafeSeats(s: State)
    requires Safe(s)
    ensures SeatsOk(s.holds, s.grants)
  {
    hide Locks, Windows, Books, Closing, SeatsOk;
  }

  lemma SafeBooks(s: State)
    requires Safe(s)
    ensures SaleHoldsOk(s.sales, s.holds) && WritesOk(s.writes, s.sales, s.grants, s.faces, s.hosted)
    ensures RefundsOk(s.refunds, s.sales, s.remote, s.writes, s.ledger.status)
    ensures EndedOk(s.refunds, s.sales, s.hosted, s.holds)
  {
    hide Locks, Windows, Room, Closing, SaleHoldsOk, WritesOk, RefundsOk, EndedOk;
  }

  lemma NothingStands(holds: Holds, grants: Grants, c: ClassId)
    requires holds == map[] && grants == map[]
    ensures |LiveHoldsOf(holds, c)| == 0 && |CountedGrantsOf(grants, c)| == 0
    ensures |StandingHolds(holds, {}, 0)| == 0 && |CountedGrants(grants)| == 0
  {
    assert LiveHoldsOf(holds, c) == {} && CountedGrantsOf(grants, c) == {};
    assert CountedGrants(grants) == {};
  }

  lemma InitIsSafe(s: State)
    requires Init(s)
    ensures Safe(s)
  {
    forall c | c in s.quotas ensures |LiveHoldsOf(s.holds, c)| + |CountedGrantsOf(s.grants, c)| <= s.quotas[c] {
      NothingStands(s.holds, s.grants, c);
    }
    assert StandingHolds(s.holds, BeingPaid(s.txns), s.now) == {};
    assert CountedGrants(s.grants) == {};
  }

  lemma QuietKeepsRoomAndWindows(s: State, s': State)
    requires Locks(s) && Windows(s) && Room(s) && Quiet(s, s')
    ensures Windows(s') && Room(s')
  {
    QuietKeepsWindows(s, s');
    hide Windows, LocksOk, Eased;
    assert Eased(s, s');
    EasingKeepsRoom(s, s');
  }

  lemma ProgressKeepsSafe(s: State, step: Progress)
    requires Safe(s) && ProgressEnabled(s, step)
    ensures Safe(ApplyProgress(s, step))
  {
    hide ApplyProgress, ProgressEnabled, LocksOk, Windows, Room, Books, Closing;
    ProgressKeepsLocks(s, step);
    ProgressKeepsWindows(s, step);
    ProgressKeepsBooks(s, step);
    ProgressKeepsClosing(s, step);
  }

  lemma CommitKeepsSafe(s: State, step: Commit)
    requires Safe(s) && CommitEnabled(s, step)
    ensures Safe(ApplyCommit(s, step))
  {
    hide ApplyCommit, CommitEnabled, LocksOk, Windows, Room, Books, Closing;
    CommitKeepsLocks(s, step);
    CommitKeepsRoom(s, step);
    CommitKeepsBooks(s, step);
    CommitKeepsClosing(s, step);
  }

  lemma DeskKeepsSafe(s: State, step: Desk)
    requires Safe(s) && DeskEnabled(s, step)
    ensures Safe(ApplyDesk(s, step))
  {
    var s' := ApplyDesk(s, step);
    DeskLocks(s, step);
    hide ApplyDesk, DeskEnabled, LocksOk, Windows, Room, Closing, Quiet, HostedOk, TxnsOk;
    DeskIsQuiet(s, step);
    QuietKeepsRoomAndWindows(s, s');
    DeskKeepsBooks(s, step);
    DeskKeepsClosing(s, step);
  }

  lemma DeskLocks(s: State, step: Desk)
    requires DeskEnabled(s, step)
    ensures var s' := ApplyDesk(s, step); s'.lock == s.lock && s'.rows == s.rows && s'.txns == s.txns
  {
  }

  lemma TillKeepsSafe(s: State, step: Till)
    requires Safe(s) && TillEnabled(s, step)
    ensures Safe(ApplyTill(s, step))
  {
    hide ApplyTill, TillEnabled, LocksOk, Windows, Room, Closing, Quiet, HostedOk, OpenRowsOk, TxnsOk;
    TillKeepsLocks(s, step);
    TillIsQuiet(s, step);
    QuietKeepsRoomAndWindows(s, ApplyTill(s, step));
    TillKeepsBooks(s, step);
    TillKeepsClosing(s, step);
  }

  lemma WorldKeepsSafe(s: State, step: World)
    requires Safe(s) && WorldEnabled(s, step)
    ensures Safe(ApplyWorld(s, step))
  {
    var s' := ApplyWorld(s, step);
    WorldLocks(s, step);
    hide ApplyWorld, WorldEnabled, LocksOk, Windows, Room, Books, Closing, Quiet;
    WorldIsQuiet(s, step);
    QuietKeepsRoomAndWindows(s, s');
    WorldKeepsBooks(s, step);
    WorldKeepsClosing(s, step);
  }

  lemma WorldLocks(s: State, step: World)
    requires WorldEnabled(s, step)
    ensures var s' := ApplyWorld(s, step); s'.lock == s.lock && s'.rows == s.rows && s'.txns == s.txns
  {
  }

  lemma OutcomeKeepsSafe(s: State, step: Outcome)
    requires Safe(s) && OutcomeEnabled(s, step)
    ensures Safe(ApplyOutcome(s, step))
  {
    OutcomeRows(s, step);
    OutcomeLocks(s, step);
    hide ApplyOutcome, OutcomeEnabled, LocksOk, Windows, Room, Closing, Quiet, SaleHoldsOk;
    OutcomeIsQuiet(s, step);
    QuietKeepsRoomAndWindows(s, ApplyOutcome(s, step));
    OutcomeKeepsBooks(s, step);
    OutcomeKeepsClosing(s, step);
  }

  lemma OutcomeLocks(s: State, step: Outcome)
    requires OutcomeEnabled(s, step)
    ensures ApplyOutcome(s, step).lock == s.lock && ApplyOutcome(s, step).rows == s.rows
  {
  }

  lemma StepKeepsSafe(s: State, step: Step)
    requires Safe(s) && Enabled(s, step)
    ensures Safe(Apply(s, step))
  {
    hide Safe;
    match step {
      case InProgress(p) => ProgressKeepsSafe(s, p);
      case InCommit(p) => CommitKeepsSafe(s, p);
      case AtDesk(p) => DeskKeepsSafe(s, p);
      case AtTill(p) => TillKeepsSafe(s, p);
      case InWorld(p) => WorldKeepsSafe(s, p);
      case InLedger(p) => OutcomeKeepsSafe(s, p);
    }
  }

  lemma {:induction false} RunKeepsSafe(s: State, steps: seq<Step>)
    requires Safe(s) && IsRun(s, steps)
    ensures Safe(After(s, steps))
    decreases |steps|
  {
    hide Safe;
    if steps != [] {
      StepKeepsSafe(s, steps[0]);
      RunKeepsSafe(Apply(s, steps[0]), steps[1..]);
    }
  }

  /** Every state a run reaches from a new event is safe. */
  lemma ReachedIsSafe(start: State, steps: seq<Step>)
    requires Init(start) && IsRun(start, steps)
    ensures Safe(After(start, steps))
  {
    hide Safe;
    InitIsSafe(start);
    RunKeepsSafe(start, steps);
  }
}
