/**
  A hold's life, over every run: its place and price never change, its lifetime is
  extended at most once, it is never outstanding again once it stopped being so, a
  confirmed one stays confirmed, and a lapsed one is past its lifetime.
 */
module SaleHolds {
  import opened Allocation
  import opened SaleProtocol
  import opened SaleRoom
  import opened SaleMoney
  import opened SaleSafety

  /** How one hold may have changed. */
  predicate Follows(a: Hold, b: Hold) {
    && b.cls == a.cls && b.seat == a.seat && b.price == a.price
    && (b.status.Outstanding? ==> a.status.Outstanding?) && (a.status.Confirmed? ==> b.status.Confirmed?)
    && (b.expires == a.expires || (!a.extended && b.expires == a.expires + HOLD_EXTENSION && b.extended))
    && (a.extended ==> b.extended) && (b.extended == a.extended ==> b.expires == a.expires)
  }

  ghost predicate LifeGoesOn(holds: Holds, holds': Holds) {
    forall h | h in holds :: h in holds' && Follows(holds[h], holds'[h])
  }

  ghost predicate LapsedOk(s: State) {
    forall h | h in s.holds && s.holds[h].status.Lapsed? :: s.holds[h].expires <= s.now
  }

  ghost predicate Alive(s: State, s': State) {
    LifeGoesOn(s.holds, s'.holds) && LapsedOk(s')
  }

  lemma LapsingFollows(s: State, t: TxnId)
    requires Windows(s) && t in s.txns && s.txns[t].Allocating? && (s.txns[t].a.stage.Counted? || s.txns[t].a.stage.Written?)
    requires LapsedOk(s)
    ensures LifeGoesOn(s.holds, Lapsing(s.holds, s.txns[t].a.gone))
    ensures forall h | h in s.holds && Lapsing(s.holds, s.txns[t].a.gone)[h].status.Lapsed? :: s.holds[h].expires <= s.now
  {
    assert Window(s.now, BeingPaid(s.txns), s.quotas, s.holds, s.grants, s.ledger, s.closed, s.txns[t].a);
  }

  /** The hold a sale starts for is not another payment's. */
  lemma SoldHoldIsFree(s: State, t: TxnId, x: SaleId)
    requires Windows(s) && CanSell(s, t, x)
    ensures s.txns[t].a.goal.hold in s.holds && !s.holds[s.txns[t].a.goal.hold].status.Confirmed?
  {
    hide PlaceFree, Covered, SnapshotOk, ViewOk, Bounded, GoneOk;
    assert Window(s.now, BeingPaid(s.txns), s.quotas, s.holds, s.grants, s.ledger, s.closed, s.txns[t].a);
  }

  lemma SellHolds(s: State, t: TxnId, x: SaleId)
    requires CanSell(s, t, x)
    ensures Sell(s, t, x).holds == SetHold(Lapsing(s.holds, s.txns[t].a.gone), s.txns[t].a.goal.hold, Issuing)
    ensures Sell(s, t, x).now == s.now
  {
    hide Unlocked, PlaceFree, Lapsing, SetHosted;
  }

  lemma IssuingFollows(s: State, gone: set<HoldId>, h: HoldId)
    requires LifeGoesOn(s.holds, Lapsing(s.holds, gone)) && h in s.holds && !s.holds[h].status.Confirmed?
    requires forall h' | h' in s.holds && Lapsing(s.holds, gone)[h'].status.Lapsed? :: s.holds[h'].expires <= s.now
    ensures var holds := SetHold(Lapsing(s.holds, gone), h, Issuing);
            LifeGoesOn(s.holds, holds) && forall h' | h' in holds && holds[h'].status.Lapsed? :: holds[h'].expires <= s.now
  {
  }

  lemma SellFollows(s: State, t: TxnId, x: SaleId)
    requires Windows(s) && LapsedOk(s) && CanSell(s, t, x)
    ensures Alive(s, Sell(s, t, x))
  {
    SoldHoldIsFree(s, t, x);
    LapsingFollows(s, t);
    IssuingFollows(s, s.txns[t].a.gone, s.txns[t].a.goal.hold);
    SellHolds(s, t, x);
    hide Windows, CanSell, Sell, Lapsing, LifeGoesOn, SetHold;
  }

  lemma PlacingFollows(s: State, gone: set<HoldId>, h: HoldId, hold: Hold)
    requires LifeGoesOn(s.holds, Lapsing(s.holds, gone)) && h !in s.holds && hold.status.Outstanding?
    requires forall h' | h' in s.holds && Lapsing(s.holds, gone)[h'].status.Lapsed? :: s.holds[h'].expires <= s.now
    ensures var holds := Lapsing(s.holds, gone)[h := hold];
            LifeGoesOn(s.holds, holds) && forall h' | h' in holds && holds[h'].status.Lapsed? :: holds[h'].expires <= s.now
  {
  }

  lemma PlaceFollows(s: State, t: TxnId)
    requires Windows(s) && LapsedOk(s) && CanPlace(s, t)
    ensures Alive(s, Place(s, t))
  {
    LapsingFollows(s, t);
    PlacingFollows(s, s.txns[t].a.gone, s.txns[t].a.goal.hold, Place(s, t).holds[s.txns[t].a.goal.hold]);
    hide Windows, CanPlace, Lapsing, LifeGoesOn, Unlocked;
  }

  /** Refused, counted for nothing, reserved or decreased: only the lapses are committed. */
  lemma LapsesFollow(s: State, step: Commit)
    requires Windows(s) && LapsedOk(s) && CommitEnabled(s, step)
    requires step.DoPlaceNothing? || step.DoReserve? || step.DoMiss? || step.DoKeepShrink?
    ensures Alive(s, ApplyCommit(s, step))
  {
    LapsingFollows(s, step.t);
    hide Windows, PlaceRefused, PlaceTaken, RoomSeen, Entitle, SetHosted, Unlocked, CountsSeen;
    assert ApplyCommit(s, step).holds == Lapsing(s.holds, s.txns[step.t].a.gone);
  }

  lemma OtherCommitsFollow(s: State, step: Commit)
    requires LapsedOk(s) && CommitEnabled(s, step)
    requires step.DoSkip? || step.DoTurnAway? || step.DoShrink? || step.DoRaise? || step.DoClose?
    ensures Alive(s, ApplyCommit(s, step))
  {
    hide RoomSeen, Entitle, SetHosted, Unlocked, CountsSeen, Handled;
  }

  lemma CommitFollows(s: State, step: Commit)
    requires Windows(s) && LapsedOk(s) && CommitEnabled(s, step)
    ensures Alive(s, ApplyCommit(s, step))
  {
    hide Windows, LapsedOk, Alive;
    if step.DoPlace? {
      PlaceFollows(s, step.t);
    } else if step.DoSell? {
      SellFollows(s, step.t, step.sale);
    } else if step.DoPlaceNothing? || step.DoReserve? || step.DoMiss? || step.DoKeepShrink? {
      LapsesFollow(s, step);
    } else {
      OtherCommitsFollow(s, step);
    }
  }

  lemma DeskFollows(s: State, step: Desk)
    requires LapsedOk(s) && DeskEnabled(s, step)
    ensures Alive(s, ApplyDesk(s, step))
  {
    hide ToVisit, Handled;
  }

  /** A payment's commit extends the hold whose row it keeps, which is outstanding. */
  lemma PayCommitFollows(s: State, t: TxnId)
    requires LapsedOk(s) && CanPayCommit(s, t) && TxnOk(s.txns[t], s.holds, s.hosted, s.remote)
    ensures Alive(s, PayCommit(s, t))
  {
    hide Unlocked, NoOtherOpen, RetiredRows, Replaced;
  }

  lemma EndCommitFollows(s: State, t: TxnId)
    requires LapsedOk(s) && CanEndCommit(s, t)
    ensures Alive(s, EndCommit(s, t))
  {
    hide Unlocked, EndedRows, Visited;
  }

  lemma OtherTillKeepsHolds(s: State, step: Till)
    requires TillEnabled(s, step) && !step.DoPayCommit? && !step.DoEndCommit?
    ensures ApplyTill(s, step).holds == s.holds && ApplyTill(s, step).now == s.now
  {
    hide Unlocked, NoOtherOpen, CancelRemote;
  }

  lemma TillFollows(s: State, step: Till)
    requires LapsedOk(s) && TxnsOk(s.txns, s.holds, s.hosted, s.remote) && TillEnabled(s, step)
    ensures Alive(s, ApplyTill(s, step))
  {
    if step.DoPayCommit? {
      assert TxnOk(s.txns[step.t], s.holds, s.hosted, s.remote);
      PayCommitFollows(s, step.t);
    } else if step.DoEndCommit? {
      EndCommitFollows(s, step.t);
    } else {
      OtherTillKeepsHolds(s, step);
      hide ApplyTill, TillEnabled;
    }
  }

  lemma OutcomeFollows(s: State, step: Outcome)
    requires LapsedOk(s) && OutcomeEnabled(s, step)
    ensures Alive(s, ApplyOutcome(s, step))
  {
    hide Entitle, SetSale, SeatOf, OnLedger;
  }

  lemma WorldFollows(s: State, step: World)
    requires LapsedOk(s) && WorldEnabled(s, step)
    ensures Alive(s, ApplyWorld(s, step))
  {
    hide NoOtherOpen, CancelRemote, SetHosted;
  }

  lemma ProgressFollows(s: State, step: Progress)
    requires LapsedOk(s) && ProgressEnabled(s, step)
    ensures Alive(s, ApplyProgress(s, step))
  {
    hide ApplyProgress, ProgressEnabled;
    ProgressKeepsHolds(s, step);
  }

  lemma ProgressKeepsHolds(s: State, step: Progress)
    requires ProgressEnabled(s, step)
    ensures ApplyProgress(s, step).holds == s.holds && ApplyProgress(s, step).now == s.now
  {
  }

  lemma StepFollows(s: State, step: Step)
    requires Windows(s) && TxnsOk(s.txns, s.holds, s.hosted, s.remote) && LapsedOk(s) && Enabled(s, step)
    ensures Alive(s, Apply(s, step))
  {
    hide ApplyProgress, ApplyCommit, ApplyDesk, ApplyTill, ApplyWorld, ApplyOutcome, ProgressEnabled, CommitEnabled,
      DeskEnabled, TillEnabled, WorldEnabled, OutcomeEnabled;
    hide Windows, LapsedOk, Alive, TxnsOk;
    match step {
      case InProgress(p) => ProgressFollows(s, p);
      case InCommit(p) => CommitFollows(s, p);
      case AtDesk(p) => DeskFollows(s, p);
      case AtTill(p) => TillFollows(s, p);
      case InWorld(p) => WorldFollows(s, p);
      case InLedger(p) => OutcomeFollows(s, p);
    }
  }

  lemma LifeChains(a: Holds, b: Holds, c: Holds)
    requires LifeGoesOn(a, b) && LifeGoesOn(b, c)
    ensures LifeGoesOn(a, c)
  {
  }

  /** Whatever happens to a hold on any run from a safe state follows its life. */
  lemma {:induction false} HoldsLiveOnce(s: State, steps: seq<Step>)
    requires Safe(s) && LapsedOk(s) && IsRun(s, steps)
    ensures LifeGoesOn(s.holds, After(s, steps).holds) && LapsedOk(After(s, steps))
    decreases |steps|
  {
    if steps != [] {
      assert Windows(s) && TxnsOk(s.txns, s.holds, s.hosted, s.remote);
      hide Safe, TxnsOk, Enabled, Apply, LapsedOk, Windows;
      StepFollows(s, steps[0]);
      StepKeepsSafe(s, steps[0]);
      HoldsLiveOnce(Apply(s, steps[0]), steps[1..]);
      LifeChains(s.holds, Apply(s, steps[0]).holds, After(s, steps).holds);
    }
  }

  // ----- What ending and extending a hold come to -----

  lemma EndingFrees(holds: Holds, grants: Grants, h: HoldId, at: int)
    requires h in holds && SeatsOk(holds, grants)
    ensures var after := EndHold(holds, h, at);
            && after.Keys == holds.Keys && (forall h' | h' in holds && h' != h :: after[h'] == holds[h'])
            && LiveHolds(after) == (if holds[h].status.Outstanding? then LiveHolds(holds) - {h} else LiveHolds(holds))
            && (holds[h].status.Outstanding? ==>
                  !SeatHeld(after, holds[h].seat) && (after[h].status.Lapsed? <==> holds[h].expires <= at))
            && (!holds[h].status.Outstanding? ==> after[h] == holds[h])
  {
  }

  /** Releasing a hold ends it if it was outstanding, frees its seat, and leaves every other hold alone. */
  lemma AReleasedHoldIsOver(s: State, h: HoldId, at: int)
    requires Safe(s) && Enabled(s, AtDesk(DoRelease(h, at)))
    ensures var s' := Apply(s, AtDesk(DoRelease(h, at)));
            && h in s.holds && s'.holds.Keys == s.holds.Keys && (forall h' | h' in s.holds && h' != h :: s'.holds[h'] == s.holds[h'])
            && LiveHolds(s'.holds) == (if s.holds[h].status.Outstanding? then LiveHolds(s.holds) - {h} else LiveHolds(s.holds))
            && (s.holds[h].status.Outstanding? ==>
                  !SeatHeld(s'.holds, s.holds[h].seat) && (s'.holds[h].status.Lapsed? <==> s.holds[h].expires <= at))
            && (!s.holds[h].status.Outstanding? ==> s'.holds[h] == s.holds[h])
  {
    SafeSeats(s);
    hide Safe, SeatsOk, EndHold, LiveHolds, SeatHeld;
    EndingFrees(s.holds, s.grants, h, at);
  }

  /** Lapsing takes exactly the holds given from those that are live, and nothing else changes. */
  lemma LapsedHoldsAreOver(s: State, gone: set<HoldId>)
    requires Enabled(s, AtDesk(DoLapse(gone)))
    ensures var s' := Apply(s, AtDesk(DoLapse(gone)));
            && s'.holds.Keys == s.holds.Keys && LiveHolds(s'.holds) == LiveHolds(s.holds) - gone
            && (forall h | h in s.holds :: if h in gone then s'.holds[h].status.Lapsed? else s'.holds[h] == s.holds[h])
            && (forall h | h in gone :: h in s.holds && s.holds[h].status.Outstanding? && s.holds[h].expires <= s.now)
  {
  }

  /** An extension makes an outstanding hold stand five minutes longer, once. */
  lemma AnExtendedHoldStandsLonger(s: State, h: HoldId)
    requires Enabled(s, AtDesk(DoExtend(h)))
    ensures var s' := Apply(s, AtDesk(DoExtend(h)));
            && h in s.holds && h in s'.holds && (forall h' | h' in s.holds && h' != h :: h' in s'.holds && s'.holds[h'] == s.holds[h'])
            && (forall at: int :: s'.holds[h].Stands(at, false) <==> at < s.holds[h].expires + 5 * 60 * 1000)
            && !Enabled(s', AtDesk(DoExtend(h)))
  {
  }
}
