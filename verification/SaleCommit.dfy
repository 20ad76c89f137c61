/**
  What an allocation records under the event's lock fits: the room it counted is
  still there, whatever ended, expired or was confirmed in between.
 */
module SaleCommit {
  import opened Common
  import opened Allocation
  import opened SaleProtocol
  import opened SaleLocks
  import opened SaleRoom
  import opened SaleProgress

  // ----- One more allocation on top of a snapshot -----

  /** Besides `h`, everything live is live in the snapshot. */
  ghost predicate OnTop(a: Alloc, holds: Holds, h: HoldId) {
    forall h' | h' in holds && h' != h && holds[h'].Live() ::
      h' in a.holds && a.holds[h'].Live() && a.holds[h'].cls == holds[h'].cls && a.holds[h'].seat == holds[h'].seat
  }

  ghost predicate GrantsWithin(a: Alloc, grants: Grants) {
    forall g | g in grants && grants[g].Counts() ::
      g in a.grants && a.grants[g].Counts() && a.grants[g].cls == grants[g].cls && a.grants[g].seat == grants[g].seat
  }

  /** `h` was itself live in the snapshot, or the snapshot had room for it. */
  predicate InSnapshot(a: Alloc, holds: Holds, h: HoldId)
    requires h in holds
  {
    h in a.holds && a.holds[h].Live() && a.holds[h].cls == holds[h].cls && a.holds[h].seat == holds[h].seat
  }

  lemma HoldFitsQuota(quotas: Quotas, a: Alloc, holds: Holds, grants: Grants, h: HoldId)
    requires h in holds && OnTop(a, holds, h) && GrantsWithin(a, grants) && QuotaOk(quotas, a.holds, a.grants)
    requires InSnapshot(a, holds, h)
             || QuotaHasRoom(CountsOf(a.holds, a.grants, quotas, holds[h].cls, holds[h].seat))
    ensures QuotaOk(quotas, holds, grants)
  {
    forall c | c in quotas ensures |LiveHoldsOf(holds, c)| + |CountedGrantsOf(grants, c)| <= quotas[c] {
      SubsetIsSmaller(CountedGrantsOf(grants, c), CountedGrantsOf(a.grants, c));
      if InSnapshot(a, holds, h) || holds[h].cls != c {
        SubsetIsSmaller(LiveHoldsOf(holds, c), LiveHoldsOf(a.holds, c));
      } else {
        SubsetIsSmaller(LiveHoldsOf(holds, c), LiveHoldsOf(a.holds, c) + {h});
        QuotaRoomMeans(a.holds, a.grants, quotas, c, holds[h].seat);
      }
    }
  }

  lemma HoldFitsCapacity(ledger: Ledger, quotas: Quotas, a: Alloc, cls: ClassId, seat: Option<SeatId>,
                         holds: Holds, grants: Grants, h: HoldId, paying: set<HoldId>, now: int)
    requires h in holds && OnTop(a, holds, h) && GrantsWithin(a, grants)
    requires Bounded(ledger, |LiveHolds(a.holds)| + |CountedGrants(a.grants)|)
    requires InSnapshot(a, holds, h)
             || exists issued: nat :: CapacityHasRoom(ledger.capacity, issued, CountsOf(a.holds, a.grants, quotas, cls, seat))
    ensures CapacityOk(now, paying, holds, grants, ledger)
  {
    SubsetIsSmaller(CountedGrants(grants), CountedGrants(a.grants));
    if InSnapshot(a, holds, h) {
      SubsetIsSmaller(StandingHolds(holds, paying, now), LiveHolds(a.holds));
    } else {
      SubsetIsSmaller(StandingHolds(holds, paying, now), LiveHolds(a.holds) + {h});
      var issued: nat :| CapacityHasRoom(ledger.capacity, issued, CountsOf(a.holds, a.grants, quotas, cls, seat));
      if ledger.capacity.Some? {
        CapacityRoomMeans(a.holds, a.grants, quotas, cls, seat, ledger.capacity.value, issued);
      }
    }
  }

  lemma HoldFitsSeat(a: Alloc, holds: Holds, grants: Grants, h: HoldId)
    requires h in holds && OnTop(a, holds, h) && GrantsWithin(a, grants) && SeatsOk(a.holds, a.grants)
    requires InSnapshot(a, holds, h) || (!SeatHeld(a.holds, holds[h].seat) && !GrantedSeat(grants, holds[h].seat))
    ensures SeatsOk(holds, grants)
  {
  }

  // ----- After the commit, nobody is left under the lock -----

  lemma OthersWait(s: State, s': State, t: TxnId)
    requires Locks(s) && Windows(s) && t in s.txns && s.txns[t].Allocating? && !s.txns[t].a.stage.Waiting?
    requires s'.txns == s.txns - {t}
    requires forall h | h in s.holds :: h in s'.holds && s'.holds[h].cls == s.holds[h].cls && s'.holds[h].seat == s.holds[h].seat
    ensures Windows(s')
  {
    forall t' | t' in s'.txns && s'.txns[t'].Allocating?
      ensures Window(s'.now, BeingPaid(s'.txns), s'.quotas, s'.holds, s'.grants, s'.ledger, s'.closed, s'.txns[t'].a)
    {
      assert s.txns[t'].a.stage.Waiting?;
      assert WindowIn(s, s.txns[t'].a);
    }
  }

  lemma LapsedTop(s: State, t: TxnId, h: HoldId, hold: Hold)
    requires Windows(s) && In(s, t, Stage.Counted)
    ensures OnTop(s.txns[t].a, Lapsing(s.holds, s.txns[t].a.gone)[h := hold], h)
    ensures GrantsWithin(s.txns[t].a, s.grants)
  {
    assert WindowIn(s, s.txns[t].a);
  }

  lemma PlaceKeepsRoom(s: State, t: TxnId)
    requires Windows(s) && CanPlace(s, t)
    ensures Room(Place(s, t))
  {
    var a := s.txns[t].a;
    assert WindowIn(s, a);
    var h := a.goal.hold;
    var s' := Place(s, t);
    LapsedTop(s, t, h, s'.holds[h]);
    HoldFitsQuota(s.quotas, a, s'.holds, s.grants, h);
    HoldFitsSeat(a, s'.holds, s.grants, h);
    HoldFitsCapacity(s.ledger, s.quotas, a, a.goal.cls, a.goal.seat, s'.holds, s.grants, h, BeingPaid(s'.txns), s.now);
  }

  lemma SellKeepsRoom(s: State, t: TxnId, x: SaleId)
    requires Windows(s) && CanSell(s, t, x)
    ensures Room(Sell(s, t, x))
  {
    var a := s.txns[t].a;
    assert WindowIn(s, a);
    var h := a.goal.hold;
    var s' := Sell(s, t, x);
    LapsedTop(s, t, h, s'.holds[h]);
    HoldFitsQuota(s.quotas, a, s'.holds, s.grants, h);
    HoldFitsSeat(a, s'.holds, s.grants, h);
    HoldFitsCapacity(s.ledger, s.quotas, a, a.goal.cls, a.goal.seat, s'.holds, s.grants, h, BeingPaid(s'.txns), s.now);
  }

  lemma ReserveFitsQuota(s: State, t: TxnId)
    requires Windows(s) && CanReserve(s, t)
    ensures var s' := Reserve(s, t); QuotaOk(s'.quotas, s'.holds, s'.grants)
  {
    var a := s.txns[t].a;
    assert WindowIn(s, a);
    var s' := Reserve(s, t);
    assert s'.quotas == s.quotas;
    assert QuotaOk(s.quotas, a.holds, a.grants) && QuotaHasRoom(CountsOf(a.holds, a.grants, s.quotas, a.goal.cls, a.goal.seat));
    forall c | c in s.quotas ensures |LiveHoldsOf(s'.holds, c)| + |CountedGrantsOf(s'.grants, c)| <= s.quotas[c] {
      ReservedOfClass(s, t, c);
      hide CanReserve, Reserve, Windows, WindowIn, LiveHoldsOf, CountedGrantsOf, QuotaHasRoom, CountsOf;
      GrantFitsQuota(s.quotas, a, s'.holds, s'.grants, c);
    }
  }

  /** What is then of a class was counted, but for the new grant. */
  lemma ReservedOfClass(s: State, t: TxnId, c: ClassId)
    requires Windows(s) && CanReserve(s, t)
    ensures var s', a := Reserve(s, t), s.txns[t].a;
            && LiveHoldsOf(s'.holds, c) <= LiveHoldsOf(a.holds, c)
            && CountedGrantsOf(s'.grants, c)
               <= CountedGrantsOf(a.grants, c) + (if a.goal.cls == c then {a.goal.grant} else {})
  {
    var a := s.txns[t].a;
    assert Covered(s.holds, s.grants, a) by {
      assert WindowIn(s, a);
    }
    hide Windows, CountsOf, QuotaHasRoom, RoomSeen;
  }

  /** One more grant of the class it is of, and none of any other. */
  lemma GrantFitsQuota(quotas: Quotas, a: Alloc, holds: Holds, grants: Grants, c: ClassId)
    requires a.goal.ToGrant? && c in quotas && (a.goal.cls == c ==> QuotaHasRoom(CountsOf(a.holds, a.grants, quotas, c, a.goal.seat)))
    requires LiveHoldsOf(holds, c) <= LiveHoldsOf(a.holds, c)
    requires CountedGrantsOf(grants, c) <= CountedGrantsOf(a.grants, c) + (if a.goal.cls == c then {a.goal.grant} else {})
    requires |LiveHoldsOf(a.holds, c)| + |CountedGrantsOf(a.grants, c)| <= quotas[c]
    ensures |LiveHoldsOf(holds, c)| + |CountedGrantsOf(grants, c)| <= quotas[c]
  {
    hide LiveHoldsOf, CountedGrantsOf, QuotaHasRoom, CountsOf;
    SubsetIsSmaller(LiveHoldsOf(holds, c), LiveHoldsOf(a.holds, c));
    if a.goal.cls == c {
      SubsetIsSmaller(CountedGrantsOf(grants, c), CountedGrantsOf(a.grants, c) + {a.goal.grant});
      QuotaRoomMeans(a.holds, a.grants, quotas, c, a.goal.seat);
    } else {
      SubsetIsSmaller(CountedGrantsOf(grants, c), CountedGrantsOf(a.grants, c));
    }
  }

  lemma ReserveFitsCapacity(s: State, t: TxnId)
    requires Windows(s) && CanReserve(s, t)
    ensures var s' := Reserve(s, t); CapacityOk(s'.now, BeingPaid(s'.txns), s'.holds, s'.grants, s'.ledger)
  {
    var a := s.txns[t].a;
    assert WindowIn(s, a);
    var s' := Reserve(s, t);
    ReservedOnTop(s, t);
    if s.ledger.status.Active? && s.ledger.capacity.Some? {
      CapacityRoomMeans(a.holds, a.grants, s.quotas, a.goal.cls, a.goal.seat, s.ledger.capacity.value, a.view.value.issued);
    }
  }

  /** What then stands was counted, but for the new grant. */
  lemma ReservedOnTop(s: State, t: TxnId)
    requires Windows(s) && CanReserve(s, t)
    ensures var s', a := Reserve(s, t), s.txns[t].a;
            && |StandingHolds(s'.holds, BeingPaid(s'.txns), s'.now)| <= |LiveHolds(a.holds)|
            && |LiveHolds(s'.holds)| <= |LiveHolds(a.holds)|
            && |CountedGrants(s'.grants)| <= |CountedGrants(a.grants)| + 1
  {
    var s', a := Reserve(s, t), s.txns[t].a;
    assert Covered(s.holds, s.grants, a) by {
      assert WindowIn(s, a);
    }
    hide Windows, CountsOf, QuotaHasRoom, RoomSeen, CanReserve;
    SubsetIsSmaller(LiveHolds(s'.holds), LiveHolds(a.holds));
    SubsetIsSmaller(StandingHolds(s'.holds, BeingPaid(s'.txns), s'.now), LiveHolds(a.holds));
    SubsetIsSmaller(CountedGrants(s'.grants), CountedGrants(a.grants) + {a.goal.grant});
  }

  lemma GrantFitsSeat(holds: Holds, grants: Grants, g: GrantId, grant: Grant)
    requires SeatsOk(holds, grants) && g !in grants && !GrantedSeat(grants, grant.seat)
    requires !SeatHeld(holds, grant.seat)
    ensures SeatsOk(holds, grants[g := grant])
  {
  }

  lemma ReserveFitsSeat(s: State, t: TxnId)
    requires Windows(s) && Room(s) && CanReserve(s, t)
    ensures var s' := Reserve(s, t); SeatsOk(s'.holds, s'.grants)
  {
    var a := s.txns[t].a;
    assert WindowIn(s, a);
    LapsingKeepsRoom(s.quotas, s.holds, s.grants, a.gone);
    var holds := Lapsing(s.holds, a.gone);
    assert !SeatHeld(holds, a.goal.seat) by {
      forall h | h in holds && holds[h].Live() && a.goal.seat.Some? ensures holds[h].seat != a.goal.seat {
        assert a.holds[h].seat == holds[h].seat;
      }
    }
    GrantFitsSeat(holds, s.grants, a.goal.grant, Grant(a.goal.cls, a.goal.seat, Pending));
  }

  /** A hold about to lapse, whose row the transaction keeps, does not stand. */
  lemma StandingIsCounted(s: State, t: TxnId)
    requires Locks(s) && Windows(s) && In(s, t, Stage.Counted)
    ensures StandingHolds(s.holds, BeingPaid(s.txns), s.now) <= LiveHolds(s.txns[t].a.holds)
  {
    var a := s.txns[t].a;
    assert WindowIn(s, a);
    forall h | h in StandingHolds(s.holds, BeingPaid(s.txns), s.now) ensures h in LiveHolds(a.holds) {
      if h in a.gone {
        assert KeepsRow(s.txns[t], h);
        assert s.holds[h].Expired(a.at);
        var t' :| t' in s.txns && s.txns[t'].Paying? && s.txns[t'].hold == h;
        assert KeepsRow(s.txns[t'], h);
        assert s.rows[h] == t && s.rows[h] == t';
      }
    }
  }

  lemma ShrinkFitsCapacity(s: State, t: TxnId)
    requires Locks(s) && Windows(s) && CanShrink(s, t)
    ensures Bounded(Shrink(s, t).ledger, |StandingHolds(s.holds, BeingPaid(s.txns), s.now)| + |CountedGrants(s.grants)|)
  {
    var a := s.txns[t].a;
    assert WindowIn(s, a);
    if s.ledger.status.Active? {
      AllocatedCountMeans(a.holds, a.grants, s.quotas, 0, None, a.view.value.issued, a.goal.to);
      StandingIsCounted(s, t);
      SubsetIsSmaller(StandingHolds(s.holds, BeingPaid(s.txns), s.now), LiveHolds(a.holds));
      SubsetIsSmaller(CountedGrants(s.grants), CountedGrants(a.grants));
    }
  }

  lemma ShrinkKeepsWindows(s: State, t: TxnId)
    requires Locks(s) && Windows(s) && CanShrink(s, t)
    ensures Windows(Shrink(s, t))
  {
    var s' := Shrink(s, t);
    MovingKeepsPaying(s, t, s'.txns[t].a);
    forall t' | t' in s'.txns && s'.txns[t'].Allocating? ensures WindowIn(s', s'.txns[t'].a) {
      assert WindowIn(s, s.txns[t'].a);
      assert t' != t ==> s.txns[t'].a.stage.Waiting?;
    }
  }

  /** The ledger's new bound holds what stands, though the lapses are not committed yet. */
  lemma ShrinkKeepsRoom(s: State, t: TxnId)
    requires Locks(s) && Windows(s) && Room(s) && CanShrink(s, t)
    ensures Room(Shrink(s, t)) && Windows(Shrink(s, t))
  {
    ShrinkFitsCapacity(s, t);
    ShrinkKeepsWindows(s, t);
    MovingKeepsPaying(s, t, Shrink(s, t).txns[t].a);
  }

  lemma RaiseKeepsRoom(s: State, t: TxnId)
    requires Room(s) && Locks(s) && CanRaise(s, t)
    ensures Room(Raise(s, t))
  {
    var s' := Raise(s, t);
    SubsetIsSmaller(StandingHolds(s'.holds, BeingPaid(s'.txns), s'.now), StandingHolds(s.holds, BeingPaid(s.txns), s.now));
  }

  lemma OverEases(s: State, s': State, t: TxnId)
    requires s'.now == s.now && s'.quotas == s.quotas && s'.grants == s.grants && s'.ledger == s.ledger
    requires s'.txns == s.txns - {t} && HoldsEase(s.now, BeingPaid(s.txns), s.holds, s'.holds, {})
    ensures Eased(s, s')
  {
  }

  lemma LapsingCommitEases(s: State, step: Commit)
    requires Windows(s) && CommitEnabled(s, step) && (step.DoPlaceNothing? || step.DoMiss? || step.DoKeepShrink?)
    ensures Eased(s, ApplyCommit(s, step))
  {
    var a := s.txns[step.t].a;
    assert WindowIn(s, a);
    var s' := ApplyCommit(s, step);
    assert s'.holds == Lapsing(s.holds, a.gone);
    OverEases(s, s', step.t);
  }

  lemma PlainCommitEases(s: State, step: Commit)
    requires CommitEnabled(s, step) && (step.DoSkip? || step.DoTurnAway? || step.DoClose?)
    ensures Eased(s, ApplyCommit(s, step))
  {
    OverEases(s, ApplyCommit(s, step), step.t);
  }

  lemma CommitKeepsRoom(s: State, step: Commit)
    requires Locks(s) && Windows(s) && Room(s) && CommitEnabled(s, step)
    ensures Room(ApplyCommit(s, step)) && Windows(ApplyCommit(s, step))
  {
    if step.DoShrink? {
      ShrinkKeepsRoom(s, step.t);
    } else {
      if step.DoPlace? {
        PlaceKeepsRoom(s, step.t);
      } else if step.DoSell? {
        SellKeepsRoom(s, step.t, step.sale);
      } else if step.DoReserve? {
        ReserveFitsQuota(s, step.t);
        ReserveFitsCapacity(s, step.t);
        ReserveFitsSeat(s, step.t);
      } else if step.DoRaise? {
        RaiseKeepsRoom(s, step.t);
      } else {
        if step.DoPlaceNothing? || step.DoMiss? || step.DoKeepShrink? {
          LapsingCommitEases(s, step);
        } else {
          PlainCommitEases(s, step);
        }
        EasingKeepsRoom(s, ApplyCommit(s, step));
      }
      CommitKeepsColumns(s, step);
      OthersWait(s, ApplyCommit(s, step), step.t);
    }
  }

  /** A hold's class and seat never change. */
  lemma CommitKeepsColumns(s: State, step: Commit)
    requires CommitEnabled(s, step) && !step.DoShrink?
    ensures var s' := ApplyCommit(s, step);
            forall h | h in s.holds :: h in s'.holds && s'.holds[h].cls == s.holds[h].cls && s'.holds[h].seat == s.holds[h].seat
  {
    hide SetHosted, Entitle, PlaceFree, PlaceTaken, PlaceRefused, RoomSeen, AllocatedCount, Unlocked;
  }
}
