/**
  Room: the event's capacity, its classes' quotas and its seats are never
  allocated beyond what they admit. Between counting and recording, an
  allocation relies on what it read; `Window` says what of it still holds
  whatever other requests do meanwhile.
 */
module SaleRoom {
  import opened Common
  import opened Allocation
  import opened SaleProtocol
  import opened SaleLocks

  // ----- What is promised of the tables -----

  /** A canonical seat has at most one claim. */
  ghost predicate SeatsOk(holds: Holds, grants: Grants) {
    && (forall h, h' | h in holds && h' in holds && h != h' && holds[h].Live() && holds[h'].Live() ::
          holds[h].seat.Some? ==> holds[h].seat != holds[h'].seat)
    && (forall g, g' | g in grants && g' in grants && g != g' && grants[g].Counts() && grants[g'].Counts() ::
          grants[g].seat.Some? ==> grants[g].seat != grants[g'].seat)
    && (forall h, g | h in holds && g in grants && holds[h].Live() && grants[g].Counts() ::
          holds[h].seat.Some? ==> holds[h].seat != grants[g].seat)
  }

  /** A class with a quota has no more allocations than it. */
  ghost predicate QuotaOk(quotas: Quotas, holds: Holds, grants: Grants) {
    forall c | c in quotas :: |LiveHoldsOf(holds, c)| + |CountedGrantsOf(grants, c)| <= quotas[c]
  }

  predicate Bounded(ledger: Ledger, total: nat) {
    ledger.status.Active? && ledger.capacity.Some? ==> total <= ledger.capacity.value
  }

  /** An active event has no more allocations standing than its capacity. */
  ghost predicate CapacityOk(now: int, paying: set<HoldId>, holds: Holds, grants: Grants, ledger: Ledger) {
    Bounded(ledger, |StandingHolds(holds, paying, now)| + |CountedGrants(grants)|)
  }

  // ----- What an allocation may still rely on -----

  /** Everything live now, but for the holds about to lapse, was live in the snapshot. */
  ghost predicate Covered(holds: Holds, grants: Grants, a: Alloc) {
    && (forall h | h in holds && holds[h].Live() && h !in a.gone ::
          h in a.holds && a.holds[h].Live() && a.holds[h].cls == holds[h].cls && a.holds[h].seat == holds[h].seat)
    && (forall g | g in grants && grants[g].Counts() ::
          g in a.grants && a.grants[g].Counts() && a.grants[g].cls == grants[g].cls && a.grants[g].seat == grants[g].seat)
  }

  ghost predicate GoneOk(now: int, holds: Holds, a: Alloc) {
    a.at <= now && forall h | h in a.gone :: h in holds && holds[h].Expired(a.at)
  }

  ghost predicate SnapshotOk(quotas: Quotas, ledger: Ledger, a: Alloc) {
    && SeatsOk(a.holds, a.grants) && QuotaOk(quotas, a.holds, a.grants)
    && Bounded(ledger, |LiveHolds(a.holds)| + |CountedGrants(a.grants)|)
  }

  ghost predicate ViewOk(ledger: Ledger, closed: bool, a: Alloc) {
    a.view.Some? ==>
      && a.view.value.capacity == ledger.capacity
      && (ledger.status.Active? ==> a.view.value.status.Active?)
      && (closed ==> a.view.value.closed)
  }

  /** The status a payment re-read: its hold is not another payment's, or ended for good. */
  ghost predicate CurrentOk(holds: Holds, a: Alloc)
    requires a.goal.ToIssue? && a.goal.hold in holds
  {
    a.current.Some? ==>
      var h, c, status := a.goal.hold, a.current.value, holds[a.goal.hold].status;
      && (!c.Issuing? && !c.Confirmed? ==> !status.Issuing? && !status.Confirmed?)
      && (c.Outstanding? ==> h !in a.gone && h in a.holds && a.holds[h].Live()
                             && a.holds[h].cls == a.goal.cls && a.holds[h].seat == a.goal.seat)
      && (!c.Outstanding? ==> h in a.gone || !status.Outstanding?)
  }

  ghost predicate PaymentOk(holds: Holds, closed: bool, a: Alloc) {
    a.goal.ToIssue? ==>
      && a.goal.hold in holds && holds[a.goal.hold].cls == a.goal.cls && holds[a.goal.hold].seat == a.goal.seat
      && (a.stage.Cleared? || a.stage.Timed? || a.stage.Swept? || a.stage.Counted? ==> !closed)
      && CurrentOk(holds, a)
  }

  ghost predicate Window(now: int, paying: set<HoldId>, quotas: Quotas, holds: Holds, grants: Grants, ledger: Ledger, closed: bool,
                         a: Alloc)
  {
    && PaymentOk(holds, closed, a)
    && (!a.stage.Waiting? && !a.stage.Written? ==> ViewOk(ledger, closed, a))
    && (a.stage.Timed? || a.stage.Swept? ==>
          a.at <= now && Bounded(ledger, |StandingHolds(holds, paying, a.at)| + |CountedGrants(grants)|))
    && (a.stage.Swept? ==> forall h | h in holds && holds[h].Expired(a.at) :: h in a.gone)
    && (a.stage.Swept? || a.stage.Counted? || a.stage.Written? ==> GoneOk(now, holds, a) || a.gone == {})
    && (a.stage.Counted? ==>
          && a.at <= now && Covered(holds, grants, a) && SnapshotOk(quotas, ledger, a)
          && (a.free == Some(true) ==> !GrantedSeat(grants, Seat(a.goal))))
    && (a.current.Some? ==> a.stage.Counted? && a.goal.ToIssue?)
    && (a.free.Some? ==> a.stage.Counted? || a.stage.Written?)
    && (a.stage.Waiting? ==> a.view.None?)
  }

  ghost predicate Windows(s: State) {
    forall t | t in s.txns && s.txns[t].Allocating? ::
      Window(s.now, BeingPaid(s.txns), s.quotas, s.holds, s.grants, s.ledger, s.closed, s.txns[t].a)
  }

  ghost predicate Room(s: State) {
    && SeatsOk(s.holds, s.grants) && QuotaOk(s.quotas, s.holds, s.grants)
    && CapacityOk(s.now, BeingPaid(s.txns), s.holds, s.grants, s.ledger)
  }

  // ----- Steps that only ease -----

  /** A hold as others may leave it: it ends, is extended while it stands, or its ticket is issued. */
  ghost predicate Eases(now: int, paying: bool, a: Hold, b: Hold) {
    && b.cls == a.cls && b.seat == a.seat && b.price == a.price
    && (b.status.Outstanding? ==>
          a.status.Outstanding? && a.expires <= b.expires && (b.expires == a.expires || now < a.expires || paying))
    && (b.status.Issuing? ==> a.status.Issuing?)
    && (b.status.Confirmed? ==> a.status.Issuing? || a.status.Confirmed?)
  }

  ghost predicate HoldsEase(now: int, paying: set<HoldId>, holds: Holds, holds': Holds, kept: set<HoldId>) {
    && holds'.Keys == holds.Keys
    && (forall h | h in holds :: Eases(now, h in paying, holds[h], holds'[h]))
    && (forall h | h in holds && h in kept :: holds'[h] == holds[h])
  }

  ghost predicate GrantsEase(grants: Grants, grants': Grants) {
    forall g | g in grants' && grants'[g].Counts() ::
      g in grants && grants[g].Counts() && grants[g].cls == grants'[g].cls && grants[g].seat == grants'[g].seat
  }

  /** The holds whose rows an allocation keeps locked. */
  function SweptRows(s: State): set<HoldId> {
    set h | h in s.rows && s.rows[h] in s.txns && s.txns[s.rows[h]].Allocating?
  }

  /** The tables only ease, whoever eased them. */
  ghost predicate Eased(s: State, s': State) {
    && s.now <= s'.now && s'.quotas == s.quotas
    && HoldsEase(s.now, BeingPaid(s.txns), s.holds, s'.holds, {}) && GrantsEase(s.grants, s'.grants)
    && s'.ledger.capacity == s.ledger.capacity && (s'.ledger.status.Active? ==> s.ledger.status.Active?)
    && (forall h | h in BeingPaid(s'.txns) :: h in BeingPaid(s.txns) || (h in s.holds && s.now < s.holds[h].expires))
  }

  /** A step outside the lock eases the tables, and leaves the lock's holder and its rows alone. */
  ghost predicate Quiet(s: State, s': State) {
    && Eased(s, s')
    && (forall h | h in s.holds && h in SweptRows(s) :: s'.holds[h] == s.holds[h])
    && (s'.closed ==> s.closed)
    && (forall t | t in s'.txns && s'.txns[t].Allocating? :: t in s.txns && s.txns[t] == s'.txns[t])
  }

  lemma EasingShrinks(s: State, s': State, at: int, c: ClassId)
    requires Eased(s, s') && at <= s.now
    ensures |StandingHolds(s'.holds, BeingPaid(s'.txns), at)| <= |StandingHolds(s.holds, BeingPaid(s.txns), at)|
    ensures |CountedGrants(s'.grants)| <= |CountedGrants(s.grants)|
    ensures |LiveHoldsOf(s'.holds, c)| <= |LiveHoldsOf(s.holds, c)|
    ensures |CountedGrantsOf(s'.grants, c)| <= |CountedGrantsOf(s.grants, c)|
  {
    assert forall h | h in s'.holds :: Eases(s.now, h in BeingPaid(s.txns), s.holds[h], s'.holds[h]);
    SubsetIsSmaller(StandingHolds(s'.holds, BeingPaid(s'.txns), at), StandingHolds(s.holds, BeingPaid(s.txns), at));
    SubsetIsSmaller(CountedGrants(s'.grants), CountedGrants(s.grants));
    SubsetIsSmaller(LiveHoldsOf(s'.holds, c), LiveHoldsOf(s.holds, c));
    SubsetIsSmaller(CountedGrantsOf(s'.grants, c), CountedGrantsOf(s.grants, c));
  }

  lemma TimeShrinks(holds: Holds, paying: set<HoldId>, at: int, later: int)
    requires at <= later
    ensures |StandingHolds(holds, paying, later)| <= |StandingHolds(holds, paying, at)|
  {
    SubsetIsSmaller(StandingHolds(holds, paying, later), StandingHolds(holds, paying, at));
  }

  lemma EasingKeepsRoom(s: State, s': State)
    requires Room(s) && Eased(s, s')
    ensures Room(s')
  {
    EasingShrinks(s, s', s.now, 0);
    TimeShrinks(s'.holds, BeingPaid(s'.txns), s.now, s'.now);
    forall c | c in s'.quotas
      ensures |LiveHoldsOf(s'.holds, c)| + |CountedGrantsOf(s'.grants, c)| <= s'.quotas[c]
    {
      EasingShrinks(s, s', s.now, c);
    }
    EasingKeepsSeats(s, s');
  }

  lemma EasingKeepsSeats(s: State, s': State)
    requires SeatsOk(s.holds, s.grants) && Eased(s, s')
    ensures SeatsOk(s'.holds, s'.grants)
  {
    assert forall h | h in s'.holds && s'.holds[h].Live() :: s.holds[h].Live() && s.holds[h].seat == s'.holds[h].seat;
  }

  lemma QuietKeepsPayment(s: State, s': State, a: Alloc)
    requires PaymentOk(s.holds, s.closed, a)
    requires Quiet(s, s') && a.gone <= SweptRows(s)
    ensures PaymentOk(s'.holds, s'.closed, a)
  {
    if a.goal.ToIssue? {
      assert Eases(s.now, a.goal.hold in BeingPaid(s.txns), s.holds[a.goal.hold], s'.holds[a.goal.hold]);
    }
  }

  lemma QuietKeepsSwept(s: State, s': State, a: Alloc)
    requires forall h | h in s.holds && s.holds[h].Expired(a.at) :: h in a.gone
    requires Quiet(s, s')
    ensures forall h | h in s'.holds && s'.holds[h].Expired(a.at) :: h in a.gone
  {
    forall h | h in s'.holds && s'.holds[h].Expired(a.at) ensures h in a.gone {
      assert Eases(s.now, h in BeingPaid(s.txns), s.holds[h], s'.holds[h]);
    }
  }

  lemma QuietKeepsCounted(s: State, s': State, a: Alloc)
    requires Covered(s.holds, s.grants, a) && SnapshotOk(s.quotas, s.ledger, a)
    requires Quiet(s, s')
    ensures Covered(s'.holds, s'.grants, a) && SnapshotOk(s'.quotas, s'.ledger, a)
    ensures !GrantedSeat(s.grants, Seat(a.goal)) ==> !GrantedSeat(s'.grants, Seat(a.goal))
  {
    assert forall h | h in s'.holds :: Eases(s.now, h in BeingPaid(s.txns), s.holds[h], s'.holds[h]);
  }

  lemma QuietKeepsWindow(s: State, s': State, a: Alloc)
    requires Window(s.now, BeingPaid(s.txns), s.quotas, s.holds, s.grants, s.ledger, s.closed, a)
    requires Quiet(s, s') && a.gone <= SweptRows(s)
    ensures Window(s'.now, BeingPaid(s'.txns), s'.quotas, s'.holds, s'.grants, s'.ledger, s'.closed, a)
  {
    QuietKeepsPayment(s, s', a);
    if a.stage.Timed? {
      EasingShrinks(s, s', a.at, 0);
    } else if a.stage.Swept? {
      EasingShrinks(s, s', a.at, 0);
      QuietKeepsSwept(s, s', a);
    } else if a.stage.Counted? {
      QuietKeepsCounted(s, s', a);
    }
  }

  lemma QuietKeepsWindows(s: State, s': State)
    requires Locks(s) && Windows(s) && Quiet(s, s')
    ensures Windows(s')
  {
    forall t | t in s'.txns && s'.txns[t].Allocating?
      ensures Window(s'.now, BeingPaid(s'.txns), s'.quotas, s'.holds, s'.grants, s'.ledger, s'.closed, s'.txns[t].a)
    {
      var a := s.txns[t].a;
      assert a.gone <= SweptRows(s) by {
        forall h | h in a.gone ensures h in SweptRows(s) {
          assert KeepsRow(s.txns[t], h);
        }
      }
      QuietKeepsWindow(s, s', a);
    }
  }
}
