/**
  Accounting shared by every allocation of one event's issuance: holds of paid
  checkouts and granted issuances, each counting the others.
 */
module Allocation {
  import opened Common

  type HoldId = nat
  type GrantId = nat
  type ClassId = nat
  type SeatId = nat

  /** An amount in the minor units of an asset. */
  datatype Money = Money(amount: int, asset: nat)

  datatype HoldStatus = Outstanding | Issuing | Confirmed | Lapsed | Released

  /** The issuance of one ticket, reserved for one checkout. */
  datatype Hold = Hold(cls: ClassId, seat: Option<SeatId>, price: Money,
                       status: HoldStatus, expires: int, extended: bool) {

    /** Neither lapsed nor released: the hold still has its place. */
    predicate Live() {
      status.Outstanding? || status.Issuing? || status.Confirmed?
    }

    /**
      The hold counts at `at`: an outstanding one stops counting the moment it expires,
      unless a payment is being started for it, which keeps its row from lapsing.
     */
    predicate Stands(at: int, paying: bool) {
      Live() && (status.Outstanding? ==> at < expires || paying)
    }

    predicate Expired(at: int) {
      status.Outstanding? && expires <= at
    }
  }

  datatype GrantStatus = Pending | Settled | Rejected | Failed

  /** A granted issuance Kippu has undertaken. */
  datatype Grant = Grant(cls: ClassId, seat: Option<SeatId>, status: GrantStatus) {
    predicate Counts() {
      !status.Rejected?
    }
  }

  type Holds = map<HoldId, Hold>
  type Grants = map<GrantId, Grant>
  type Quotas = map<ClassId, nat>

  // ----- What stands against an allocation -----

  function LiveHolds(holds: Holds): set<HoldId> {
    set h | h in holds && holds[h].Live()
  }

  function LiveHoldsOf(holds: Holds, cls: ClassId): set<HoldId> {
    set h | h in holds && holds[h].Live() && holds[h].cls == cls
  }

  function StandingHolds(holds: Holds, paying: set<HoldId>, at: int): set<HoldId> {
    set h | h in holds && holds[h].Stands(at, h in paying)
  }

  function CountedGrants(grants: Grants): set<GrantId> {
    set g | g in grants && grants[g].Counts()
  }

  function CountedGrantsOf(grants: Grants, cls: ClassId): set<GrantId> {
    set g | g in grants && grants[g].Counts() && grants[g].cls == cls
  }

  /** The expired holds recorded as lapsed. */
  function Lapsing(holds: Holds, gone: set<HoldId>): (r: Holds)
    ensures r.Keys == holds.Keys
  {
    map h | h in holds :: if h in gone then holds[h].(status := Lapsed) else holds[h]
  }

  function ExpiredHolds(holds: Holds, at: int): set<HoldId> {
    set h | h in holds && holds[h].Expired(at)
  }

  // ----- The counts one statement reads -----

  datatype Counts = Counts(
    eventHolds: nat, classHolds: nat, seatHeld: bool,
    purchased: nat, classPurchased: nat,
    granted: nat, classGranted: nat,
    quota: Option<nat>)

  function UnissuedHolds(holds: Holds): set<HoldId> {
    set h | h in holds && (holds[h].status.Outstanding? || holds[h].status.Issuing?)
  }

  function ConfirmedHolds(holds: Holds): set<HoldId> {
    set h | h in holds && holds[h].status.Confirmed?
  }

  function UnissuedHoldsOf(holds: Holds, cls: ClassId): set<HoldId> {
    set h | h in holds && (holds[h].status.Outstanding? || holds[h].status.Issuing?) && holds[h].cls == cls
  }

  function ConfirmedHoldsOf(holds: Holds, cls: ClassId): set<HoldId> {
    set h | h in holds && holds[h].status.Confirmed? && holds[h].cls == cls
  }

  predicate SeatHeld(holds: Holds, seat: Option<SeatId>) {
    seat.Some? && exists h | h in holds :: holds[h].Live() && holds[h].seat == seat
  }

  function CountsOf(holds: Holds, grants: Grants, quotas: Quotas, cls: ClassId, seat: Option<SeatId>): Counts {
    Counts(|UnissuedHolds(holds)|, |UnissuedHoldsOf(holds, cls)|, SeatHeld(holds, seat),
           |ConfirmedHolds(holds)|, |ConfirmedHoldsOf(holds, cls)|,
           |CountedGrants(grants)|, |CountedGrantsOf(grants, cls)|,
           if cls in quotas then Some(quotas[cls]) else None)
  }

  // ----- The room tests -----

  /** How many more allocations the capacity admits; `None` when issuance is unbounded. */
  function CapacityRemaining(capacity: Option<nat>, issued: nat, c: Counts): Option<nat> {
    match capacity
    case None => None
    case Some(max) => Some(Max(0, max - Max(issued, c.granted + c.purchased) - c.eventHolds))
  }

  predicate CapacityHasRoom(capacity: Option<nat>, issued: nat, c: Counts) {
    var remaining := CapacityRemaining(capacity, issued, c);
    remaining.None? || remaining.value > 0
  }

  function AllocatedCount(issued: nat, c: Counts): nat {
    Max(issued, c.granted + c.purchased) + c.eventHolds
  }

  function QuotaRemaining(c: Counts): Option<nat> {
    match c.quota
    case None => None
    case Some(quota) => Some(Max(0, quota - c.classHolds - c.classPurchased - c.classGranted))
  }

  predicate QuotaHasRoom(c: Counts) {
    var remaining := QuotaRemaining(c);
    remaining.None? || remaining.value > 0
  }

  // ----- What the room tests mean -----

  /** The holds the counts split by status are together the live holds. */
  lemma CountsAddUp(holds: Holds, cls: ClassId)
    ensures |UnissuedHolds(holds)| + |ConfirmedHolds(holds)| == |LiveHolds(holds)|
    ensures |UnissuedHoldsOf(holds, cls)| + |ConfirmedHoldsOf(holds, cls)| == |LiveHoldsOf(holds, cls)|
  {
    assert UnissuedHolds(holds) !! ConfirmedHolds(holds);
    assert UnissuedHolds(holds) + ConfirmedHolds(holds) == LiveHolds(holds);
    assert UnissuedHoldsOf(holds, cls) !! ConfirmedHoldsOf(holds, cls);
    assert UnissuedHoldsOf(holds, cls) + ConfirmedHoldsOf(holds, cls) == LiveHoldsOf(holds, cls);
  }

  /**
    Capacity has room exactly when one more allocation on top of everything the
    snapshot holds stays within the bound, taking the ledger's count of issued
    tickets when it is ahead of Kippu's.
   */
  lemma CapacityRoomMeans(holds: Holds, grants: Grants, quotas: Quotas, cls: ClassId, seat: Option<SeatId>,
                          max: nat, issued: nat)
    ensures var c := CountsOf(holds, grants, quotas, cls, seat);
            var ahead := Max(0, issued - |CountedGrants(grants)| - |ConfirmedHolds(holds)|);
            CapacityHasRoom(Some(max), issued, c)
            <==> |LiveHolds(holds)| + |CountedGrants(grants)| + ahead + 1 <= max
  {
    CountsAddUp(holds, cls);
  }

  /** A class has room exactly when one more allocation of it stays within its quota. */
  lemma QuotaRoomMeans(holds: Holds, grants: Grants, quotas: Quotas, cls: ClassId, seat: Option<SeatId>)
    ensures QuotaHasRoom(CountsOf(holds, grants, quotas, cls, seat))
            <==> (cls in quotas ==>
                    |LiveHoldsOf(holds, cls)| + |CountedGrantsOf(grants, cls)| + 1 <= quotas[cls])
  {
    CountsAddUp(holds, cls);
  }

  /** Everything the snapshot holds fits under a bound the allocated count fits under. */
  lemma AllocatedCountMeans(holds: Holds, grants: Grants, quotas: Quotas, cls: ClassId, seat: Option<SeatId>,
                            issued: nat, to: nat)
    requires AllocatedCount(issued, CountsOf(holds, grants, quotas, cls, seat)) <= to
    ensures |LiveHolds(holds)| + |CountedGrants(grants)| <= to
    ensures issued <= to
  {
    CountsAddUp(holds, cls);
  }
}
