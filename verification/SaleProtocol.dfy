/**
  The primary sale of one event, as a state machine. A step is one committed
  statement, one provider or ledger exchange, or one transaction's progress to
  its next statement; steps of different requests interleave freely, except for
  the event's allocation lock and the row locks on holds.

  A transaction's own writes are visible to others only when it commits, so it
  carries them until then, together with what it has read.
 */
module SaleProtocol {
  import opened Common
  import opened Allocation

  type HostedId = nat
  type SaleId = nat
  type TxnId = nat
  type PollId = nat
  type DrainId = nat

  const HOLD_LIFETIME := 10 * 60 * 1000
  const HOLD_EXTENSION := 5 * 60 * 1000

  // ----- The tables -----

  datatype HostedStatus = Open | Paid | Expired | Cancelled

  /** A hosted checkout's row: its hold, the amount asked, and the status last recorded. */
  datatype Hosted = Hosted(hold: HoldId, asked: Money, status: HostedStatus)

  /** The provider's own record of a hosted checkout; `taken` is what was paid once `Paid`. */
  datatype Remote = Remote(status: HostedStatus, taken: Money)

  datatype SaleStatus = SaleIssuing | SaleIssued | SaleRejected | SaleFailed

  datatype Sale = Sale(hosted: HostedId, hold: HoldId, status: SaleStatus)

  datatype RefundReason = AmountMismatch | EventClosed | PlaceGone | IssuanceRejected | EventCancelled

  datatype Refund = Refund(money: Money, reason: RefundReason)

  // ----- The ledger -----

  datatype EventStatus = Active | Sealed | EventOff | Finished

  datatype Ledger = Ledger(status: EventStatus, capacity: Option<nat>)

  /** What a ledger write issues a ticket for. */
  datatype Claim = BySale(sale: SaleId) | ByGrant(grant: GrantId)

  /** An issuance's write: not signed, submitted, recorded by the ledger, or never to be recorded. */
  datatype Write = Unsigned | InFlight | Landed | Refused

  // ----- Transactions in progress -----

  datatype Goal =
    | ToHold(hold: HoldId, cls: ClassId, seat: Option<SeatId>, price: Money)
    | ToGrant(grant: GrantId, cls: ClassId, seat: Option<SeatId>)
    | ToIssue(hosted: HostedId, hold: HoldId, cls: ClassId, seat: Option<SeatId>)
    | ToShrink(to: nat)
    | ToRaise(bound: Option<nat>)
    | ToClose(drain: DrainId)

  /**
    How far an allocation has come: waiting for the event's lock, holding it,
    having found its payment unhandled, having found the sales closed or open, having
    read the clock, having lapsed expired holds, having counted, having written to the
    ledger.
   */
  datatype Stage = Waiting | Entered | Unhandled | Barred | Cleared | Timed | Swept | Counted | Written

  /** The event as the ledger answered, and whether its sales were closed. */
  datatype View = View(status: EventStatus, capacity: Option<nat>, issued: nat, closed: bool)

  datatype Alloc = Alloc(goal: Goal, stage: Stage, at: int, gone: set<HoldId>,
                         holds: Holds, grants: Grants,
                         view: Option<View>, free: Option<bool>, current: Option<HoldStatus>)

  datatype PayStage =
    | PayStarted
    | PayCleared
    | PayReady(prior: Option<HostedId>)
    | PayCreated(prior: Option<HostedId>, made: HostedId)

  datatype EndStage = EndStarted | EndReady(open: Option<HostedId>)

  datatype Txn =
    | Allocating(a: Alloc)
    | Paying(hold: HoldId, pay: PayStage)
    | Ending(hold: HoldId, cause: Option<DrainId>, end: EndStage)

  /** An answer of the provider still to be recorded, outside any transaction. */
  datatype Poll = Poll(hosted: HostedId, answer: HostedStatus)

  /** A `releaseAll`: the closure it works under, the holds still to visit, the payments to reconcile. */
  datatype Drain = Drain(epoch: nat, listed: bool, todo: set<HoldId>, paid: set<HostedId>, done: bool)

  datatype State = State(
    now: int,
    quotas: Quotas,
    holds: Holds,
    grants: Grants,
    hosted: map<HostedId, Hosted>,
    remote: map<HostedId, Remote>,
    sales: map<SaleId, Sale>,
    refunds: map<HostedId, Refund>,
    faces: map<SaleId, Money>,
    writes: map<Claim, Write>,
    ledger: Ledger,
    closed: bool,
    epoch: nat,
    lock: Option<TxnId>,
    rows: map<HoldId, TxnId>,
    txns: map<TxnId, Txn>,
    polls: map<PollId, Poll>,
    drains: map<DrainId, Drain>)

  /** An event just created, with its classes' quotas and nothing allocated. */
  predicate Init(s: State) {
    && s.holds == map[] && s.grants == map[] && s.hosted == map[] && s.remote == map[]
    && s.sales == map[] && s.refunds == map[] && s.faces == map[] && s.writes == map[]
    && s.ledger.status.Active? && !s.closed
    && s.lock.None? && s.rows == map[] && s.txns == map[] && s.polls == map[] && s.drains == map[]
  }

  // ----- Reading the state -----

  function LandedClaims(writes: map<Claim, Write>): set<Claim> {
    set c | c in writes && writes[c].Landed?
  }

  /** Tickets of the event on the ledger. */
  function Issued(s: State): nat {
    |LandedClaims(s.writes)|
  }

  /** The seat a claim's ticket is for. */
  function SeatOf(s: State, c: Claim): Option<SeatId> {
    match c
    case BySale(x) =>
      if x in s.sales && s.sales[x].hold in s.holds then s.holds[s.sales[x].hold].seat else None
    case ByGrant(g) =>
      if g in s.grants then s.grants[g].seat else None
  }

  predicate OnLedger(s: State, seat: Option<SeatId>) {
    seat.Some? && exists c | c in s.writes :: s.writes[c].Landed? && SeatOf(s, c) == seat
  }

  predicate GrantedSeat(grants: Grants, seat: Option<SeatId>) {
    seat.Some? && exists g | g in grants :: grants[g].Counts() && grants[g].seat == seat
  }

  predicate HasSale(sales: map<SaleId, Sale>, k: HostedId) {
    exists x | x in sales :: sales[x].hosted == k
  }

  /** The payment has a sale or a refund. */
  predicate Handled(s: State, k: HostedId) {
    k in s.refunds || HasSale(s.sales, k)
  }

  predicate OpenRow(s: State, k: HostedId, h: HoldId) {
    k in s.hosted && s.hosted[k].hold == h && s.hosted[k].status.Open?
  }

  /** The store's unique index: no other open hosted checkout of the hold. */
  predicate NoOtherOpen(s: State, h: HoldId, allowed: set<HostedId>) {
    forall k | k in s.hosted && k !in allowed :: !OpenRow(s, k, h)
  }

  /** The holds a payment is being started for. */
  function BeingPaid(txns: map<TxnId, Txn>): set<HoldId> {
    set t | t in txns && txns[t].Paying? :: txns[t].hold
  }

  predicate RowFree(s: State, h: HoldId, t: TxnId) {
    h in s.rows ==> s.rows[h] == t
  }

  predicate In(s: State, t: TxnId, stage: Stage) {
    t in s.txns && s.txns[t].Allocating? && s.txns[t].a.stage == stage
  }

  function Cls(goal: Goal): ClassId {
    if goal.ToHold? || goal.ToGrant? || goal.ToIssue? then goal.cls else 0
  }

  function Seat(goal: Goal): Option<SeatId> {
    if goal.ToHold? || goal.ToGrant? || goal.ToIssue? then goal.seat else None
  }

  function CountsSeen(s: State, a: Alloc): Counts {
    CountsOf(a.holds, a.grants, s.quotas, Cls(a.goal), Seat(a.goal))
  }

  predicate RoomSeen(s: State, a: Alloc)
    requires a.view.Some?
  {
    CapacityHasRoom(a.view.value.capacity, a.view.value.issued, CountsSeen(s, a))
  }

  // ----- Writing the state -----

  function With(s: State, t: TxnId, a: Alloc): State {
    s.(txns := s.txns[t := Allocating(a)])
  }

  /** The row locks other transactions keep. */
  function Unlocked(rows: map<HoldId, TxnId>, t: TxnId): (r: map<HoldId, TxnId>)
    ensures forall h :: h in r <==> h in rows && rows[h] != t
    ensures forall h | h in r :: r[h] == rows[h]
  {
    map h | h in rows && rows[h] != t :: rows[h]
  }

  /** The row locks once a transaction has taken these too. */
  function LockedToo(rows: map<HoldId, TxnId>, holds: set<HoldId>, t: TxnId): (r: map<HoldId, TxnId>)
    ensures forall h :: h in r <==> h in rows || h in holds
    ensures forall h | h in r :: r[h] == if h in holds then t else rows[h]
  {
    rows + map h | h in holds :: t
  }

  /** The transaction is over, committed or rolled back: its locks go with it. */
  function Over(s: State, t: TxnId): State {
    s.(lock := if s.lock == Some(t) then None else s.lock, rows := Unlocked(s.rows, t), txns := s.txns - {t})
  }

  function SetHold(holds: Holds, h: HoldId, status: HoldStatus): Holds
    requires h in holds
  {
    holds[h := holds[h].(status := status)]
  }

  function SetHosted(hosted: map<HostedId, Hosted>, k: HostedId, status: HostedStatus): map<HostedId, Hosted>
    requires k in hosted
  {
    hosted[k := hosted[k].(status := status)]
  }

  function SetSale(sales: map<SaleId, Sale>, x: SaleId, status: SaleStatus): map<SaleId, Sale>
    requires x in sales
  {
    sales[x := sales[x].(status := status)]
  }

  /** An outstanding hold ends, as lapsed when past its lifetime; any other stays as it is. */
  function EndHold(holds: Holds, h: HoldId, at: int): Holds
    requires h in holds
  {
    if !holds[h].status.Outstanding? then holds
    else SetHold(holds, h, if holds[h].expires <= at then Lapsed else Released)
  }

  /** One refund per hosted checkout: a second insertion does nothing. */
  function Entitle(refunds: map<HostedId, Refund>, k: HostedId, money: Money, reason: RefundReason)
    : map<HostedId, Refund>
  {
    if k in refunds then refunds else refunds[k := Refund(money, reason)]
  }

  /** What cancelling at the provider leaves: only an open checkout can still be cancelled. */
  function CancelRemote(remote: map<HostedId, Remote>, k: HostedId): map<HostedId, Remote>
    requires k in remote
  {
    if remote[k].status.Open? then remote[k := remote[k].(status := Cancelled)] else remote
  }

  // ----- Allocations: the steps they share -----

  predicate GoalFits(s: State, goal: Goal) {
    match goal
    case ToIssue(k, h, cls, seat) =>
      // The provider reports the checkout paid; the hold's columns read here never change.
      && k in s.hosted && k in s.remote && s.remote[k].status.Paid?
      && s.hosted[k].hold == h && h in s.holds && s.holds[h].cls == cls && s.holds[h].seat == seat
    case _ => true
  }

  predicate CanBegin(s: State, t: TxnId, goal: Goal) {
    t !in s.txns && GoalFits(s, goal)
  }

  function Begin(s: State, t: TxnId, goal: Goal): State {
    With(s, t, Alloc(goal, Waiting, 0, {}, map[], map[], None, None, None))
  }

  predicate CanEnter(s: State, t: TxnId) {
    In(s, t, Waiting) && s.lock.None?
  }

  function Enter(s: State, t: TxnId): State
    requires CanEnter(s, t)
  {
    With(s, t, s.txns[t].a.(stage := Entered)).(lock := Some(t))
  }

  /** The stage at which an allocation counts: a payment's first finds itself unhandled and sales open. */
  predicate ReadyToCount(a: Alloc) {
    if a.goal.ToIssue? then a.stage.Cleared?
    else a.stage.Entered? && (a.goal.ToHold? || a.goal.ToGrant? || a.goal.ToShrink?)
  }

  predicate CanReadClock(s: State, t: TxnId) {
    t in s.txns && s.txns[t].Allocating? && ReadyToCount(s.txns[t].a)
  }

  function ReadClock(s: State, t: TxnId): State
    requires CanReadClock(s, t)
  {
    With(s, t, s.txns[t].a.(stage := Timed, at := s.now))
  }

  /** Lapsing waits for every expired hold's row. */
  predicate CanSweep(s: State, t: TxnId) {
    In(s, t, Timed) && forall h | h in ExpiredHolds(s.holds, s.txns[t].a.at) :: RowFree(s, h, t)
  }

  function Sweep(s: State, t: TxnId): State
    requires CanSweep(s, t)
  {
    var a := s.txns[t].a;
    var gone := ExpiredHolds(s.holds, a.at);
    With(s, t, a.(stage := Swept, gone := gone)).(rows := LockedToo(s.rows, gone, t))
  }

  predicate CanCount(s: State, t: TxnId) {
    In(s, t, Swept)
  }

  function Count(s: State, t: TxnId): State
    requires CanCount(s, t)
  {
    var a := s.txns[t].a;
    With(s, t, a.(stage := Counted, holds := Lapsing(s.holds, a.gone), grants := s.grants))
  }

  /** The ledger's event is read at any point while the lock is held. */
  predicate CanLook(s: State, t: TxnId) {
    t in s.txns && s.txns[t].Allocating? && !s.txns[t].a.stage.Waiting? && !s.txns[t].a.stage.Written?
    && s.txns[t].a.view.None?
  }

  function Look(s: State, t: TxnId): State
    requires CanLook(s, t)
  {
    With(s, t, s.txns[t].a.(view := Some(View(s.ledger.status, s.ledger.capacity, Issued(s), s.closed))))
  }

  /** Whether no granted issuance and no ticket on the ledger has the seat. */
  predicate CanProbe(s: State, t: TxnId) {
    In(s, t, Counted) && s.txns[t].a.free.None?
  }

  function Probe(s: State, t: TxnId): State
    requires CanProbe(s, t)
  {
    var seat := Seat(s.txns[t].a.goal);
    With(s, t, s.txns[t].a.(free := Some(!GrantedSeat(s.grants, seat) && !OnLedger(s, seat))))
  }

  predicate CanAbort(s: State, t: TxnId) {
    t in s.txns
  }

  /** A refusal, a failure or a crash rolls the transaction back. */
  function Abort(s: State, t: TxnId): State {
    Over(s, t)
  }

  // ----- Placing a hold -----

  predicate PlaceRefused(s: State, a: Alloc)
    requires a.view.Some? && a.free.Some?
  {
    !a.free.value || CountsSeen(s, a).seatHeld || !RoomSeen(s, a) || !QuotaHasRoom(CountsSeen(s, a))
  }

  predicate CanPlace(s: State, t: TxnId) {
    && In(s, t, Counted) && s.txns[t].a.goal.ToHold?
    && var a := s.txns[t].a;
    && a.view.Some? && a.free.Some? && a.view.value.status.Active? && !a.view.value.closed
    && a.goal.hold !in s.holds && !PlaceRefused(s, a)
  }

  function Place(s: State, t: TxnId): State
    requires CanPlace(s, t)
  {
    var a := s.txns[t].a;
    var hold := Hold(a.goal.cls, a.goal.seat, a.goal.price, Outstanding, a.at + HOLD_LIFETIME, false);
    Over(s.(holds := Lapsing(s.holds, a.gone)[a.goal.hold := hold]), t)
  }

  /** The checkout's hold is already outstanding, or is refused: only the lapses are committed. */
  predicate CanPlaceNothing(s: State, t: TxnId) {
    && In(s, t, Counted) && s.txns[t].a.goal.ToHold?
    && var a := s.txns[t].a;
    if a.goal.hold in s.holds then s.holds[a.goal.hold].status.Outstanding? && a.goal.hold !in a.gone
    else a.view.Some? && a.free.Some? && a.view.value.status.Active? && !a.view.value.closed && PlaceRefused(s, a)
  }

  /** Commits the lapses and nothing else. */
  function CommitLapses(s: State, t: TxnId): State
    requires t in s.txns && s.txns[t].Allocating?
  {
    Over(s.(holds := Lapsing(s.holds, s.txns[t].a.gone)), t)
  }

  // ----- Reserving a granted issuance -----

  predicate CanReserve(s: State, t: TxnId) {
    && In(s, t, Counted) && s.txns[t].a.goal.ToGrant?
    && var a := s.txns[t].a;
    && a.goal.grant !in s.grants && ByGrant(a.goal.grant) !in s.writes
    && a.view.Some? && a.free == Some(true) && !CountsSeen(s, a).seatHeld
    && (a.view.value.status.Active? ==> RoomSeen(s, a))
    && QuotaHasRoom(CountsSeen(s, a))
  }

  function Reserve(s: State, t: TxnId): State
    requires CanReserve(s, t)
  {
    var a := s.txns[t].a;
    Over(s.(holds := Lapsing(s.holds, a.gone),
            grants := s.grants[a.goal.grant := Grant(a.goal.cls, a.goal.seat, Pending)],
            writes := s.writes[ByGrant(a.goal.grant) := Unsigned]), t)
  }

  // ----- Taking a verified payment's place -----

  /** Another delivery handled the payment: only its status is recorded. */
  predicate CanSkip(s: State, t: TxnId) {
    In(s, t, Entered) && s.txns[t].a.goal.ToIssue? && s.txns[t].a.goal.hosted in s.hosted
    && Handled(s, s.txns[t].a.goal.hosted)
  }

  function Skip(s: State, t: TxnId): State
    requires CanSkip(s, t)
  {
    Over(s.(hosted := SetHosted(s.hosted, s.txns[t].a.goal.hosted, Paid)), t)
  }

  predicate CanFindUnhandled(s: State, t: TxnId) {
    In(s, t, Entered) && s.txns[t].a.goal.ToIssue? && !Handled(s, s.txns[t].a.goal.hosted)
  }

  function FindUnhandled(s: State, t: TxnId): State
    requires CanFindUnhandled(s, t)
  {
    With(s, t, s.txns[t].a.(stage := Unhandled))
  }

  predicate AtPayment(s: State, t: TxnId, stage: Stage) {
    && In(s, t, stage) && s.txns[t].a.goal.ToIssue?
    && var goal := s.txns[t].a.goal;
    && goal.hosted in s.hosted && goal.hosted in s.remote && goal.hold in s.holds
  }

  predicate AmountAsAsked(s: State, k: HostedId)
    requires k in s.hosted && k in s.remote
  {
    s.remote[k].taken == s.hosted[k].asked
  }

  /** Sales are found closed; they may reopen before the payment is turned away. */
  predicate CanBar(s: State, t: TxnId) {
    AtPayment(s, t, Unhandled) && AmountAsAsked(s, s.txns[t].a.goal.hosted) && s.closed
  }

  function Bar(s: State, t: TxnId): State
    requires CanBar(s, t)
  {
    With(s, t, s.txns[t].a.(stage := Barred))
  }

  /** Another amount than the hold's, or sales found closed: refunded, and the hold ends, by a clock read earlier. */
  predicate CanTurnAway(s: State, t: TxnId, at: int, reason: RefundReason) {
    && t in s.txns && s.txns[t].Allocating? && AtPayment(s, t, s.txns[t].a.stage)
    && RowFree(s, s.txns[t].a.goal.hold, t) && at <= s.now
    && if reason.AmountMismatch? then s.txns[t].a.stage.Unhandled? && !AmountAsAsked(s, s.txns[t].a.goal.hosted)
       else reason.EventClosed? && s.txns[t].a.stage.Barred?
  }

  function TurnAway(s: State, t: TxnId, at: int, reason: RefundReason): State
    requires CanTurnAway(s, t, at, reason)
  {
    var goal := s.txns[t].a.goal;
    Over(s.(hosted := SetHosted(s.hosted, goal.hosted, Paid),
            refunds := Entitle(s.refunds, goal.hosted, s.remote[goal.hosted].taken, reason),
            holds := EndHold(s.holds, goal.hold, at)), t)
  }

  predicate CanClear(s: State, t: TxnId) {
    AtPayment(s, t, Unhandled) && AmountAsAsked(s, s.txns[t].a.goal.hosted) && !s.closed
  }

  function Clear(s: State, t: TxnId): State
    requires CanClear(s, t)
  {
    With(s, t, s.txns[t].a.(stage := Cleared))
  }

  /** The hold's status, re-read after the lapses. */
  predicate CanReread(s: State, t: TxnId) {
    AtPayment(s, t, Counted) && s.txns[t].a.current.None?
  }

  function Reread(s: State, t: TxnId): State
    requires CanReread(s, t)
  {
    var a := s.txns[t].a;
    With(s, t, a.(current := Some(if a.goal.hold in a.gone then Lapsed else s.holds[a.goal.hold].status)))
  }

  /** The place of a hold that ended is still free. */
  predicate PlaceFree(s: State, a: Alloc) {
    && a.view.Some? && a.view.value.status.Active? && RoomSeen(s, a)
    && QuotaHasRoom(CountsSeen(s, a)) && !CountsSeen(s, a).seatHeld && a.free == Some(true)
  }

  /** The place is gone, or the ledger did not answer for the event. */
  predicate PlaceTaken(s: State, a: Alloc) {
    || a.view.None? || !a.view.value.status.Active? || !RoomSeen(s, a) || !QuotaHasRoom(CountsSeen(s, a))
    || CountsSeen(s, a).seatHeld || a.free == Some(false)
  }

  predicate CanSell(s: State, t: TxnId, x: SaleId) {
    && AtPayment(s, t, Counted) && x !in s.sales && BySale(x) !in s.writes
    && var a := s.txns[t].a;
    && a.current.Some? && RowFree(s, a.goal.hold, t)
    && (a.current.value.Outstanding? || ((a.current.value.Lapsed? || a.current.value.Released?) && PlaceFree(s, a)))
  }

  /** The hold becomes issuing whatever its status is by now, and its sale starts. */
  function Sell(s: State, t: TxnId, x: SaleId): State
    requires CanSell(s, t, x)
  {
    var a := s.txns[t].a;
    Over(s.(hosted := SetHosted(s.hosted, a.goal.hosted, Paid),
            holds := SetHold(Lapsing(s.holds, a.gone), a.goal.hold, Issuing),
            sales := s.sales[x := Sale(a.goal.hosted, a.goal.hold, SaleIssuing)],
            writes := s.writes[BySale(x) := Unsigned]), t)
  }

  predicate CanMiss(s: State, t: TxnId) {
    && AtPayment(s, t, Counted)
    && var a := s.txns[t].a;
    && a.current.Some? && !a.current.value.Outstanding?
    && ((a.current.value.Lapsed? || a.current.value.Released?) ==> PlaceTaken(s, a))
  }

  function Miss(s: State, t: TxnId): State
    requires CanMiss(s, t)
  {
    var a := s.txns[t].a;
    Over(s.(hosted := SetHosted(s.hosted, a.goal.hosted, Paid),
            refunds := Entitle(s.refunds, a.goal.hosted, s.remote[a.goal.hosted].taken, PlaceGone),
            holds := Lapsing(s.holds, a.gone)), t)
  }

  // ----- Changing the capacity -----

  predicate CanShrink(s: State, t: TxnId) {
    && t in s.txns && s.txns[t].Allocating? && s.txns[t].a.goal.ToShrink?
    && var a := s.txns[t].a;
    && a.view.Some? && !a.stage.Written? && !a.stage.Waiting?
    && (a.view.value.capacity.Some? ==> a.goal.to <= a.view.value.capacity.value)
    && (a.view.value.status.Active? ==>
          a.stage.Counted? && AllocatedCount(a.view.value.issued, CountsSeen(s, a)) <= a.goal.to)
  }

  /** The ledger accepts the lower bound, while the transaction's lapses are not committed yet. */
  function Shrink(s: State, t: TxnId): State
    requires CanShrink(s, t)
  {
    With(s, t, s.txns[t].a.(stage := Written)).(ledger := s.ledger.(capacity := Some(s.txns[t].a.goal.to)))
  }

  predicate CanKeepShrink(s: State, t: TxnId) {
    In(s, t, Written) && s.txns[t].a.goal.ToShrink?
  }

  /** An approved proof raises the bound. */
  predicate Raises(from: Option<nat>, to: Option<nat>) {
    to.None? || (from.Some? && from.value <= to.value)
  }

  predicate CanRaise(s: State, t: TxnId) {
    In(s, t, Entered) && s.txns[t].a.goal.ToRaise? && Raises(s.ledger.capacity, s.txns[t].a.goal.bound)
  }

  function Raise(s: State, t: TxnId): State
    requires CanRaise(s, t)
  {
    Over(s.(ledger := s.ledger.(capacity := s.txns[t].a.goal.bound)), t)
  }

  // ----- Closing and reopening sales -----

  predicate CanClose(s: State, t: TxnId) {
    In(s, t, Entered) && s.txns[t].a.goal.ToClose? && s.txns[t].a.goal.drain !in s.drains
  }

  /** A closure already in force stays; otherwise a new one comes into force. */
  function Close(s: State, t: TxnId): State
    requires CanClose(s, t)
  {
    var epoch := if s.closed then s.epoch else s.epoch + 1;
    Over(s.(closed := true, epoch := epoch,
            drains := s.drains[s.txns[t].a.goal.drain := Drain(epoch, false, {}, {}, false)]), t)
  }

  function Reopen(s: State): State {
    s.(closed := false)
  }

  predicate CanList(s: State, r: DrainId) {
    r in s.drains && !s.drains[r].listed
  }

  /** Holds outstanding, or with an open hosted checkout. */
  function ToVisit(s: State): set<HoldId> {
    set h | h in s.holds && (s.holds[h].status.Outstanding? || exists k | k in s.hosted :: OpenRow(s, k, h))
  }

  function List(s: State, r: DrainId): State
    requires CanList(s, r)
  {
    s.(drains := s.drains[r := s.drains[r].(listed := true, todo := ToVisit(s))])
  }

  /** Every hold visited, every payment found on the way reconciled. */
  predicate CanReturn(s: State, r: DrainId) {
    && r in s.drains && s.drains[r].listed && s.drains[r].todo == {}
    && forall k | k in s.drains[r].paid :: Handled(s, k)
  }

  function Return(s: State, r: DrainId): State
    requires CanReturn(s, r)
  {
    s.(drains := s.drains[r := s.drains[r].(done := true)])
  }

  // ----- Single statements outside any transaction -----

  /** A statement's clock was read before it was sent. */
  predicate CanRelease(s: State, h: HoldId, at: int) {
    h in s.holds && h !in s.rows && at <= s.now
  }

  function Release(s: State, h: HoldId, at: int): State
    requires CanRelease(s, h, at)
  {
    s.(holds := EndHold(s.holds, h, at))
  }

  /** Some expired holds: by an earlier clock, or those whose rows are free. */
  predicate CanLapse(s: State, gone: set<HoldId>) {
    gone <= ExpiredHolds(s.holds, s.now) && forall h | h in gone :: h !in s.rows
  }

  function Lapse(s: State, gone: set<HoldId>): State {
    s.(holds := Lapsing(s.holds, gone))
  }

  predicate CanExtend(s: State, h: HoldId) {
    h in s.holds && h !in s.rows && s.holds[h].status.Outstanding? && !s.holds[h].extended
    && s.now < s.holds[h].expires
  }

  function Extended(hold: Hold): Hold {
    hold.(expires := hold.expires + HOLD_EXTENSION, extended := true)
  }

  function Extend(s: State, h: HoldId): State
    requires CanExtend(s, h)
  {
    s.(holds := s.holds[h := Extended(s.holds[h])])
  }

  // ----- Starting a payment -----

  predicate CanPay(s: State, t: TxnId, h: HoldId) {
    t !in s.txns && h in s.holds && h !in s.rows && s.holds[h].status.Outstanding? && s.now < s.holds[h].expires
  }

  function Pay(s: State, t: TxnId, h: HoldId): State {
    s.(rows := s.rows[h := t], txns := s.txns[t := Paying(h, PayStarted)])
  }

  predicate PayIn(s: State, t: TxnId) {
    t in s.txns && s.txns[t].Paying? && s.txns[t].hold in s.holds
  }

  predicate CanPayClear(s: State, t: TxnId) {
    PayIn(s, t) && s.txns[t].pay.PayStarted? && !s.closed
  }

  function PayClear(s: State, t: TxnId): State
    requires CanPayClear(s, t)
  {
    s.(txns := s.txns[t := s.txns[t].(pay := PayCleared)])
  }

  /** The open hosted checkout turns out paid: its status is recorded, to be reconciled. */
  predicate CanPayFound(s: State, t: TxnId, k: HostedId) {
    PayIn(s, t) && s.txns[t].pay.PayCleared? && OpenRow(s, k, s.txns[t].hold)
    && k in s.remote && s.remote[k].status.Paid?
  }

  function PayFound(s: State, t: TxnId, k: HostedId): State
    requires CanPayFound(s, t, k)
  {
    Over(s.(hosted := SetHosted(s.hosted, k, Paid)), t)
  }

  /** There is no open hosted checkout, or it expired or was cancelled, and is replaced. */
  predicate CanPayReplace(s: State, t: TxnId, prior: Option<HostedId>) {
    && PayIn(s, t) && s.txns[t].pay.PayCleared?
    && match prior
       case None => NoOtherOpen(s, s.txns[t].hold, {})
       case Some(k) => OpenRow(s, k, s.txns[t].hold) && k in s.remote
                       && (s.remote[k].status.Expired? || s.remote[k].status.Cancelled?)
  }

  function PayReplace(s: State, t: TxnId, prior: Option<HostedId>): State
    requires CanPayReplace(s, t, prior)
  {
    s.(txns := s.txns[t := s.txns[t].(pay := PayReady(prior))])
  }

  predicate CanPayCreate(s: State, t: TxnId, k: HostedId) {
    PayIn(s, t) && s.txns[t].pay.PayReady? && k !in s.remote && k !in s.hosted
  }

  function PayCreate(s: State, t: TxnId, k: HostedId): State
    requires CanPayCreate(s, t, k)
  {
    s.(remote := s.remote[k := Remote(Open, s.holds[s.txns[t].hold].price)],
       txns := s.txns[t := s.txns[t].(pay := PayCreated(s.txns[t].pay.prior, k))])
  }

  function Retired(pay: PayStage): set<HostedId>
    requires pay.PayCreated?
  {
    if pay.prior.Some? then {pay.prior.value} else {}
  }

  predicate CanPayCommit(s: State, t: TxnId) {
    && PayIn(s, t) && s.txns[t].pay.PayCreated?
    && var pay := s.txns[t].pay;
    && pay.made !in s.hosted && NoOtherOpen(s, s.txns[t].hold, Retired(pay))
    && (pay.prior.Some? ==> pay.prior.value in s.hosted && pay.prior.value in s.remote)
  }

  /** The checkout a payment replaces is recorded as it ended at the provider. */
  function RetiredRows(s: State, t: TxnId): map<HostedId, Hosted>
    requires CanPayCommit(s, t)
  {
    var prior := s.txns[t].pay.prior;
    if prior.None? then s.hosted else SetHosted(s.hosted, prior.value, s.remote[prior.value].status)
  }

  /** The hosted checkout is recorded, the one it replaces retired, the hold extended once. */
  function PayCommit(s: State, t: TxnId): State
    requires CanPayCommit(s, t)
  {
    var h := s.txns[t].hold;
    Over(s.(hosted := RetiredRows(s, t)[s.txns[t].pay.made := Hosted(h, s.holds[h].price, Open)],
            holds := if s.holds[h].extended then s.holds else s.holds[h := Extended(s.holds[h])]), t)
  }

  // ----- Ending a hold with its hosted checkout: a buyer's cancel, or a visit of `releaseAll` -----

  predicate CanEnd(s: State, t: TxnId, h: HoldId, cause: Option<DrainId>) {
    && t !in s.txns && h in s.holds && h !in s.rows
    && match cause
       case None => s.holds[h].status.Outstanding?
       case Some(r) => r in s.drains && h in s.drains[r].todo
  }

  function End(s: State, t: TxnId, h: HoldId, cause: Option<DrainId>): State {
    s.(rows := s.rows[h := t], txns := s.txns[t := Ending(h, cause, EndStarted)])
  }

  predicate EndIn(s: State, t: TxnId) {
    t in s.txns && s.txns[t].Ending? && s.txns[t].hold in s.holds
  }

  predicate CanEndCancel(s: State, t: TxnId, open: Option<HostedId>) {
    && EndIn(s, t) && s.txns[t].end.EndStarted?
    && match open
       case None => NoOtherOpen(s, s.txns[t].hold, {})
       case Some(k) => OpenRow(s, k, s.txns[t].hold) && k in s.remote
  }

  function EndCancel(s: State, t: TxnId, open: Option<HostedId>): State
    requires CanEndCancel(s, t, open)
  {
    s.(remote := if open.None? then s.remote else CancelRemote(s.remote, open.value),
       txns := s.txns[t := s.txns[t].(end := EndReady(open))])
  }

  predicate CanEndCommit(s: State, t: TxnId) {
    && EndIn(s, t) && s.txns[t].end.EndReady?
    && var open := s.txns[t].end.open;
    && (open.Some? ==> open.value in s.hosted && open.value in s.remote)
    && (s.txns[t].cause.Some? ==> s.txns[t].cause.value in s.drains)
  }

  /** The checkout turned out paid: it is left to its reconciliation. Otherwise the hold ends. */
  predicate PaidFirst(s: State, t: TxnId)
    requires CanEndCommit(s, t)
  {
    var open := s.txns[t].end.open;
    open.Some? && s.remote[open.value].status.Paid?
  }

  function Visited(s: State, t: TxnId): map<DrainId, Drain>
    requires CanEndCommit(s, t)
  {
    match s.txns[t].cause
    case None => s.drains
    case Some(r) =>
      var d := s.drains[r];
      s.drains[r := d.(todo := d.todo - {s.txns[t].hold},
                       paid := if PaidFirst(s, t) then d.paid + {s.txns[t].end.open.value} else d.paid)]
  }

  /** An organiser's visit releases an outstanding hold whatever its lifetime. */
  function HoldsEnded(s: State, t: TxnId): Holds
    requires EndIn(s, t)
  {
    var h := s.txns[t].hold;
    if s.txns[t].cause.None? then EndHold(s.holds, h, s.now)
    else if s.holds[h].status.Outstanding? then SetHold(s.holds, h, Released)
    else s.holds
  }

  /** The checkout's end is recorded, unless it turned out paid. */
  function EndedRows(s: State, t: TxnId): map<HostedId, Hosted>
    requires CanEndCommit(s, t)
  {
    var open := s.txns[t].end.open;
    if open.None? || PaidFirst(s, t) then s.hosted
    else SetHosted(s.hosted, open.value, s.remote[open.value].status)
  }

  function EndCommit(s: State, t: TxnId): State
    requires CanEndCommit(s, t)
  {
    Over(s.(drains := Visited(s, t),
            hosted := EndedRows(s, t),
            holds := if PaidFirst(s, t) then s.holds else HoldsEnded(s, t)), t)
  }

  // ----- The provider, and its answers recorded outside transactions -----

  predicate CanCharge(s: State, k: HostedId) {
    k in s.remote && s.remote[k].status.Open?
  }

  function Charge(s: State, k: HostedId, taken: Money): State {
    s.(remote := s.remote[k := Remote(Paid, taken)])
  }

  function Expire(s: State, k: HostedId): State
    requires CanCharge(s, k)
  {
    s.(remote := s.remote[k := s.remote[k].(status := Expired)])
  }

  predicate CanPoll(s: State, p: PollId, k: HostedId) {
    p !in s.polls && k in s.hosted && k in s.remote
  }

  /** A retrieval, for a webhook. */
  function Retrieve(s: State, p: PollId, k: HostedId): State
    requires CanPoll(s, p, k)
  {
    s.(polls := s.polls[p := Poll(k, s.remote[k].status)])
  }

  /** A cancellation of an ended hold's checkout, by the sweep. */
  function SweepCancel(s: State, p: PollId, k: HostedId): State
    requires CanPoll(s, p, k)
  {
    var remote := CancelRemote(s.remote, k);
    s.(remote := remote, polls := s.polls[p := Poll(k, remote[k].status)])
  }

  predicate CanRecord(s: State, p: PollId) {
    && p in s.polls && s.polls[p].hosted in s.hosted && !s.polls[p].answer.Paid?
    && (s.polls[p].answer.Open? ==>
          NoOtherOpen(s, s.hosted[s.polls[p].hosted].hold, {s.polls[p].hosted}))
  }

  /** The answer is recorded, however long ago it was given. */
  function Record(s: State, p: PollId): State
    requires CanRecord(s, p)
  {
    s.(hosted := SetHosted(s.hosted, s.polls[p].hosted, s.polls[p].answer), polls := s.polls - {p})
  }

  function DropPoll(s: State, p: PollId): State {
    s.(polls := s.polls - {p})
  }

  // ----- The ledger, and the outcomes of issuances -----

  predicate CanSign(s: State, c: Claim) {
    c in s.writes && s.writes[c].Unsigned?
  }

  function Sign(s: State, c: Claim): State {
    s.(writes := s.writes[c := InFlight])
  }

  /** The ledger records a ticket only of an active event, and only one per seat. */
  predicate CanLand(s: State, c: Claim) {
    c in s.writes && s.writes[c].InFlight? && s.ledger.status.Active? && !OnLedger(s, SeatOf(s, c))
  }

  function Land(s: State, c: Claim): State {
    s.(writes := s.writes[c := Landed])
  }

  predicate CanRefuse(s: State, c: Claim) {
    c in s.writes && s.writes[c].InFlight?
  }

  function Refuse(s: State, c: Claim): State {
    s.(writes := s.writes[c := Refused])
  }

  predicate SaleOpen(s: State, x: SaleId) {
    && x in s.sales && s.sales[x].status.SaleIssuing? && BySale(x) in s.writes
    && s.sales[x].hold in s.holds && s.sales[x].hosted in s.hosted && s.sales[x].hold !in s.rows
  }

  predicate CanConfirm(s: State, x: SaleId) {
    SaleOpen(s, x) && s.writes[BySale(x)].Landed?
  }

  function Confirm(s: State, x: SaleId): State
    requires CanConfirm(s, x)
  {
    var h := s.sales[x].hold;
    s.(sales := SetSale(s.sales, x, SaleIssued), holds := SetHold(s.holds, h, Confirmed),
       faces := s.faces[x := s.holds[h].price])
  }

  /** The ledger refused, or nothing was signed. */
  predicate CanReject(s: State, x: SaleId) {
    SaleOpen(s, x) && (s.writes[BySale(x)].Refused? || s.writes[BySale(x)].Unsigned?)
  }

  function Reject(s: State, x: SaleId): State
    requires CanReject(s, x)
  {
    var sale := s.sales[x];
    s.(sales := SetSale(s.sales, x, SaleRejected),
       holds := if s.holds[sale.hold].status.Issuing? then SetHold(s.holds, sale.hold, Released) else s.holds,
       writes := s.writes[BySale(x) := Refused],
       refunds := Entitle(s.refunds, sale.hosted, s.hosted[sale.hosted].asked, IssuanceRejected))
  }

  predicate CanFail(s: State, x: SaleId) {
    x in s.sales && s.sales[x].status.SaleIssuing?
  }

  /** No verdict came back: the ticket may exist, or come to exist. */
  function Fail(s: State, x: SaleId): State
    requires CanFail(s, x)
  {
    s.(sales := SetSale(s.sales, x, SaleFailed))
  }

  predicate GrantPending(s: State, g: GrantId) {
    g in s.grants && s.grants[g].status.Pending? && ByGrant(g) in s.writes
  }

  /** A grant's outcome: settled once landed, rejected once refused, failed without a verdict. */
  predicate CanSettle(s: State, g: GrantId, outcome: GrantStatus) {
    && GrantPending(s, g) && !outcome.Pending?
    && (outcome.Settled? ==> s.writes[ByGrant(g)].Landed?)
    && (outcome.Rejected? ==> s.writes[ByGrant(g)].Refused?)
  }

  function Settle(s: State, g: GrantId, outcome: GrantStatus): State
    requires CanSettle(s, g, outcome)
  {
    s.(grants := s.grants[g := s.grants[g].(status := outcome)])
  }

  /** Nothing was signed: the reservation is deleted. */
  predicate CanUndertakeNothing(s: State, g: GrantId) {
    GrantPending(s, g) && s.writes[ByGrant(g)].Unsigned?
  }

  function UndertakeNothing(s: State, g: GrantId): State
    requires CanUndertakeNothing(s, g)
  {
    s.(grants := s.grants - {g}, writes := s.writes[ByGrant(g) := Refused])
  }

  /** The event's status moves on; it never becomes active again. */
  predicate CanMoveOn(s: State, status: EventStatus) {
    (s.ledger.status.Active? || s.ledger.status.Sealed?) && !status.Active?
  }

  function MoveOn(s: State, status: EventStatus): State {
    s.(ledger := s.ledger.(status := status))
  }

  /** A cancelled event's purchased ticket, on the ledger: its purchaser is refunded. */
  predicate CanRefundTicket(s: State, x: SaleId) {
    && s.ledger.status.EventOff? && x in s.sales && (s.sales[x].status.SaleIssued? || s.sales[x].status.SaleFailed?)
    && BySale(x) in s.writes && s.writes[BySale(x)].Landed? && s.sales[x].hold in s.holds
  }

  function RefundTicket(s: State, x: SaleId): State
    requires CanRefundTicket(s, x)
  {
    var face := if x in s.faces then s.faces[x] else s.holds[s.sales[x].hold].price;
    s.(refunds := Entitle(s.refunds, s.sales[x].hosted, face, EventCancelled))
  }

  // ----- The machine -----

  /** How a transaction under the event's lock comes to its next statement. */
  datatype Progress =
    | DoBegin(t: TxnId, goal: Goal)
    | DoEnter(t: TxnId)
    | DoReadClock(t: TxnId)
    | DoSweep(t: TxnId)
    | DoCount(t: TxnId)
    | DoLook(t: TxnId)
    | DoProbe(t: TxnId)
    | DoFindUnhandled(t: TxnId)
    | DoBar(t: TxnId)
    | DoClear(t: TxnId)
    | DoReread(t: TxnId)
    | DoAbort(t: TxnId)

  predicate ProgressEnabled(s: State, step: Progress) {
    match step
    case DoBegin(t, goal) => CanBegin(s, t, goal)
    case DoEnter(t) => CanEnter(s, t)
    case DoReadClock(t) => CanReadClock(s, t)
    case DoSweep(t) => CanSweep(s, t)
    case DoCount(t) => CanCount(s, t)
    case DoLook(t) => CanLook(s, t)
    case DoProbe(t) => CanProbe(s, t)
    case DoFindUnhandled(t) => CanFindUnhandled(s, t)
    case DoBar(t) => CanBar(s, t)
    case DoClear(t) => CanClear(s, t)
    case DoReread(t) => CanReread(s, t)
    case DoAbort(t) => CanAbort(s, t)
  }

  function ApplyProgress(s: State, step: Progress): State
    requires ProgressEnabled(s, step)
  {
    match step
    case DoBegin(t, goal) => Begin(s, t, goal)
    case DoEnter(t) => Enter(s, t)
    case DoReadClock(t) => ReadClock(s, t)
    case DoSweep(t) => Sweep(s, t)
    case DoCount(t) => Count(s, t)
    case DoLook(t) => Look(s, t)
    case DoProbe(t) => Probe(s, t)
    case DoFindUnhandled(t) => FindUnhandled(s, t)
    case DoBar(t) => Bar(s, t)
    case DoClear(t) => Clear(s, t)
    case DoReread(t) => Reread(s, t)
    case DoAbort(t) => Abort(s, t)
  }

  /** What a transaction under the event's lock commits, or writes to the ledger. */
  datatype Commit =
    | DoPlace(t: TxnId)
    | DoPlaceNothing(t: TxnId)
    | DoReserve(t: TxnId)
    | DoSkip(t: TxnId)
    | DoTurnAway(t: TxnId, at: int, reason: RefundReason)
    | DoSell(t: TxnId, sale: SaleId)
    | DoMiss(t: TxnId)
    | DoShrink(t: TxnId)
    | DoKeepShrink(t: TxnId)
    | DoRaise(t: TxnId)
    | DoClose(t: TxnId)

  predicate CommitEnabled(s: State, step: Commit) {
    match step
    case DoPlace(t) => CanPlace(s, t)
    case DoPlaceNothing(t) => CanPlaceNothing(s, t)
    case DoReserve(t) => CanReserve(s, t)
    case DoSkip(t) => CanSkip(s, t)
    case DoTurnAway(t, at, reason) => CanTurnAway(s, t, at, reason)
    case DoSell(t, sale) => CanSell(s, t, sale)
    case DoMiss(t) => CanMiss(s, t)
    case DoShrink(t) => CanShrink(s, t)
    case DoKeepShrink(t) => CanKeepShrink(s, t)
    case DoRaise(t) => CanRaise(s, t)
    case DoClose(t) => CanClose(s, t)
  }

  function ApplyCommit(s: State, step: Commit): State
    requires CommitEnabled(s, step)
  {
    match step
    case DoPlace(t) => Place(s, t)
    case DoPlaceNothing(t) => CommitLapses(s, t)
    case DoReserve(t) => Reserve(s, t)
    case DoSkip(t) => Skip(s, t)
    case DoTurnAway(t, at, reason) => TurnAway(s, t, at, reason)
    case DoSell(t, sale) => Sell(s, t, sale)
    case DoMiss(t) => Miss(s, t)
    case DoShrink(t) => Shrink(s, t)
    case DoKeepShrink(t) => CommitLapses(s, t)
    case DoRaise(t) => Raise(s, t)
    case DoClose(t) => Close(s, t)
  }

  /** Single statements on holds, and the progress of `releaseAll`. */
  datatype Desk =
    | DoRelease(h: HoldId, at: int)
    | DoLapse(gone: set<HoldId>)
    | DoExtend(h: HoldId)
    | DoReopen
    | DoList(r: DrainId)
    | DoReturn(r: DrainId)

  predicate DeskEnabled(s: State, step: Desk) {
    match step
    case DoRelease(h, at) => CanRelease(s, h, at)
    case DoLapse(gone) => CanLapse(s, gone)
    case DoExtend(h) => CanExtend(s, h)
    case DoReopen => true
    case DoList(r) => CanList(s, r)
    case DoReturn(r) => CanReturn(s, r)
  }

  function ApplyDesk(s: State, step: Desk): State
    requires DeskEnabled(s, step)
  {
    match step
    case DoRelease(h, at) => Release(s, h, at)
    case DoLapse(gone) => Lapse(s, gone)
    case DoExtend(h) => Extend(s, h)
    case DoReopen => Reopen(s)
    case DoList(r) => List(s, r)
    case DoReturn(r) => Return(s, r)
  }

  /** Transactions holding one hold's row: starting a payment, or ending the hold. */
  datatype Till =
    | DoPay(t: TxnId, h: HoldId)
    | DoPayClear(t: TxnId)
    | DoPayFound(t: TxnId, k: HostedId)
    | DoPayReplace(t: TxnId, prior: Option<HostedId>)
    | DoPayCreate(t: TxnId, k: HostedId)
    | DoPayCommit(t: TxnId)
    | DoEnd(t: TxnId, h: HoldId, cause: Option<DrainId>)
    | DoEndCancel(t: TxnId, open: Option<HostedId>)
    | DoEndCommit(t: TxnId)

  predicate TillEnabled(s: State, step: Till) {
    match step
    case DoPay(t, h) => CanPay(s, t, h)
    case DoPayClear(t) => CanPayClear(s, t)
    case DoPayFound(t, k) => CanPayFound(s, t, k)
    case DoPayReplace(t, prior) => CanPayReplace(s, t, prior)
    case DoPayCreate(t, k) => CanPayCreate(s, t, k)
    case DoPayCommit(t) => CanPayCommit(s, t)
    case DoEnd(t, h, cause) => CanEnd(s, t, h, cause)
    case DoEndCancel(t, open) => CanEndCancel(s, t, open)
    case DoEndCommit(t) => CanEndCommit(s, t)
  }

  function ApplyTill(s: State, step: Till): State
    requires TillEnabled(s, step)
  {
    match step
    case DoPay(t, h) => Pay(s, t, h)
    case DoPayClear(t) => PayClear(s, t)
    case DoPayFound(t, k) => PayFound(s, t, k)
    case DoPayReplace(t, prior) => PayReplace(s, t, prior)
    case DoPayCreate(t, k) => PayCreate(s, t, k)
    case DoPayCommit(t) => PayCommit(s, t)
    case DoEnd(t, h, cause) => End(s, t, h, cause)
    case DoEndCancel(t, open) => EndCancel(s, t, open)
    case DoEndCommit(t) => EndCommit(s, t)
  }

  /** Time and the provider, and what is recorded of its answers. */
  datatype World =
    | DoTick(ms: nat)
    | DoCharge(k: HostedId, taken: Money)
    | DoExpire(k: HostedId)
    | DoRetrieve(p: PollId, k: HostedId)
    | DoSweepCancel(p: PollId, k: HostedId)
    | DoRecord(p: PollId)
    | DoDropPoll(p: PollId)

  predicate WorldEnabled(s: State, step: World) {
    match step
    case DoTick(_) => true
    case DoCharge(k, _) => CanCharge(s, k)
    case DoExpire(k) => CanCharge(s, k)
    case DoRetrieve(p, k) => CanPoll(s, p, k)
    case DoSweepCancel(p, k) => CanPoll(s, p, k)
    case DoRecord(p) => CanRecord(s, p)
    case DoDropPoll(_) => true
  }

  function ApplyWorld(s: State, step: World): State
    requires WorldEnabled(s, step)
  {
    match step
    case DoTick(ms) => s.(now := s.now + ms)
    case DoCharge(k, taken) => Charge(s, k, taken)
    case DoExpire(k) => Expire(s, k)
    case DoRetrieve(p, k) => Retrieve(s, p, k)
    case DoSweepCancel(p, k) => SweepCancel(s, p, k)
    case DoRecord(p) => Record(s, p)
    case DoDropPoll(p) => DropPoll(s, p)
  }

  /** The ledger, the outcomes of issuances, and cancellation refunds. */
  datatype Outcome =
    | DoSign(c: Claim)
    | DoLand(c: Claim)
    | DoRefuse(c: Claim)
    | DoConfirm(x: SaleId)
    | DoReject(x: SaleId)
    | DoFail(x: SaleId)
    | DoSettle(g: GrantId, outcome: GrantStatus)
    | DoUndertakeNothing(g: GrantId)
    | DoMoveOn(status: EventStatus)
    | DoRefundTicket(x: SaleId)

  predicate OutcomeEnabled(s: State, step: Outcome) {
    match step
    case DoSign(c) => CanSign(s, c)
    case DoLand(c) => CanLand(s, c)
    case DoRefuse(c) => CanRefuse(s, c)
    case DoConfirm(x) => CanConfirm(s, x)
    case DoReject(x) => CanReject(s, x)
    case DoFail(x) => CanFail(s, x)
    case DoSettle(g, outcome) => CanSettle(s, g, outcome)
    case DoUndertakeNothing(g) => CanUndertakeNothing(s, g)
    case DoMoveOn(status) => CanMoveOn(s, status)
    case DoRefundTicket(x) => CanRefundTicket(s, x)
  }

  function ApplyOutcome(s: State, step: Outcome): State
    requires OutcomeEnabled(s, step)
  {
    match step
    case DoSign(c) => Sign(s, c)
    case DoLand(c) => Land(s, c)
    case DoRefuse(c) => Refuse(s, c)
    case DoConfirm(x) => Confirm(s, x)
    case DoReject(x) => Reject(s, x)
    case DoFail(x) => Fail(s, x)
    case DoSettle(g, outcome) => Settle(s, g, outcome)
    case DoUndertakeNothing(g) => UndertakeNothing(s, g)
    case DoMoveOn(status) => MoveOn(s, status)
    case DoRefundTicket(x) => RefundTicket(s, x)
  }

  datatype Step =
    | InProgress(progress: Progress)
    | InCommit(commit: Commit)
    | AtDesk(desk: Desk)
    | AtTill(till: Till)
    | InWorld(world: World)
    | InLedger(outcome: Outcome)

  predicate Enabled(s: State, step: Step) {
    match step
    case InProgress(p) => ProgressEnabled(s, p)
    case InCommit(p) => CommitEnabled(s, p)
    case AtDesk(p) => DeskEnabled(s, p)
    case AtTill(p) => TillEnabled(s, p)
    case InWorld(p) => WorldEnabled(s, p)
    case InLedger(p) => OutcomeEnabled(s, p)
  }

  function Apply(s: State, step: Step): State
    requires Enabled(s, step)
  {
    match step
    case InProgress(p) => ApplyProgress(s, p)
    case InCommit(p) => ApplyCommit(s, p)
    case AtDesk(p) => ApplyDesk(s, p)
    case AtTill(p) => ApplyTill(s, p)
    case InWorld(p) => ApplyWorld(s, p)
    case InLedger(p) => ApplyOutcome(s, p)
  }

  /** The steps can be taken in order from `s`, each enabled when its turn comes. */
  predicate IsRun(s: State, steps: seq<Step>)
    decreases |steps|
  {
    steps == [] || (Enabled(s, steps[0]) && IsRun(Apply(s, steps[0]), steps[1..]))
  }

  /** The state a run ends in. */
  function After(s: State, steps: seq<Step>): State
    requires IsRun(s, steps)
    decreases |steps|
  {
    if steps == [] then s else After(Apply(s, steps[0]), steps[1..])
  }
}
