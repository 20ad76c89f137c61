/**
  What each payment operation comes to, run from start to end with no other request
  in between: the machine's steps it takes, and the tables it leaves.
 */
module PaymentEffects {
  import opened Common
  import opened Allocation
  import opened SaleProtocol
  import opened SaleLocks
  import opened SaleRoom
  import opened SaleMoney
  import opened SaleClosing
  import opened SaleSafety
  import opened SaleTheorems
  import opened SaleRefunds

  /** No request holds a lock or is in progress. */
  predicate Idle(s: State) {
    s.lock.None? && s.rows == map[] && s.txns == map[]
  }

  /** Only this allocation is in progress, past waiting for the lock, and no other row is locked. */
  predicate Alone(s: State, t: TxnId, goal: Goal, stage: Stage) {
    && t in s.txns && s.txns == map[t := s.txns[t]] && s.txns[t].Allocating? && s.txns[t].a.goal == goal
    && s.txns[t].a.stage == stage && s.lock == Some(t) && forall h | h in s.rows :: s.rows[h] == t
  }

  /** The tables as they were. */
  predicate SameTables(s: State, s': State) {
    && s'.now == s.now && s'.holds == s.holds && s'.grants == s.grants && s'.hosted == s.hosted && s'.remote == s.remote
    && s'.sales == s.sales && s'.refunds == s.refunds && s'.faces == s.faces && s'.writes == s.writes && s'.ledger == s.ledger
    && s'.closed == s.closed && s'.epoch == s.epoch && s'.drains == s.drains && s'.polls == s.polls && s'.quotas == s.quotas
  }

  // ----- An allocation's way to its counts, alone -----

  /** Nothing read yet beyond the clock and the counts. */
  predicate Unread(a: Alloc) {
    a.view.None? && a.free.None? && a.current.None?
  }

  /** It counted everything as it stands, the expired holds recorded as lapsed. */
  predicate CountedAll(s: State, a: Alloc) {
    a.at == s.now && a.gone == ExpiredHolds(s.holds, s.now) && a.holds == Unexpired(s) && a.grants == s.grants
  }

  /** The holds, the expired ones recorded as lapsed. */
  function Unexpired(s: State): Holds {
    Lapsing(s.holds, ExpiredHolds(s.holds, s.now))
  }

  lemma Starting(s: State, t: TxnId, goal: Goal)
    requires Idle(s) && GoalFits(s, goal)
    ensures CanBegin(s, t, goal) && CanEnter(Begin(s, t, goal), t)
    ensures var s' := Enter(Begin(s, t, goal), t);
            Alone(s', t, goal, Entered) && SameTables(s, s') && Unread(s'.txns[t].a)
  {
  }

  lemma Clocking(s: State, t: TxnId, goal: Goal, stage: Stage)
    requires Alone(s, t, goal, stage) && ReadyToCount(s.txns[t].a) && Unread(s.txns[t].a)
    ensures CanReadClock(s, t)
    ensures var s' := ReadClock(s, t);
            Alone(s', t, goal, Timed) && SameTables(s, s') && Unread(s'.txns[t].a) && s'.txns[t].a.at == s.now
  {
  }

  lemma MaySweep(s: State, t: TxnId, goal: Goal)
    requires Alone(s, t, goal, Timed)
    ensures CanSweep(s, t)
  {
  }

  lemma SweepingMoves(s: State, t: TxnId, goal: Goal)
    requires Alone(s, t, goal, Timed) && CanSweep(s, t)
    ensures Alone(SaleProtocol.Sweep(s, t), t, goal, Swept)
  {
    hide CanSweep, LockedToo, ExpiredHolds;
  }

  lemma Sweeping(s: State, t: TxnId, goal: Goal)
    requires Alone(s, t, goal, Timed) && Unread(s.txns[t].a) && s.txns[t].a.at == s.now
    ensures CanSweep(s, t)
    ensures var s' := SaleProtocol.Sweep(s, t);
            && Alone(s', t, goal, Swept) && SameTables(s, s') && Unread(s'.txns[t].a)
            && s'.txns[t].a.at == s.now && s'.txns[t].a.gone == ExpiredHolds(s.holds, s.now)
  {
    hide CanSweep, LockedToo, ExpiredHolds, Alone;
    MaySweep(s, t, goal);
    SweepingMoves(s, t, goal);
  }

  lemma Counting(s: State, t: TxnId, goal: Goal)
    requires Alone(s, t, goal, Swept) && Unread(s.txns[t].a)
    requires s.txns[t].a.at == s.now && s.txns[t].a.gone == ExpiredHolds(s.holds, s.now)
    ensures CanCount(s, t)
    ensures var s' := Count(s, t);
            Alone(s', t, goal, Stage.Counted) && SameTables(s, s') && Unread(s'.txns[t].a) && CountedAll(s', s'.txns[t].a)
  {
  }

  lemma Looking(s: State, t: TxnId, goal: Goal)
    requires Alone(s, t, goal, Stage.Counted) && s.txns[t].a.view.None?
    ensures CanLook(s, t)
    ensures var s' := Look(s, t);
            Alone(s', t, goal, Stage.Counted) && SameTables(s, s') && s'.txns[t].a.free == s.txns[t].a.free
            && s'.txns[t].a.current == s.txns[t].a.current && (CountedAll(s, s.txns[t].a) ==> CountedAll(s', s'.txns[t].a))
            && s'.txns[t].a.view == Some(View(s.ledger.status, s.ledger.capacity, Issued(s), s.closed))
  {
  }

  lemma Probing(s: State, t: TxnId, goal: Goal)
    requires Alone(s, t, goal, Stage.Counted) && s.txns[t].a.free.None?
    ensures CanProbe(s, t)
    ensures var s' := Probe(s, t);
            Alone(s', t, goal, Stage.Counted) && SameTables(s, s') && s'.txns[t].a.free.Some?
            && s'.txns[t].a.current == s.txns[t].a.current && (CountedAll(s, s.txns[t].a) ==> CountedAll(s', s'.txns[t].a))
            && s'.txns[t].a.view == s.txns[t].a.view
            && (s'.txns[t].a.free.value <==> !GrantedSeat(s.grants, Seat(goal)) && !OnLedger(s, Seat(goal)))
  {
  }

  lemma Rereading(s: State, t: TxnId, goal: Goal)
    requires Alone(s, t, goal, Stage.Counted) && s.txns[t].a.current.None? && AtPayment(s, t, Stage.Counted)
    requires CountedAll(s, s.txns[t].a)
    ensures CanReread(s, t)
    ensures var s' := SaleProtocol.Reread(s, t);
            && Alone(s', t, goal, Stage.Counted) && SameTables(s, s') && Reread(s', s'.txns[t].a)
            && CountedAll(s', s'.txns[t].a)
            && s'.txns[t].a.free == s.txns[t].a.free && s'.txns[t].a.view == s.txns[t].a.view
  {
  }

  /** Once its transaction is over, nobody is at work. */
  lemma Leaving(s: State, t: TxnId, goal: Goal, stage: Stage, s': State)
    requires Alone(s, t, goal, stage) && s'.lock.None? && s'.rows == Unlocked(s.rows, t) && s'.txns == s.txns - {t}
    ensures Idle(s')
  {
  }

  /** A commit's transaction is over. */
  lemma CommittingLeaves(s: State, step: Commit, goal: Goal, stage: Stage)
    requires CommitEnabled(s, step) && !step.DoShrink? && Alone(s, step.t, goal, stage)
    ensures Idle(ApplyCommit(s, step))
  {
    CommitIsOver(s, step);
    hide ApplyCommit, CommitEnabled;
    Leaving(s, step.t, goal, stage, ApplyCommit(s, step));
  }

  lemma CommitIsOver(s: State, step: Commit)
    requires CommitEnabled(s, step) && !step.DoShrink? && s.lock == Some(step.t)
    ensures var s' := ApplyCommit(s, step);
            s'.lock.None? && s'.rows == Unlocked(s.rows, step.t) && s'.txns == s.txns - {step.t}
  {
    hide Unlocked, PlaceFree, PlaceTaken, PlaceRefused, RoomSeen, AllocatedCount, CountsSeen, QuotaHasRoom, Lapsing,
      EndHold, SetHold, SetHosted, Entitle, Handled, CurrentOk;
  }

  lemma Finding(s: State, t: TxnId, goal: Goal)
    requires Alone(s, t, goal, Entered) && Unread(s.txns[t].a) && CanFindUnhandled(s, t)
    ensures var s' := FindUnhandled(s, t); Alone(s', t, goal, Unhandled) && SameTables(s, s') && Unread(s'.txns[t].a)
  {
  }

  lemma Clearing(s: State, t: TxnId, goal: Goal)
    requires Alone(s, t, goal, Unhandled) && Unread(s.txns[t].a) && CanClear(s, t)
    ensures var s' := Clear(s, t); Alone(s', t, goal, Cleared) && SameTables(s, s') && Unread(s'.txns[t].a)
  {
  }

  // ----- What taking a payment's place comes to -----

  /** The payment's row says paid, and nothing else changed. */
  function PaidRow(s: State, k: HostedId): State
    requires k in s.hosted
  {
    s.(hosted := SetHosted(s.hosted, k, Paid))
  }

  /** Refunded for what was taken, for the reason, and no sale started. */
  function Refunding(s: State, k: HostedId, reason: RefundReason, holds: Holds): State
    requires k in s.hosted && k in s.remote
  {
    PaidRow(s, k).(refunds := s.refunds[k := Refund(s.remote[k].taken, reason)], holds := holds)
  }

  /** Its hold issuing, its sale started, and its write not signed yet. */
  function Selling(s: State, k: HostedId, h: HoldId, x: SaleId): State
    requires k in s.hosted && h in s.holds
  {
    PaidRow(s, k).(holds := SetHold(Unexpired(s), h, Issuing), sales := s.sales[x := Sale(k, h, SaleIssuing)],
                   writes := s.writes[BySale(x) := Unsigned])
  }

  predicate HasEnded(status: HoldStatus) {
    status.Lapsed? || status.Released?
  }

  /** The hold is still good; or it ended, the ledger answers for an active event, and its place is free. */
  predicate KeepsPlace(s: State, h: HoldId, answers: bool)
    requires h in s.holds
  {
    var status := Unexpired(s)[h].status;
    || status.Outstanding?
    || (HasEnded(status) && answers && s.ledger.status.Active? && HasPlace(s, s.holds[h].cls, s.holds[h].seat))
  }

  /** An unhandled payment's outcome: another amount, closed sales, its place taken, or its place gone. */
  predicate TakenAs(s: State, s': State, k: HostedId, h: HoldId, x: SaleId, answers: bool, taken: Option<SaleId>) {
    && k in s.hosted && k in s.remote && h in s.holds
    && taken == (if AmountAsAsked(s, k) && !s.closed && KeepsPlace(s, h, answers) then Some(x) else None)
    && if !AmountAsAsked(s, k) then SameTables(Refunding(s, k, AmountMismatch, EndHold(s.holds, h, s.now)), s')
       else if s.closed then SameTables(Refunding(s, k, EventClosed, EndHold(s.holds, h, s.now)), s')
       else if KeepsPlace(s, h, answers) then SameTables(Selling(s, k, h, x), s')
       else SameTables(Refunding(s, k, PlaceGone, Unexpired(s)), s')
  }

  /** A payment not handled yet, its hold's class and seat, and a sale id not used yet. */
  predicate Unstarted(s: State, goal: Goal, x: SaleId) {
    && goal.ToIssue? && goal.hosted in s.hosted && goal.hosted in s.remote && goal.hold in s.holds
    && goal.cls == s.holds[goal.hold].cls && goal.seat == s.holds[goal.hold].seat
    && !Handled(s, goal.hosted) && x !in s.sales && BySale(x) !in s.writes
  }

  lemma UnstartedStays(s: State, s1: State, goal: Goal, x: SaleId)
    requires SameTables(s, s1)
    ensures Unstarted(s1, goal, x) == Unstarted(s, goal, x)
  {
  }

  lemma UnusedSale(s: State, x: SaleId)
    requires Safe(s) && x !in s.sales
    ensures BySale(x) !in s.writes
  {
    assert WritesOk(s.writes, s.sales, s.grants, s.faces, s.hosted);
  }

  lemma SameTablesChain(s: State, s1: State, s2: State)
    requires SameTables(s, s1) && SameTables(s1, s2)
    ensures SameTables(s, s2)
  {
  }

  lemma PaidRowCarries(s: State, s1: State, s2: State, k: HostedId)
    requires SameTables(s, s1) && k in s.hosted && SameTables(PaidRow(s1, k), s2)
    ensures SameTables(PaidRow(s, k), s2)
  {
  }

  lemma RefundingCarries(s: State, s1: State, s2: State, k: HostedId, reason: RefundReason, holds: Holds)
    requires SameTables(s, s1) && k in s.hosted && k in s.remote
    ensures SameTables(Refunding(s1, k, reason, holds), s2) ==> SameTables(Refunding(s, k, reason, holds), s2)
  {
  }

  lemma SellingCarries(s: State, s1: State, s2: State, k: HostedId, h: HoldId, x: SaleId)
    requires SameTables(s, s1) && k in s.hosted && h in s.holds
    ensures SameTables(Selling(s1, k, h, x), s2) ==> SameTables(Selling(s, k, h, x), s2)
  {
  }

  lemma KeepingCarries(s: State, s1: State, h: HoldId, answers: bool)
    requires SameTables(s, s1) && h in s.holds
    ensures KeepsPlace(s1, h, answers) == KeepsPlace(s, h, answers)
  {
    hide HasPlace, Unexpired;
    SameTablesPlace(s, s1, s1, s.holds[h].cls, s.holds[h].seat);
  }

  /** What follows unchanged tables follows the tables before. */
  lemma TakingCarries(s: State, s1: State, s2: State, k: HostedId, h: HoldId, x: SaleId, answers: bool, taken: Option<SaleId>)
    requires SameTables(s, s1) && TakenAs(s1, s2, k, h, x, answers, taken)
    ensures TakenAs(s, s2, k, h, x, answers, taken)
  {
    KeepingCarries(s, s1, h, answers);
    RefundingCarries(s, s1, s2, k, AmountMismatch, EndHold(s.holds, h, s.now));
    RefundingCarries(s, s1, s2, k, EventClosed, EndHold(s.holds, h, s.now));
    RefundingCarries(s, s1, s2, k, PlaceGone, Unexpired(s));
    SellingCarries(s, s1, s2, k, h, x);
    assert Unexpired(s1) == Unexpired(s);
    hide KeepsPlace, Refunding, Selling, EndHold, Unexpired;
  }

  /** The payment's row is recorded as paid; closures, the provider and other rows are left alone. */
  predicate PaymentFrame(s: State, s': State, k: HostedId) {
    && k in s.hosted && s'.hosted == SetHosted(s.hosted, k, Paid) && s'.remote == s.remote && s'.drains == s.drains
    && s'.closed == s.closed && s'.epoch == s.epoch && s'.polls == s.polls && s'.now == s.now && s'.ledger == s.ledger
  }

  lemma PaidRowFrame(s: State, s': State, k: HostedId)
    requires k in s.hosted && SameTables(PaidRow(s, k), s')
    ensures PaymentFrame(s, s', k) && s'.holds == s.holds && s'.sales == s.sales && s'.refunds == s.refunds
  {
  }

  lemma RefundingFrame(s: State, s': State, k: HostedId, reason: RefundReason, holds: Holds)
    requires k in s.hosted && k in s.remote && SameTables(Refunding(s, k, reason, holds), s')
    ensures PaymentFrame(s, s', k) && s'.holds == holds && s'.sales == s.sales
    ensures s'.refunds == s.refunds[k := Refund(s.remote[k].taken, reason)]
  {
  }

  lemma SellingFrame(s: State, s': State, k: HostedId, h: HoldId, x: SaleId)
    requires k in s.hosted && h in s.holds && SameTables(Selling(s, k, h, x), s')
    ensures PaymentFrame(s, s', k) && s'.holds == SetHold(Unexpired(s), h, Issuing) && s'.refunds == s.refunds
  {
  }

  /** What every outcome has in common, and what it may do to the holds. */
  lemma TakenFrame(s: State, s': State, k: HostedId, h: HoldId, x: SaleId, answers: bool, taken: Option<SaleId>)
    requires TakenAs(s, s', k, h, x, answers, taken)
    ensures PaymentFrame(s, s', k)
    ensures s.closed ==> s'.sales == s.sales && s'.refunds.Keys == s.refunds.Keys + {k} && s'.holds == EndHold(s.holds, h, s.now)
    ensures || s'.holds == EndHold(s.holds, h, s.now) || s'.holds == Unexpired(s)
            || (s'.holds == SetHold(Unexpired(s), h, Issuing) && KeepsPlace(s, h, answers))
  {
    hide KeepsPlace, Unexpired, EndHold, SetHold, Refunding, Selling, SameTables, PaymentFrame;
    if !AmountAsAsked(s, k) {
      RefundingFrame(s, s', k, AmountMismatch, EndHold(s.holds, h, s.now));
    } else if s.closed {
      RefundingFrame(s, s', k, EventClosed, EndHold(s.holds, h, s.now));
    } else if KeepsPlace(s, h, answers) {
      SellingFrame(s, s', k, h, x);
    } else {
      RefundingFrame(s, s', k, PlaceGone, Unexpired(s));
    }
  }

  lemma SkipChanges(s: State, t: TxnId, goal: Goal)
    requires Alone(s, t, goal, Entered) && CanSkip(s, t)
    ensures goal.hosted in s.hosted && SameTables(PaidRow(s, goal.hosted), Skip(s, t))
  {
  }

  lemma TurnAwayChanges(s: State, t: TxnId, goal: Goal, stage: Stage, x: SaleId, reason: RefundReason)
    requires Alone(s, t, goal, stage) && CanTurnAway(s, t, s.now, reason) && Unstarted(s, goal, x)
    ensures SameTables(Refunding(s, goal.hosted, reason, EndHold(s.holds, goal.hold, s.now)), TurnAway(s, t, s.now, reason))
  {
  }

  lemma MissChanges(s: State, t: TxnId, goal: Goal, x: SaleId)
    requires Alone(s, t, goal, Stage.Counted) && CountedAll(s, s.txns[t].a) && CanMiss(s, t) && Unstarted(s, goal, x)
    ensures SameTables(Refunding(s, goal.hosted, PlaceGone, Unexpired(s)), Miss(s, t))
  {
  }

  lemma SellChanges(s: State, t: TxnId, goal: Goal, x: SaleId)
    requires Alone(s, t, goal, Stage.Counted) && CountedAll(s, s.txns[t].a) && CanSell(s, t, x) && Unstarted(s, goal, x)
    ensures SameTables(Selling(s, goal.hosted, goal.hold, x), Sell(s, t, x))
  {
  }

  /** What it reads of a hold that ended: the event, if the ledger answers, and whether the seat is free. */
  predicate Asked(s: State, a: Alloc, answers: bool) {
    if answers then ReadAll(s, a) else CountedAll(s, a) && a.view.None? && a.free.Some?
  }

  /** The hold as it is read again, its lapse included. */
  predicate Reread(s: State, a: Alloc) {
    a.goal.ToIssue? && a.goal.hold in s.holds && a.current == Some(Unexpired(s)[a.goal.hold].status)
  }

  lemma FreeMeansPlace(s: State, a: Alloc, answers: bool)
    requires Asked(s, a, answers) && a.goal.ToIssue?
    ensures PlaceFree(s, a) <==> answers && s.ledger.status.Active? && HasPlace(s, a.goal.cls, a.goal.seat)
    ensures PlaceFree(s, a) <==> !PlaceTaken(s, a)
  {
    hide PlaceTaken, HasPlace, RoomSeen, CountsSeen, QuotaHasRoom, CountedAll, Issued, GrantedSeat, OnLedger;
    FreeIsTrue(a);
    PlaceIsFreeOrTaken(s, a);
    if answers {
      RefusedMeansNoPlace(s, a);
    }
  }

  /** Its hold has not ended: it is sold, or it is another payment's. */
  lemma UnendedIsDecided(s: State, t: TxnId, goal: Goal, x: SaleId, answers: bool)
    requires Alone(s, t, goal, Stage.Counted) && Unstarted(s, goal, x) && Reread(s, s.txns[t].a)
    requires !HasEnded(s.txns[t].a.current.value)
    ensures CanSell(s, t, x) <==> KeepsPlace(s, goal.hold, answers)
    ensures CanMiss(s, t) <==> !KeepsPlace(s, goal.hold, answers)
  {
    hide PlaceFree, PlaceTaken, HasPlace, Unexpired, Handled;
  }

  /** Its hold ended: it is sold exactly when its place is free, and otherwise its place is gone. */
  lemma EndedIsDecided(s: State, t: TxnId, goal: Goal, x: SaleId, answers: bool)
    requires Alone(s, t, goal, Stage.Counted) && Unstarted(s, goal, x) && Reread(s, s.txns[t].a)
    requires HasEnded(s.txns[t].a.current.value) && Asked(s, s.txns[t].a, answers)
    ensures CanSell(s, t, x) <==> KeepsPlace(s, goal.hold, answers)
    ensures CanMiss(s, t) <==> !KeepsPlace(s, goal.hold, answers)
  {
    hide PlaceFree, PlaceTaken, HasPlace, Unexpired, Handled, Asked;
    FreeMeansPlace(s, s.txns[t].a, answers);
  }

  lemma RereadStays(s: State, s1: State, a: Alloc, a1: Alloc)
    requires SameTables(s, s1) && Reread(s, a) && a1.goal == a.goal && a1.current == a.current
    ensures Reread(s1, a1)
  {
  }

  lemma AskedCounted(s: State, a: Alloc, answers: bool)
    requires Asked(s, a, answers)
    ensures CountedAll(s, a)
  {
  }

  /** The ledger's answer and the seat, read one after the other, are read as one. */
  lemma ReadAfter(s: State, s1: State, a: Alloc)
    requires SameTables(s, s1) && CountedAll(s1, a) && a.free.Some?
    requires a.view == Some(View(s.ledger.status, s.ledger.capacity, Issued(s), s.closed))
    requires a.free.value <==> !GrantedSeat(s.grants, Seat(a.goal)) && !OnLedger(s, Seat(a.goal))
    ensures ReadAll(s1, a)
  {
  }

  lemma PlaceTakenAs(s: State, s': State, goal: Goal, x: SaleId, answers: bool, taken: Option<SaleId>)
    requires Unstarted(s, goal, x) && AmountAsAsked(s, goal.hosted) && !s.closed
    requires taken == (if KeepsPlace(s, goal.hold, answers) then Some(x) else None)
    requires if KeepsPlace(s, goal.hold, answers) then SameTables(Selling(s, goal.hosted, goal.hold, x), s')
             else SameTables(Refunding(s, goal.hosted, PlaceGone, Unexpired(s)), s')
    ensures TakenAs(s, s', goal.hosted, goal.hold, x, answers, taken)
  {
    hide KeepsPlace, SameTables, Selling, Refunding, Unexpired;
  }

  lemma UnhandledComesToThree(s: State, t: TxnId, goal: Goal, x: SaleId)
    requires Alone(s, t, goal, Unhandled) && Unstarted(s, goal, x)
    ensures if !AmountAsAsked(s, goal.hosted) then CanTurnAway(s, t, s.now, AmountMismatch)
            else if s.closed then CanBar(s, t)
            else CanClear(s, t)
  {
  }

  lemma Barring(s: State, t: TxnId, goal: Goal)
    requires Alone(s, t, goal, Unhandled) && CanBar(s, t)
    ensures var s' := Bar(s, t);
            Alone(s', t, goal, Barred) && SameTables(s, s') && CanTurnAway(s', t, s'.now, EventClosed)
  {
  }

  // ----- What placing a hold comes to -----

  predicate Unclaimed(s: State, seat: Option<SeatId>) {
    !SeatHeld(Unexpired(s), seat) && !GrantedSeat(s.grants, seat) && !OnLedger(s, seat)
  }

  /** Tickets the ledger counts that Kippu does not. */
  function Ahead(s: State): nat {
    Max(0, Issued(s) - |CountedGrants(s.grants)| - |ConfirmedHolds(Unexpired(s))|)
  }

  /** The seat is free, and one more fits the capacity and the quota on top of everything unexpired. */
  predicate HasPlace(s: State, cls: ClassId, seat: Option<SeatId>) {
    && Unclaimed(s, seat)
    && (s.ledger.capacity.Some? ==>
          |LiveHolds(Unexpired(s))| + |CountedGrants(s.grants)| + Ahead(s) + 1 <= s.ledger.capacity.value)
    && (cls in s.quotas ==> |LiveHoldsOf(Unexpired(s), cls)| + |CountedGrantsOf(s.grants, cls)| + 1 <= s.quotas[cls])
  }

  /** It has read everything a hold's place depends on. */
  predicate ReadAll(s: State, a: Alloc) {
    && CountedAll(s, a) && a.view == Some(View(s.ledger.status, s.ledger.capacity, Issued(s), s.closed)) && a.free.Some?
    && (a.free.value <==> !GrantedSeat(s.grants, Seat(a.goal)) && !OnLedger(s, Seat(a.goal)))
  }

  lemma RefusedMeansNoPlace(s: State, a: Alloc)
    requires ReadAll(s, a)
    ensures PlaceRefused(s, a) <==> !HasPlace(s, Cls(a.goal), Seat(a.goal))
  {
    hide LiveHolds, LiveHoldsOf, CountedGrants, CountedGrantsOf, ConfirmedHolds, QuotaHasRoom, Unexpired,
      Issued, GrantedSeat,
      OnLedger;
    var cls, seat := Cls(a.goal), Seat(a.goal);
    QuotaRoomMeans(Unexpired(s), s.grants, s.quotas, cls, seat);
    if s.ledger.capacity.Some? {
      CapacityRoomMeans(Unexpired(s), s.grants, s.quotas, cls, seat, s.ledger.capacity.value, Issued(s));
    }
  }

  function NewHold(s: State, cls: ClassId, seat: Option<SeatId>, price: Money): Hold {
    Hold(cls, seat, price, Outstanding, s.now + HOLD_LIFETIME, false)
  }

  /** Only holds changed. */
  predicate OnlyHolds(s: State, s': State, holds: Holds) {
    SameTables(s.(holds := holds), s')
  }

  lemma PlaceChanges(s: State, t: TxnId, goal: Goal)
    requires Alone(s, t, goal, Stage.Counted) && CountedAll(s, s.txns[t].a) && CanPlace(s, t) && goal.ToHold?
    ensures OnlyHolds(s, Place(s, t), Unexpired(s)[goal.hold := NewHold(s, goal.cls, goal.seat, goal.price)])
  {
  }

  lemma PlaceNothingChanges(s: State, t: TxnId, goal: Goal)
    requires Alone(s, t, goal, Stage.Counted) && CountedAll(s, s.txns[t].a) && CanPlaceNothing(s, t) && goal.ToHold?
    ensures OnlyHolds(s, CommitLapses(s, t), Unexpired(s))
  {
  }

  /** The checkout's hold is there already: outstanding still, or over. */
  lemma HeldAlready(s: State, t: TxnId, goal: Goal)
    requires Alone(s, t, goal, Stage.Counted) && CountedAll(s, s.txns[t].a) && goal.ToHold? && goal.hold in s.holds
    ensures CanPlaceNothing(s, t) <==> s.holds[goal.hold].status.Outstanding? && s.now < s.holds[goal.hold].expires
  {
  }

  lemma NewHoldIsDecided(s: State, t: TxnId, goal: Goal)
    requires Alone(s, t, goal, Stage.Counted) && ReadAll(s, s.txns[t].a) && goal.ToHold? && goal.hold !in s.holds
    ensures CanPlace(s, t) <==> s.ledger.status.Active? && !s.closed && HasPlace(s, goal.cls, goal.seat)
    ensures CanPlaceNothing(s, t) <==> s.ledger.status.Active? && !s.closed && !HasPlace(s, goal.cls, goal.seat)
  {
    hide HasPlace, PlaceRefused;
    RefusedMeansNoPlace(s, s.txns[t].a);
  }

  lemma SameTablesPlace(s: State, s1: State, s2: State, cls: ClassId, seat: Option<SeatId>)
    requires SameTables(s, s1)
    ensures HasPlace(s1, cls, seat) == HasPlace(s, cls, seat) && Unexpired(s1) == Unexpired(s)
    ensures forall holds | OnlyHolds(s1, s2, holds) :: OnlyHolds(s, s2, holds)
  {
  }

  lemma AbortLeaves(s: State, t: TxnId, goal: Goal, stage: Stage)
    requires Alone(s, t, goal, stage)
    ensures CanAbort(s, t) && Idle(Abort(s, t)) && SameTables(s, Abort(s, t))
  {
  }

  // ----- What reserving a granted issuance, and decreasing the capacity, come to -----

  /** As for a hold; an event no longer on sale leaves its capacity to the ledger. */
  predicate GrantHasPlace(s: State, cls: ClassId, seat: Option<SeatId>) {
    && Unclaimed(s, seat)
    && (s.ledger.status.Active? && s.ledger.capacity.Some? ==>
          |LiveHolds(Unexpired(s))| + |CountedGrants(s.grants)| + Ahead(s) + 1 <= s.ledger.capacity.value)
    && (cls in s.quotas ==> |LiveHoldsOf(Unexpired(s), cls)| + |CountedGrantsOf(s.grants, cls)| + 1 <= s.quotas[cls])
  }

  lemma ReserveIsDecided(s: State, t: TxnId, goal: Goal)
    requires Alone(s, t, goal, Stage.Counted) && ReadAll(s, s.txns[t].a) && goal.ToGrant?
    requires goal.grant !in s.grants && ByGrant(goal.grant) !in s.writes
    ensures CanReserve(s, t) <==> GrantHasPlace(s, goal.cls, goal.seat)
  {
    hide LiveHolds, LiveHoldsOf, CountedGrants, CountedGrantsOf, ConfirmedHolds, QuotaHasRoom, Unexpired,
      Issued, GrantedSeat,
      OnLedger;
    var a, cls, seat := s.txns[t].a, goal.cls, goal.seat;
    FreeIsTrue(a);
    QuotaRoomMeans(Unexpired(s), s.grants, s.quotas, cls, seat);
    if s.ledger.capacity.Some? {
      CapacityRoomMeans(Unexpired(s), s.grants, s.quotas, cls, seat, s.ledger.capacity.value, Issued(s));
    }
  }

  lemma FreeIsTrue(a: Alloc)
    requires a.free.Some?
    ensures a.free == Some(true) <==> a.free.value
  {
    if a.free.value {
      assert a.free == Some(true);
    }
  }

  /** The issuance reserved, its write not signed, the expired holds recorded as lapsed. */
  function GrantReserved(s: State, g: GrantId, cls: ClassId, seat: Option<SeatId>): State {
    s.(holds := Unexpired(s), grants := s.grants[g := Grant(cls, seat, Pending)], writes := s.writes[ByGrant(g) := Unsigned])
  }

  lemma ReserveChanges(s: State, t: TxnId, goal: Goal)
    requires Alone(s, t, goal, Stage.Counted) && CountedAll(s, s.txns[t].a) && CanReserve(s, t) && goal.ToGrant?
    ensures SameTables(GrantReserved(s, goal.grant, goal.cls, goal.seat), Reserve(s, t))
  {
  }

  lemma ReservedAlike(s: State, s1: State, g: GrantId, cls: ClassId, seat: Option<SeatId>)
    requires SameTables(s, s1)
    ensures GrantHasPlace(s1, cls, seat) == GrantHasPlace(s, cls, seat)
    ensures SameTables(GrantReserved(s, g, cls, seat), GrantReserved(s1, g, cls, seat))
  {
  }

  /** Everything a bound must hold: what is unexpired, and tickets the ledger counts beside it. */
  function Allocated(s: State): nat {
    |LiveHolds(Unexpired(s))| + |CountedGrants(s.grants)| + Ahead(s)
  }

  lemma AllocatedIsCounted(s: State)
    ensures AllocatedCount(Issued(s), CountsOf(Unexpired(s), s.grants, s.quotas, 0, None)) == Allocated(s)
  {
    hide LiveHolds, CountedGrants, ConfirmedHolds, UnissuedHolds, Unexpired, Issued;
    CountsAddUp(Unexpired(s), 0);
  }

  predicate RaisesBound(s: State, to: nat) {
    s.ledger.capacity.Some? && to > s.ledger.capacity.value
  }

  lemma LookingEarly(s: State, t: TxnId, goal: Goal)
    requires Alone(s, t, goal, Entered) && s.txns[t].a.view.None?
    ensures CanLook(s, t)
    ensures var s' := Look(s, t);
            Alone(s', t, goal, Entered) && SameTables(s, s')
            && s'.txns[t].a.view == Some(View(s.ledger.status, s.ledger.capacity, Issued(s), s.closed))
  {
  }

  lemma ShrinkIsDecided(s: State, t: TxnId, to: nat, stage: Stage)
    requires Alone(s, t, ToShrink(to), stage) && (stage.Entered? || stage.Counted?)
    requires s.txns[t].a.view == Some(View(s.ledger.status, s.ledger.capacity, Issued(s), s.closed))
    requires stage.Counted? <==> s.ledger.status.Active?
    requires stage.Counted? ==> CountedAll(s, s.txns[t].a)
    ensures CanShrink(s, t) <==> !RaisesBound(s, to) && (s.ledger.status.Active? ==> Allocated(s) <= to)
  {
    hide Allocated, AllocatedCount, Unexpired, Issued;
    AllocatedIsCounted(s);
  }

  function CapacityDecreased(s: State, to: nat): State {
    s.(ledger := s.ledger.(capacity := Some(to)), holds := if s.ledger.status.Active? then Unexpired(s) else s.holds)
  }

  lemma ShrinkWrites(s: State, t: TxnId, to: nat, stage: Stage)
    requires Alone(s, t, ToShrink(to), stage) && CanShrink(s, t)
    ensures var s1 := Shrink(s, t);
            && Alone(s1, t, ToShrink(to), Written) && CanKeepShrink(s1, t) && s1.txns[t].a.gone == s.txns[t].a.gone
            && SameTables(s.(ledger := s.ledger.(capacity := Some(to))), s1)
  {
    hide AllocatedCount, CountsSeen;
  }

  lemma ShrinkKeeps(s: State, t: TxnId)
    requires t in s.txns && s.txns[t].Allocating?
    ensures SameTables(s.(holds := Lapsing(s.holds, s.txns[t].a.gone)), CommitLapses(s, t))
  {
    hide Lapsing, Unlocked;
  }

  lemma ShrinkChanges(s: State, t: TxnId, to: nat, stage: Stage)
    requires Alone(s, t, ToShrink(to), stage) && CanShrink(s, t)
    requires s.txns[t].a.gone == (if s.ledger.status.Active? then ExpiredHolds(s.holds, s.now) else {})
    ensures var s1 := Shrink(s, t);
            && Alone(s1, t, ToShrink(to), Written) && CanKeepShrink(s1, t)
            && SameTables(CapacityDecreased(s, to), CommitLapses(s1, t))
  {
    assert Lapsing(s.holds, {}) == s.holds;
    hide CanShrink, Shrink, CanKeepShrink, CommitLapses, Lapsing, ExpiredHolds;
    ShrinkWrites(s, t, to, stage);
    ShrinkKeeps(Shrink(s, t), t);
  }

  lemma DecreasedAlike(s: State, s1: State, to: nat)
    requires SameTables(s, s1)
    ensures SameTables(CapacityDecreased(s, to), CapacityDecreased(s1, to)) && Allocated(s1) == Allocated(s)
    ensures RaisesBound(s1, to) == RaisesBound(s, to)
  {
  }

  datatype Decrease = Decreased | NeedsProof | BelowIssuance

  predicate DecreasedAs(s: State, s': State, to: nat, outcome: Decrease) {
    if RaisesBound(s, to) then outcome.NeedsProof? && SameTables(s, s')
    else if s.ledger.status.Active? && Allocated(s) > to then outcome.BelowIssuance? && SameTables(s, s')
    else outcome.Decreased? && SameTables(CapacityDecreased(s, to), s')
  }

  // ----- What starting a payment, and cancelling one, come to -----

  /** Only this payment is being started. */
  predicate PayAlone(s: State, t: TxnId, h: HoldId, pay: PayStage) {
    s.lock.None? && s.rows == map[h := t] && s.txns == map[t := Paying(h, pay)] && h in s.holds
  }

  predicate StillPayable(s: State, h: HoldId) {
    h in s.holds && s.holds[h].status.Outstanding? && s.now < s.holds[h].expires
  }

  lemma PayStarts(s: State, t: TxnId, h: HoldId)
    requires Idle(s) && StillPayable(s, h)
    ensures CanPay(s, t, h)
    ensures PayAlone(SaleProtocol.Pay(s, t, h), t, h, PayStarted) && SameTables(s, SaleProtocol.Pay(s, t, h))
  {
  }

  lemma PayClears(s: State, t: TxnId, h: HoldId)
    requires PayAlone(s, t, h, PayStarted) && !s.closed
    ensures CanPayClear(s, t)
    ensures PayAlone(PayClear(s, t), t, h, PayCleared) && SameTables(s, PayClear(s, t))
  {
  }

  lemma PayFinds(s: State, t: TxnId, h: HoldId, k: HostedId)
    requires PayAlone(s, t, h, PayCleared) && OpenRow(s, k, h) && k in s.remote && s.remote[k].status.Paid?
    ensures CanPayFound(s, t, k)
    ensures Idle(PayFound(s, t, k)) && SameTables(PaidRow(s, k), PayFound(s, t, k))
  {
  }

  predicate Replaceable(s: State, h: HoldId, prior: Option<HostedId>) {
    if prior.None? then NoOtherOpen(s, h, {})
    else OpenRow(s, prior.value, h) && prior.value in s.remote
         && (s.remote[prior.value].status.Expired? || s.remote[prior.value].status.Cancelled?)
  }

  lemma PayReplaces(s: State, t: TxnId, h: HoldId, prior: Option<HostedId>)
    requires PayAlone(s, t, h, PayCleared) && Replaceable(s, h, prior)
    ensures CanPayReplace(s, t, prior)
    ensures PayAlone(PayReplace(s, t, prior), t, h, PayReady(prior)) && SameTables(s, PayReplace(s, t, prior))
  {
  }

  function Created(s: State, h: HoldId, k: HostedId): State
    requires h in s.holds
  {
    s.(remote := s.remote[k := Remote(Open, s.holds[h].price)])
  }

  lemma PayCreates(s: State, t: TxnId, h: HoldId, prior: Option<HostedId>, k: HostedId)
    requires PayAlone(s, t, h, PayReady(prior)) && k !in s.remote && k !in s.hosted
    ensures CanPayCreate(s, t, k)
    ensures PayAlone(PayCreate(s, t, k), t, h, PayCreated(prior, k)) && SameTables(Created(s, h, k), PayCreate(s, t, k))
  {
    assert s.txns[t] == Paying(h, PayReady(prior));
  }

  lemma CreatedAlike(s: State, s1: State, h: HoldId, k: HostedId)
    requires SameTables(s, s1) && h in s.holds
    ensures h in s1.holds && SameTables(Created(s, h, k), Created(s1, h, k))
  {
  }

  /** The checkout a payment leaves: recorded with what it replaced, its hold extended by five minutes unless it was. */
  function PaymentStarted(s: State, h: HoldId, prior: Option<HostedId>, k: HostedId): State
    requires h in s.holds && Replaceable(s, h, prior)
  {
    var hold := s.holds[h];
    var hosted := if prior.None? then s.hosted else SetHosted(s.hosted, prior.value, s.remote[prior.value].status);
    Created(s, h, k).(
      hosted := hosted[k := Hosted(h, hold.price, Open)],
      holds := s.holds[h := if hold.extended then hold else hold.(expires := hold.expires + HOLD_EXTENSION, extended := true)])
  }

  lemma PayCommits(s: State, s1: State, t: TxnId, h: HoldId, prior: Option<HostedId>, k: HostedId)
    requires h in s.holds && Replaceable(s, h, prior) && k !in s.remote && k !in s.hosted
    requires PayAlone(s1, t, h, PayCreated(prior, k)) && SameTables(Created(s, h, k), s1) && OpenRowsOk(s.hosted)
    ensures CanPayCommit(s1, t)
    ensures Idle(PayCommit(s1, t)) && SameTables(PaymentStarted(s, h, prior, k), PayCommit(s1, t))
  {
    hide PayCommit, Unlocked;
    OnlyOpen(s, s1, h, prior);
    PayCommitIsOver(s1, t, h, prior, k);
    assert s.holds[h := s.holds[h]] == s.holds;
  }

  /** The store's unique index: a hold's open row is its only one. */
  lemma OnlyOpen(s: State, s1: State, h: HoldId, prior: Option<HostedId>)
    requires Replaceable(s, h, prior) && OpenRowsOk(s.hosted) && s1.hosted == s.hosted
    ensures NoOtherOpen(s1, h, if prior.Some? then {prior.value} else {})
  {
    forall k | k in s1.hosted && (prior.Some? ==> k != prior.value) ensures !OpenRow(s1, k, h) {
      if prior.None? {
        assert !OpenRow(s, k, h);
      }
    }
  }

  lemma PayCommitIsOver(s: State, t: TxnId, h: HoldId, prior: Option<HostedId>, k: HostedId)
    requires PayAlone(s, t, h, PayCreated(prior, k)) && k !in s.hosted && k in s.remote
    requires NoOtherOpen(s, h, if prior.Some? then {prior.value} else {})
    requires prior.Some? ==> prior.value in s.hosted && prior.value in s.remote
    ensures CanPayCommit(s, t)
    ensures var s' := PayCommit(s, t);
            && Idle(s') && s'.hosted == RetiredRows(s, t)[k := Hosted(h, s.holds[h].price, Open)]
            && s'.holds == (if s.holds[h].extended then s.holds else s.holds[h := Extended(s.holds[h])])
            && SameTables(s.(hosted := s'.hosted, holds := s'.holds), s')
  {
    hide RetiredRows;
  }

  lemma PayLeaves(s: State, t: TxnId, h: HoldId, pay: PayStage)
    requires PayAlone(s, t, h, pay)
    ensures CanAbort(s, t) && Idle(Abort(s, t)) && SameTables(s, Abort(s, t))
  {
  }

  datatype PaymentStart = Started | Reused(open: HostedId) | AlreadyPaid(paid: HostedId) | HoldOver | SalesShut

  /** What starting a payment comes to. */
  predicate StartedAs(s: State, s': State, h: HoldId, k: HostedId, open: Option<HostedId>, outcome: PaymentStart) {
    if !StillPayable(s, h) then outcome.HoldOver? && SameTables(s, s')
    else if s.closed then outcome.SalesShut? && SameTables(s, s')
    else if open.Some? && open.value in s.remote && s.remote[open.value].status.Open? then
      outcome == Reused(open.value) && SameTables(s, s')
    else if open.Some? && open.value in s.remote && s.remote[open.value].status.Paid? then
      outcome == AlreadyPaid(open.value) && open.value in s.hosted && SameTables(PaidRow(s, open.value), s')
    else outcome.Started? && Replaceable(s, h, open) && SameTables(PaymentStarted(s, h, open, k), s')
  }

  /** The hold's open hosted checkout, if it has one. */
  predicate IsOpen(s: State, h: HoldId, open: Option<HostedId>) {
    if open.Some? then OpenRow(s, open.value, h) && open.value in s.remote else NoOtherOpen(s, h, {})
  }

  /** The hold is payable, and its open checkout turns out paid. */
  predicate FoundPaid(s: State, h: HoldId, open: Option<HostedId>) {
    StillPayable(s, h) && !s.closed && open.Some? && open.value in s.remote && s.remote[open.value].status.Paid?
  }

  /** A payment the provider reports: handled already, or taken as its place allows. */
  predicate Reconciled(s: State, s': State, k: HostedId, x: SaleId, answers: bool, taken: Option<SaleId>) {
    && k in s.hosted
    && if Handled(s, k) then taken.None? && SameTables(PaidRow(s, k), s')
       else TakenAs(s, s', k, s.hosted[k].hold, x, answers, taken)
  }

  lemma HoldIsKnown(s: State, k: HostedId)
    requires Safe(s) && k in s.hosted
    ensures s.hosted[k].hold in s.holds
  {
    assert HostedOk(s.holds, s.hosted, s.remote);
  }

  lemma StartAnswers(s: State, s': State, h: HoldId, k: HostedId, open: Option<HostedId>, outcome: PaymentStart)
    requires StartedAs(s, s', h, k, open, outcome) && IsOpen(s, h, open)
    ensures outcome.AlreadyPaid? <==> FoundPaid(s, h, open)
    ensures outcome.AlreadyPaid? ==>
              && outcome == AlreadyPaid(open.value) && open.value in s.hosted && SameTables(PaidRow(s, open.value), s')
              && s'.sales == s.sales && open.value in s'.hosted && open.value in s'.remote && s'.remote[open.value].status.Paid?
  {
    hide PaymentStarted, Replaceable;
  }

  /** A row recorded as paid once more says the same. */
  lemma FoundIsTaken(s: State, s': State, k: HostedId, h: HoldId, x: SaleId, answers: bool, taken: Option<SaleId>)
    requires k in s.hosted && TakenAs(PaidRow(s, k), s', k, h, x, answers, taken)
    ensures TakenAs(s, s', k, h, x, answers, taken)
  {
    hide KeepsPlace, EndHold, Unexpired, Refunding, Selling, SameTables;
    FoundKeepsPlace(s, k, h, answers);
    FoundTwice(s, k, h, x);
  }

  lemma FoundTwice(s: State, k: HostedId, h: HoldId, x: SaleId)
    requires k in s.hosted && k in s.remote && h in s.holds
    ensures PaidRow(PaidRow(s, k), k) == PaidRow(s, k)
    ensures forall reason, holds :: Refunding(PaidRow(s, k), k, reason, holds) == Refunding(s, k, reason, holds)
    ensures Selling(PaidRow(s, k), k, h, x) == Selling(s, k, h, x)
  {
    hide Unexpired, SetHold;
    assert SetHosted(SetHosted(s.hosted, k, Paid), k, Paid) == SetHosted(s.hosted, k, Paid);
    assert Unexpired(PaidRow(s, k)) == Unexpired(s) by {
      UnexpiredOfPaid(s, k);
    }
  }

  lemma UnexpiredOfPaid(s: State, k: HostedId)
    requires k in s.hosted
    ensures Unexpired(PaidRow(s, k)) == Unexpired(s)
  {
  }

  lemma FoundKeepsPlace(s: State, k: HostedId, h: HoldId, answers: bool)
    requires k in s.hosted && h in s.holds
    ensures KeepsPlace(PaidRow(s, k), h, answers) == KeepsPlace(s, h, answers) && Unexpired(PaidRow(s, k)) == Unexpired(s)
  {
    var s1 := PaidRow(s, k);
    assert forall seat :: OnLedger(s1, seat) == OnLedger(s, seat) by {
      assert forall c :: SeatOf(s1, c) == SeatOf(s, c);
    }
    assert Issued(s1) == Issued(s);
    hide OnLedger, Issued, LiveHolds, LiveHoldsOf, CountedGrants, CountedGrantsOf, ConfirmedHolds, SeatHeld, GrantedSeat;
  }

  lemma FoundIsReconciled(s: State, s1: State, s2: State, k: HostedId, x: SaleId, answers: bool, taken: Option<SaleId>)
    requires k in s.hosted && SameTables(PaidRow(s, k), s1) && Reconciled(s1, s2, k, x, answers, taken)
    ensures Reconciled(s, s2, k, x, answers, taken)
  {
    var paid := PaidRow(s, k);
    assert Handled(s1, k) == Handled(s, k) && s1.hosted[k].hold == s.hosted[k].hold;
    if Handled(s, k) {
      PaidRowCarries(paid, s1, s2, k);
      assert SetHosted(SetHosted(s.hosted, k, Paid), k, Paid) == SetHosted(s.hosted, k, Paid);
      assert PaidRow(paid, k) == PaidRow(s, k);
    } else {
      hide SameTables, PaidRow, TakenAs;
      TakingCarries(paid, s1, s2, k, s.hosted[k].hold, x, answers, taken);
      FoundIsTaken(s, s2, k, s.hosted[k].hold, x, answers, taken);
    }
  }

  lemma LeftIsReconciled(s: State, s1: State, s2: State, k: HostedId, x: SaleId, answers: bool, taken: Option<SaleId>)
    requires SameTables(s, s1) && Reconciled(s1, s2, k, x, answers, taken)
    ensures Reconciled(s, s2, k, x, answers, taken)
  {
    assert Handled(s1, k) == Handled(s, k) && s1.hosted == s.hosted;
    hide PaidRow, TakenAs, Handled;
    if Handled(s, k) {
      PaidRowCarries(s, s1, s2, k);
    } else {
      TakingCarries(s, s1, s2, k, s.hosted[k].hold, x, answers, taken);
    }
  }

  predicate CancelFindsPaid(s: State, open: Option<HostedId>) {
    open.Some? && open.value in s.remote && s.remote[open.value].status.Paid?
  }

  /** A checkout that turned out paid leaves everything as it was. */
  lemma CancelAnswers(s: State, s1: State, h: HoldId, open: Option<HostedId>)
    requires h in s.holds && IsOpen(s, h, open) && SameTables(HoldCancelled(s, h, open), s1)
    ensures CancelFindsPaid(s1, open) == CancelFindsPaid(s, open) && s1.sales == s.sales
    ensures CancelFindsPaid(s, open) ==>
              SameTables(s, s1) && open.value in s1.hosted && open.value in s1.remote && s1.remote[open.value].status.Paid?
  {
    hide NoOtherOpen;
  }

  /** Only this hold is being ended, by its buyer. */
  predicate CancelAlone(s: State, t: TxnId, h: HoldId, end: EndStage) {
    s.lock.None? && s.rows == map[h := t] && s.txns == map[t := SaleProtocol.Ending(h, None, end)] && h in s.holds
  }

  lemma CancelStarts(s: State, t: TxnId, h: HoldId)
    requires Idle(s) && h in s.holds && s.holds[h].status.Outstanding?
    ensures CanEnd(s, t, h, None)
    ensures CancelAlone(End(s, t, h, None), t, h, EndStarted) && SameTables(s, End(s, t, h, None))
  {
  }

  function CheckoutCancelled(s: State, open: Option<HostedId>): State
    requires open.Some? ==> open.value in s.remote
  {
    s.(remote := if open.None? then s.remote else CancelRemote(s.remote, open.value))
  }

  lemma CancelledAlike(s: State, s1: State, open: Option<HostedId>)
    requires SameTables(s, s1) && (open.Some? ==> open.value in s.remote)
    ensures SameTables(CheckoutCancelled(s, open), CheckoutCancelled(s1, open))
  {
  }

  lemma CancelAsks(s: State, t: TxnId, h: HoldId, open: Option<HostedId>)
    requires CancelAlone(s, t, h, EndStarted) && IsOpen(s, h, open)
    ensures CanEndCancel(s, t, open)
    ensures var s' := EndCancel(s, t, open);
            CancelAlone(s', t, h, EndReady(open)) && SameTables(CheckoutCancelled(s, open), s')
  {
    hide NoOtherOpen, CancelRemote;
    assert s.txns[t] == SaleProtocol.Ending(h, None, EndStarted);
  }

  /** The hold over and its checkout recorded as it ended, unless that turned out paid. */
  function HoldCancelled(s: State, h: HoldId, open: Option<HostedId>): State
    requires h in s.holds && IsOpen(s, h, open)
  {
    var paid := open.Some? && s.remote[open.value].status.Paid?;
    var gone := CheckoutCancelled(s, open);
    var hold := s.holds[h];
    gone.(hosted := if open.None? || paid then s.hosted else SetHosted(s.hosted, open.value, gone.remote[open.value].status),
          holds := if paid then s.holds
                   else s.holds[h := hold.(status := if hold.expires <= s.now then Lapsed else Released)])
  }

  lemma CancelEnds(s: State, s1: State, t: TxnId, h: HoldId, open: Option<HostedId>)
    requires h in s.holds && s.holds[h].status.Outstanding? && IsOpen(s, h, open)
    requires CancelAlone(s1, t, h, EndReady(open)) && SameTables(CheckoutCancelled(s, open), s1)
    ensures CanEndCommit(s1, t)
    ensures Idle(EndCommit(s1, t)) && SameTables(HoldCancelled(s, h, open), EndCommit(s1, t))
  {
    hide EndCommit, Unlocked, NoOtherOpen;
    CancelIsOver(s1, t, h, open);
  }

  lemma CancelIsOver(s: State, t: TxnId, h: HoldId, open: Option<HostedId>)
    requires CancelAlone(s, t, h, EndReady(open)) && (open.Some? ==> open.value in s.hosted && open.value in s.remote)
    ensures CanEndCommit(s, t)
    ensures var s' := EndCommit(s, t);
            && Idle(s') && s'.hosted == EndedRows(s, t)
            && s'.holds == (if PaidFirst(s, t) then s.holds else EndHold(s.holds, h, s.now))
            && SameTables(s.(hosted := s'.hosted, holds := s'.holds), s')
  {
    hide EndedRows, EndHold;
  }

  // ----- What releasing everything does, a transaction at a time -----

  /** A `releaseAll` at work under its closure, its visits and payments of known holds and checkouts. */
  predicate Draining(s: State, r: DrainId) {
    && r in s.drains && s.drains[r].listed && !s.drains[r].done && s.drains[r].epoch == s.epoch && s.closed
    && s.drains[r].todo <= s.holds.Keys
    && forall k | k in s.drains[r].paid :: k in s.hosted && k in s.remote && s.remote[k].status.Paid? && s.hosted[k].hold in s.holds
  }

  lemma CloseChanges(s: State, t: TxnId, r: DrainId)
    requires Alone(s, t, ToClose(r), Entered) && r !in s.drains
    ensures CanClose(s, t)
    ensures var s' := Close(s, t);
            && r in s'.drains && s'.drains[r] == Drain(s'.epoch, false, {}, {}, false) && s'.closed
            && s'.sales == s.sales && s'.ledger == s.ledger
            && s'.writes == s.writes
  {
  }

  lemma ListChanges(s: State, r: DrainId)
    requires r in s.drains && s.drains[r] == Drain(s.epoch, false, {}, {}, false) && s.closed
    ensures CanList(s, r)
    ensures var s' := List(s, r);
            && Draining(s', r) && s'.sales == s.sales && s'.ledger == s.ledger && s'.writes == s.writes && s'.txns == s.txns
            && s'.rows == s.rows && s'.lock == s.lock
  {
  }

  /** Only this visit is in progress. */
  predicate VisitAlone(s: State, t: TxnId, r: DrainId, h: HoldId, end: EndStage) {
    s.lock.None? && s.rows == map[h := t] && s.txns == map[t := SaleProtocol.Ending(h, Some(r), end)]
  }

  lemma VisitStarts(s: State, t: TxnId, r: DrainId, h: HoldId)
    requires Idle(s) && Draining(s, r) && h in s.drains[r].todo
    ensures CanEnd(s, t, h, Some(r))
    ensures var s' := End(s, t, h, Some(r));
            VisitAlone(s', t, r, h, EndStarted) && Draining(s', r) && s'.drains == s.drains && s'.sales == s.sales && s'.ledger == s.ledger
  {
  }

  lemma VisitCancels(s: State, t: TxnId, r: DrainId, h: HoldId, open: Option<HostedId>)
    requires VisitAlone(s, t, r, h, EndStarted) && Draining(s, r) && h in s.drains[r].todo
    requires if open.Some? then OpenRow(s, open.value, h) && open.value in s.remote else NoOtherOpen(s, h, {})
    ensures CanEndCancel(s, t, open)
    ensures var s' := EndCancel(s, t, open);
            && VisitAlone(s', t, r, h, EndReady(open)) && Draining(s', r) && s'.drains == s.drains
            && s'.sales == s.sales && s'.ledger == s.ledger
            && s'.writes == s.writes && (open.Some? ==> OpenRow(s', open.value, h) && open.value in s'.remote)
  {
  }

  lemma VisitEnds(s: State, t: TxnId, r: DrainId, h: HoldId, open: Option<HostedId>)
    requires VisitAlone(s, t, r, h, EndReady(open)) && Draining(s, r) && h in s.drains[r].todo
    requires open.Some? ==> OpenRow(s, open.value, h) && open.value in s.remote
    ensures CanEndCommit(s, t)
    ensures var s' := EndCommit(s, t);
            && Idle(s') && Draining(s', r) && r in s'.drains && s'.drains[r].todo == s.drains[r].todo - {h}
            && s'.sales == s.sales && s'.ledger == s.ledger
            && s'.writes == s.writes
  {
    hide EndCommit, Unlocked, EndedRows, HoldsEnded;
    VisitEndFrame(s, t, r, h, open);
  }

  lemma VisitEndFrame(s: State, t: TxnId, r: DrainId, h: HoldId, open: Option<HostedId>)
    requires VisitAlone(s, t, r, h, EndReady(open)) && Draining(s, r) && h in s.drains[r].todo
    requires open.Some? ==> OpenRow(s, open.value, h) && open.value in s.remote
    ensures CanEndCommit(s, t)
    ensures var s' := EndCommit(s, t);
            && s'.lock.None? && s'.rows == Unlocked(s.rows, t) && s'.txns == s.txns - {t} && s'.drains == Visited(s, t)
            && s'.remote == s.remote && s'.holds.Keys == s.holds.Keys && s'.hosted.Keys == s.hosted.Keys
            && s'.sales == s.sales && s'.ledger == s.ledger && s'.writes == s.writes && s'.closed == s.closed && s'.epoch == s.epoch
            && forall k | k in s.hosted :: s'.hosted[k].hold == s.hosted[k].hold
  {
    hide Visited;
  }

  /**
    The hold visited, whatever its lifetime: released if outstanding and its open checkout
    recorded as it ended, unless that turned out paid, and then it is kept for reconciliation.
   */
  function HoldVisited(s: State, r: DrainId, h: HoldId, open: Option<HostedId>): State
    requires r in s.drains && h in s.holds && IsOpen(s, h, open)
  {
    var paid := open.Some? && s.remote[open.value].status.Paid?;
    var gone := CheckoutCancelled(s, open);
    var d := s.drains[r];
    gone.(hosted := if open.None? || paid then s.hosted else SetHosted(s.hosted, open.value, gone.remote[open.value].status),
          holds := if paid || !s.holds[h].status.Outstanding? then s.holds else SetHold(s.holds, h, Released),
          drains := s.drains[r := d.(todo := d.todo - {h}, paid := if paid then d.paid + {open.value} else d.paid)])
  }

  lemma VisitBegins(s: State, t: TxnId, r: DrainId, h: HoldId)
    requires Idle(s) && Draining(s, r) && h in s.drains[r].todo
    ensures SameTables(s, End(s, t, h, Some(r)))
  {
  }

  lemma VisitAsks(s: State, t: TxnId, r: DrainId, h: HoldId, open: Option<HostedId>)
    requires VisitAlone(s, t, r, h, EndStarted) && h in s.holds && IsOpen(s, h, open) && CanEndCancel(s, t, open)
    ensures SameTables(CheckoutCancelled(s, open), EndCancel(s, t, open))
  {
    hide NoOtherOpen, CancelRemote;
  }

  lemma VisitCommits(s: State, t: TxnId, r: DrainId, h: HoldId, open: Option<HostedId>)
    requires VisitAlone(s, t, r, h, EndReady(open)) && h in s.holds && CanEndCommit(s, t)
    ensures var s' := EndCommit(s, t);
            && s'.hosted == EndedRows(s, t) && s'.drains == Visited(s, t)
            && s'.holds == (if PaidFirst(s, t) then s.holds else HoldsEnded(s, t))
            && SameTables(s.(hosted := s'.hosted, holds := s'.holds, drains := s'.drains), s')
  {
    hide EndedRows, HoldsEnded, Visited, PaidFirst;
  }

  lemma VisitIsDone(s: State, s1: State, t: TxnId, r: DrainId, h: HoldId, open: Option<HostedId>)
    requires r in s.drains && h in s.holds && IsOpen(s, h, open) && VisitAlone(s1, t, r, h, EndReady(open))
    requires SameTables(CheckoutCancelled(s, open), s1) && CanEndCommit(s1, t)
    ensures SameTables(HoldVisited(s, r, h, open), EndCommit(s1, t))
  {
    hide EndCommit, NoOtherOpen, SetHold;
    VisitCommits(s1, t, r, h, open);
  }

  /** With sales closed a payment starts no sale, and leaves what drains to its visits. */
  lemma ClosedPaymentKeepsDraining(s: State, s': State, r: DrainId, k: HostedId, h: HoldId, x: SaleId, taken: Option<SaleId>)
    requires Draining(s, r) && k in s.drains[r].paid
    requires if Handled(s, k) then SameTables(PaidRow(s, k), s') else TakenAs(s, s', k, h, x, false, taken)
    ensures Draining(s', r) && s'.drains == s.drains && s'.sales == s.sales && s'.ledger == s.ledger && Handled(s', k)
    ensures forall k' | Handled(s, k') :: Handled(s', k')
  {
    hide KeepsPlace, Unexpired, PaidRow, TakenAs, SameTables;
    if Handled(s, k) {
      PaidRowFrame(s, s', k);
    } else {
      TakenFrame(s, s', k, h, x, false, taken);
    }
    assert s'.sales == s.sales && s.refunds.Keys <= s'.refunds.Keys;
  }

  lemma ReturnChanges(s: State, r: DrainId)
    requires Draining(s, r) && s.drains[r].todo == {} && forall k | k in s.drains[r].paid :: Handled(s, k)
    ensures CanReturn(s, r)
    ensures var s' := Return(s, r);
            Returned(s', r) && s'.sales == s.sales && s'.ledger == s.ledger && s'.txns == s.txns && s'.rows == s.rows && s'.lock == s.lock
  {
  }

  // ----- What a sweep does, a statement at a time -----

  /** Open rows whose hold ended. */
  function EndedOpen(s: State): set<HostedId> {
    set k | k in s.hosted && s.hosted[k].status.Open? && s.hosted[k].hold in s.holds
            && (s.holds[s.hosted[k].hold].status.Lapsed? || s.holds[s.hosted[k].hold].status.Released?)
  }

  /** Swept: the row says the checkout ended, as the provider does. */
  predicate SweptRow(s: State, k: HostedId) {
    k in s.hosted && k in s.remote && !s.hosted[k].status.Open? && !s.remote[k].status.Open?
  }

  predicate KnownRow(s: State, k: HostedId) {
    k in s.hosted && k in s.remote && s.hosted[k].hold in s.holds
  }

  lemma SweepLapses(s: State)
    requires Idle(s)
    ensures CanLapse(s, ExpiredHolds(s.holds, s.now))
    ensures var s' := Lapse(s, ExpiredHolds(s.holds, s.now)); Idle(s') && s'.polls == s.polls
  {
  }

  /** The provider's answer: how the checkout ended. */
  predicate EndedAnswer(s: State, p: PollId, k: HostedId) {
    && KnownRow(s, k) && p in s.polls && s.polls[p].hosted == k && !s.polls[p].answer.Open?
    && s.remote[k].status == s.polls[p].answer
  }

  /** Holds, the clock and whose each row is stay the same, and what was swept stays swept. */
  ghost predicate SweepFrame(s: State, s': State) {
    && s'.now == s.now && s'.holds == s.holds && s.hosted.Keys <= s'.hosted.Keys && s.remote.Keys <= s'.remote.Keys
    && (forall k | k in s.hosted :: s'.hosted[k].hold == s.hosted[k].hold) && (forall j | SweptRow(s, j) :: SweptRow(s', j))
  }

  lemma SweepCancels(s: State, p: PollId, k: HostedId)
    requires Idle(s) && p !in s.polls && KnownRow(s, k)
    ensures CanPoll(s, p, k)
    ensures var s' := SweepCancel(s, p, k);
            Idle(s') && EndedAnswer(s', p, k) && s'.polls - {p} == s.polls && SweepFrame(s, s')
  {
  }

  lemma SweepRecords(s: State, p: PollId, k: HostedId)
    requires Idle(s) && EndedAnswer(s, p, k) && !s.polls[p].answer.Paid?
    ensures CanRecord(s, p)
    ensures var s' := Record(s, p); Idle(s') && s'.polls == s.polls - {p} && SweptRow(s', k) && SweepFrame(s, s')
  {
  }

  lemma SweepDrops(s: State, p: PollId)
    requires Idle(s)
    ensures var s' := DropPoll(s, p);
            Idle(s') && s'.polls == s.polls - {p} && s'.remote == s.remote && SweepFrame(s, s')
  {
  }

  /** A handled payment's row is swept. */
  lemma PaymentSweeps(s: State, s': State, k: HostedId, h: HoldId, x: SaleId, answers: bool, taken: Option<SaleId>)
    requires k in s.hosted && k in s.remote && s.remote[k].status.Paid? && h in s.holds
    requires if Handled(s, k) then SameTables(PaidRow(s, k), s') else TakenAs(s, s', k, h, x, answers, taken)
    ensures SweptRow(s', k) && s'.polls == s.polls && forall j | SweptRow(s, j) :: SweptRow(s', j)
  {
    hide KeepsPlace, Unexpired, EndHold, Handled, PaidRow, TakenAs, SameTables;
    if Handled(s, k) {
      PaidRowFrame(s, s', k);
    } else {
      TakenFrame(s, s', k, h, x, answers, taken);
    }
  }

  /**
    A sweep under way since `u`, where every expired hold had lapsed: the rows it cancels
    are of holds that ended, and of those some may be issuing for a payment found.
   */
  ghost predicate Sweeps(u: State, s: State, ended: set<HostedId>) {
    && s.now == u.now && s.holds.Keys == u.holds.Keys && (forall h | h in u.holds :: LapsedOrTaken(u.holds[h], s.holds[h]))
    && (forall h | h in u.holds :: !u.holds[h].Expired(u.now))
    && (forall k | k in ended ::
          && KnownRow(s, k) && k in u.hosted && s.hosted[k].hold == u.hosted[k].hold
          && u.hosted[k].hold in u.holds && HasEnded(u.holds[u.hosted[k].hold].status))
  }

  /** As it was, or it ended and is now issuing. */
  predicate LapsedOrTaken(was: Hold, hold: Hold) {
    hold == was || (HasEnded(was.status) && hold == was.(status := Issuing))
  }

  lemma SweepStarts(s: State, u: State)
    requires u == Lapse(s, ExpiredHolds(s.holds, s.now)) && forall k | k in EndedOpen(u) :: KnownRow(u, k)
    ensures Sweeps(u, u, EndedOpen(u)) && u.holds == Unexpired(s)
  {
  }

  /** Neither a hold nor whose a row is changed. */
  lemma SweepGoesOn(u: State, s: State, s': State, ended: set<HostedId>)
    requires Sweeps(u, s, ended) && SweepFrame(s, s')
    ensures Sweeps(u, s', ended)
  {
  }

  lemma NothingExpires(u: State, s: State, ended: set<HostedId>)
    requires Sweeps(u, s, ended)
    ensures Unexpired(s) == s.holds
  {
    assert forall h | h in s.holds :: LapsedOrTaken(u.holds[h], s.holds[h]);
  }

  lemma SweepKnows(u: State, s: State, ended: set<HostedId>, k: HostedId)
    requires Sweeps(u, s, ended) && k in ended
    ensures KnownRow(s, k)
  {
  }

  lemma SweepIsDone(u: State, s: State, ended: set<HostedId>)
    requires Sweeps(u, s, ended)
    ensures s.holds.Keys == u.holds.Keys && forall h | h in s.holds :: LapsedOrTaken(u.holds[h], s.holds[h])
  {
  }

  /** A payment found takes the place of its hold, or leaves every hold as it is. */
  lemma TakingSweeps(u: State, s: State, s': State, ended: set<HostedId>, k: HostedId, x: SaleId, answers: bool,
                     taken: Option<SaleId>)
    requires Sweeps(u, s, ended) && k in ended
    requires if Handled(s, k) then SameTables(PaidRow(s, k), s') else TakenAs(s, s', k, s.hosted[k].hold, x, answers, taken)
    ensures Sweeps(u, s', ended)
  {
    hide Unexpired, HasPlace, Handled, EndHold, PaidRow, TakenAs, SameTables, Sweeps, SetHold;
    EndedStays(u, s, ended, k);
    var h := s.hosted[k].hold;
    if Handled(s, k) {
      PaidRowFrame(s, s', k);
      SweepGoesOn(u, s, s', ended);
    } else {
      TakenFrame(s, s', k, h, x, answers, taken);
      if s'.holds == s.holds {
        SweepGoesOn(u, s, s', ended);
      } else {
        TakingGoesOn(u, s, s', ended, k);
      }
    }
  }

  /** In a sweep no hold expires any more, and none it visits is ended again. */
  lemma EndedStays(u: State, s: State, ended: set<HostedId>, k: HostedId)
    requires Sweeps(u, s, ended) && k in ended
    ensures k in s.hosted && k in s.remote && s.hosted[k].hold in s.holds
    ensures !s.holds[s.hosted[k].hold].status.Outstanding?
    ensures Unexpired(s) == s.holds && EndHold(s.holds, s.hosted[k].hold, s.now) == s.holds
  {
    hide Unexpired;
    NothingExpires(u, s, ended);
    assert LapsedOrTaken(u.holds[s.hosted[k].hold], s.holds[s.hosted[k].hold]);
  }

  lemma TakingGoesOn(u: State, s: State, s': State, ended: set<HostedId>, k: HostedId)
    requires Sweeps(u, s, ended) && k in ended && PaymentFrame(s, s', k) && s.hosted[k].hold in s.holds
    requires s'.holds == SetHold(s.holds, s.hosted[k].hold, Issuing) && HasEnded(s.holds[s.hosted[k].hold].status)
    ensures Sweeps(u, s', ended)
  {
  }

  lemma {:induction false} UnusedId(used: set<nat>) returns (x: nat)
    ensures x !in used && forall y | y in used :: y < x
    decreases |used|
  {
    if used == {} {
      x := 0;
    } else {
      var y :| y in used;
      var above := UnusedId(used - {y});
      x := Max(above, y + 1);
      assert used == (used - {y}) + {y};
    }
  }

  // ----- What recording a cancelled event's refunds does -----

  /** The sale's payment is refunded for the cancellation, and nothing else changed. */
  predicate RefundAdded(s: State, s': State, x: SaleId) {
    && s'.sales == s.sales && s'.writes == s.writes && s'.ledger == s.ledger && x in s.sales
    && s'.refunds.Keys == s.refunds.Keys + {s.sales[x].hosted} && s'.refunds[s.sales[x].hosted].reason.EventCancelled?
    && forall k | k in s.refunds :: s'.refunds[k] == s.refunds[k]
  }

  lemma RefundChanges(s: State, x: SaleId)
    requires Idle(s) && s.ledger.status.EventOff? && Refundable(s, x) && s.sales[x].hold in s.holds
    requires s.sales[x].hosted !in s.refunds
    ensures CanRefundTicket(s, x)
    ensures Idle(RefundTicket(s, x)) && RefundAdded(s, RefundTicket(s, x), x)
  {
  }

  lemma SaleHoldIsKnown(s: State, x: SaleId)
    requires Safe(s) && x in s.sales
    ensures s.sales[x].hold in s.holds
  {
    assert EndedOk(s.refunds, s.sales, s.hosted, s.holds);
  }

  /** A recording under way: what it has left to look at, and how many refunds it has recorded. */
  ghost predicate Recording(s: State, s': State, left: set<SaleId>, recorded: nat) {
    && s'.sales == s.sales && s'.writes == s.writes && s'.ledger == s.ledger && left <= s.sales.Keys
    && (forall x | Refundable(s', x) && x !in left :: s'.sales[x].hosted in s'.refunds)
    && OnlyCancellations(s, s') && |s'.refunds.Keys| == |s.refunds.Keys| + recorded
    && (AllRefunded(s) ==> recorded == 0 && s'.refunds == s.refunds)
  }

  ghost predicate OnlyCancellations(s: State, s': State) {
    && (forall k | k in s.refunds :: k in s'.refunds && s'.refunds[k] == s.refunds[k])
    && (forall k | k in s'.refunds && k !in s.refunds :: s'.refunds[k].reason.EventCancelled?)
  }

  lemma RecordingStarts(s: State, left: set<SaleId>)
    requires left == set x | x in s.sales && (s.sales[x].status.SaleIssued? || s.sales[x].status.SaleFailed?)
    ensures Recording(s, s, left, 0)
  {
  }

  lemma RecordingSkips(s: State, s': State, left: set<SaleId>, recorded: nat, x: SaleId)
    requires Recording(s, s', left, recorded) && (Refundable(s', x) ==> s'.sales[x].hosted in s'.refunds)
    ensures Recording(s, s', left - {x}, recorded)
  {
  }

  lemma RecordingAdds(s: State, s1: State, s2: State, left: set<SaleId>, recorded: nat, x: SaleId)
    requires Recording(s, s1, left, recorded) && Refundable(s1, x) && s1.sales[x].hosted !in s1.refunds
    requires RefundAdded(s1, s2, x)
    ensures Recording(s, s2, left - {x}, recorded + 1)
  {
    assert forall y :: Refundable(s2, y) <==> Refundable(s1, y);
    assert !AllRefunded(s) by {
      assert Refundable(s, x);
    }
  }

  lemma RecordingKeeps(s: State, s': State, left: set<SaleId>, recorded: nat)
    requires Recording(s, s', left, recorded)
    ensures s'.sales == s.sales && s'.ledger == s.ledger
  {
  }

  lemma RecordingIsDone(s: State, s': State, recorded: nat)
    requires Recording(s, s', {}, recorded)
    ensures AllRefunded(s') && OnlyCancellations(s, s') && |s'.refunds.Keys| == |s.refunds.Keys| + recorded
    ensures s'.sales == s.sales && s'.writes == s.writes
    ensures AllRefunded(s) ==> recorded == 0 && s'.refunds == s.refunds
  {
  }


  lemma MovingOnStaysReleased(s: State, to: EventStatus, r: DrainId)
    requires CanMoveOn(s, to) && AllReleased(s) && Returned(s, r)
    ensures AllReleased(MoveOn(s, to)) && Returned(MoveOn(s, to), r)
  {
    forall k ensures !Payable(MoveOn(s, to), k) {
      assert !Payable(s, k);
    }
  }

  lemma OpenIsKnown(s: State, h: HoldId, open: Option<HostedId>)
    requires IsOpen(s, h, open)
    ensures open.Some? ==> open.value in s.remote
  {
  }

  lemma SameOpen(s: State, s1: State, h: HoldId, open: Option<HostedId>)
    requires SameTables(s, s1)
    ensures IsOpen(s1, h, open) == IsOpen(s, h, open) && StillPayable(s1, h) == StillPayable(s, h)
  {
    assert NoOtherOpen(s1, h, {}) == NoOtherOpen(s, h, {}) by {
      assert forall k :: OpenRow(s1, k, h) == OpenRow(s, k, h);
    }
  }

  lemma StartedCarries(s: State, s1: State, h: HoldId, open: Option<HostedId>, k: HostedId)
    requires SameTables(s, s1) && h in s1.holds && Replaceable(s1, h, open)
    ensures Replaceable(s, h, open) && SameTables(PaymentStarted(s, h, open, k), PaymentStarted(s1, h, open, k))
  {
    assert NoOtherOpen(s1, h, {}) ==> NoOtherOpen(s, h, {}) by {
      assert forall k :: OpenRow(s1, k, h) == OpenRow(s, k, h);
    }
    hide NoOtherOpen;
  }

  lemma StartCarries(s: State, s1: State, s2: State, h: HoldId, k: HostedId, open: Option<HostedId>, outcome: PaymentStart)
    requires SameTables(s, s1) && StartedAs(s1, s2, h, k, open, outcome)
    ensures StartedAs(s, s2, h, k, open, outcome)
  {
    hide Replaceable, PaymentStarted, SetHosted, SameTables, StillPayable, PaidRow;
    SameReads(s, s1, h);
    if outcome.Started? {
      StartedCarries(s, s1, h, open, k);
      SameTablesChain(PaymentStarted(s, h, open, k), PaymentStarted(s1, h, open, k), s2);
    } else if outcome.AlreadyPaid? {
      PaidRowCarries(s, s1, s2, open.value);
    } else {
      SameTablesChain(s, s1, s2);
    }
  }

  lemma SameReads(s: State, s1: State, h: HoldId)
    requires SameTables(s, s1)
    ensures StillPayable(s1, h) == StillPayable(s, h) && s1.closed == s.closed && s1.remote == s.remote && s1.hosted == s.hosted
    ensures StillPayable(s, h) ==> h in s.holds && h in s1.holds
  {
  }

  lemma SameIssued(s: State, s1: State)
    requires SameTables(s, s1)
    ensures Issued(s1) == Issued(s)
  {
  }

  /** Before its lapses, an allocation has swept nothing; counted, it swept every expired hold. */
  lemma NothingSwept(s: State, t: TxnId, to: nat, stage: Stage)
    requires Safe(s) && Alone(s, t, ToShrink(to), stage) && (stage.Entered? || stage.Counted?)
    requires stage.Counted? <==> s.ledger.status.Active?
    requires stage.Counted? ==> CountedAll(s, s.txns[t].a)
    ensures s.txns[t].a.gone == (if s.ledger.status.Active? then ExpiredHolds(s.holds, s.now) else {})
  {
    assert Locks(s);
    hide Safe;
  }

  datatype Placement = Placed | AlreadyHeld | NoPlace | NotOnSale | HoldEnded

  /** What placing a hold comes to, from what stood before. */
  predicate PlacedAs(s: State, s': State, goal: Goal, outcome: Placement) {
    && goal.ToHold?
    && outcome == (if goal.hold in s.holds then
                     if s.holds[goal.hold].status.Outstanding? && s.now < s.holds[goal.hold].expires then AlreadyHeld else HoldEnded
                   else if !s.ledger.status.Active? || s.closed then NotOnSale
                   else if HasPlace(s, goal.cls, goal.seat) then Placed
                   else NoPlace)
    && match outcome
       case Placed => OnlyHolds(s, s', Unexpired(s)[goal.hold := NewHold(s, goal.cls, goal.seat, goal.price)])
       case AlreadyHeld => OnlyHolds(s, s', Unexpired(s))
       case NoPlace => OnlyHolds(s, s', Unexpired(s))
       case NotOnSale => SameTables(s, s')
       case HoldEnded => SameTables(s, s')
  }

  lemma PlacementCarries(s: State, s1: State, s2: State, goal: Goal, outcome: Placement)
    requires SameTables(s, s1) && PlacedAs(s1, s2, goal, outcome)
    ensures PlacedAs(s, s2, goal, outcome)
  {
    hide HasPlace, OnlyHolds, Unexpired;
    SameTablesPlace(s, s1, s2, goal.cls, goal.seat);
  }

  lemma ReadAllCounted(s: State, a: Alloc)
    requires ReadAll(s, a)
    ensures CountedAll(s, a)
  {
  }

  /** What was read in turn is read as one, the tables being the same throughout. */
  lemma ReadsAgree(s: State, s1: State, s2: State, a: Alloc)
    requires SameTables(s, s1) && SameTables(s1, s2) && CountedAll(s2, a) && a.free.Some?
    requires a.view == Some(View(s.ledger.status, s.ledger.capacity, Issued(s), s.closed))
    requires a.free.value <==> !GrantedSeat(s1.grants, Seat(a.goal)) && !OnLedger(s1, Seat(a.goal))
    ensures ReadAll(s2, a)
  {
  }

  /** How the ledger answered a submission, if it did. */
  datatype Verdict = Accepted | Turned | NoVerdict
}
