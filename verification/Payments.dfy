/**
  The payment operations as they run from start to end: each takes the machine's
  steps in the order the program takes them, with no other request in between.
 */
module Payments {
  import opened Common
  import opened Allocation
  import opened SaleProtocol
  import opened SaleMoney
  import opened SaleClosing
  import opened SaleSafety
  import opened SaleRuns
  import opened SaleTheorems
  import opened SaleRefunds
  import opened PaymentEffects

  class Desk {
    ghost const start: State
    var state: State
    ghost var trace: seq<Step>

    constructor (start: State)
      requires Init(start)
      ensures Valid() && state == start && trace == [] && this.start == start
    {
      this.start, state, trace := start, start, [];
    }

    /** The state is where the machine's steps so far lead. */
    ghost predicate Valid()
      reads this
    {
      Init(start) && IsRun(start, trace) && After(start, trace) == state
    }

    /** One step of the machine. */
    method Do(step: Step)
      requires Valid() && Enabled(state, step)
      modifies this
      ensures Valid() && state == Apply(old(state), step) && trace == old(trace) + [step] && Final(old(state), state)
    {
      hide Enabled, Apply, Init, Final;
      RunsExtend(start, trace, step);
      StepIsFinal(state, step);
      state, trace := Apply(state, step), trace + [step];
    }

    lemma StateIsSafe()
      requires Valid()
      ensures Safe(state)
    {
      ReachedIsSafe(start, trace);
    }

    /** Takes the event's lock. */
    method Enter(t: TxnId, goal: Goal)
      requires Valid() && Idle(state) && GoalFits(state, goal)
      modifies this
      ensures Valid() && Alone(state, t, goal, Entered) && Unread(state.txns[t].a) && SameTables(old(state), state)
    {
      Starting(state, t, goal);
      hide Init, Idle, GoalFits, Final, CanBegin, CanEnter, Begin, SaleProtocol.Enter;
      Do(InProgress(DoBegin(t, goal)));
      Do(InProgress(DoEnter(t)));
    }

    method ReadClock(t: TxnId, goal: Goal, stage: Stage)
      requires Valid() && Alone(state, t, goal, stage) && ReadyToCount(state.txns[t].a) && Unread(state.txns[t].a)
      modifies this
      ensures Valid() && Alone(state, t, goal, Timed) && Unread(state.txns[t].a) && state.txns[t].a.at == state.now
      ensures SameTables(old(state), state)
    {
      Clocking(state, t, goal, stage);
      hide Init, ReadyToCount, Final, CanReadClock, SaleProtocol.ReadClock;
      Do(InProgress(DoReadClock(t)));
    }

    method LapseExpired(t: TxnId, goal: Goal)
      requires Valid() && Alone(state, t, goal, Timed) && Unread(state.txns[t].a) && state.txns[t].a.at == state.now
      modifies this
      ensures Valid() && Alone(state, t, goal, Swept) && Unread(state.txns[t].a) && state.txns[t].a.at == state.now
      ensures SameTables(old(state), state) && state.txns[t].a.gone == ExpiredHolds(state.holds, state.now)
    {
      Sweeping(state, t, goal);
      hide Init, Final, CanSweep, SaleProtocol.Sweep, ExpiredHolds;
      Do(InProgress(DoSweep(t)));
    }

    method CountStanding(t: TxnId, goal: Goal)
      requires Valid() && Alone(state, t, goal, Swept) && Unread(state.txns[t].a) && state.txns[t].a.at == state.now
      requires state.txns[t].a.gone == ExpiredHolds(state.holds, state.now)
      modifies this
      ensures Valid() && Alone(state, t, goal, Stage.Counted) && Unread(state.txns[t].a)
      ensures SameTables(old(state), state) && CountedAll(state, state.txns[t].a)
    {
      Counting(state, t, goal);
      hide Init, Final, CanCount, Count, CountedAll, ExpiredHolds;
      Do(InProgress(DoCount(t)));
    }

    /** Reads the clock, lapses what expired, and counts. */
    method CountAllocations(t: TxnId, goal: Goal, stage: Stage)
      requires Valid() && Alone(state, t, goal, stage) && ReadyToCount(state.txns[t].a) && Unread(state.txns[t].a)
      modifies this
      ensures Valid() && Alone(state, t, goal, Stage.Counted) && Unread(state.txns[t].a)
      ensures SameTables(old(state), state)
      ensures CountedAll(state, state.txns[t].a)
    {
      ghost var s := state;
      hide Init, ReadyToCount, Final, CountedAll, ExpiredHolds, SameTables;
      ReadClock(t, goal, stage);
      ghost var s1 := state;
      LapseExpired(t, goal);
      SameTablesChain(s, s1, state);
      ghost var s2 := state;
      CountStanding(t, goal);
      SameTablesChain(s, s2, state);
    }

    /** Commits, and is alone no more. */
    method CommitStep(step: Commit, ghost goal: Goal, ghost stage: Stage)
      requires Valid() && CommitEnabled(state, step) && !step.DoShrink? && Alone(state, step.t, goal, stage)
      modifies this
      ensures Valid() && Idle(state) && state == ApplyCommit(old(state), step) && Final(old(state), state)
    {
      CommittingLeaves(state, step, goal, stage);
      hide Init, CommitEnabled, ApplyCommit, Final, Idle;
      Do(InCommit(step));
    }

    /** Reads the hold's status again. */
    method RereadHold(t: TxnId, goal: Goal, ghost x: SaleId) returns (current: HoldStatus)
      requires Valid() && Alone(state, t, goal, Stage.Counted) && Unread(state.txns[t].a) && Unstarted(state, goal, x)
      requires CountedAll(state, state.txns[t].a)
      modifies this
      ensures Valid() && Alone(state, t, goal, Stage.Counted) && SameTables(old(state), state)
      ensures CountedAll(state, state.txns[t].a) && PaymentEffects.Reread(state, state.txns[t].a)
      ensures state.txns[t].a.current == Some(current) && state.txns[t].a.view.None? && state.txns[t].a.free.None?
    {
      Rereading(state, t, goal);
      hide Init, Final, CanReread, SaleProtocol.Reread, SameTables, Unstarted, CountedAll, Unexpired;
      Do(InProgress(DoReread(t)));
      current := state.txns[t].a.current.value;
    }

    /** Asks the ledger for the event, which may not answer. */
    method AskLedger(t: TxnId, goal: Goal, answers: bool)
      requires Valid() && Alone(state, t, goal, Stage.Counted) && CountedAll(state, state.txns[t].a)
      requires state.txns[t].a.view.None? && state.txns[t].a.free.None?
      modifies this
      ensures Valid() && Alone(state, t, goal, Stage.Counted) && CountedAll(state, state.txns[t].a)
      ensures SameTables(old(state), state) && state.txns[t].a.free.None?
      ensures state.txns[t].a.current == old(state.txns[t].a.current)
      ensures state.txns[t].a.view
              == if answers then Some(View(state.ledger.status, state.ledger.capacity, Issued(state), state.closed)) else None
    {
      hide Init, Final, CanLook, Look, CountedAll, Issued;
      if answers {
        ghost var s := state;
        Looking(state, t, goal);
        Do(InProgress(DoLook(t)));
        SameIssued(s, state);
      }
    }

    /** And whether the seat is free. */
    method AskForPlace(t: TxnId, goal: Goal, answers: bool)
      requires Valid() && Alone(state, t, goal, Stage.Counted) && CountedAll(state, state.txns[t].a)
      requires state.txns[t].a.view.None? && state.txns[t].a.free.None?
      modifies this
      ensures Valid() && Alone(state, t, goal, Stage.Counted) && SameTables(old(state), state)
      ensures state.txns[t].a.current == old(state.txns[t].a.current) && Asked(state, state.txns[t].a, answers)
    {
      ghost var s := state;
      hide Init, Final, CanProbe, Probe, CountedAll, Issued, GrantedSeat, OnLedger, SameTables, ReadAll;
      AskLedger(t, goal, answers);
      ghost var s1 := state;
      Probing(state, t, goal);
      Do(InProgress(DoProbe(t)));
      SameTablesChain(s, s1, state);
      if answers {
        ReadAfter(s1, state, state.txns[t].a);
      }
    }

    /** Commits a sale, or the refund of a place gone, as was decided. */
    method SettlePlace(t: TxnId, goal: Goal, x: SaleId, placed: bool) returns (taken: Option<SaleId>)
      requires Valid() && Alone(state, t, goal, Stage.Counted) && CountedAll(state, state.txns[t].a)
      requires Unstarted(state, goal, x) && (if placed then CanSell(state, t, x) else CanMiss(state, t))
      modifies this
      ensures Valid() && Idle(state) && taken == (if placed then Some(x) else None)
      ensures if placed then SameTables(Selling(old(state), goal.hosted, goal.hold, x), state)
              else SameTables(Refunding(old(state), goal.hosted, PlaceGone, Unexpired(old(state))), state)
    {
      hide Init, Final, CanSell, CanMiss, Sell, Miss, SameTables, CountedAll, Unexpired, Handled;
      if placed {
        SellChanges(state, t, goal, x);
        CommitStep(DoSell(t, x), goal, Stage.Counted);
        taken := Some(x);
      } else {
        MissChanges(state, t, goal, x);
        CommitStep(DoMiss(t), goal, Stage.Counted);
        taken := None;
      }
    }

    /** Reads what a place depends on, and decides. */
    method DecidePlace(t: TxnId, goal: Goal, ghost x: SaleId, answers: bool) returns (placed: bool)
      requires Valid() && Alone(state, t, goal, Stage.Counted) && Unread(state.txns[t].a) && Unstarted(state, goal, x)
      requires CountedAll(state, state.txns[t].a)
      modifies this
      ensures Valid() && Alone(state, t, goal, Stage.Counted) && CountedAll(state, state.txns[t].a)
      ensures SameTables(old(state), state) && Unstarted(state, goal, x)
      ensures placed == KeepsPlace(state, goal.hold, answers)
      ensures if placed then CanSell(state, t, x) else CanMiss(state, t)
    {
      ghost var s := state;
      hide Init, Final, CanSell, CanMiss, SameTables, Unstarted, CountedAll, KeepsPlace;
      var current := RereadHold(t, goal, x);
      ghost var s1 := state;
      UnstartedStays(s, s1, goal, x);
      if HasEnded(current) {
        AskForPlace(t, goal, answers);
        UnstartedStays(s1, state, goal, x);
        RereadStays(s1, state, s1.txns[t].a, state.txns[t].a);
        EndedIsDecided(state, t, goal, x, answers);
        SameTablesChain(s, s1, state);
        AskedCounted(state, state.txns[t].a, answers);
      } else {
        UnendedIsDecided(state, t, goal, x, answers);
      }
      placed := !CanMiss(state, t);
    }

    /** The hold, re-read: still outstanding, or over and its place still free, it is sold. */
    method TakeCounted(t: TxnId, goal: Goal, x: SaleId, answers: bool) returns (taken: Option<SaleId>)
      requires Valid() && Alone(state, t, goal, Stage.Counted) && Unread(state.txns[t].a) && Unstarted(state, goal, x)
      requires CountedAll(state, state.txns[t].a) && AmountAsAsked(state, goal.hosted) && !state.closed
      modifies this
      ensures Valid() && Idle(state) && TakenAs(old(state), state, goal.hosted, goal.hold, x, answers, taken)
    {
      ghost var s := state;
      hide Init, Final, CanSell, CanMiss, CountedAll, KeepsPlace, Unexpired, Handled;
      var placed := DecidePlace(t, goal, x, answers);
      ghost var s1 := state;
      hide SameTables;
      taken := SettlePlace(t, goal, x, placed);
      PlaceTakenAs(s1, state, goal, x, answers, taken);
      TakingCarries(s, s1, state, goal.hosted, goal.hold, x, answers, taken);
    }

    /** Another amount, or sales found closed. */
    method TurnAwayPayment(t: TxnId, goal: Goal, ghost stage: Stage, ghost x: SaleId, reason: RefundReason)
      requires Valid() && Alone(state, t, goal, stage) && Unstarted(state, goal, x)
      requires CanTurnAway(state, t, state.now, reason)
      modifies this
      ensures Valid() && Idle(state)
      ensures SameTables(Refunding(old(state), goal.hosted, reason, EndHold(old(state).holds, goal.hold, old(state).now)), state)
    {
      TurnAwayChanges(state, t, goal, stage, x, reason);
      hide Init, Final, CanTurnAway, TurnAway, SameTables, EndHold, Refunding, Handled;
      CommitStep(DoTurnAway(t, state.now, reason), goal, stage);
    }

    method BarPayment(t: TxnId, goal: Goal, ghost x: SaleId)
      requires Valid() && Alone(state, t, goal, Unhandled) && Unstarted(state, goal, x) && CanBar(state, t)
      modifies this
      ensures Valid() && Alone(state, t, goal, Barred) && CanTurnAway(state, t, state.now, EventClosed)
      ensures SameTables(old(state), state) && Unstarted(state, goal, x)
    {
      ghost var s := state;
      Barring(state, t, goal);
      hide Init, Final, CanBar, Bar, CanTurnAway, SameTables, Unstarted;
      Do(InProgress(DoBar(t)));
      UnstartedStays(s, state, goal, x);
    }

    /** Goes on to count. */
    method ClearPayment(t: TxnId, goal: Goal)
      requires Valid() && Alone(state, t, goal, Unhandled) && Unread(state.txns[t].a) && CanClear(state, t)
      requires goal.ToIssue?
      modifies this
      ensures Valid() && Alone(state, t, goal, Stage.Counted) && Unread(state.txns[t].a)
      ensures SameTables(old(state), state) && CountedAll(state, state.txns[t].a)
    {
      ghost var s := state;
      Clearing(state, t, goal);
      hide Init, Final, CanClear, Clear, SameTables, CountedAll;
      Do(InProgress(DoClear(t)));
      ghost var s1 := state;
      CountAllocations(t, goal, Cleared);
      SameTablesChain(s, s1, state);
    }

    method TakeUnhandled(t: TxnId, goal: Goal, x: SaleId, answers: bool) returns (taken: Option<SaleId>)
      requires Valid() && Alone(state, t, goal, Unhandled) && Unread(state.txns[t].a) && Unstarted(state, goal, x)
      modifies this
      ensures Valid() && Idle(state) && TakenAs(old(state), state, goal.hosted, goal.hold, x, answers, taken)
    {
      ghost var s := state;
      UnhandledComesToThree(state, t, goal, x);
      hide Init, Final, CanTurnAway, CanBar, CanClear, CountedAll, KeepsPlace, Unexpired, Handled, EndHold, Refunding, Selling;
      if !AmountAsAsked(state, goal.hosted) {
        TurnAwayPayment(t, goal, Unhandled, x, AmountMismatch);
        taken := None;
      } else if state.closed {
        BarPayment(t, goal, x);
        ghost var s1 := state;
        TurnAwayPayment(t, goal, Barred, x, EventClosed);
        RefundingCarries(s, s1, state, goal.hosted, EventClosed, EndHold(s.holds, goal.hold, s.now));
        taken := None;
      } else {
        ClearPayment(t, goal);
        ghost var s1 := state;
        UnstartedStays(s, s1, goal, x);
        taken := TakeCounted(t, goal, x, answers);
        TakingCarries(s, s1, state, goal.hosted, goal.hold, x, answers, taken);
      }
    }

    /** A payment another delivery handled. */
    method SkipPayment(t: TxnId, goal: Goal)
      requires Valid() && Alone(state, t, goal, Entered) && CanSkip(state, t) && goal.ToIssue? && goal.hosted in state.hosted
      modifies this
      ensures Valid() && Idle(state) && SameTables(PaidRow(old(state), goal.hosted), state)
    {
      SkipChanges(state, t, goal);
      hide Init, Final, CanSkip, Skip, SameTables, PaidRow;
      CommitStep(DoSkip(t), goal, Entered);
    }

    method FindPayment(t: TxnId, goal: Goal)
      requires Valid() && Alone(state, t, goal, Entered) && Unread(state.txns[t].a) && CanFindUnhandled(state, t)
      modifies this
      ensures Valid() && Alone(state, t, goal, Unhandled) && Unread(state.txns[t].a) && SameTables(old(state), state)
    {
      Finding(state, t, goal);
      hide Init, Final, CanFindUnhandled, FindUnhandled, SameTables;
      Do(InProgress(DoFindUnhandled(t)));
    }

    /**
      Takes a verified payment's place. A payment handled already is left as it is. Another
      one is refunded what was taken, for another amount, then for closed sales; then its
      sale starts exactly when its hold is still good or its place still free, and otherwise
      it is refunded for a place gone.
     */
    method TakePlace(t: TxnId, k: HostedId, x: SaleId, answers: bool) returns (taken: Option<SaleId>)
      requires Valid() && Idle(state) && k in state.hosted && k in state.remote && state.remote[k].status.Paid?
      requires state.hosted[k].hold in state.holds && x !in state.sales && BySale(x) !in state.writes
      modifies this
      ensures Valid() && Idle(state)
      ensures if old(Handled(state, k)) then taken.None? && SameTables(PaidRow(old(state), k), state)
              else TakenAs(old(state), state, k, old(state.hosted[k].hold), x, answers, taken)
    {
      ghost var s := state;
      var h := state.hosted[k].hold;
      var goal := ToIssue(k, h, state.holds[h].cls, state.holds[h].seat);
      assert Unstarted(s, goal, x) <==> !Handled(s, k);
      Enter(t, goal);
      ghost var s1 := state;
      UnstartedStays(s, s1, goal, x);
      assert CanSkip(state, t) <==> Handled(s, k);
      assert CanFindUnhandled(state, t) <==> !Handled(s, k);
      hide Init, Final, CanSkip, CanFindUnhandled, TakenAs, PaidRow, SameTables, Unstarted, Handled;
      if CanSkip(state, t) {
        SkipPayment(t, goal);
        taken := None;
        PaidRowCarries(s, s1, state, k);
      } else {
        FindPayment(t, goal);
        ghost var s2 := state;
        SameTablesChain(s, s1, s2);
        UnstartedStays(s, s2, goal, x);
        taken := TakeUnhandled(t, goal, x, answers);
        TakingCarries(s, s2, state, k, h, x, answers, taken);
      }
    }

    /** Listed, and not returned yet. */
    predicate Listed(r: DrainId)
      reads this
    {
      r in state.drains && Draining(state, r)
    }

    /** Ends one listed hold with its open checkout, unless that turns out paid. */
    method Visit(t: TxnId, r: DrainId, h: HoldId) returns (open: Option<HostedId>)
      requires Valid() && Idle(state) && Listed(r) && h in state.drains[r].todo
      modifies this
      ensures h in old(state.holds) && IsOpen(old(state), h, open)
      ensures SameTables(HoldVisited(old(state), r, h, open), state)
      ensures Valid() && Idle(state) && Listed(r) && state.drains[r].todo == old(state.drains[r].todo) - {h}
      ensures state.sales == old(state.sales) && state.ledger == old(state.ledger)
    {
      ghost var s := state;
      assert h in s.holds;
      hide Init, Idle, VisitAlone, Draining, IsOpen, SameTables, CheckoutCancelled, HoldVisited;
      open := OpenCheckout(h);
      OpenIsKnown(s, h, open);
      BeginVisit(t, r, h);
      ghost var s1 := state;
      SameOpen(s, s1, h, open);
      CancelVisited(t, r, h, open);
      CancelledAlike(s, s1, open);
      SameTablesChain(CheckoutCancelled(s, open), CheckoutCancelled(s1, open), state);
      EndVisit(t, r, h, open, s);
    }

    method BeginVisit(t: TxnId, r: DrainId, h: HoldId)
      requires Valid() && Idle(state) && Listed(r) && h in state.drains[r].todo
      modifies this
      ensures Valid() && VisitAlone(state, t, r, h, EndStarted) && Listed(r) && state.drains == old(state.drains)
      ensures SameTables(old(state), state) && state.sales == old(state.sales) && state.ledger == old(state.ledger)
    {
      VisitStarts(state, t, r, h);
      VisitBegins(state, t, r, h);
      hide Init, Final, Idle, CanEnd, End, VisitAlone, Draining, SameTables;
      Do(AtTill(DoEnd(t, h, Some(r))));
    }

    method CancelVisited(t: TxnId, r: DrainId, h: HoldId, open: Option<HostedId>)
      requires Valid() && VisitAlone(state, t, r, h, EndStarted) && Listed(r) && h in state.drains[r].todo
      requires IsOpen(state, h, open)
      modifies this
      ensures Valid() && VisitAlone(state, t, r, h, EndReady(open)) && Listed(r) && state.drains == old(state.drains)
      ensures open.Some? ==> OpenRow(state, open.value, h) && open.value in state.remote
      ensures SameTables(CheckoutCancelled(old(state), open), state)
      ensures state.sales == old(state.sales) && state.ledger == old(state.ledger)
    {
      VisitCancels(state, t, r, h, open);
      VisitAsks(state, t, r, h, open);
      hide Init, Final, CanEndCancel, EndCancel, VisitAlone, Draining, OpenRow, NoOtherOpen, SameTables, CheckoutCancelled;
      Do(AtTill(DoEndCancel(t, open)));
    }

    method EndVisit(t: TxnId, r: DrainId, h: HoldId, open: Option<HostedId>, ghost s: State)
      requires Valid() && VisitAlone(state, t, r, h, EndReady(open)) && Listed(r) && h in state.drains[r].todo
      requires r in s.drains && h in s.holds && IsOpen(s, h, open) && SameTables(CheckoutCancelled(s, open), state)
      requires open.Some? ==> OpenRow(state, open.value, h) && open.value in state.remote
      modifies this
      ensures Valid() && Idle(state) && Listed(r) && state.drains[r].todo == old(state.drains[r].todo) - {h}
      ensures SameTables(HoldVisited(s, r, h, open), state)
      ensures state.sales == old(state.sales) && state.ledger == old(state.ledger)
    {
      VisitEnds(state, t, r, h, open);
      VisitIsDone(s, state, t, r, h, open);
      hide Init, Final, Idle, CanEndCommit, EndCommit, VisitAlone, Draining, OpenRow, SameTables, HoldVisited, IsOpen, CheckoutCancelled;
      Do(AtTill(DoEndCommit(t)));
    }

    /** The hold's open hosted checkout, if it has one. */
    method OpenCheckout(h: HoldId) returns (open: Option<HostedId>)
      requires Valid()
      ensures IsOpen(state, h, open)
    {
      StateIsSafe();
      assert HostedOk(state.holds, state.hosted, state.remote);
      hide Safe, Init;
      if k :| k in state.hosted && OpenRow(state, k, h) {
        open := Some(k);
      } else {
        open := None;
      }
    }

    /** Closes the event's sales, or joins the closure in force. */
    method CloseSales(t: TxnId, r: DrainId)
      requires Valid() && Idle(state) && r !in state.drains
      modifies this
      ensures Valid() && Idle(state) && Listed(r) && state.drains[r].listed && state.sales == old(state.sales)
      ensures state.ledger == old(state.ledger)
    {
      hide Init, Idle, Draining;
      Enter(t, ToClose(r));
      CommitClosure(t, r);
      ListDrain(r);
    }

    method CommitClosure(t: TxnId, r: DrainId)
      requires Valid() && Alone(state, t, ToClose(r), Entered) && r !in state.drains
      modifies this
      ensures Valid() && Idle(state) && r in state.drains && state.drains[r] == Drain(state.epoch, false, {}, {}, false)
      ensures state.closed && state.sales == old(state.sales) && state.ledger == old(state.ledger)
    {
      CloseChanges(state, t, r);
      hide Init, Final, CanClose, Close;
      CommitStep(DoClose(t), ToClose(r), Entered);
    }

    method ListDrain(r: DrainId)
      requires Valid() && Idle(state) && r in state.drains && state.drains[r] == Drain(state.epoch, false, {}, {}, false)
      requires state.closed
      modifies this
      ensures Valid() && Idle(state) && Listed(r) && state.drains[r].listed
      ensures state.sales == old(state.sales) && state.ledger == old(state.ledger)
    {
      ListChanges(state, r);
      hide Init, Final, CanList, List;
      Do(AtDesk(DoList(r)));
    }

    /**
      Closes the event's sales and releases everything of it. Once it returns nothing is
      outstanding or payable, no sale has started, and every payment found on the way is
      handled.
     */
    method ReleaseAll(t: TxnId, r: DrainId, x: SaleId)
      requires Valid() && Idle(state) && r !in state.drains && x !in state.sales
      modifies this
      ensures Valid() && Idle(state) && Returned(state, r) && AllReleased(state)
      ensures state.sales == old(state.sales) && state.ledger == old(state.ledger)
    {
      hide Init, AllReleased, Handled, Returned, Draining, Idle;
      CloseSales(t, r);
      VisitAll(t, r);
      ReconcileAll(t, r, x);
      ReturnDrained(r);
    }

    /** Everything visited and reconciled, it returns. */
    method ReturnDrained(r: DrainId)
      requires Valid() && Idle(state) && Listed(r) && state.drains[r].todo == {}
      requires forall k | k in state.drains[r].paid :: Handled(state, k)
      modifies this
      ensures Valid() && Idle(state) && Returned(state, r) && AllReleased(state)
      ensures state.sales == old(state.sales) && state.ledger == old(state.ledger)
    {
      ReturnChanges(state, r);
      hide Init, Final, CanReturn, Return, Safe, AllReleased, Handled;
      Do(AtDesk(DoReturn(r)));
      StateIsSafe();
      SafeReturnedReleased(state, r);
    }

    method VisitAll(t: TxnId, r: DrainId)
      requires Valid() && Idle(state) && Listed(r)
      modifies this
      ensures Valid() && Idle(state) && Listed(r) && state.drains[r].todo == {}
      ensures state.sales == old(state.sales) && state.ledger == old(state.ledger)
    {
      hide Init, Idle, Draining;
      while state.drains[r].todo != {}
        invariant Valid() && Idle(state) && Listed(r) && state.sales == old(state.sales)
        invariant state.ledger == old(state.ledger)
        decreases |state.drains[r].todo|
      {
        var h :| h in state.drains[r].todo;
        var open := Visit(t, r, h);
      }
    }

    method ReconcileAll(t: TxnId, r: DrainId, x: SaleId)
      requires Valid() && Idle(state) && Listed(r) && x !in state.sales
      modifies this
      ensures Valid() && Idle(state) && Listed(r) && state.drains == old(state.drains)
      ensures state.sales == old(state.sales) && state.ledger == old(state.ledger)
      ensures forall k | k in state.drains[r].paid :: Handled(state, k)
    {
      hide Init, Idle, Draining, Handled;
      var left := state.drains[r].paid;
      while left != {}
        invariant Valid() && Idle(state) && Listed(r) && state.drains == old(state.drains)
        invariant state.sales == old(state.sales) && state.ledger == old(state.ledger)
        invariant left <= state.drains[r].paid
        invariant forall k | k in state.drains[r].paid && k !in left :: Handled(state, k)
        decreases |left|
      {
        var k :| k in left;
        ReconcilePaid(t, r, k, x);
        left := left - {k};
      }
    }

    /** A payment found on the way, its sales closed: refunded, or handled already. */
    method ReconcilePaid(t: TxnId, r: DrainId, k: HostedId, x: SaleId)
      requires Valid() && Idle(state) && Listed(r) && k in state.drains[r].paid && x !in state.sales
      modifies this
      ensures Valid() && Idle(state) && Listed(r) && state.drains == old(state.drains)
      ensures state.sales == old(state.sales) && state.ledger == old(state.ledger)
      ensures Handled(state, k) && forall k' | old(Handled(state, k')) :: Handled(state, k')
    {
      ghost var s := state;
      StateIsSafe();
      UnusedSale(state, x);
      hide Init, Final, Idle, Safe, TakenAs, PaidRow, Handled;
      var taken := TakePlace(t, k, x, false);
      ClosedPaymentKeepsDraining(s, state, r, k, s.hosted[k].hold, x, taken);
    }

    /** A sale id not used yet. */
    method FreshSale() returns (x: SaleId)
      requires Valid()
      ensures x !in state.sales && BySale(x) !in state.writes
    {
      StateIsSafe();
      hide Init, Safe;
      ghost var unused := UnusedId(state.sales.Keys);
      x :| x !in state.sales;
      UnusedSale(state, x);
    }

    /**
      Lapses what expired, then cancels the open checkouts of ended holds. One that turns
      out paid is reconciled, and may take its ended hold's place again. Afterwards none of
      them is open, here or at the provider.
     */
    method Sweep(t: TxnId, p: PollId, answers: bool)
      requires Valid() && Idle(state) && p !in state.polls
      modifies this
      ensures Valid() && Idle(state) && p !in state.polls
      ensures forall k | k in EndedOpen(Lapse(old(state), ExpiredHolds(old(state).holds, old(state).now))) :: SweptRow(state, k)
      ensures state.holds.Keys == old(state.holds.Keys)
      ensures forall h | h in state.holds :: LapsedOrTaken(Unexpired(old(state))[h], state.holds[h])
    {
      ghost var s := state;
      SweepLapses(state);
      hide Init, Final, Idle, Safe, CanLapse, SweptRow, KnownRow;
      Do(AtDesk(DoLapse(ExpiredHolds(state.holds, state.now))));
      ghost var u := state;
      var ended := EndedOpen(state);
      EndedAreKnown();
      SweepStarts(s, u);
      hide EndedOpen, Lapse, LapsedOrTaken, Unexpired, ExpiredHolds;
      CancelAll(t, p, u, ended, answers);
      SweepIsDone(u, state, ended);
    }

    method CancelAll(t: TxnId, p: PollId, ghost u: State, ended: set<HostedId>, answers: bool)
      requires Valid() && Idle(state) && p !in state.polls && Sweeps(u, state, ended)
      modifies this
      ensures Valid() && Idle(state) && p !in state.polls && Sweeps(u, state, ended)
      ensures forall k | k in ended :: SweptRow(state, k)
    {
      hide Init, Idle, SweptRow, Sweeps;
      var left := ended;
      while left != {}
        invariant Valid() && Idle(state) && p !in state.polls && left <= ended && Sweeps(u, state, ended)
        invariant forall k | k in ended && k !in left :: SweptRow(state, k)
        decreases |left|
      {
        var k :| k in left;
        CancelEnded(t, p, k, u, ended, answers);
        left := left - {k};
      }
    }

    lemma EndedAreKnown()
      requires Valid()
      ensures forall k | k in EndedOpen(state) :: KnownRow(state, k)
    {
      StateIsSafe();
    }

    method CancelEnded(t: TxnId, p: PollId, k: HostedId, ghost u: State, ghost ended: set<HostedId>, answers: bool)
      requires Valid() && Idle(state) && p !in state.polls && Sweeps(u, state, ended) && k in ended
      modifies this
      ensures Valid() && Idle(state) && p !in state.polls && Sweeps(u, state, ended) && SweptRow(state, k)
      ensures forall j | old(SweptRow(state, j)) :: SweptRow(state, j)
    {
      AskEnded(p, k, u, ended);
      hide Init, Idle, SweptRow, Sweeps;
      if state.polls[p].answer.Paid? {
        DropAnswer(p, k, u, ended);
        PayEnded(t, k, u, ended, answers);
      } else {
        RecordAnswer(p, k, u, ended);
      }
    }

    /** Asks the provider to cancel the checkout; its answer says how it ended. */
    method AskEnded(p: PollId, k: HostedId, ghost u: State, ghost ended: set<HostedId>)
      requires Valid() && Idle(state) && p !in state.polls && Sweeps(u, state, ended) && k in ended
      modifies this
      ensures Valid() && Idle(state) && Sweeps(u, state, ended) && EndedAnswer(state, p, k)
      ensures state.polls - {p} == old(state.polls) && forall j | old(SweptRow(state, j)) :: SweptRow(state, j)
    {
      ghost var s := state;
      SweepKnows(u, state, ended, k);
      SweepCancels(state, p, k);
      hide Init, Final, Idle, CanPoll, SweepCancel, SweptRow, Sweeps, KnownRow, EndedAnswer;
      Do(InWorld(DoSweepCancel(p, k)));
      SweepGoesOn(u, s, state, ended);
    }

    /** Found paid, nothing is recorded yet. */
    method DropAnswer(p: PollId, k: HostedId, ghost u: State, ghost ended: set<HostedId>)
      requires Valid() && Idle(state) && Sweeps(u, state, ended) && EndedAnswer(state, p, k) && state.polls[p].answer.Paid?
      modifies this
      ensures Valid() && Idle(state) && Sweeps(u, state, ended) && state.polls == old(state.polls) - {p}
      ensures k in state.remote && state.remote[k].status.Paid? && forall j | old(SweptRow(state, j)) :: SweptRow(state, j)
    {
      ghost var s := state;
      SweepDrops(state, p);
      hide Init, Final, Idle, DropPoll, SweptRow, Sweeps;
      Do(InWorld(DoDropPoll(p)));
      SweepGoesOn(u, s, state, ended);
    }

    method RecordAnswer(p: PollId, k: HostedId, ghost u: State, ghost ended: set<HostedId>)
      requires Valid() && Idle(state) && Sweeps(u, state, ended) && EndedAnswer(state, p, k) && !state.polls[p].answer.Paid?
      modifies this
      ensures Valid() && Idle(state) && Sweeps(u, state, ended) && state.polls == old(state.polls) - {p} && SweptRow(state, k)
      ensures forall j | old(SweptRow(state, j)) :: SweptRow(state, j)
    {
      ghost var s := state;
      SweepRecords(state, p, k);
      hide Init, Final, Idle, CanRecord, Record, SweptRow, Sweeps, EndedAnswer;
      Do(InWorld(DoRecord(p)));
      SweepGoesOn(u, s, state, ended);
    }

    method PayEnded(t: TxnId, k: HostedId, ghost u: State, ghost ended: set<HostedId>, answers: bool)
      requires Valid() && Idle(state) && Sweeps(u, state, ended) && k in ended
      requires k in state.remote && state.remote[k].status.Paid?
      modifies this
      ensures Valid() && Idle(state) && Sweeps(u, state, ended) && SweptRow(state, k) && state.polls == old(state.polls)
      ensures forall j | old(SweptRow(state, j)) :: SweptRow(state, j)
    {
      ghost var s := state;
      SweepKnows(u, state, ended, k);
      var x := FreshSale();
      hide Init, Idle, SweptRow, Handled, TakenAs, PaidRow, SameTables, Sweeps;
      var taken := TakePlace(t, k, x, answers);
      PaymentSweeps(s, state, k, s.hosted[k].hold, x, answers, taken);
      TakingSweeps(u, s, state, ended, k, x, answers, taken);
    }

    /**
      Records one refund for every sale of a cancelled event that is over and has its
      ticket on the ledger; refuses for any other event. Run again it records nothing. Every
      purchased ticket on the ledger is then refunded exactly when none is of a sale still
      issuing.
     */
    method RecordCancellationRefunds() returns (counts: Option<(nat, nat)>)
      requires Valid() && Idle(state)
      modifies this
      ensures Valid() && Idle(state) && state.sales == old(state.sales) && state.writes == old(state.writes)
      ensures counts.None? <==> !old(state.ledger.status.EventOff?)
      ensures counts.None? ==> state == old(state)
      ensures counts.Some? ==>
                AllRefunded(state) && OnlyCancellations(old(state), state)
                && |state.refunds.Keys| == |old(state.refunds.Keys)| + counts.value.0
      ensures counts.Some? && old(AllRefunded(state)) ==> counts.value.0 == 0 && state.refunds == old(state.refunds)
      ensures counts.Some? ==> (EveryTicketRefunded(state) <==> !old(StillIssuing(state)))
    {
      if !state.ledger.status.EventOff? {
        return None;
      }
      hide Init, Idle, Safe, AllRefunded, OnlyCancellations, Refundable, EveryTicketRefunded, StillIssuing;
      ghost var s := state;
      var recorded, existing := RecordRefunds();
      StateIsSafe();
      RecordedAll(s, state);
      counts := Some((recorded, existing));
    }

    method RecordRefunds() returns (recorded: nat, existing: nat)
      requires Valid() && Idle(state) && state.ledger.status.EventOff?
      modifies this
      ensures Valid() && Idle(state) && state.sales == old(state.sales) && state.writes == old(state.writes)
      ensures AllRefunded(state) && OnlyCancellations(old(state), state)
      ensures |state.refunds.Keys| == |old(state.refunds.Keys)| + recorded
      ensures old(AllRefunded(state)) ==> recorded == 0 && state.refunds == old(state.refunds)
    {
      ghost var s := state;
      recorded, existing := 0, 0;
      var left := set x | x in state.sales && (state.sales[x].status.SaleIssued? || state.sales[x].status.SaleFailed?);
      RecordingStarts(s, left);
      hide Init, Idle, Recording, AllRefunded, OnlyCancellations, Refundable;
      while left != {}
        invariant Valid() && Idle(state) && state.sales == s.sales && state.ledger == s.ledger && left <= s.sales.Keys
        invariant Recording(s, state, left, recorded)
        decreases |left|
      {
        var x :| x in left;
        var added := RefundIfOwed(s, x, left, recorded);
        recorded := recorded + added;
        existing := existing + if added == 0 && state.sales[x].hosted in state.refunds then 1 else 0;
        left := left - {x};
      }
      RecordingIsDone(s, state, recorded);
    }

    /** One sale: refunded already, refunded now, or not on the ledger. */
    method RefundIfOwed(ghost s: State, x: SaleId, ghost left: set<SaleId>, ghost recorded: nat) returns (added: nat)
      requires Valid() && Idle(state) && Recording(s, state, left, recorded) && x in state.sales
      requires state.sales == s.sales && state.ledger == s.ledger && s.ledger.status.EventOff?
      modifies this
      ensures Valid() && Idle(state) && Recording(s, state, left - {x}, recorded + added)
      ensures state.sales == s.sales && state.ledger == s.ledger
    {
      hide Init, Idle, Recording, RefundAdded, Refundable;
      if state.sales[x].hosted !in state.refunds && Refundable(state, x) {
        RefundOwed(s, x, left, recorded);
        added := 1;
      } else {
        RecordingSkips(s, state, left, recorded, x);
        added := 0;
      }
    }

    method RefundOwed(ghost s: State, x: SaleId, ghost left: set<SaleId>, ghost recorded: nat)
      requires Valid() && Idle(state) && Recording(s, state, left, recorded) && state.ledger.status.EventOff?
      requires Refundable(state, x) && state.sales[x].hosted !in state.refunds
      modifies this
      ensures Valid() && Idle(state) && Recording(s, state, left - {x}, recorded + 1)
      ensures state.sales == s.sales && state.ledger == s.ledger
    {
      ghost var s1 := state;
      hide Init, Idle, Recording, RefundAdded;
      RefundSale(x);
      RecordingAdds(s, s1, state, left, recorded, x);
      RecordingKeeps(s, state, left - {x}, recorded + 1);
    }

    method RefundSale(x: SaleId)
      requires Valid() && Idle(state) && state.ledger.status.EventOff? && Refundable(state, x)
      requires state.sales[x].hosted !in state.refunds
      modifies this
      ensures Valid() && Idle(state) && RefundAdded(old(state), state, x)
    {
      hide Init, Final, Idle, Safe, CanRefundTicket, RefundTicket, RefundAdded;
      StateIsSafe();
      SaleHoldIsKnown(state, x);
      RefundChanges(state, x);
      Do(InLedger(DoRefundTicket(x)));
    }

    /**
      Seals, cancels or finishes the event. Of an event on sale everything is released
      first; sales reopen only when the ledger refuses, and stay closed without a verdict.
     */
    method ChangeStatus(t: TxnId, r: DrainId, x: SaleId, to: EventStatus, verdict: Verdict)
      requires Valid() && Idle(state) && r !in state.drains && x !in state.sales && !to.Active?
      requires verdict.Accepted? ==> CanMoveOn(state, to)
      modifies this
      ensures Valid() && Idle(state) && state.sales == old(state.sales)
      ensures verdict.Accepted? ==> state.ledger.status == to
      ensures !verdict.Accepted? ==> state.ledger == old(state.ledger)
      ensures old(state.ledger.status.Active?) && !verdict.Turned? ==> Returned(state, r) && AllReleased(state)
      ensures old(state.ledger.status.Active?) && verdict.Turned? ==> !state.closed
      ensures !old(state.ledger.status.Active?) ==> state.closed == old(state.closed) && state.holds == old(state.holds)
    {
      hide Init, Final, AllReleased, Returned;
      var release := state.ledger.status.Active?;
      if release {
        ReleaseAll(t, r, x);
      }
      match verdict {
        case Accepted =>
          if release {
            MovingOnStaysReleased(state, to, r);
          }
          Do(InLedger(DoMoveOn(to)));
        case Turned =>
          if release {
            Do(AtDesk(DoReopen));
          }
        case NoVerdict =>
      }
    }

    /** Rolls back: nothing of it remains. */
    method RollBack(t: TxnId, ghost goal: Goal, ghost stage: Stage)
      requires Valid() && Alone(state, t, goal, stage)
      modifies this
      ensures Valid() && Idle(state) && SameTables(old(state), state)
    {
      AbortLeaves(state, t, goal, stage);
      hide Init, Final, CanAbort, Abort, SameTables, Idle;
      Do(InProgress(DoAbort(t)));
    }

    /** Reads the event and whether the seat is free. */
    method ReadPlace(t: TxnId, goal: Goal)
      requires Valid() && Alone(state, t, goal, Stage.Counted) && CountedAll(state, state.txns[t].a)
      requires Unread(state.txns[t].a)
      modifies this
      ensures Valid() && Alone(state, t, goal, Stage.Counted) && SameTables(old(state), state)
      ensures ReadAll(state, state.txns[t].a)
    {
      ghost var s := state;
      hide Init, Final, CanLook, Look, CanProbe, Probe, CountedAll, Issued, GrantedSeat, OnLedger;
      Looking(state, t, goal);
      Do(InProgress(DoLook(t)));
      ghost var s1 := state;
      Probing(state, t, goal);
      Do(InProgress(DoProbe(t)));
      SameTablesChain(s, s1, state);
      ReadsAgree(s, s1, state, state.txns[t].a);
    }

    /**
      Places a checkout's hold. It is placed exactly when its seat is free and one more
      fits on top of everything unexpired; otherwise only the lapses are recorded.
     */
    method Place(t: TxnId, h: HoldId, cls: ClassId, seat: Option<SeatId>, price: Money) returns (outcome: Placement)
      requires Valid() && Idle(state)
      modifies this
      ensures Valid() && Idle(state)
      ensures old(h in state.holds) ==>
                outcome == (if old(state.holds[h].status.Outstanding? && state.now < state.holds[h].expires) then AlreadyHeld
                            else HoldEnded)
      ensures old(h !in state.holds) ==>
                outcome == (if old(!state.ledger.status.Active? || state.closed) then NotOnSale
                            else if old(HasPlace(state, cls, seat)) then Placed else NoPlace)
      ensures outcome.Placed? ==> OnlyHolds(old(state), state, old(Unexpired(state))[h := NewHold(old(state), cls, seat, price)])
      ensures outcome.AlreadyHeld? || outcome.NoPlace? ==> OnlyHolds(old(state), state, old(Unexpired(state)))
      ensures outcome.NotOnSale? || outcome.HoldEnded? ==> SameTables(old(state), state)
    {
      ghost var s := state;
      var goal := ToHold(h, cls, seat, price);
      Enter(t, goal);
      ghost var s1 := state;
      CountAllocations(t, goal, Entered);
      ghost var s2 := state;
      SameTablesChain(s, s1, s2);
      var there := h in state.holds;
      if there {
        HeldAlready(state, t, goal);
        outcome := KeepHeld(t, goal);
      } else {
        outcome := PlaceNew(t, goal);
      }
      PlacementCarries(s, s2, state, goal, outcome);
    }

    /** Commits the lapses and nothing else. */
    method KeepLapses(t: TxnId, goal: Goal)
      requires Valid() && Alone(state, t, goal, Stage.Counted) && CountedAll(state, state.txns[t].a)
      requires goal.ToHold? && CanPlaceNothing(state, t)
      modifies this
      ensures Valid() && Idle(state) && OnlyHolds(old(state), state, Unexpired(old(state)))
    {
      PlaceNothingChanges(state, t, goal);
      hide Init, Final, OnlyHolds, CountedAll, CanPlaceNothing, CommitLapses, Unexpired;
      CommitStep(DoPlaceNothing(t), goal, Stage.Counted);
    }

    method RecordHold(t: TxnId, goal: Goal)
      requires Valid() && Alone(state, t, goal, Stage.Counted) && CountedAll(state, state.txns[t].a)
      requires goal.ToHold? && CanPlace(state, t)
      modifies this
      ensures Valid() && Idle(state)
      ensures OnlyHolds(old(state), state,
                        Unexpired(old(state))[goal.hold := NewHold(old(state), goal.cls, goal.seat, goal.price)])
    {
      PlaceChanges(state, t, goal);
      hide Init, Final, OnlyHolds, CountedAll, CanPlace, SaleProtocol.Place, Unexpired, NewHold;
      CommitStep(DoPlace(t), goal, Stage.Counted);
    }

    method KeepHeld(t: TxnId, goal: Goal) returns (outcome: Placement)
      requires Valid() && Alone(state, t, goal, Stage.Counted) && CountedAll(state, state.txns[t].a)
      requires goal.ToHold? && goal.hold in state.holds
      modifies this
      ensures Valid() && Idle(state) && PlacedAs(old(state), state, goal, outcome)
    {
      HeldAlready(state, t, goal);
      hide Init, Final, OnlyHolds, CountedAll, CanPlaceNothing, Unexpired;
      if CanPlaceNothing(state, t) {
        KeepLapses(t, goal);
        outcome := AlreadyHeld;
      } else {
        RollBack(t, goal, Stage.Counted);
        outcome := HoldEnded;
      }
    }

    method PlaceNew(t: TxnId, goal: Goal) returns (outcome: Placement)
      requires Valid() && Alone(state, t, goal, Stage.Counted) && CountedAll(state, state.txns[t].a)
      requires Unread(state.txns[t].a)
      requires goal.ToHold? && goal.hold !in state.holds
      modifies this
      ensures Valid() && Idle(state) && PlacedAs(old(state), state, goal, outcome)
    {
      ghost var s := state;
      hide Init, Final, PlacedAs, CountedAll, ReadAll;
      ReadPlace(t, goal);
      ghost var s1 := state;
      outcome := PlaceRead(t, goal);
      PlacementCarries(s, s1, state, goal, outcome);
    }

    method PlaceRead(t: TxnId, goal: Goal) returns (outcome: Placement)
      requires Valid() && Alone(state, t, goal, Stage.Counted) && ReadAll(state, state.txns[t].a)
      requires goal.ToHold? && goal.hold !in state.holds
      modifies this
      ensures Valid() && Idle(state) && PlacedAs(old(state), state, goal, outcome)
    {
      NewHoldIsDecided(state, t, goal);
      ReadAllCounted(state, state.txns[t].a);
      hide Init, Final, OnlyHolds, HasPlace, CanPlace, CanPlaceNothing, SameTables, ReadAll, CountedAll, Unexpired, NewHold;
      if CanPlace(state, t) {
        RecordHold(t, goal);
        outcome := Placed;
      } else if CanPlaceNothing(state, t) {
        KeepLapses(t, goal);
        outcome := NoPlace;
      } else {
        RollBack(t, goal, Stage.Counted);
        outcome := NotOnSale;
      }
    }

    /** Gives up starting a payment: nothing of it remains. */
    method GiveUp(t: TxnId, ghost h: HoldId, ghost pay: PayStage)
      requires Valid() && PayAlone(state, t, h, pay)
      modifies this
      ensures Valid() && Idle(state) && SameTables(old(state), state)
    {
      PayLeaves(state, t, h, pay);
      hide Init, Final, CanAbort, Abort, SameTables, Idle;
      Do(InProgress(DoAbort(t)));
    }

    /** Locks the hold's row and finds the sales open, or not. */
    method BeginPaying(t: TxnId, h: HoldId) returns (clear: bool)
      requires Valid() && Idle(state) && StillPayable(state, h)
      modifies this
      ensures Valid() && SameTables(old(state), state) && clear == !state.closed
      ensures if clear then PayAlone(state, t, h, PayCleared) else Idle(state)
    {
      ghost var s := state;
      PayStarts(state, t, h);
      hide Init, Final, CanPay, SaleProtocol.Pay, CanPayClear, PayClear;
      Do(AtTill(DoPay(t, h)));
      ghost var s1 := state;
      clear := !state.closed;
      if clear {
        PayClears(state, t, h);
        Do(AtTill(DoPayClear(t)));
      } else {
        GiveUp(t, h, PayStarted);
      }
      SameTablesChain(s, s1, state);
    }

    lemma RowsAreOk()
      requires Valid()
      ensures OpenRowsOk(state.hosted)
    {
      StateIsSafe();
    }

    /** Creates the hosted checkout and records it. */
    method CreateCheckout(t: TxnId, h: HoldId, prior: Option<HostedId>, k: HostedId)
      requires Valid() && PayAlone(state, t, h, PayCleared) && Replaceable(state, h, prior)
      requires k !in state.remote && k !in state.hosted
      modifies this
      ensures Valid() && Idle(state) && SameTables(PaymentStarted(old(state), h, prior, k), state)
    {
      ghost var s := state;
      assert h in s.holds;
      hide Init, Final, Replaceable, PaymentStarted, SameTables, PayAlone, Created;
      RowsAreOk();
      DropOpen(t, h, prior);
      ghost var s1 := state;
      AskForCheckout(t, h, prior, k);
      CreatedAlike(s, s1, h, k);
      SameTablesChain(Created(s, h, k), Created(s1, h, k), state);
      RecordCheckout(t, h, prior, k, s);
    }

    /** Without an open checkout, or with one that ended, a new one is due. */
    method DropOpen(t: TxnId, h: HoldId, prior: Option<HostedId>)
      requires Valid() && PayAlone(state, t, h, PayCleared) && Replaceable(state, h, prior)
      modifies this
      ensures Valid() && PayAlone(state, t, h, PayReady(prior)) && SameTables(old(state), state)
      ensures state.remote == old(state.remote) && state.hosted == old(state.hosted)
    {
      PayReplaces(state, t, h, prior);
      hide Init, Final, CanPayReplace, PayReplace, Replaceable, PayAlone;
      Do(AtTill(DoPayReplace(t, prior)));
    }

    method AskForCheckout(t: TxnId, h: HoldId, prior: Option<HostedId>, k: HostedId)
      requires Valid() && PayAlone(state, t, h, PayReady(prior)) && k !in state.remote && k !in state.hosted
      modifies this
      ensures Valid() && PayAlone(state, t, h, PayCreated(prior, k)) && SameTables(Created(old(state), h, k), state)
    {
      PayCreates(state, t, h, prior, k);
      hide Init, Final, CanPayCreate, PayCreate, SameTables, PayAlone;
      Do(AtTill(DoPayCreate(t, k)));
    }

    method RecordCheckout(t: TxnId, h: HoldId, prior: Option<HostedId>, k: HostedId, ghost s: State)
      requires Valid() && PayAlone(state, t, h, PayCreated(prior, k)) && h in s.holds && Replaceable(s, h, prior)
      requires k !in s.remote && k !in s.hosted && SameTables(Created(s, h, k), state) && OpenRowsOk(s.hosted)
      modifies this
      ensures Valid() && Idle(state) && SameTables(PaymentStarted(s, h, prior, k), state)
    {
      PayCommits(s, state, t, h, prior, k);
      hide Init, Final, CanPayCommit, PayCommit, SameTables, PayAlone, Replaceable, PaymentStarted, Created, OpenRowsOk;
      Do(AtTill(DoPayCommit(t)));
    }

    /**
      Starts a payment of a hold: its open checkout is used again, found paid, or replaced
      by a new one for the hold's price, which extends the hold once. Found paid, it is
      recorded as paid and then reconciled, unless that fails.
     */
    method Pay(t: TxnId, h: HoldId, k: HostedId, x: SaleId, reconciles: bool, answers: bool)
      returns (outcome: PaymentStart, open: Option<HostedId>, taken: Option<SaleId>)
      requires Valid() && Idle(state) && h in state.holds && k !in state.remote && k !in state.hosted && x !in state.sales
      modifies this
      ensures Valid() && Idle(state) && IsOpen(old(state), h, open)
      ensures outcome.AlreadyPaid? <==> FoundPaid(old(state), h, open)
      ensures if outcome.AlreadyPaid? && reconciles
              then outcome == AlreadyPaid(open.value) && Reconciled(old(state), state, open.value, x, answers, taken)
              else taken.None? && StartedAs(old(state), state, h, k, open, outcome)
    {
      ghost var s := state;
      hide Init, Safe, StartedAs, Reconciled, FoundPaid, IsOpen, Idle;
      outcome, open := StartPayment(t, h, k);
      taken := None;
      StartAnswers(s, state, h, k, open, outcome);
      if outcome.AlreadyPaid? && reconciles {
        ghost var s1 := state;
        taken := Reconcile(t, outcome.paid, x, answers);
        FoundIsReconciled(s, s1, state, outcome.paid, x, answers, taken);
      }
    }

    /** Reconciles a payment the provider reports. */
    method Reconcile(t: TxnId, k: HostedId, x: SaleId, answers: bool) returns (taken: Option<SaleId>)
      requires Valid() && Idle(state) && k in state.hosted && k in state.remote && state.remote[k].status.Paid?
      requires x !in state.sales
      modifies this
      ensures Valid() && Idle(state) && Reconciled(old(state), state, k, x, answers, taken)
    {
      StateIsSafe();
      UnusedSale(state, x);
      HoldIsKnown(state, k);
      hide Init, Idle, Safe, Handled, TakenAs, PaidRow, SameTables;
      taken := TakePlace(t, k, x, answers);
    }

    /** The transaction of a `pay`. */
    method StartPayment(t: TxnId, h: HoldId, k: HostedId) returns (outcome: PaymentStart, open: Option<HostedId>)
      requires Valid() && Idle(state) && h in state.holds && k !in state.remote && k !in state.hosted
      modifies this
      ensures Valid() && Idle(state) && IsOpen(old(state), h, open)
      ensures StartedAs(old(state), state, h, k, open, outcome)
    {
      ghost var s := state;
      open := OpenCheckout(h);
      if !StillPayable(state, h) {
        return HoldOver, open;
      }
      hide Init, Final, NoOtherOpen;
      var clear := BeginPaying(t, h);
      if !clear {
        return SalesShut, open;
      }
      ghost var s1 := state;
      SameOpen(s, s1, h, open);
      outcome := PayOver(t, h, k, open);
      StartCarries(s, s1, state, h, k, open, outcome);
    }

    method PayOver(t: TxnId, h: HoldId, k: HostedId, open: Option<HostedId>) returns (outcome: PaymentStart)
      requires Valid() && PayAlone(state, t, h, PayCleared) && IsOpen(state, h, open)
      requires StillPayable(state, h) && !state.closed
      requires k !in state.remote && k !in state.hosted
      modifies this
      ensures Valid() && Idle(state) && StartedAs(old(state), state, h, k, open, outcome)
    {
      hide Init, Final, NoOtherOpen, CanPayFound, PayFound;
      if open.Some? && state.remote[open.value].status.Open? {
        GiveUp(t, h, PayCleared);
        outcome := Reused(open.value);
      } else if open.Some? && state.remote[open.value].status.Paid? {
        PayFinds(state, t, h, open.value);
        Do(AtTill(DoPayFound(t, open.value)));
        outcome := AlreadyPaid(open.value);
      } else {
        CreateCheckout(t, h, open, k);
        outcome := Started;
      }
    }

    /**
      A buyer's cancellation: the hold is over and its checkout cancelled, unless that
      turned out paid, and is then reconciled, unless that fails; a hold that is not
      outstanding is left alone.
     */
    method Cancel(t: TxnId, h: HoldId, x: SaleId, reconciles: bool, answers: bool)
      returns (open: Option<HostedId>, taken: Option<SaleId>)
      requires Valid() && Idle(state) && h in state.holds && x !in state.sales
      modifies this
      ensures Valid() && Idle(state) && IsOpen(old(state), h, open)
      ensures if !old(state.holds[h].status.Outstanding?) then taken.None? && state == old(state)
              else if CancelFindsPaid(old(state), open) && reconciles then Reconciled(old(state), state, open.value, x, answers, taken)
              else taken.None? && SameTables(HoldCancelled(old(state), h, open), state)
    {
      ghost var s := state;
      hide Init, Safe, Reconciled, IsOpen, Idle, HoldCancelled, SameTables;
      var due := state.holds[h].status.Outstanding?;
      open := CancelHold(t, h);
      taken := None;
      if due {
        ghost var s1 := state;
        CancelAnswers(s, s1, h, open);
        if reconciles && CancelFindsPaid(state, open) {
          taken := Reconcile(t, open.value, x, answers);
          LeftIsReconciled(s, s1, state, open.value, x, answers, taken);
        }
      }
    }

    /** The transaction of a `cancel`. */
    method CancelHold(t: TxnId, h: HoldId) returns (open: Option<HostedId>)
      requires Valid() && Idle(state) && h in state.holds
      modifies this
      ensures Valid() && Idle(state) && IsOpen(old(state), h, open)
      ensures old(state.holds[h].status.Outstanding?) ==> SameTables(HoldCancelled(old(state), h, open), state)
      ensures !old(state.holds[h].status.Outstanding?) ==> state == old(state)
    {
      open := OpenCheckout(h);
      if state.holds[h].status.Outstanding? {
        hide Init, IsOpen;
        CancelOpen(t, h, open);
      }
    }

    method CancelOpen(t: TxnId, h: HoldId, open: Option<HostedId>)
      requires Valid() && Idle(state) && h in state.holds && state.holds[h].status.Outstanding?
      requires IsOpen(state, h, open)
      modifies this
      ensures Valid() && Idle(state) && SameTables(HoldCancelled(old(state), h, open), state)
    {
      ghost var s := state;
      assert open.Some? ==> open.value in s.remote;
      hide Init, IsOpen, HoldCancelled, SameTables, CancelAlone, CheckoutCancelled;
      BeginCancel(t, h);
      ghost var s1 := state;
      SameOpen(s, s1, h, open);
      CancelCheckout(t, h, open);
      CancelledAlike(s, s1, open);
      SameTablesChain(CheckoutCancelled(s, open), CheckoutCancelled(s1, open), state);
      EndCancelled(t, h, open, s);
    }

    method BeginCancel(t: TxnId, h: HoldId)
      requires Valid() && Idle(state) && h in state.holds && state.holds[h].status.Outstanding?
      modifies this
      ensures Valid() && CancelAlone(state, t, h, EndStarted) && SameTables(old(state), state)
    {
      CancelStarts(state, t, h);
      hide Init, Final, CanEnd, End, SameTables, CancelAlone;
      Do(AtTill(DoEnd(t, h, None)));
    }

    method CancelCheckout(t: TxnId, h: HoldId, open: Option<HostedId>)
      requires Valid() && CancelAlone(state, t, h, EndStarted) && IsOpen(state, h, open)
      modifies this
      ensures Valid() && CancelAlone(state, t, h, EndReady(open)) && SameTables(CheckoutCancelled(old(state), open), state)
    {
      CancelAsks(state, t, h, open);
      hide Init, Final, CanEndCancel, EndCancel, SameTables, CancelAlone, CheckoutCancelled, IsOpen;
      Do(AtTill(DoEndCancel(t, open)));
    }

    method EndCancelled(t: TxnId, h: HoldId, open: Option<HostedId>, ghost s: State)
      requires Valid() && CancelAlone(state, t, h, EndReady(open)) && IsOpen(s, h, open)
      requires SameTables(CheckoutCancelled(s, open), state) && h in s.holds && s.holds[h].status.Outstanding?
      modifies this
      ensures Valid() && Idle(state) && SameTables(HoldCancelled(s, h, open), state)
    {
      CancelEnds(s, state, t, h, open);
      hide Init, Final, CanEndCommit, EndCommit, SameTables, CancelAlone, CheckoutCancelled, HoldCancelled, IsOpen;
      Do(AtTill(DoEndCommit(t)));
    }

    /**
      Reserves a granted issuance exactly when its seat is free and one more fits; a
      refusal leaves everything as it was.
     */
    method Reserve(t: TxnId, g: GrantId, cls: ClassId, seat: Option<SeatId>) returns (reserved: bool)
      requires Valid() && Idle(state) && g !in state.grants && ByGrant(g) !in state.writes
      modifies this
      ensures Valid() && Idle(state) && reserved == old(GrantHasPlace(state, cls, seat))
      ensures SameTables(if reserved then GrantReserved(old(state), g, cls, seat) else old(state), state)
    {
      ghost var s := state;
      var goal := ToGrant(g, cls, seat);
      Enter(t, goal);
      ghost var s1 := state;
      CountAllocations(t, goal, Entered);
      ghost var s2 := state;
      ReadPlace(t, goal);
      SameTablesChain(s, s1, s2);
      SameTablesChain(s, s2, state);
      reserved := ReserveRead(t, goal, s);
    }

    method ReserveRead(t: TxnId, goal: Goal, ghost s: State) returns (reserved: bool)
      requires Valid() && Alone(state, t, goal, Stage.Counted) && ReadAll(state, state.txns[t].a) && goal.ToGrant?
      requires SameTables(s, state) && goal.grant !in state.grants && ByGrant(goal.grant) !in state.writes
      modifies this
      ensures Valid() && Idle(state) && reserved == GrantHasPlace(s, goal.cls, goal.seat)
      ensures SameTables(if reserved then GrantReserved(s, goal.grant, goal.cls, goal.seat) else s, state)
    {
      ghost var s1 := state;
      ReserveIsDecided(state, t, goal);
      ReservedAlike(s, s1, goal.grant, goal.cls, goal.seat);
      ReadAllCounted(state, state.txns[t].a);
      hide Init, Final, CanReserve, SaleProtocol.Reserve, GrantHasPlace, GrantReserved, SameTables, ReadAll, CountedAll;
      reserved := CanReserve(state, t);
      if reserved {
        ReserveChanges(state, t, goal);
        CommitStep(DoReserve(t), goal, Stage.Counted);
        SameTablesChain(GrantReserved(s, goal.grant, goal.cls, goal.seat), GrantReserved(s1, goal.grant, goal.cls, goal.seat), state);
      } else {
        RollBack(t, goal, Stage.Counted);
        SameTablesChain(s, s1, state);
      }
    }

    /**
      Decreases the capacity of the event: never raises it, and on an event on sale never
      below what is allocated; the ledger is asked under the event's lock.
     */
    method DecreaseCapacity(t: TxnId, to: nat) returns (outcome: Decrease)
      requires Valid() && Idle(state)
      modifies this
      ensures Valid() && Idle(state) && DecreasedAs(old(state), state, to, outcome)
    {
      ghost var s := state;
      var goal := ToShrink(to);
      Enter(t, goal);
      ghost var s1 := state;
      hide Init, Final, CanLook, Look, DecreasedAs, Issued;
      if state.ledger.status.Active? {
        CountAllocations(t, goal, Entered);
        ghost var s2 := state;
        SameTablesChain(s, s1, s2);
        Looking(state, t, goal);
        Do(InProgress(DoLook(t)));
        SameTablesChain(s, s2, state);
        SameIssued(s2, state);
        outcome := ShrinkRead(t, to, Stage.Counted, s);
      } else {
        LookingEarly(state, t, goal);
        Do(InProgress(DoLook(t)));
        SameTablesChain(s, s1, state);
        SameIssued(s1, state);
        outcome := ShrinkRead(t, to, Entered, s);
      }
    }

    method ShrinkRead(t: TxnId, to: nat, ghost stage: Stage, ghost s: State) returns (outcome: Decrease)
      requires Valid() && Alone(state, t, ToShrink(to), stage) && (stage.Entered? || stage.Counted?) && SameTables(s, state)
      requires state.txns[t].a.view == Some(View(state.ledger.status, state.ledger.capacity, Issued(state), state.closed))
      requires stage.Counted? <==> state.ledger.status.Active?
      requires stage.Counted? ==> CountedAll(state, state.txns[t].a)
      modifies this
      ensures Valid() && Idle(state) && DecreasedAs(s, state, to, outcome)
    {
      ghost var s1 := state;
      StateIsSafe();
      NothingSwept(state, t, to, stage);
      ShrinkIsDecided(state, t, to, stage);
      DecreasedAlike(s, s1, to);
      hide Init, Final, Safe, CanShrink, CapacityDecreased, Allocated, Issued, CountedAll, RaisesBound, Idle;
      if CanShrink(state, t) {
        WriteShrink(t, to, stage);
        SameTablesChain(CapacityDecreased(s, to), CapacityDecreased(s1, to), state);
        outcome := Decreased;
      } else {
        outcome := if RaisesBound(state, to) then NeedsProof else BelowIssuance;
        RollBack(t, ToShrink(to), stage);
        SameTablesChain(s, s1, state);
      }
    }

    /** The ledger takes the bound; then the lapses it counted on are committed. */
    method WriteShrink(t: TxnId, to: nat, ghost stage: Stage)
      requires Valid() && Alone(state, t, ToShrink(to), stage) && CanShrink(state, t)
      requires state.txns[t].a.gone == (if state.ledger.status.Active? then ExpiredHolds(state.holds, state.now) else {})
      modifies this
      ensures Valid() && Idle(state) && SameTables(CapacityDecreased(old(state), to), state)
    {
      ShrinkChanges(state, t, to, stage);
      hide Init, Final, CanShrink, Shrink, CanKeepShrink, CommitLapses, CapacityDecreased, ExpiredHolds, SameTables;
      Do(InCommit(DoShrink(t)));
      CommitStep(DoKeepShrink(t), ToShrink(to), Written);
    }
  }
}
