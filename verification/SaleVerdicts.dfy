/**
  What the verdicts on issuances come to, over every run: a granted issuance or a sale
  is recorded as it ended, and one the ledger refused takes nothing of the event's room.
 */
module SaleVerdicts {
  import opened Common
  import opened Allocation
  import opened SaleProtocol
  import opened SaleRoom
  import opened SaleMoney
  import opened SaleSafety
  import opened SaleTheorems
  import opened PaymentEffects

  // ----- A granted issuance's history -----

  /** What a step says of one granted issuance. */
  datatype GrantEvent = Reserved(cls: ClassId, seat: Option<SeatId>) | Ended(outcome: GrantStatus) | Deleted | Nothing

  function GrantEventOf(s: State, step: Step, g: GrantId): GrantEvent
    requires Enabled(s, step)
  {
    match step
    case InCommit(DoReserve(t)) =>
      var goal := s.txns[t].a.goal;
      if goal.grant == g then Reserved(goal.cls, goal.seat) else Nothing
    case InLedger(DoSettle(g', outcome)) => if g' == g then Ended(outcome) else Nothing
    case InLedger(DoUndertakeNothing(g')) => if g' == g then Deleted else Nothing
    case _ => Nothing
  }

  function GrantHistory(s: State, steps: seq<Step>, g: GrantId): seq<GrantEvent>
    requires IsRun(s, steps)
    decreases |steps|
  {
    if steps == [] then []
    else (if GrantEventOf(s, steps[0], g).Nothing? then [] else [GrantEventOf(s, steps[0], g)])
         + GrantHistory(Apply(s, steps[0]), steps[1..], g)
  }

  /** The row a history leaves: none, one pending, one ended, or none again. */
  predicate RowSays(history: seq<GrantEvent>, grants: Grants, g: GrantId) {
    if history == [] then g !in grants
    else
      && history[0].Reserved? && |history| <= 2
      && if |history| == 1 then g in grants && grants[g] == Grant(history[0].cls, history[0].seat, Pending)
         else if history[1].Deleted? then g !in grants
         else && history[1].Ended? && !history[1].outcome.Pending?
              && g in grants && grants[g] == Grant(history[0].cls, history[0].seat, history[1].outcome)
  }

  /** One step of it. */
  ghost predicate GrantNext(s: State, step: Step, s': State, g: GrantId)
    requires Enabled(s, step)
  {
    && (ByGrant(g) in s.writes ==> ByGrant(g) in s'.writes)
    && match GrantEventOf(s, step, g)
       case Reserved(cls, seat) =>
         g !in s.grants && ByGrant(g) !in s.writes && ByGrant(g) in s'.writes
         && g in s'.grants && s'.grants[g] == Grant(cls, seat, Pending)
       case Ended(outcome) =>
         g in s.grants && s.grants[g].status.Pending? && !outcome.Pending?
         && g in s'.grants && s'.grants[g] == s.grants[g].(status := outcome)
       case Deleted => g in s.grants && s.grants[g].status.Pending? && g !in s'.grants
       case Nothing =>
         (g in s'.grants <==> g in s.grants) && (g in s.grants ==> s'.grants[g] == s.grants[g])
         && (ByGrant(g) in s'.writes ==> ByGrant(g) in s.writes)
  }

  lemma CommitOnGrant(s: State, step: Commit, g: GrantId)
    requires CommitEnabled(s, step)
    ensures GrantNext(s, InCommit(step), ApplyCommit(s, step), g)
  {
    hide Unlocked, PlaceFree, PlaceTaken, PlaceRefused, RoomSeen, AllocatedCount, CountsSeen, QuotaHasRoom, Lapsing,
      SetHold, EndHold, SetHosted, Entitle, Handled;
  }

  lemma OutcomeOnGrant(s: State, step: Outcome, g: GrantId)
    requires OutcomeEnabled(s, step)
    ensures GrantNext(s, InLedger(step), ApplyOutcome(s, step), g)
  {
    hide SetHold, SetSale, Entitle, OnLedger, SeatOf, SaleOpen;
  }

  lemma ProgressLeavesGrants(s: State, step: Progress)
    requires ProgressEnabled(s, step)
    ensures ApplyProgress(s, step).grants == s.grants
  {
  }

  lemma DeskLeavesGrants(s: State, step: Desk)
    requires DeskEnabled(s, step)
    ensures ApplyDesk(s, step).grants == s.grants
  {
  }

  lemma TillLeavesGrants(s: State, step: Till)
    requires TillEnabled(s, step)
    ensures ApplyTill(s, step).grants == s.grants
  {
  }

  lemma WorldLeavesGrants(s: State, step: World)
    requires WorldEnabled(s, step)
    ensures ApplyWorld(s, step).grants == s.grants
  {
  }

  lemma OthersLeaveGrants(s: State, step: Step)
    requires Enabled(s, step) && !step.InCommit? && !step.InLedger?
    ensures Apply(s, step).grants == s.grants
  {
    hide ApplyProgress, ApplyDesk, ApplyTill, ApplyWorld, ProgressEnabled, DeskEnabled, TillEnabled, WorldEnabled;
    match step {
      case InProgress(p) => ProgressLeavesGrants(s, p);
      case AtDesk(p) => DeskLeavesGrants(s, p);
      case AtTill(p) => TillLeavesGrants(s, p);
      case InWorld(p) => WorldLeavesGrants(s, p);
    }
  }

  lemma StepOnGrant(s: State, step: Step, g: GrantId)
    requires Enabled(s, step)
    ensures GrantNext(s, step, Apply(s, step), g)
  {
    if step.InCommit? {
      CommitOnGrant(s, step.commit, g);
    } else if step.InLedger? {
      OutcomeOnGrant(s, step.outcome, g);
    } else {
      OthersLeaveRecords(s, step);
      OthersLeaveGrants(s, step);
    }
    hide ApplyProgress, ApplyCommit, ApplyDesk, ApplyTill, ApplyWorld, ApplyOutcome, ProgressEnabled, CommitEnabled,
      DeskEnabled, TillEnabled, WorldEnabled, OutcomeEnabled;
  }

  /** The history so far, and whether there is a write of it. */
  ghost predicate GrantTold(past: seq<GrantEvent>, s: State, g: GrantId) {
    RowSays(past, s.grants, g) && (past != [] <==> ByGrant(g) in s.writes)
  }

  lemma ToldOneMore(past: seq<GrantEvent>, s: State, step: Step, g: GrantId)
    requires GrantTold(past, s, g) && Enabled(s, step)
    ensures var e := GrantEventOf(s, step, g); GrantTold(past + (if e.Nothing? then [] else [e]), Apply(s, step), g)
  {
    StepOnGrant(s, step, g);
    hide Enabled, Apply, GrantEventOf;
    if GrantEventOf(s, step, g).Nothing? {
      assert past + [] == past;
    }
  }

  lemma {:induction false} RunTellsGrant(past: seq<GrantEvent>, s: State, steps: seq<Step>, g: GrantId)
    requires GrantTold(past, s, g) && IsRun(s, steps)
    ensures GrantTold(past + GrantHistory(s, steps, g), After(s, steps), g)
    decreases |steps|
  {
    hide Enabled, Apply, GrantEventOf, GrantTold;
    if steps == [] {
      assert past + [] == past;
    } else {
      ToldOneMore(past, s, steps[0], g);
      var e := GrantEventOf(s, steps[0], g);
      var told := if e.Nothing? then [] else [e];
      RunTellsGrant(past + told, Apply(s, steps[0]), steps[1..], g);
      assert past + (told + GrantHistory(Apply(s, steps[0]), steps[1..], g)) == (past + told) + GrantHistory(Apply(s, steps[0]), steps[1..], g);
    }
  }

  lemma NothingToldYet(start: State, g: GrantId)
    requires Init(start)
    ensures GrantTold([], start, g)
  {
  }

  /**
    Over every run a granted issuance has one of four histories: none; reserved; reserved
    and deleted, because nothing was signed; reserved and ended, once. Its row is what its
    history says, and it counts exactly while it is reserved and not deleted, nor ended
    by a refusal of the ledger.
   */
  lemma AGrantIsItsHistory(start: State, steps: seq<Step>, g: GrantId)
    requires Init(start) && IsRun(start, steps)
    ensures var history, s := GrantHistory(start, steps, g), After(start, steps);
            && RowSays(history, s.grants, g)
            && (g in CountedGrants(s.grants) <==>
                  |history| == 1 || (|history| == 2 && history[1].Ended? && !history[1].outcome.Rejected?))
            && (Ended(Rejected) in history ==> ByGrant(g) in s.writes && s.writes[ByGrant(g)].Refused?)
  {
    hide IsRun, After, GrantHistory, Init;
    NothingToldYet(start, g);
    RunTellsGrant([], start, steps, g);
    assert [] + GrantHistory(start, steps, g) == GrantHistory(start, steps, g);
    ReachedIsSafe(start, steps);
    RejectedIsRefused(After(start, steps), g);
    hide Safe;
  }

  lemma RejectedIsRefused(s: State, g: GrantId)
    requires Safe(s)
    ensures g in s.grants && s.grants[g].status.Rejected? ==> ByGrant(g) in s.writes && s.writes[ByGrant(g)].Refused?
  {
    assert WritesOk(s.writes, s.sales, s.grants, s.faces, s.hosted);
    hide Safe;
  }

  // ----- What a verdict frees -----

  /** A verdict changes its issuance's status and nothing else, and takes it from what counts exactly if it is a refusal. */
  lemma AVerdictFreesExactlyWhen(start: State, steps: seq<Step>, g: GrantId, outcome: GrantStatus)
    requires Init(start) && IsRun(start, steps) && Enabled(After(start, steps), InLedger(DoSettle(g, outcome)))
    ensures var s := After(start, steps);
            var s' := Apply(s, InLedger(DoSettle(g, outcome)));
            && g in s.grants && g in s'.grants && s'.grants[g] == Grant(s.grants[g].cls, s.grants[g].seat, outcome)
            && s'.grants.Keys == s.grants.Keys && (forall g' | g' in s.grants && g' != g :: s'.grants[g'] == s.grants[g'])
            && s'.(grants := s.grants) == s
            && CountedGrants(s'.grants) == (if outcome.Rejected? then CountedGrants(s.grants) - {g} else CountedGrants(s.grants))
            && (outcome.Rejected? ==> s.writes[ByGrant(g)].Refused? && !GrantedSeat(s'.grants, s.grants[g].seat))
  {
    ReachedIsSafe(start, steps);
    VerdictFrees(After(start, steps), g, outcome);
    hide Safe, IsRun, After;
  }

  lemma SettlingFrees(holds: Holds, grants: Grants, g: GrantId, outcome: GrantStatus)
    requires g in grants && grants[g].Counts() && SeatsOk(holds, grants)
    ensures var after := grants[g := grants[g].(status := outcome)];
            && CountedGrants(after) == (if outcome.Rejected? then CountedGrants(grants) - {g} else CountedGrants(grants))
            && (outcome.Rejected? ==> !GrantedSeat(after, grants[g].seat))
  {
  }

  lemma VerdictFrees(s: State, g: GrantId, outcome: GrantStatus)
    requires Safe(s) && Enabled(s, InLedger(DoSettle(g, outcome)))
    ensures var s' := Apply(s, InLedger(DoSettle(g, outcome)));
            && g in s.grants && g in s'.grants && s'.grants[g] == Grant(s.grants[g].cls, s.grants[g].seat, outcome)
            && s'.grants.Keys == s.grants.Keys && (forall g' | g' in s.grants && g' != g :: s'.grants[g'] == s.grants[g'])
            && s'.(grants := s.grants) == s
            && CountedGrants(s'.grants) == (if outcome.Rejected? then CountedGrants(s.grants) - {g} else CountedGrants(s.grants))
            && (outcome.Rejected? ==> s.writes[ByGrant(g)].Refused? && !GrantedSeat(s'.grants, s.grants[g].seat))
  {
    SafeSeats(s);
    hide Safe, SeatsOk, CountedGrants, GrantedSeat;
    SettlingFrees(s.holds, s.grants, g, outcome);
  }

  /** A refused reservation takes nothing: room is what it would be had it never been made. */
  lemma ARefusedOneTakesNothing(start: State, steps: seq<Step>, g: GrantId, cls: ClassId, seat: Option<SeatId>)
    requires Init(start) && IsRun(start, steps) && Ended(Rejected) in GrantHistory(start, steps, g)
    ensures var s := After(start, steps);
            var without := s.(grants := s.grants - {g});
            && g in s.grants && !s.grants[g].Counts()
            && (HasPlace(s, cls, seat) <==> HasPlace(without, cls, seat))
            && (GrantHasPlace(s, cls, seat) <==> GrantHasPlace(without, cls, seat))
  {
    AGrantIsItsHistory(start, steps, g);
    RefusedRow(GrantHistory(start, steps, g), After(start, steps).grants, g);
    hide IsRun, After, GrantHistory, Init, HasPlace, GrantHasPlace, RowSays, CountedGrants;
    TakesNothing(After(start, steps), g, cls, seat);
  }

  lemma RefusedRow(history: seq<GrantEvent>, grants: Grants, g: GrantId)
    requires RowSays(history, grants, g) && Ended(Rejected) in history
    ensures g in grants && !grants[g].Counts()
  {
  }

  lemma TakesNothing(s: State, g: GrantId, cls: ClassId, seat: Option<SeatId>)
    requires g in s.grants && !s.grants[g].Counts() && ByGrant(g) in s.writes && s.writes[ByGrant(g)].Refused?
    ensures var without := s.(grants := s.grants - {g});
            && (HasPlace(s, cls, seat) <==> HasPlace(without, cls, seat))
            && (GrantHasPlace(s, cls, seat) <==> GrantHasPlace(without, cls, seat))
  {
    var without := s.(grants := s.grants - {g});
    assert CountedGrants(without.grants) == CountedGrants(s.grants);
    assert CountedGrantsOf(without.grants, cls) == CountedGrantsOf(s.grants, cls);
    SameOnLedger(s, g, seat);
    SameGrantedSeat(s.grants, g, seat);
    hide OnLedger, GrantedSeat, SeatHeld, LiveHolds, LiveHoldsOf, ConfirmedHolds, CountedGrants, CountedGrantsOf, Unexpired;
  }

  lemma SameGrantedSeat(grants: Grants, g: GrantId, seat: Option<SeatId>)
    requires g in grants && !grants[g].Counts()
    ensures GrantedSeat(grants - {g}, seat) == GrantedSeat(grants, seat)
  {
    if GrantedSeat(grants, seat) {
      var other :| other in grants && grants[other].Counts() && grants[other].seat == seat;
      assert other in grants - {g} && (grants - {g})[other] == grants[other];
    }
  }

  lemma SameOnLedger(s: State, g: GrantId, seat: Option<SeatId>)
    requires ByGrant(g) in s.writes && s.writes[ByGrant(g)].Refused?
    ensures OnLedger(s.(grants := s.grants - {g}), seat) == OnLedger(s, seat)
  {
    var without := s.(grants := s.grants - {g});
    assert forall c | c in s.writes && s.writes[c].Landed? :: SeatOf(without, c) == SeatOf(s, c);
  }

  // ----- A sale's history -----

  datatype SaleEvent = Started(hosted: HostedId, hold: HoldId) | Concluded(status: SaleStatus) | Quiet

  function SaleEventOf(s: State, step: Step, x: SaleId): SaleEvent
    requires Enabled(s, step)
  {
    match step
    case InCommit(DoSell(t, x')) =>
      if x' == x then SaleEvent.Started(s.txns[t].a.goal.hosted, s.txns[t].a.goal.hold) else Quiet
    case InLedger(DoConfirm(x')) => if x' == x then Concluded(SaleIssued) else Quiet
    case InLedger(DoReject(x')) => if x' == x then Concluded(SaleRejected) else Quiet
    case InLedger(DoFail(x')) => if x' == x then Concluded(SaleFailed) else Quiet
    case _ => Quiet
  }

  function SaleHistory(s: State, steps: seq<Step>, x: SaleId): seq<SaleEvent>
    requires IsRun(s, steps)
    decreases |steps|
  {
    if steps == [] then []
    else (if SaleEventOf(s, steps[0], x).Quiet? then [] else [SaleEventOf(s, steps[0], x)])
         + SaleHistory(Apply(s, steps[0]), steps[1..], x)
  }

  predicate SaleSays(history: seq<SaleEvent>, sales: map<SaleId, Sale>, x: SaleId) {
    if history == [] then x !in sales
    else
      && history[0].Started? && |history| <= 2 && x in sales
      && if |history| == 1 then sales[x] == Sale(history[0].hosted, history[0].hold, SaleIssuing)
         else history[1].Concluded? && !history[1].status.SaleIssuing?
              && sales[x] == Sale(history[0].hosted, history[0].hold, history[1].status)
  }

  ghost predicate SaleNext(s: State, step: Step, s': State, x: SaleId)
    requires Enabled(s, step)
  {
    match SaleEventOf(s, step, x)
    case Started(k, h) => x !in s.sales && x in s'.sales && s'.sales[x] == Sale(k, h, SaleIssuing)
    case Concluded(status) =>
      x in s.sales && s.sales[x].status.SaleIssuing? && !status.SaleIssuing?
      && x in s'.sales && s'.sales[x] == s.sales[x].(status := status)
    case Quiet => (x in s'.sales <==> x in s.sales) && (x in s.sales ==> s'.sales[x] == s.sales[x])
  }

  lemma CommitOnSale(s: State, step: Commit, x: SaleId)
    requires CommitEnabled(s, step)
    ensures SaleNext(s, InCommit(step), ApplyCommit(s, step), x)
  {
    hide Unlocked, PlaceFree, PlaceTaken, PlaceRefused, RoomSeen, AllocatedCount, CountsSeen, QuotaHasRoom, Lapsing,
      SetHold, EndHold, SetHosted, Entitle, Handled;
  }

  lemma OutcomeOnSale(s: State, step: Outcome, x: SaleId)
    requires OutcomeEnabled(s, step)
    ensures SaleNext(s, InLedger(step), ApplyOutcome(s, step), x)
  {
    hide SetHold, Entitle, OnLedger, SeatOf;
  }

  lemma StepOnSale(s: State, step: Step, x: SaleId)
    requires Enabled(s, step)
    ensures SaleNext(s, step, Apply(s, step), x)
  {
    if step.InCommit? {
      CommitOnSale(s, step.commit, x);
    } else if step.InLedger? {
      OutcomeOnSale(s, step.outcome, x);
    } else {
      OthersLeaveRecords(s, step);
    }
    hide ApplyProgress, ApplyCommit, ApplyDesk, ApplyTill, ApplyWorld, ApplyOutcome, ProgressEnabled, CommitEnabled,
      DeskEnabled, TillEnabled, WorldEnabled, OutcomeEnabled;
  }

  lemma SaleToldOneMore(past: seq<SaleEvent>, s: State, step: Step, x: SaleId)
    requires SaleSays(past, s.sales, x) && Enabled(s, step)
    ensures var e := SaleEventOf(s, step, x); SaleSays(past + (if e.Quiet? then [] else [e]), Apply(s, step).sales, x)
  {
    StepOnSale(s, step, x);
    hide Enabled, Apply, SaleEventOf;
    if SaleEventOf(s, step, x).Quiet? {
      assert past + [] == past;
    }
  }

  lemma {:induction false} RunTellsSale(past: seq<SaleEvent>, s: State, steps: seq<Step>, x: SaleId)
    requires SaleSays(past, s.sales, x) && IsRun(s, steps)
    ensures SaleSays(past + SaleHistory(s, steps, x), After(s, steps).sales, x)
    decreases |steps|
  {
    hide Enabled, Apply, SaleEventOf, SaleSays;
    if steps == [] {
      assert past + [] == past;
    } else {
      SaleToldOneMore(past, s, steps[0], x);
      var e := SaleEventOf(s, steps[0], x);
      var told := if e.Quiet? then [] else [e];
      RunTellsSale(past + told, Apply(s, steps[0]), steps[1..], x);
      assert past + (told + SaleHistory(Apply(s, steps[0]), steps[1..], x)) == (past + told) + SaleHistory(Apply(s, steps[0]), steps[1..], x);
    }
  }

  /** What the ledger has, and the hold and refund, of a sale recorded as over. */
  ghost predicate OverAs(s: State, x: SaleId) {
    x in s.sales ==>
      && s.sales[x].hold in s.holds && BySale(x) in s.writes
      && (s.sales[x].status.SaleIssuing? || s.sales[x].status.SaleFailed? ==> s.holds[s.sales[x].hold].status.Issuing?)
      && (s.sales[x].status.SaleIssued? ==> s.holds[s.sales[x].hold].status.Confirmed? && s.writes[BySale(x)].Landed?)
      && (s.sales[x].status.SaleRejected? ==> s.writes[BySale(x)].Refused? && s.sales[x].hosted in s.refunds)
  }

  lemma SafeIsOverAs(s: State, x: SaleId)
    requires Safe(s)
    ensures OverAs(s, x)
  {
    SafeBooks(s);
    hide Safe;
  }

  /**
    Over every run a sale has one of three histories: none; started; started and over,
    once. Its row is what its history says, and hold, write and refund agree with it.
   */
  lemma ASaleIsItsHistory(start: State, steps: seq<Step>, x: SaleId)
    requires Init(start) && IsRun(start, steps)
    ensures var s := After(start, steps);
            SaleSays(SaleHistory(start, steps, x), s.sales, x) && OverAs(s, x)
  {
    assert SaleSays([], start.sales, x);
    hide IsRun, After, SaleHistory, Init, SaleSays;
    RunTellsSale([], start, steps, x);
    assert [] + SaleHistory(start, steps, x) == SaleHistory(start, steps, x);
    ReachedIsSafe(start, steps);
    SafeIsOverAs(After(start, steps), x);
    hide Safe, OverAs;
  }

  // ----- The capacity's history -----

  /** The last bound written to the ledger. */
  function LastBound(s: State, steps: seq<Step>, bound: Option<nat>): Option<nat>
    requires IsRun(s, steps)
    decreases |steps|
  {
    if steps == [] then bound
    else
      var next := match steps[0]
                  case InCommit(DoShrink(t)) => Some(s.txns[t].a.goal.to)
                  case InCommit(DoRaise(t)) => s.txns[t].a.goal.bound
                  case _ => bound;
      LastBound(Apply(s, steps[0]), steps[1..], next)
  }

  lemma CommitWritesBound(s: State, step: Commit)
    requires CommitEnabled(s, step)
    ensures ApplyCommit(s, step).ledger.capacity
            == match step
               case DoShrink(t) => Some(s.txns[t].a.goal.to)
               case DoRaise(t) => s.txns[t].a.goal.bound
               case _ => s.ledger.capacity
  {
    hide Unlocked, PlaceFree, PlaceTaken, PlaceRefused, RoomSeen, AllocatedCount, CountsSeen, QuotaHasRoom, Lapsing,
      SetHold, EndHold, SetHosted, Entitle, Handled;
  }

  lemma ProgressLeavesBound(s: State, step: Progress)
    requires ProgressEnabled(s, step)
    ensures ApplyProgress(s, step).ledger == s.ledger
  {
  }

  lemma DeskLeavesBound(s: State, step: Desk)
    requires DeskEnabled(s, step)
    ensures ApplyDesk(s, step).ledger == s.ledger
  {
  }

  lemma TillLeavesBound(s: State, step: Till)
    requires TillEnabled(s, step)
    ensures ApplyTill(s, step).ledger == s.ledger
  {
  }

  lemma WorldLeavesBound(s: State, step: World)
    requires WorldEnabled(s, step)
    ensures ApplyWorld(s, step).ledger == s.ledger
  {
  }

  lemma OutcomeLeavesBound(s: State, step: Outcome)
    requires OutcomeEnabled(s, step)
    ensures ApplyOutcome(s, step).ledger.capacity == s.ledger.capacity
  {
  }

  lemma OthersLeaveBound(s: State, step: Step)
    requires Enabled(s, step) && !step.InCommit?
    ensures Apply(s, step).ledger.capacity == s.ledger.capacity
  {
    hide ApplyProgress, ApplyDesk, ApplyTill, ApplyWorld, ApplyOutcome, ProgressEnabled, DeskEnabled, TillEnabled, WorldEnabled,
      OutcomeEnabled;
    match step {
      case InProgress(p) => ProgressLeavesBound(s, p);
      case AtDesk(p) => DeskLeavesBound(s, p);
      case AtTill(p) => TillLeavesBound(s, p);
      case InWorld(p) => WorldLeavesBound(s, p);
      case InLedger(p) => OutcomeLeavesBound(s, p);
    }
  }

  /** Over every run the event's capacity on the ledger is the last bound a decrease or an approved proof wrote. */
  lemma {:induction false} CapacityIsTheLastWritten(s: State, steps: seq<Step>)
    requires IsRun(s, steps)
    ensures After(s, steps).ledger.capacity == LastBound(s, steps, s.ledger.capacity)
    decreases |steps|
  {
    if steps != [] {
      if steps[0].InCommit? {
        CommitWritesBound(s, steps[0].commit);
      } else {
        OthersLeaveBound(s, steps[0]);
      }
      CapacityIsTheLastWritten(Apply(s, steps[0]), steps[1..]);
      hide ApplyProgress, ApplyCommit, ApplyDesk, ApplyTill, ApplyWorld, ApplyOutcome, ProgressEnabled, CommitEnabled,
        DeskEnabled, TillEnabled, WorldEnabled, OutcomeEnabled;
    }
  }
}
