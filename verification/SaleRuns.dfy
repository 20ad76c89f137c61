/** Runs step by step, and ones that place a hold for a new event and have it paid. */
module SaleRuns {
  import opened Common
  import opened Allocation
  import opened SaleProtocol

  /** A run from `start` ends in `s`. */
  ghost predicate Reaches(start: State, s: State) {
    exists steps :: IsRun(start, steps) && After(start, steps) == s
  }

  lemma {:induction false} RunsExtend(start: State, steps: seq<Step>, step: Step)
    requires IsRun(start, steps) && Enabled(After(start, steps), step)
    ensures IsRun(start, steps + [step]) && After(start, steps + [step]) == Apply(After(start, steps), step)
    decreases |steps|
  {
    hide Enabled, Apply;
    if steps == [] {
      assert [step][1..] == [] && [] + [step] == [step];
    } else {
      assert (steps + [step])[1..] == steps[1..] + [step];
      RunsExtend(Apply(start, steps[0]), steps[1..], step);
    }
  }

  predicate Goes(s: State, step: Step, s': State) {
    Enabled(s, step) && Apply(s, step) == s'
  }

  lemma Then(start: State, s: State, step: Step, s': State)
    requires Reaches(start, s) && Goes(s, step, s')
    ensures Reaches(start, s')
  {
    hide Enabled, Apply;
    var steps :| IsRun(start, steps) && After(start, steps) == s;
    RunsExtend(start, steps, step);
  }

  const PRICE := Money(100, 0)

  /** An event with one class and no capacity bound. */
  function NewEvent(): State {
    State(0, map[], map[], map[], map[], map[], map[], map[], map[], map[], Ledger(Active, None), false, 0, None, map[],
          map[], map[], map[])
  }

  /** A hold of the event, placed at once. */
  function Held(): State {
    NewEvent().(holds := map[0 := Hold(0, None, PRICE, Outstanding, HOLD_LIFETIME, false)])
  }

  function Placing(stage: Stage, view: Option<View>, free: Option<bool>): State {
    NewEvent().(lock := if stage.Waiting? then None else Some(0), txns := map[0 := Allocating(
      Alloc(ToHold(0, 0, None, PRICE), stage, 0, {}, map[], map[], view, free, None))])
  }

  const SEEN := Some(View(Active, None, 0, false))

  lemma PlacingStarts()
    ensures Goes(NewEvent(), InProgress(DoBegin(0, ToHold(0, 0, None, PRICE))), Placing(Waiting, None, None))
    ensures Goes(Placing(Waiting, None, None), InProgress(DoEnter(0)), Placing(Entered, None, None))
    ensures Goes(Placing(Entered, None, None), InProgress(DoReadClock(0)), Placing(Timed, None, None))
  {
  }

  lemma PlacingSweeps()
    ensures Goes(Placing(Timed, None, None), InProgress(DoSweep(0)), Placing(Swept, None, None))
  {
    assert ExpiredHolds(map[], 0) == {};
  }

  lemma PlacingCounts()
    ensures Goes(Placing(Swept, None, None), InProgress(DoCount(0)), Placing(Stage.Counted, None, None))
  {
    assert Lapsing(map[], {}) == map[];
  }

  lemma PlacingLooks()
    ensures Goes(Placing(Stage.Counted, None, None), InProgress(DoLook(0)), Placing(Stage.Counted, SEEN, None))
    ensures Goes(Placing(Stage.Counted, SEEN, None), InProgress(DoProbe(0)), Placing(Stage.Counted, SEEN, Some(true)))
  {
    assert LandedClaims(map[]) == {};
  }

  lemma PlacingCommits()
    ensures Goes(Placing(Stage.Counted, SEEN, Some(true)), InCommit(DoPlace(0)), Held())
  {
    assert Lapsing(map[], {}) == map[];
  }

  lemma PlacingReaches()
    ensures Reaches(NewEvent(), Held())
  {
    PlacingStarts();
    PlacingSweeps();
    PlacingCounts();
    PlacingLooks();
    PlacingCommits();
    var s := NewEvent();
    assert IsRun(s, []) && After(s, []) == s;
    assert Reaches(s, s);
    hide Goes, Placing, Held, NewEvent, Reaches, IsRun, After;
    Then(s, s, InProgress(DoBegin(0, ToHold(0, 0, None, PRICE))), Placing(Waiting, None, None));
    Then(s, Placing(Waiting, None, None), InProgress(DoEnter(0)), Placing(Entered, None, None));
    Then(s, Placing(Entered, None, None), InProgress(DoReadClock(0)), Placing(Timed, None, None));
    Then(s, Placing(Timed, None, None), InProgress(DoSweep(0)), Placing(Swept, None, None));
    Then(s, Placing(Swept, None, None), InProgress(DoCount(0)), Placing(Stage.Counted, None, None));
    Then(s, Placing(Stage.Counted, None, None), InProgress(DoLook(0)), Placing(Stage.Counted, SEEN, None));
    Then(s, Placing(Stage.Counted, SEEN, None), InProgress(DoProbe(0)), Placing(Stage.Counted, SEEN, Some(true)));
    Then(s, Placing(Stage.Counted, SEEN, Some(true)), InCommit(DoPlace(0)), Held());
  }

  // ----- Its buyer starts paying -----

  function BuyerPaying(pay: PayStage): State {
    Held().(rows := map[0 := 1], txns := map[1 := Paying(0, pay)],
            remote := if pay.PayCreated? then map[0 := Remote(Open, PRICE)] else map[])
  }

  /** The hosted checkout is open, and the hold extended. */
  function AskedToPay(): State {
    Held().(holds := map[0 := Hold(0, None, PRICE, Outstanding, HOLD_LIFETIME + HOLD_EXTENSION, true)],
            hosted := map[0 := Hosted(0, PRICE, Open)], remote := map[0 := Remote(Open, PRICE)])
  }

  lemma PayingStarts()
    ensures Goes(Held(), AtTill(DoPay(1, 0)), BuyerPaying(PayStarted))
    ensures Goes(BuyerPaying(PayStarted), AtTill(DoPayClear(1)), BuyerPaying(PayCleared))
  {
  }

  lemma PayingCreates()
    ensures Goes(BuyerPaying(PayCleared), AtTill(DoPayReplace(1, None)), BuyerPaying(PayReady(None)))
    ensures Goes(BuyerPaying(PayReady(None)), AtTill(DoPayCreate(1, 0)), BuyerPaying(PayCreated(None, 0)))
  {
  }

  lemma PayingCommits()
    ensures Goes(BuyerPaying(PayCreated(None, 0)), AtTill(DoPayCommit(1)), AskedToPay())
  {
    assert Unlocked(map[0 := 1], 1) == map[];
  }

  lemma AskedToPayReaches()
    ensures Reaches(NewEvent(), AskedToPay())
  {
    PlacingReaches();
    PayingStarts();
    PayingCreates();
    PayingCommits();
    var s := NewEvent();
    hide Goes, Held, NewEvent, Reaches, BuyerPaying, AskedToPay;
    Then(s, Held(), AtTill(DoPay(1, 0)), BuyerPaying(PayStarted));
    Then(s, BuyerPaying(PayStarted), AtTill(DoPayClear(1)), BuyerPaying(PayCleared));
    Then(s, BuyerPaying(PayCleared), AtTill(DoPayReplace(1, None)), BuyerPaying(PayReady(None)));
    Then(s, BuyerPaying(PayReady(None)), AtTill(DoPayCreate(1, 0)), BuyerPaying(PayCreated(None, 0)));
    Then(s, BuyerPaying(PayCreated(None, 0)), AtTill(DoPayCommit(1)), AskedToPay());
  }

  /** The buyer has paid, and nobody has asked the provider since. */
  function Charged(): State {
    AskedToPay().(remote := map[0 := Remote(Paid, PRICE)])
  }

  lemma ChargedReaches()
    ensures Reaches(NewEvent(), Charged())
  {
    AskedToPayReaches();
    assert Goes(AskedToPay(), InWorld(DoCharge(0, PRICE)), Charged());
    hide Goes, NewEvent, Reaches, AskedToPay, Charged;
    Then(NewEvent(), AskedToPay(), InWorld(DoCharge(0, PRICE)), Charged());
  }
}
