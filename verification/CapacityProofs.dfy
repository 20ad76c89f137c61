/**
  Raising an event's capacity by a proof. A request is checked to be an increase before
  it enters the queue, which holds one at a time, and not when it is approved: another
  request approved in between may have raised the capacity above it.
 */
module CapacityProofs {
  import opened Common

  type RequestId = nat

  /** A request that passed the check, and how many approvals the ledger had taken by then. */
  datatype Checked = Checked(bound: Option<nat>, approvals: nat)

  /** The request in the queue, and how many approvals the ledger took between its check and its insertion. */
  datatype Pending = Pending(id: RequestId, bound: Option<nat>, between: int)

  datatype State = State(
    capacity: Option<nat>,
    approvals: nat,
    used: set<RequestId>,
    checked: map<RequestId, Checked>,
    pending: Option<Pending>,
    lock: Option<RequestId>)

  predicate Init(s: State) {
    s.approvals == 0 && s.used == {} && s.checked == map[] && s.pending.None? && s.lock.None?
  }

  /** A higher bound, or none where there was one. */
  predicate IsIncrease(from: Option<nat>, to: Option<nat>) {
    from.Some? && (to.None? || from.value < to.value)
  }

  /** No bound lower than the one it replaces. */
  predicate Raises(from: Option<nat>, to: Option<nat>) {
    to.None? || (from.Some? && from.value <= to.value)
  }

  datatype Step =
    | Check(r: RequestId, bound: Option<nat>)
    | Drop(r: RequestId)
    | Insert(r: RequestId)
    | Decrease(to: nat)
    | Approve(r: RequestId)
    | Commit
    | Crash
    | Reject(r: RequestId)

  predicate IsPending(s: State, r: RequestId) {
    s.pending.Some? && s.pending.value.id == r
  }

  predicate CanStep(s: State, step: Step) {
    match step
    case Check(r, bound) => r !in s.used && IsIncrease(s.capacity, bound)
    case Drop(r) => r in s.checked
    // The queue takes one request of an event at a time.
    case Insert(r) => r in s.checked && s.pending.None?
    // Under the event's lock, like an approval.
    case Decrease(to) => s.lock.None? && (s.capacity.Some? ==> to <= s.capacity.value)
    case Approve(r) => s.lock.None? && IsPending(s, r)
    case Commit => s.lock.Some?
    case Crash => s.lock.Some?
    // Waits for the row an approval keeps locked.
    case Reject(r) => s.lock.None? && IsPending(s, r)
  }

  function Do(s: State, step: Step): State
    requires CanStep(s, step)
  {
    match step
    case Check(r, bound) => s.(used := s.used + {r}, checked := s.checked[r := Checked(bound, s.approvals)])
    case Drop(r) => s.(checked := s.checked - {r})
    case Insert(r) =>
      s.(checked := s.checked - {r},
         pending := Some(Pending(r, s.checked[r].bound, s.approvals - s.checked[r].approvals)))
    case Decrease(to) => s.(capacity := Some(to))
    // The ledger takes the bound; the request is recorded as approved only afterwards.
    case Approve(r) => s.(capacity := s.pending.value.bound, approvals := s.approvals + 1, lock := Some(r))
    case Commit => s.(pending := None, lock := None)
    case Crash => s.(lock := None)
    case Reject(r) => s.(pending := None)
  }

  predicate IsRun(s: State, steps: seq<Step>)
    decreases |steps|
  {
    steps == [] || (CanStep(s, steps[0]) && IsRun(Do(s, steps[0]), steps[1..]))
  }

  function After(s: State, steps: seq<Step>): State
    requires IsRun(s, steps)
    decreases |steps|
  {
    if steps == [] then s else After(Do(s, steps[0]), steps[1..])
  }

  // ----- When an approval raises the capacity -----

  ghost predicate Inv(s: State) {
    && (forall r | r in s.checked :: r in s.used && s.checked[r].approvals <= s.approvals)
    && (s.pending.Some? ==> s.pending.value.id in s.used && s.pending.value.id !in s.checked)
    && (s.lock.Some? ==> IsPending(s, s.lock.value))
    && (forall r | r in s.checked && s.checked[r].approvals == s.approvals :: Raises(s.capacity, s.checked[r].bound))
    && (s.pending.Some? && s.pending.value.between == 0 ==> Raises(s.capacity, s.pending.value.bound))
  }

  lemma StepKeepsInv(s: State, step: Step)
    requires Inv(s) && CanStep(s, step)
    ensures Inv(Do(s, step))
  {
  }

  lemma {:induction false} RunKeepsInv(s: State, steps: seq<Step>)
    requires Inv(s) && IsRun(s, steps)
    ensures Inv(After(s, steps))
    decreases |steps|
  {
    hide Inv, CanStep, Do;
    if steps != [] {
      StepKeepsInv(s, steps[0]);
      RunKeepsInv(Do(s, steps[0]), steps[1..]);
    }
  }

  /** A request raises the capacity whenever it is approved, if no other approval came between its check and its insertion. */
  lemma UndisturbedApprovalRaises(start: State, steps: seq<Step>, r: RequestId)
    requires Init(start) && IsRun(start, steps) && CanStep(After(start, steps), Approve(r))
    ensures var s := After(start, steps);
            s.pending.value.between == 0 ==> Raises(s.capacity, Do(s, Approve(r)).capacity)
  {
    RunKeepsInv(start, steps);
  }

  /** Every approval of the request, whatever happens until then, raises the capacity. */
  ghost predicate ApprovalsRaise(s: State, r: RequestId) {
    forall steps | IsRun(s, steps) && CanStep(After(s, steps), Approve(r)) ::
      Raises(After(s, steps).capacity, Do(After(s, steps), Approve(r)).capacity)
  }

  /** The request is over, or pending with a bound no lower than the capacity. */
  ghost predicate Fits(s: State, r: RequestId) {
    && r in s.used && r !in s.checked && (s.lock.Some? ==> IsPending(s, s.lock.value))
    && (IsPending(s, r) ==> Raises(s.capacity, s.pending.value.bound))
  }

  lemma StepKeepsFits(s: State, step: Step, r: RequestId)
    requires Fits(s, r) && CanStep(s, step)
    ensures Fits(Do(s, step), r)
  {
  }

  lemma {:induction false} RunKeepsFits(s: State, steps: seq<Step>, r: RequestId)
    requires Fits(s, r) && IsRun(s, steps)
    ensures Fits(After(s, steps), r)
    decreases |steps|
  {
    hide Fits, CanStep, Do;
    if steps != [] {
      StepKeepsFits(s, steps[0], r);
      RunKeepsFits(Do(s, steps[0]), steps[1..], r);
    }
  }

  /**
    When a request enters the queue: whenever it is approved, and however often the
    approval stops half-way, the capacity is raised, exactly if its bound is no lower
    than the capacity then.
   */
  lemma ApprovalsRaiseExactlyWhen(start: State, steps: seq<Step>, r: RequestId)
    requires Init(start) && IsRun(start, steps) && CanStep(After(start, steps), Insert(r))
    ensures var s := After(start, steps);
            ApprovalsRaise(Do(s, Insert(r)), r) <==> Raises(s.capacity, s.checked[r].bound)
  {
    RunKeepsInv(start, steps);
    var s := After(start, steps);
    var queued := Do(s, Insert(r));
    if Raises(s.capacity, s.checked[r].bound) {
      forall more | IsRun(queued, more) && CanStep(After(queued, more), Approve(r))
        ensures Raises(After(queued, more).capacity, Do(After(queued, more), Approve(r)).capacity)
      {
        RunKeepsFits(queued, more, r);
      }
    } else {
      assert IsRun(queued, []) && After(queued, []) == queued;
    }
  }

  // ----- An approval that lowers it -----

  const TWO_CHECKED := [Check(0, Some(20)), Check(1, Some(15))]
  const FIRST_APPROVED := [Insert(0), Approve(0), Commit]

  function Bounded(capacity: nat): State {
    State(Some(capacity), 0, {}, map[], None, None)
  }

  lemma TwoAreChecked()
    ensures IsRun(Bounded(10), TWO_CHECKED)
    ensures After(Bounded(10), TWO_CHECKED)
            == State(Some(10), 0, {0, 1}, map[0 := Checked(Some(20), 0), 1 := Checked(Some(15), 0)], None, None)
  {
    assert TWO_CHECKED[1..] == [Check(1, Some(15))] && TWO_CHECKED[1..][1..] == [];
  }

  lemma FirstIsApproved()
    ensures var s := State(Some(10), 0, {0, 1}, map[0 := Checked(Some(20), 0), 1 := Checked(Some(15), 0)], None, None);
            && IsRun(s, FIRST_APPROVED)
            && After(s, FIRST_APPROVED) == State(Some(20), 1, {0, 1}, map[1 := Checked(Some(15), 0)], None, None)
  {
    var s := State(Some(10), 0, {0, 1}, map[0 := Checked(Some(20), 0), 1 := Checked(Some(15), 0)], None, None);
    assert s.checked - {0} == map[1 := Checked(Some(15), 0)];
    assert FIRST_APPROVED[1..] == [Approve(0), Commit] && FIRST_APPROVED[1..][1..] == [Commit];
    assert FIRST_APPROVED[1..][1..][1..] == [];
  }

  lemma {:induction false} RunsFollow(s: State, before: seq<Step>, later: seq<Step>)
    requires IsRun(s, before) && IsRun(After(s, before), later)
    ensures IsRun(s, before + later) && After(s, before + later) == After(After(s, before), later)
    decreases |before|
  {
    hide CanStep, Do;
    if before == [] {
      assert [] + later == later;
    } else {
      assert (before + later)[1..] == before[1..] + later;
      RunsFollow(Do(s, before[0]), before[1..], later);
    }
  }

  /** Two increases checked at once; the smaller one, approved second, lowers what the first one raised. */
  lemma ASecondApprovalMayLower()
    ensures exists start, steps :: Init(start) && IsRun(start, steps) && CanStep(After(start, steps), Insert(1))
                                   && !ApprovalsRaise(Do(After(start, steps), Insert(1)), 1)
  {
    TwoAreChecked();
    FirstIsApproved();
    RunsFollow(Bounded(10), TWO_CHECKED, FIRST_APPROVED);
    var steps := TWO_CHECKED + FIRST_APPROVED;
    assert Init(Bounded(10)) && CanStep(After(Bounded(10), steps), Insert(1));
    hide IsRun, After, ApprovalsRaise;
    ApprovalsRaiseExactlyWhen(Bounded(10), steps, 1);
  }

  // ----- A request decided -----

  /** It is over: approved or rejected, and not in the queue. */
  ghost predicate Decided(s: State, r: RequestId) {
    Inv(s) && r in s.used && r !in s.checked && !IsPending(s, r)
  }

  lemma StepKeepsDecided(s: State, step: Step, r: RequestId)
    requires Decided(s, r) && CanStep(s, step)
    ensures Decided(Do(s, step), r)
  {
  }

  lemma {:induction false} RunKeepsDecided(s: State, steps: seq<Step>, r: RequestId)
    requires Decided(s, r) && IsRun(s, steps)
    ensures Decided(After(s, steps), r)
    decreases |steps|
  {
    hide Decided, CanStep, Do;
    if steps != [] {
      StepKeepsDecided(s, steps[0], r);
      RunKeepsDecided(Do(s, steps[0]), steps[1..], r);
    }
  }

  /** Once its approval is recorded, or it is rejected, a request is never approved again, and the queue takes another. */
  lemma ADecisionIsFinal(start: State, before: seq<Step>, step: Step, r: RequestId, later: seq<Step>)
    requires Init(start) && IsRun(start, before) && CanStep(After(start, before), step)
    requires step == Reject(r) || (step == Commit && After(start, before).lock == Some(r))
    requires IsRun(Do(After(start, before), step), later)
    ensures Do(After(start, before), step).pending.None?
    ensures !CanStep(After(Do(After(start, before), step), later), Approve(r))
  {
    RunKeepsInv(start, before);
    StepKeepsInv(After(start, before), step);
    RunKeepsDecided(Do(After(start, before), step), later, r);
  }

  // ----- The capacity and the queue over a run -----

  /** The last bound a decrease or an approval wrote. */
  function LastBound(s: State, steps: seq<Step>, bound: Option<nat>): Option<nat>
    requires IsRun(s, steps)
    decreases |steps|
  {
    if steps == [] then bound
    else
      var next := match steps[0]
                  case Decrease(to) => Some(to)
                  case Approve(_) => s.pending.value.bound
                  case _ => bound;
      LastBound(Do(s, steps[0]), steps[1..], next)
  }

  /** Over every run the capacity is the last bound written, by a decrease or by an approval, recorded or not. */
  lemma {:induction false} CapacityIsTheLastWritten(s: State, steps: seq<Step>)
    requires IsRun(s, steps)
    ensures After(s, steps).capacity == LastBound(s, steps, s.capacity)
    decreases |steps|
  {
    if steps != [] {
      CapacityIsTheLastWritten(Do(s, steps[0]), steps[1..]);
    }
  }

  /** An approval that stops before it is recorded leaves the request in the queue, to be approved again to the same effect. */
  lemma AStoppedApprovalStays(start: State, steps: seq<Step>, r: RequestId)
    requires Init(start) && IsRun(start, steps) && CanStep(After(start, steps), Approve(r))
    ensures var s := After(start, steps);
            var stopped := Do(Do(s, Approve(r)), Crash);
            && CanStep(Do(s, Approve(r)), Crash) && stopped.pending == s.pending && stopped.capacity == s.pending.value.bound
            && CanStep(stopped, Approve(r)) && Do(stopped, Approve(r)).capacity == stopped.capacity
  {
  }
}
