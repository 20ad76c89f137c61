/**
  Redeeming one invitation. Redemptions race for it; a refusal reopens it, and
  anything that may have issued a ticket spends it for good.
 */
module Invitations {
  import opened Common

  type RequestId = nat
  type Account = nat

  datatype Status = Open | Redeeming(holder: Account) | Redeemed | Spent

  /** What became of an attempt's issuance: not signed, submitted, recorded by the ledger, refused by it. */
  datatype Fate = Unsigned | InFlight | Landed | Turned

  /** Where a redemption is: it has claimed the invitation, its write is submitted, or it knows how it ended. */
  datatype Work = Claimed(attempt: nat) | Submitted(attempt: nat) | Known(attempt: nat, end: End)

  datatype End = Issued | Refused | Unsure

  datatype State = State(status: Status, fates: seq<Fate>, work: map<RequestId, Work>)

  predicate Init(s: State) {
    s.status.Open? && s.fates == [] && s.work == map[]
  }

  datatype Step =
    | Claim(r: RequestId, holder: Account)
    | FailUnsigned(r: RequestId, end: End)
    | Submit(r: RequestId)
    | Land(i: nat)
    | Turn(i: nat)
    | Learn(r: RequestId, end: End)
    | Record(r: RequestId)
    | Stop(r: RequestId)

  predicate Working(s: State, r: RequestId) {
    r in s.work && s.work[r].attempt < |s.fates|
  }

  predicate CanStep(s: State, step: Step) {
    match step
    // One conditional update claims it.
    case Claim(r, _) => s.status.Open? && r !in s.work
    // A refusal before anything is signed, or some other failure then.
    case FailUnsigned(r, end) => Working(s, r) && s.work[r].Claimed? && !end.Issued?
    case Submit(r) => Working(s, r) && s.work[r].Claimed?
    case Land(i) => i < |s.fates| && s.fates[i].InFlight?
    case Turn(i) => i < |s.fates| && s.fates[i].InFlight?
    // The verdict, or none.
    case Learn(r, end) =>
      Working(s, r) && s.work[r].Submitted?
      && (end.Issued? ==> s.fates[s.work[r].attempt].Landed?) && (end.Refused? ==> s.fates[s.work[r].attempt].Turned?)
    case Record(r) => r in s.work && s.work[r].Known?
    case Stop(r) => r in s.work
  }

  function Do(s: State, step: Step): State
    requires CanStep(s, step)
  {
    match step
    case Claim(r, holder) =>
      s.(status := Redeeming(holder), fates := s.fates + [Unsigned], work := s.work[r := Claimed(|s.fates|)])
    case FailUnsigned(r, end) => s.(work := s.work[r := Known(s.work[r].attempt, end)])
    case Submit(r) =>
      s.(fates := s.fates[s.work[r].attempt := InFlight], work := s.work[r := Submitted(s.work[r].attempt)])
    case Land(i) => s.(fates := s.fates[i := Landed])
    case Turn(i) => s.(fates := s.fates[i := Turned])
    case Learn(r, end) => s.(work := s.work[r := Known(s.work[r].attempt, end)])
    case Record(r) =>
      var status := match s.work[r].end
                    case Issued => Redeemed
                    case Refused => Open
                    case Unsure => Spent;
      s.(status := status, work := s.work - {r})
    case Stop(r) => s.(work := s.work - {r})
  }

  // ----- What every step keeps -----

  /** The attempt's ticket is on the ledger, or may come to be. */
  predicate MayExist(s: State, i: nat)
    requires i < |s.fates|
  {
    s.fates[i].InFlight? || s.fates[i].Landed?
  }

  ghost predicate Inv(s: State) {
    && (forall r | r in s.work :: s.status.Redeeming? && s.work[r].attempt == |s.fates| - 1)
    && (forall r, q | r in s.work && q in s.work :: r == q)
    && (forall i | 0 <= i < |s.fates| - 1 :: !MayExist(s, i))
    && (s.status.Open? ==> forall i | 0 <= i < |s.fates| :: !MayExist(s, i))
    && (s.status.Redeemed? ==> s.fates != [] && s.fates[|s.fates| - 1].Landed?)
    && (forall r | r in s.work && s.work[r].Claimed? :: s.fates[s.work[r].attempt].Unsigned?)
    && (forall r | r in s.work && s.work[r].Known? ::
          && (s.work[r].end.Issued? ==> s.fates[s.work[r].attempt].Landed?)
          && (s.work[r].end.Refused? ==> !MayExist(s, s.work[r].attempt)))
  }

  lemma StepKeepsInv(s: State, step: Step)
    requires Inv(s) && CanStep(s, step)
    ensures Inv(Do(s, step))
  {
    var s' := Do(s, step);
    forall i | 0 <= i < |s.fates| && MayExist(s', i) ensures MayExist(s, i) || (step.Submit? && i == |s.fates| - 1) {
    }
    if step.Record? {
      assert forall i | 0 <= i < |s.fates| :: MayExist(s', i) ==> i == s.work[step.r].attempt;
    }
  }

  predicate IsRun(s: State, steps: seq<Step>)
    decreases |steps|
  {
    steps == [] || (CanStep(s, steps[0]) && IsRun(Do(s, steps[0]), steps[1..]))
  }

  function After(s: State, steps: seq<Step>): State
    requires IsRun(s, steps)
    decreases |steps|
  {
    if steps == [] then s else After(Do(s, steps[0]), steps[1..])
  }

  /** Over: redeemed or spent, or left redeeming with nobody at work. */
  predicate Settled(s: State) {
    s.status.Redeemed? || s.status.Spent? || (s.status.Redeeming? && s.work == map[])
  }

  lemma {:induction false} RunKeepsInv(s: State, steps: seq<Step>)
    requires Inv(s) && IsRun(s, steps)
    ensures Inv(After(s, steps))
    decreases |steps|
  {
    hide CanStep, Do;
    if steps != [] {
      StepKeepsInv(s, steps[0]);
      hide Inv;
      RunKeepsInv(Do(s, steps[0]), steps[1..]);
    }
  }

  /** However many redemptions race, and whatever refusals reopen it: at most one ticket. */
  lemma AtMostOneTicket(start: State, steps: seq<Step>)
    requires Init(start) && IsRun(start, steps)
    ensures var s := After(start, steps);
            forall i, j | 0 <= i < |s.fates| && 0 <= j < |s.fates| && MayExist(s, i) && MayExist(s, j) :: i == j
  {
    RunKeepsInv(start, steps);
  }

  /** Settled, it is never claimed again. */
  lemma {:induction false} SettledIsNeverClaimed(s: State, steps: seq<Step>)
    requires Inv(s) && Settled(s) && IsRun(s, steps)
    ensures Settled(After(s, steps)) && |After(s, steps).fates| == |s.fates|
    decreases |steps|
  {
    if steps != [] {
      StepKeepsInv(s, steps[0]);
      assert Settled(Do(s, steps[0])) && |Do(s, steps[0]).fates| == |s.fates|;
      hide CanStep, Do, Inv;
      SettledIsNeverClaimed(Do(s, steps[0]), steps[1..]);
    }
  }

  /**
    An attempt without a verdict, recorded as such or stopped before anything was
    recorded, spends the invitation: no later attempt is made.
   */
  lemma WithoutAVerdictNeverAgain(start: State, before: seq<Step>, r: RequestId, end: Step, later: seq<Step>)
    requires Init(start) && IsRun(start, before) && CanStep(After(start, before), end)
    requires EndsWithoutAVerdict(After(start, before), r, end)
    requires IsRun(Do(After(start, before), end), later)
    ensures |After(Do(After(start, before), end), later).fates| == |After(start, before).fates|
  {
    RunKeepsInv(start, before);
    StepKeepsInv(After(start, before), end);
    SettledIsNeverClaimed(Do(After(start, before), end), later);
  }

  predicate EndsWithoutAVerdict(s: State, r: RequestId, end: Step) {
    r in s.work && (end == Stop(r) || (end == Record(r) && s.work[r].Known? && s.work[r].end.Unsure?))
  }

  // ----- What the attempts came to -----

  /** The last attempt of a run: who claimed, what it learned its end to be, and whether that was recorded. */
  datatype Attempt = Attempt(request: RequestId, holder: Account, end: Option<End>, recorded: bool)

  function NextAttempt(step: Step, last: Option<Attempt>): Option<Attempt> {
    match step
    case Claim(r, holder) => Some(Attempt(r, holder, None, false))
    case FailUnsigned(_, end) => if last.None? then None else Some(last.value.(end := Some(end)))
    case Learn(_, end) => if last.None? then None else Some(last.value.(end := Some(end)))
    case Record(_) => if last.None? then None else Some(last.value.(recorded := true))
    case _ => last
  }

  function LastAttempt(steps: seq<Step>, last: Option<Attempt>): Option<Attempt>
  {
    if steps == [] then last else LastAttempt(steps[1..], NextAttempt(steps[0], last))
  }

  predicate EndedAs(last: Option<Attempt>, end: End) {
    last.Some? && last.value.recorded && last.value.end == Some(end)
  }

  /** Open exactly if nothing was tried yet or the last try was refused, and otherwise as it ended, or did not. */
  predicate StatusSays(status: Status, last: Option<Attempt>) {
    && (status.Open? <==> last.None? || EndedAs(last, Refused))
    && (status.Redeemed? <==> EndedAs(last, Issued))
    && (status.Spent? <==> EndedAs(last, Unsure))
    && (status.Redeeming? ==> last.Some? && last.value.holder == status.holder && !last.value.recorded)
  }

  /** What is told of the last attempt is what its request, while at work, has learned; and a ticket it got is there. */
  ghost predicate Told(s: State, last: Option<Attempt>) {
    && StatusSays(s.status, last)
    && (last.Some? && last.value.recorded ==> last.value.end.Some?)
    && (forall r | r in s.work :: last.Some? && last.value.request == r
                                  && last.value.end == if s.work[r].Known? then Some(s.work[r].end) else None)
    && (last.Some? ==> s.fates != [])
    && (last.Some? && last.value.end == Some(Issued) ==> s.fates[|s.fates| - 1].Landed?)
    && (last.Some? && last.value.end == Some(Refused) ==> !MayExist(s, |s.fates| - 1))
  }

  lemma StepTells(s: State, step: Step, last: Option<Attempt>)
    requires Inv(s) && CanStep(s, step) && Told(s, last)
    ensures Told(Do(s, step), NextAttempt(step, last))
  {
  }

  lemma {:induction false} RunTells(s: State, steps: seq<Step>, last: Option<Attempt>)
    requires Inv(s) && IsRun(s, steps) && Told(s, last)
    ensures Told(After(s, steps), LastAttempt(steps, last))
    decreases |steps|
  {
    if steps != [] {
      StepTells(s, steps[0], last);
      StepKeepsInv(s, steps[0]);
      hide Inv, CanStep, Do, Told, NextAttempt;
      RunTells(Do(s, steps[0]), steps[1..], NextAttempt(steps[0], last));
    }
  }

  /**
    Over every run the invitation is what its last attempt was told and recorded: redeemed
    with its ticket on the ledger, open again with none, or spent; and a refusal recorded
    reopens it, and nothing else does.
   */
  lemma ItIsWhatTheLastAttemptCameTo(start: State, steps: seq<Step>)
    requires Init(start) && IsRun(start, steps)
    ensures var s, last := After(start, steps), LastAttempt(steps, None);
            && StatusSays(s.status, last)
            && (s.status.Redeemed? ==> s.fates != [] && s.fates[|s.fates| - 1].Landed?)
            && (s.status.Open? && last.Some? ==> s.fates != [] && !MayExist(s, |s.fates| - 1))
  {
    RunTells(start, steps, None);
  }

  // ----- A redemption left alone -----

  /** One redemption, from claiming to recording; the ledger issues the ticket or refuses it. */
  function Redemption(r: RequestId, holder: Account, i: nat, issues: bool): seq<Step> {
    [Claim(r, holder), Submit(r), if issues then Land(i) else Turn(i), Learn(r, if issues then Issued else Refused), Record(r)]
  }

  lemma FirstStep(s: State, step: Step, rest: seq<Step>)
    requires CanStep(s, step) && IsRun(Do(s, step), rest)
    ensures IsRun(s, [step] + rest) && After(s, [step] + rest) == After(Do(s, step), rest)
  {
    assert ([step] + rest)[1..] == rest;
  }

  /** Left alone, a redemption of an open invitation ends it with one more ticket, or leaves it open with none. */
  lemma AnUndisturbedRedemption(s: State, r: RequestId, holder: Account, issues: bool)
    requires s.status.Open? && s.work == map[]
    ensures var steps := Redemption(r, holder, |s.fates|, issues);
            && IsRun(s, steps)
            && After(s, steps) == State(if issues then Redeemed else Open, s.fates + [if issues then Landed else Turned], map[])
  {
    var i := |s.fates|;
    var ledger := if issues then Land(i) else Turn(i);
    var learn := Learn(r, if issues then Issued else Refused);
    var claimed := Do(s, Claim(r, holder));
    var submitted := Do(claimed, Submit(r));
    var answered := Do(submitted, ledger);
    var learned := Do(answered, learn);
    var recorded := Do(learned, Record(r));
    assert recorded == State(if issues then Redeemed else Open, s.fates + [if issues then Landed else Turned], map[]);
    assert CanStep(s, Claim(r, holder)) && CanStep(claimed, Submit(r)) && CanStep(submitted, ledger);
    assert CanStep(answered, learn) && CanStep(learned, Record(r));
    hide CanStep, Do;
    assert IsRun(recorded, []);
    FirstStep(learned, Record(r), []);
    FirstStep(answered, learn, [Record(r)]);
    FirstStep(submitted, ledger, [learn, Record(r)]);
    FirstStep(claimed, Submit(r), [ledger, learn, Record(r)]);
    FirstStep(s, Claim(r, holder), [Submit(r), ledger, learn, Record(r)]);
    assert [Record(r)] + [] == [Record(r)] && [learn] + [Record(r)] == [learn, Record(r)];
    assert [ledger] + [learn, Record(r)] == [ledger, learn, Record(r)];
    assert [Submit(r)] + [ledger, learn, Record(r)] == [Submit(r), ledger, learn, Record(r)];
    assert Redemption(r, holder, i, issues) == [Claim(r, holder)] + [Submit(r), ledger, learn, Record(r)];
  }
}
