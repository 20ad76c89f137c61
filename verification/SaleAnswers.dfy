/**
  What the ledger answered of a write and the payment provider of a checkout: over
  every run it is the first verdict there was, and later ones change nothing.
 */
module SaleAnswers {
  import opened Common
  import opened Allocation
  import opened SaleProtocol
  import opened SaleTheorems

  // ----- A write's verdict -----

  /** The verdict a step gives a write; nothing signed is like a refusal. */
  function VerdictOf(step: Step, c: Claim): Option<Write> {
    match step
    case InLedger(DoLand(c')) => if c' == c then Some(Landed) else None
    case InLedger(DoRefuse(c')) => if c' == c then Some(Refused) else None
    case InLedger(DoReject(x)) => if BySale(x) == c then Some(Refused) else None
    case InLedger(DoUndertakeNothing(g)) => if ByGrant(g) == c then Some(Refused) else None
    case _ => None
  }

  function FirstVerdict(steps: seq<Step>, c: Claim): Option<Write> {
    if steps == [] then None
    else if VerdictOf(steps[0], c).Some? then VerdictOf(steps[0], c)
    else FirstVerdict(steps[1..], c)
  }

  predicate Signs(steps: seq<Step>, c: Claim) {
    steps != [] && (steps[0] == InLedger(DoSign(c)) || Signs(steps[1..], c))
  }

  predicate WriteSays(writes: map<Claim, Write>, c: Claim, signed: bool, verdict: Option<Write>) {
    && (verdict.Some? ==> verdict.value.Landed? || verdict.value.Refused?)
    && if c in writes then writes[c] == (if verdict.Some? then verdict.value else if signed then InFlight else Unsigned)
       else !signed && verdict.None?
  }

  lemma CommitOnWrite(s: State, step: Commit, c: Claim, signed: bool, verdict: Option<Write>)
    requires CommitEnabled(s, step) && WriteSays(s.writes, c, signed, verdict)
    ensures WriteSays(ApplyCommit(s, step).writes, c, signed, verdict)
  {
    hide Unlocked, PlaceFree, PlaceTaken, PlaceRefused, RoomSeen, AllocatedCount, CountsSeen, QuotaHasRoom, Lapsing,
      SetHold, EndHold, SetHosted, Entitle, Handled;
  }

  lemma OutcomeOnWrite(s: State, step: Outcome, c: Claim, signed: bool, verdict: Option<Write>)
    requires OutcomeEnabled(s, step) && WriteSays(s.writes, c, signed, verdict)
    ensures WriteSays(ApplyOutcome(s, step).writes, c, signed || step == DoSign(c),
                      if verdict.Some? then verdict else VerdictOf(InLedger(step), c))
  {
    hide SetHold, SetSale, Entitle, OnLedger, SeatOf;
  }

  lemma StepOnWrite(s: State, step: Step, c: Claim, signed: bool, verdict: Option<Write>)
    requires Enabled(s, step) && WriteSays(s.writes, c, signed, verdict)
    ensures WriteSays(Apply(s, step).writes, c, signed || step == InLedger(DoSign(c)),
                      if verdict.Some? then verdict else VerdictOf(step, c))
  {
    hide WriteSays, ApplyProgress, ApplyCommit, ApplyDesk, ApplyTill, ApplyWorld, ApplyOutcome, ProgressEnabled,
      CommitEnabled, DeskEnabled, TillEnabled, WorldEnabled, OutcomeEnabled;
    if step.InCommit? {
      CommitOnWrite(s, step.commit, c, signed, verdict);
    } else if step.InLedger? {
      OutcomeOnWrite(s, step.outcome, c, signed, verdict);
    } else {
      OthersLeaveRecords(s, step);
    }
  }

  lemma {:induction false} RunOnWrite(s: State, steps: seq<Step>, c: Claim, signed: bool, verdict: Option<Write>)
    requires IsRun(s, steps) && WriteSays(s.writes, c, signed, verdict)
    ensures WriteSays(After(s, steps).writes, c, signed || Signs(steps, c),
                      if verdict.Some? then verdict else FirstVerdict(steps, c))
    decreases |steps|
  {
    hide WriteSays, Enabled, Apply, VerdictOf;
    if steps != [] {
      StepOnWrite(s, steps[0], c, signed, verdict);
      RunOnWrite(Apply(s, steps[0]), steps[1..], c, signed || steps[0] == InLedger(DoSign(c)),
                 if verdict.Some? then verdict else VerdictOf(steps[0], c));
    }
  }

  /**
    Over every run a write is as its first verdict said, landed or refused, whatever is
    recorded of it later; without one it is in flight exactly if it was signed.
   */
  lemma AWriteIsItsFirstVerdict(start: State, steps: seq<Step>, c: Claim)
    requires Init(start) && IsRun(start, steps)
    ensures WriteSays(After(start, steps).writes, c, Signs(steps, c), FirstVerdict(steps, c))
  {
    assert WriteSays(start.writes, c, false, None);
    hide WriteSays, Init;
    RunOnWrite(start, steps, c, false, None);
  }

  // ----- How a hosted checkout ends at the provider -----

  datatype Ending = PaidFor(taken: Money) | RanOut | CalledOff

  function EndingOf(step: Step, k: HostedId): Option<Ending> {
    match step
    case InWorld(DoCharge(k', taken)) => if k' == k then Some(PaidFor(taken)) else None
    case InWorld(DoExpire(k')) => if k' == k then Some(RanOut) else None
    case InWorld(DoSweepCancel(_, k')) => if k' == k then Some(CalledOff) else None
    case AtTill(DoEndCancel(_, open)) => if open == Some(k) then Some(CalledOff) else None
    case _ => None
  }

  function FirstEnding(steps: seq<Step>, k: HostedId): Option<Ending> {
    if steps == [] then None
    else if EndingOf(steps[0], k).Some? then EndingOf(steps[0], k)
    else FirstEnding(steps[1..], k)
  }

  predicate RemoteSays(remote: map<HostedId, Remote>, k: HostedId, ending: Option<Ending>) {
    if k !in remote then ending.None?
    else
      match ending
      case None => remote[k].status.Open?
      case Some(PaidFor(taken)) => remote[k] == Remote(Paid, taken)
      case Some(RanOut) => remote[k].status.Expired?
      case Some(CalledOff) => remote[k].status.Cancelled?
  }

  lemma TillOnRemote(s: State, step: Till, k: HostedId, ending: Option<Ending>)
    requires TillEnabled(s, step) && RemoteSays(s.remote, k, ending)
    ensures RemoteSays(ApplyTill(s, step).remote, k, if ending.Some? then ending else EndingOf(AtTill(step), k))
  {
    hide Unlocked, SetHosted, EndHold, SetHold, NoOtherOpen;
  }

  lemma WorldOnRemote(s: State, step: World, k: HostedId, ending: Option<Ending>)
    requires WorldEnabled(s, step) && RemoteSays(s.remote, k, ending)
    ensures RemoteSays(ApplyWorld(s, step).remote, k, if ending.Some? then ending else EndingOf(InWorld(step), k))
  {
    hide SetHosted, NoOtherOpen;
  }

  lemma ProgressLeavesRemote(s: State, step: Progress)
    requires ProgressEnabled(s, step)
    ensures ApplyProgress(s, step).remote == s.remote
  {
  }

  lemma CommitLeavesRemote(s: State, step: Commit)
    requires CommitEnabled(s, step)
    ensures ApplyCommit(s, step).remote == s.remote
  {
    hide Unlocked, PlaceFree, PlaceTaken, PlaceRefused, RoomSeen, AllocatedCount, CountsSeen, QuotaHasRoom, Lapsing,
      SetHold, EndHold, SetHosted, Entitle, Handled;
  }

  lemma DeskLeavesRemote(s: State, step: Desk)
    requires DeskEnabled(s, step)
    ensures ApplyDesk(s, step).remote == s.remote
  {
  }

  lemma OutcomeLeavesRemote(s: State, step: Outcome)
    requires OutcomeEnabled(s, step)
    ensures ApplyOutcome(s, step).remote == s.remote
  {
    hide SetHold, SetSale, Entitle, OnLedger, SeatOf;
  }

  lemma StepOnRemote(s: State, step: Step, k: HostedId, ending: Option<Ending>)
    requires Enabled(s, step) && RemoteSays(s.remote, k, ending)
    ensures RemoteSays(Apply(s, step).remote, k, if ending.Some? then ending else EndingOf(step, k))
  {
    hide RemoteSays, ApplyProgress, ApplyCommit, ApplyDesk, ApplyTill, ApplyWorld, ApplyOutcome, ProgressEnabled,
      CommitEnabled, DeskEnabled, TillEnabled, WorldEnabled, OutcomeEnabled;
    match step {
      case InProgress(p) => ProgressLeavesRemote(s, p);
      case InCommit(p) => CommitLeavesRemote(s, p);
      case AtDesk(p) => DeskLeavesRemote(s, p);
      case AtTill(p) => TillOnRemote(s, p, k, ending);
      case InWorld(p) => WorldOnRemote(s, p, k, ending);
      case InLedger(p) => OutcomeLeavesRemote(s, p);
    }
  }

  lemma {:induction false} RunOnRemote(s: State, steps: seq<Step>, k: HostedId, ending: Option<Ending>)
    requires IsRun(s, steps) && RemoteSays(s.remote, k, ending)
    ensures RemoteSays(After(s, steps).remote, k, if ending.Some? then ending else FirstEnding(steps, k))
    decreases |steps|
  {
    hide RemoteSays, Enabled, Apply, EndingOf;
    if steps != [] {
      StepOnRemote(s, steps[0], k, ending);
      RunOnRemote(Apply(s, steps[0]), steps[1..], k, if ending.Some? then ending else EndingOf(steps[0], k));
    }
  }

  /**
    Over every run a hosted checkout is at the provider as it first ended, paid with what
    was taken, expired or cancelled, however often it is cancelled afterwards; and open
    exactly if nothing ended it.
   */
  lemma ACheckoutIsItsFirstEnding(start: State, steps: seq<Step>, k: HostedId)
    requires Init(start) && IsRun(start, steps)
    ensures RemoteSays(After(start, steps).remote, k, FirstEnding(steps, k))
  {
    assert RemoteSays(start.remote, k, None);
    hide RemoteSays, Init;
    RunOnRemote(start, steps, k, None);
  }
}
