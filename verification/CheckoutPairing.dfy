/**
  Linking one checkout to a holder account: Saifu links, the buyer confirms that
  both sides show the same pairing code or discards the link, and any of these
  may race. Each request reads the row first and updates it conditionally later.
 */
module CheckoutPairing {
  import opened Common

  type Account = nat
  type RequestId = nat
  type PairingCode = nat
  type SaleId = nat

  /** The checkout's row; `generation` counts the handoff tokens it has had. */
  datatype Row = Row(holder: Option<Account>, generation: nat, confirmed: bool)

  /** A pairing code a buyer entered, and what it was found to match: the account linked in a generation. */
  datatype Check = Check(generation: nat, account: Account, entered: PairingCode)

  datatype Request =
    | Linking(account: Account, generation: nat)
    | Confirming(account: Account)
    | Discarding(generation: nat)
    | Placing
    | Paying(account: Account)
    | Issuing(sale: SaleId, account: Account)

  datatype State = State(
    row: Row,
    own: Option<Account>,
    codes: map<(nat, Account), PairingCode>,
    checks: set<Check>,
    held: bool,
    requests: map<RequestId, Request>,
    sales: map<SaleId, Account>,
    tickets: map<SaleId, Account>)

  /** Just begun: by a holder's own session, linked and confirmed with it, or by anyone else, to be handed off. */
  predicate Init(s: State) {
    && s.row == (if s.own.Some? then Row(s.own, 0, true) else Row(None, 0, false))
    && s.checks == {} && !s.held && s.requests == map[] && s.sales == map[] && s.tickets == map[]
  }

  datatype Step =
    | ReadForLink(r: RequestId, account: Account)
    | Link(r: RequestId)
    | CheckCode(r: RequestId, entered: PairingCode)
    | Confirm(r: RequestId)
    | ReadForDiscard(r: RequestId)
    | Discard(r: RequestId)
    | ReadForHold(r: RequestId)
    | PlaceHold(r: RequestId)
    | ReadForSale(r: RequestId)
    | StartSale(r: RequestId, sale: SaleId)
    | Issue(r: RequestId)
    | Drop(r: RequestId)

  predicate CanStep(s: State, step: Step) {
    match step
    case ReadForLink(r, _) => r !in s.requests
    case Link(r) => r in s.requests && s.requests[r].Linking?
    // An account is linked, and the code entered is the one both sides show for it.
    case CheckCode(r, entered) =>
      r !in s.requests && s.row.holder.Some? && (s.row.generation, s.row.holder.value) in s.codes
      && s.codes[(s.row.generation, s.row.holder.value)] == entered
    case Confirm(r) => r in s.requests && s.requests[r].Confirming?
    case ReadForDiscard(r) => r !in s.requests && s.row.holder.Some? && !s.row.confirmed
    case Discard(r) => r in s.requests && s.requests[r].Discarding?
    case ReadForHold(r) => r !in s.requests && s.row.holder.Some? && s.row.confirmed
    case PlaceHold(r) => r in s.requests && s.requests[r].Placing?
    // A payment of the hold is being taken: the account is read with it.
    case ReadForSale(r) => r !in s.requests && s.held && s.row.holder.Some?
    case StartSale(r, sale) => r in s.requests && s.requests[r].Paying? && sale !in s.sales
    case Issue(r) => r in s.requests && s.requests[r].Issuing?
    case Drop(r) => r in s.requests
  }

  function Done(s: State, r: RequestId): State {
    s.(requests := s.requests - {r})
  }

  function Ask(s: State, r: RequestId, request: Request): State {
    s.(requests := s.requests[r := request])
  }

  /** The conditional updates change the row only as it still is; otherwise nothing. */
  function Linked(row: Row, account: Account, generation: nat): Row {
    if row.generation == generation && row.holder.None? then row.(holder := Some(account)) else row
  }

  function Confirmed(row: Row, account: Account): Row {
    if row.holder == Some(account) && !row.confirmed then row.(confirmed := true) else row
  }

  function Discarded(row: Row, generation: nat): Row {
    if row.generation == generation && !row.confirmed then Row(None, generation + 1, false) else row
  }

  function Do(s: State, step: Step): State
    requires CanStep(s, step)
  {
    match step
    case ReadForLink(r, account) => Ask(s, r, Linking(account, s.row.generation))
    case Link(r) => Done(s.(row := Linked(s.row, s.requests[r].account, s.requests[r].generation)), r)
    case CheckCode(r, entered) =>
      var account := s.row.holder.value;
      Ask(s.(checks := s.checks + {Check(s.row.generation, account, entered)}), r, Confirming(account))
    case Confirm(r) => Done(s.(row := Confirmed(s.row, s.requests[r].account)), r)
    case ReadForDiscard(r) => Ask(s, r, Discarding(s.row.generation))
    case Discard(r) => Done(s.(row := Discarded(s.row, s.requests[r].generation)), r)
    case ReadForHold(r) => Ask(s, r, Placing)
    case PlaceHold(r) => Done(s.(held := true), r)
    case ReadForSale(r) => Ask(s, r, Paying(s.row.holder.value))
    case StartSale(r, sale) =>
      var account := s.requests[r].account;
      Ask(s.(sales := s.sales[sale := account]), r, Issuing(sale, account))
    case Issue(r) => Done(s.(tickets := s.tickets[s.requests[r].sale := s.requests[r].account]), r)
    case Drop(r) => Done(s, r)
  }

  // ----- What every step keeps -----

  /** The account is the beginner's own, or a code entered was checked to be its. */
  predicate Vouched(s: State, account: Account) {
    s.own == Some(account) || exists c | c in s.checks :: c.account == account && CodeIs(s, c)
  }

  predicate CodeIs(s: State, c: Check) {
    (c.generation, c.account) in s.codes && s.codes[(c.generation, c.account)] == c.entered
  }

  predicate RequestOk(s: State, request: Request) {
    match request
    case Confirming(account) => Vouched(s, account)
    case Placing => s.row.confirmed
    case Paying(account) => s.row.confirmed && s.row.holder == Some(account)
    case Issuing(sale, account) => s.row.confirmed && s.row.holder == Some(account)
    case _ => true
  }

  ghost predicate Inv(s: State) {
    && (s.row.confirmed ==> s.row.holder.Some? && Vouched(s, s.row.holder.value))
    && (s.held ==> s.row.confirmed)
    && (forall r | r in s.requests :: RequestOk(s, s.requests[r]))
    && (forall x | x in s.sales :: s.row.confirmed && s.row.holder == Some(s.sales[x]))
    && (forall x | x in s.tickets :: s.row.confirmed && s.row.holder == Some(s.tickets[x]))
  }

  /** A confirmed row never changes, and what vouched for an account still does. */
  lemma StepKeepsRow(s: State, step: Step)
    requires CanStep(s, step) && (s.row.confirmed ==> s.row.holder.Some?)
    ensures var s' := Do(s, step);
            && (s.row.confirmed ==> s'.row == s.row) && s'.own == s.own && s'.codes == s.codes
            && (forall account: Account | Vouched(s, account) :: Vouched(s', account))
  {
    var s' := Do(s, step);
    forall account: Account | Vouched(s, account) ensures Vouched(s', account) {
      if s.own != Some(account) {
        var c :| c in s.checks && c.account == account && CodeIs(s, c);
        assert c in s'.checks && CodeIs(s', c);
      }
    }
  }

  lemma StepKeepsInv(s: State, step: Step)
    requires Inv(s) && CanStep(s, step)
    ensures Inv(Do(s, step))
  {
    var s' := Do(s, step);
    StepKeepsRow(s, step);
    if step.CheckCode? {
      var c := Check(s.row.generation, s.row.holder.value, step.entered);
      assert c in s'.checks && CodeIs(s', c);
    }
    hide Vouched;
    assert forall r | r in s'.requests && r in s.requests && s'.requests[r] == s.requests[r] :: RequestOk(s', s'.requests[r]);
  }

  predicate IsRun(s: State, steps: seq<Step>)
    decreases |steps|
  {
    steps == [] || (CanStep(s, steps[0]) && IsRun(Do(s, steps[0]), steps[1..]))
  }

  function After(s: State, steps: seq<Step>): State
    requires IsRun(s, steps)
    decreases |steps|
  {
    if steps == [] then s else After(Do(s, steps[0]), steps[1..])
  }

  lemma {:induction false} RunKeepsInv(s: State, steps: seq<Step>)
    requires Inv(s) && IsRun(s, steps)
    ensures Inv(After(s, steps)) && (s.row.confirmed ==> After(s, steps).row == s.row)
    decreases |steps|
  {
    if steps != [] {
      StepKeepsInv(s, steps[0]);
      StepKeepsRow(s, steps[0]);
      hide CanStep, Do, Inv;
      RunKeepsInv(Do(s, steps[0]), steps[1..]);
    }
  }

  lemma InitIsOk(s: State)
    requires Init(s)
    ensures Inv(s)
  {
  }

  /**
    However links, discards and confirmations race: a confirmed account is the
    beginner's own or one whose pairing code was checked, it never changes, and every
    sale and ticket of the checkout is its.
   */
  lemma ConfirmedAccountIsFinal(start: State, before: seq<Step>, later: seq<Step>)
    requires Init(start) && IsRun(start, before) && IsRun(After(start, before), later)
    requires After(start, before).row.confirmed
    ensures var s := After(After(start, before), later);
            && s.row == After(start, before).row && s.row.holder.Some? && Vouched(s, s.row.holder.value)
            && (forall x | x in s.sales :: s.sales[x] == s.row.holder.value)
            && (forall x | x in s.tickets :: s.tickets[x] == s.row.holder.value)
  {
    InitIsOk(start);
    RunKeepsInv(start, before);
    RunKeepsInv(After(start, before), later);
  }

  /** Before a confirmation there is no hold, no sale and no ticket. */
  lemma NothingBeforeConfirmation(start: State, steps: seq<Step>)
    requires Init(start) && IsRun(start, steps) && !After(start, steps).row.confirmed
    ensures var s := After(start, steps); !s.held && s.sales == map[] && s.tickets == map[]
  {
    InitIsOk(start);
    RunKeepsInv(start, steps);
  }

  // ----- What a link, a discard and a confirmation come to -----

  lemma FirstStep(s: State, step: Step, rest: seq<Step>)
    requires CanStep(s, step) && IsRun(Do(s, step), rest)
    ensures IsRun(s, [step] + rest) && After(s, [step] + rest) == After(Do(s, step), rest)
  {
    assert ([step] + rest)[1..] == rest;
  }

  lemma LastStep(s: State, step: Step)
    requires CanStep(s, step)
    ensures IsRun(s, [step]) && After(s, [step]) == Do(s, step)
  {
  }

  /** Nobody at work, linked or not, and a code shown for every account. */
  predicate Unlinked(s: State, account: Account) {
    s.requests == map[] && s.row.holder.None? && !s.row.confirmed && (s.row.generation, account) in s.codes
  }

  /** The steps of a holder's app linking, and of the buyer confirming, undisturbed. */
  function Pairing(s: State, account: Account): seq<Step>
    requires Unlinked(s, account)
  {
    [ReadForLink(0, account), Link(0), CheckCode(1, s.codes[(s.row.generation, account)]), Confirm(1)]
  }

  /** Undisturbed, the account that links and whose code is checked is the one confirmed. */
  lemma AnUndisturbedPairingConfirms(s: State, account: Account)
    requires Unlinked(s, account)
    ensures IsRun(s, Pairing(s, account))
    ensures After(s, Pairing(s, account)).row == Row(Some(account), s.row.generation, true)
  {
    var steps := Pairing(s, account);
    assert s.requests - {0} == map[] && s.requests - {1} == map[];
    var asked := Do(s, ReadForLink(0, account));
    var linked := Do(asked, Link(0));
    var checked := Do(linked, CheckCode(1, s.codes[(s.row.generation, account)]));
    assert linked.requests == map[];
    LastStep(checked, Confirm(1));
    FirstStep(linked, steps[2], [Confirm(1)]);
    FirstStep(asked, Link(0), [steps[2], Confirm(1)]);
    FirstStep(s, steps[0], [Link(0), steps[2], Confirm(1)]);
    assert [steps[2], Confirm(1)] == [steps[2]] + [Confirm(1)];
    assert [Link(0), steps[2], Confirm(1)] == [Link(0)] + [steps[2], Confirm(1)];
    assert steps == [steps[0]] + [Link(0), steps[2], Confirm(1)];
  }

  /** Generations only grow, and a request of an older one links and discards nothing. */
  lemma AnOlderRequestDoesNothing(s: State, r: RequestId)
    requires r in s.requests
    requires (s.requests[r].Linking? || s.requests[r].Discarding?) && s.requests[r].generation < s.row.generation
    ensures Do(s, if s.requests[r].Linking? then Link(r) else Discard(r)).row == s.row
  {
  }

  lemma {:induction false} GenerationsOnlyGrow(s: State, steps: seq<Step>)
    requires IsRun(s, steps)
    ensures s.row.generation <= After(s, steps).row.generation
    decreases |steps|
  {
    if steps != [] {
      assert s.row.generation <= Do(s, steps[0]).row.generation;
      hide CanStep, Do;
      GenerationsOnlyGrow(Do(s, steps[0]), steps[1..]);
    }
  }

  /**
    A discard of the link there is takes it away and starts another generation: no link
    under way from before it ever takes hold, whatever comes later.
   */
  lemma ADiscardedLinkIsGone(s: State, r: RequestId, later: seq<Step>, link: RequestId)
    requires r in s.requests && s.requests[r] == Discarding(s.row.generation) && !s.row.confirmed
    requires IsRun(Do(s, Discard(r)), later) && link in After(Do(s, Discard(r)), later).requests
    requires var q := After(Do(s, Discard(r)), later).requests[link]; q.Linking? && q.generation <= s.row.generation
    ensures Do(s, Discard(r)).row == Row(None, s.row.generation + 1, false)
    ensures var s' := After(Do(s, Discard(r)), later); Do(s', Link(link)).row == s'.row
  {
    GenerationsOnlyGrow(Do(s, Discard(r)), later);
    AnOlderRequestDoesNothing(After(Do(s, Discard(r)), later), link);
  }

  lemma AHoldIsPlaced(s: State)
    requires s.requests == map[] && s.row.confirmed && s.row.holder.Some?
    ensures CanStep(s, ReadForHold(0)) && CanStep(Do(s, ReadForHold(0)), PlaceHold(0))
    ensures Do(Do(s, ReadForHold(0)), PlaceHold(0)) == s.(held := true)
  {
    assert (s.requests[0 := Placing] - {0}) == s.requests;
  }

  lemma ASaleIsIssued(s: State, account: Account, sale: SaleId)
    requires s.requests == map[] && s.held && s.row.holder == Some(account) && sale !in s.sales
    ensures CanStep(s, ReadForSale(0))
    ensures var paying := Do(s, ReadForSale(0));
            && CanStep(paying, StartSale(0, sale)) && CanStep(Do(paying, StartSale(0, sale)), Issue(0))
            && Do(Do(paying, StartSale(0, sale)), Issue(0)).tickets == s.tickets[sale := account]
  {
  }

  /** With the account confirmed, a hold, its sale and its ticket follow, and the ticket is that account's. */
  lemma AConfirmedCheckoutIsServed(s: State, account: Account, sale: SaleId)
    requires s.requests == map[] && s.row.confirmed && s.row.holder == Some(account) && sale !in s.sales
    ensures var steps := [ReadForHold(0), PlaceHold(0), ReadForSale(0), StartSale(0, sale), Issue(0)];
            IsRun(s, steps) && After(s, steps).tickets == s.tickets[sale := account]
  {
    AHoldIsPlaced(s);
    ASaleIsIssued(s.(held := true), account, sale);
    hide IsRun, After, Do, CanStep;
    var asked := Do(s, ReadForHold(0));
    var held := Do(asked, PlaceHold(0));
    var paying := Do(held, ReadForSale(0));
    var started := Do(paying, StartSale(0, sale));
    var sold := [StartSale(0, sale), Issue(0)];
    var paid := [ReadForSale(0), StartSale(0, sale), Issue(0)];
    var placed := [PlaceHold(0), ReadForSale(0), StartSale(0, sale), Issue(0)];
    assert sold == [StartSale(0, sale)] + [Issue(0)] && paid == [ReadForSale(0)] + sold;
    assert placed == [PlaceHold(0)] + paid;
    assert [ReadForHold(0), PlaceHold(0), ReadForSale(0), StartSale(0, sale), Issue(0)] == [ReadForHold(0)] + placed;
    LastStep(started, Issue(0));
    FirstStep(paying, StartSale(0, sale), [Issue(0)]);
    FirstStep(held, ReadForSale(0), sold);
    FirstStep(asked, PlaceHold(0), paid);
    FirstStep(s, ReadForHold(0), placed);
  }
}
