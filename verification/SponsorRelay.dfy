/**
  What the relay sponsors. An input is decided from the derived copy, which its
  reader may advance between any two reads; a refusal made of a copy that lags
  is decided again once the copy reflects the submitter's own last write.
 */
module SponsorRelay {
  import opened Common
  import opened LedgerFacts
  import opened DerivedReader
  import opened DerivedFacts

  type Authorisation = nat
  type Payload = nat

  /** What may be relayed, with what it signs. */
  datatype Input =
    | SignedCommand(command: Command, payload: Payload, authorisation: Authorisation)
    | SignedPass(pass: Pass, payload: Payload, authorisation: Authorisation)

  /** The cryptographic profile. */
  datatype Profile = Profile(
    accountOf: map<Authorisation, (Account, Credential)>,
    decoded: map<Registration, (Account, Credential)>,
    verifies: set<(Registration, Payload, Authorisation)>,
    derivesFrom: set<(EventId, Account)>)

  datatype Decision = Entitled | RefusedFor(why: Reason) | Limited

  datatype Reason =
    | NoAccount | FirstRegistration | Unregistered | BadAuthorisation
    | NoEvent | NotOwner | NotDerived | NotOrganiser | NoTicket | NotHolder | NotTransferable | EventOver | NotCovered | TooMany

  datatype Signer = Signer(account: Account) | NoSigner(why: Reason)

  // ----- One decision, its reads answered by the copy as it is at each -----

  predicate AnyCredential(f: Facts, account: Account) {
    exists c | c in f.credentials :: c.0 == account
  }

  /** Verifies the signer; `listed` answers whether the account has credentials, `looked` gives the authorising one. */
  function VerifiedSigner(p: Profile, input: Input, listed: Facts, looked: Facts): Signer {
    if input.authorisation !in p.accountOf then NoSigner(NoAccount)
    else
      var (account, credential) := p.accountOf[input.authorisation];
      if input.SignedCommand? && input.command.RegisterCredential? && input.command.account == account
         && !AnyCredential(listed, account)
      then
        var registration := input.command.registration;
        if registration in p.decoded && p.decoded[registration] == (account, credential)
           && (registration, input.payload, input.authorisation) in p.verifies
        then Signer(account)
        else NoSigner(FirstRegistration)
      else if (account, credential) !in looked.credentials then NoSigner(Unregistered)
      else if (looked.credentials[(account, credential)].registration, input.payload, input.authorisation) !in p.verifies
      then NoSigner(BadAuthorisation)
      else Signer(account)
  }

  function OwnedBy(f: Facts, event: EventId, signer: Account): Decision {
    if event !in f.events then RefusedFor(NoEvent)
    else if f.events[event].owner != signer then RefusedFor(NotOwner)
    else Entitled
  }

  function DecideCommand(p: Profile, c: Command, signer: Account, f: Facts, organisers: set<Account>): Decision {
    match c
    case SetEventStatus(event, _) => OwnedBy(f, event, signer)
    case SetEventCapacity(event, _) => OwnedBy(f, event, signer)
    case AddZone(event, _) => OwnedBy(f, event, signer)
    case RemoveZone(event, _) => OwnedBy(f, event, signer)
    case RemoveRestriction(_, event, _) => OwnedBy(f, event, signer)
    case IssueTicket(_, event, _, _, _, _) => OwnedBy(f, event, signer)
    case CreateEvent(event, _, _, _) =>
      if (event, signer) !in p.derivesFrom then RefusedFor(NotDerived)
      else if signer !in organisers then RefusedFor(NotOrganiser)
      else Entitled
    case TransferTicket(ticket, event, _) =>
      if !HasTicket(f, ticket, event) then RefusedFor(NoTicket)
      else if f.tickets[ticket].holder != signer then RefusedFor(NotHolder)
      else if f.tickets[ticket].cannotTransfer then RefusedFor(NotTransferable)
      else Entitled
    // Within its rate limit, which looks at no copy.
    case RegisterCredential(_, _) => Limited
    case OtherCommand => RefusedFor(NotCovered)
  }

  /** The copies the reads of one decision see, and the accounts it finds to be organisers'. */
  datatype Reads = Reads(listed: Facts, looked: Facts, first: Facts, second: Facts, organisers: set<Account>)

  function Decide(p: Profile, input: Input, r: Reads): Decision {
    match VerifiedSigner(p, input, r.listed, r.looked)
    case NoSigner(why) => RefusedFor(why)
    case Signer(signer) =>
      match input
      case SignedCommand(c, _, _) => DecideCommand(p, c, signer, r.first, r.organisers)
      case SignedPass(pass, _, _) =>
        if pass.ticket !in r.first.tickets then RefusedFor(NoTicket)
        else
          var event := r.first.tickets[pass.ticket].event;
          if event !in r.second.events then RefusedFor(NoEvent)
          else if r.second.events[event].status.Cancelled? || r.second.events[event].status.Finished? then RefusedFor(EventOver)
          else Entitled
  }

  /** The input is entitled by one copy of the facts, read at once. */
  predicate EntitledBy(p: Profile, input: Input, f: Facts, organisers: set<Account>) {
    Decide(p, input, Reads(f, f, f, f, organisers)).Entitled?
  }

  predicate Registers(input: Input) {
    input.SignedCommand? && input.command.RegisterCredential?
  }

  /** The account signed the input with a credential the copy has registered to it. */
  predicate SignedBy(p: Profile, f: Facts, input: Input, account: Account) {
    && input.authorisation in p.accountOf && p.accountOf[input.authorisation].0 == account
    && p.accountOf[input.authorisation] in f.credentials
    && (f.credentials[p.accountOf[input.authorisation]].registration, input.payload, input.authorisation) in p.verifies
  }

  /** The input is its signer's to make: an event they own, a ticket they hold and may transfer, an event they may create. */
  predicate Attributable(p: Profile, f: Facts, c: Command, account: Account, organisers: set<Account>) {
    match c
    case TransferTicket(ticket, event, _) =>
      HasTicket(f, ticket, event) && f.tickets[ticket].holder == account && !f.tickets[ticket].cannotTransfer
    case CreateEvent(event, _, _, _) => (event, account) in p.derivesFrom && account in organisers
    case RegisterCredential(_, _) => false
    case OtherCommand => false
    case _ => c.event in f.events && f.events[c.event].owner == account
  }

  predicate Over(status: EventStatus) {
    status.Cancelled? || status.Finished?
  }

  predicate Covered(p: Profile, f: Facts, input: Input, account: Account, organisers: set<Account>) {
    match input
    case SignedCommand(c, _, _) => Attributable(p, f, c, account, organisers)
    case SignedPass(pass, _, _) =>
      pass.ticket in f.tickets && f.tickets[pass.ticket].event in f.events && !Over(f.events[f.tickets[pass.ticket].event].status)
  }

  /**
    Every entitled command is attributable to who signed it, and every attributable one
    is entitled; an access pass is entitled for whoever signed it, while its event is not over.
   */
  lemma EntitledMeansAttributable(p: Profile, input: Input, f: Facts, organisers: set<Account>)
    requires !Registers(input)
    ensures EntitledBy(p, input, f, organisers)
            <==> exists account :: SignedBy(p, f, input, account) && Covered(p, f, input, account, organisers)
  {
    if input.authorisation in p.accountOf {
      var account := p.accountOf[input.authorisation].0;
      assert SignedBy(p, f, input, account) <==> VerifiedSigner(p, input, f, f) == Signer(account);
    }
  }

  /** Each reason for a refusal, and its cause. */
  ghost predicate Because(p: Profile, f: Facts, input: Input, organisers: set<Account>, why: Reason) {
    match why
    case NoAccount => input.authorisation !in p.accountOf
    case Unregistered => input.authorisation in p.accountOf && p.accountOf[input.authorisation] !in f.credentials
    case BadAuthorisation =>
      input.authorisation in p.accountOf && p.accountOf[input.authorisation] in f.credentials
      && !exists account :: SignedBy(p, f, input, account)
    case FirstRegistration => false
    case TooMany => false
    case _ => exists account :: SignedBy(p, f, input, account) && Uncovered(p, f, input, account, organisers, why)
  }

  predicate Uncovered(p: Profile, f: Facts, input: Input, account: Account, organisers: set<Account>, why: Reason) {
    match input
    case SignedPass(pass, _, _) =>
      if pass.ticket !in f.tickets then why.NoTicket?
      else if f.tickets[pass.ticket].event !in f.events then why.NoEvent?
      else why.EventOver? && Over(f.events[f.tickets[pass.ticket].event].status)
    case SignedCommand(c, _, _) =>
      match why
      case NotCovered => c.OtherCommand?
      case NoTicket => c.TransferTicket? && !HasTicket(f, c.ticket, c.event)
      case NotHolder => c.TransferTicket? && HasTicket(f, c.ticket, c.event) && f.tickets[c.ticket].holder != account
      case NotTransferable =>
        c.TransferTicket? && HasTicket(f, c.ticket, c.event) && f.tickets[c.ticket].holder == account && f.tickets[c.ticket].cannotTransfer
      case NotDerived => c.CreateEvent? && (c.event, account) !in p.derivesFrom
      case NotOrganiser => c.CreateEvent? && (c.event, account) in p.derivesFrom && account !in organisers
      case NoEvent => OwnersCommand(c) && c.event !in f.events
      case NotOwner => OwnersCommand(c) && c.event in f.events && f.events[c.event].owner != account
      case _ => false
  }

  /** Only the event's owner may sign it. */
  predicate OwnersCommand(c: Command) {
    !c.CreateEvent? && !c.TransferTicket? && !c.RegisterCredential? && !c.OtherCommand?
  }

  /** A refusal gives its cause, and whenever there is one it is given. */
  lemma RefusalMeans(p: Profile, input: Input, f: Facts, organisers: set<Account>)
    requires !Registers(input)
    ensures forall why :: Decide(p, input, Reads(f, f, f, f, organisers)) == RefusedFor(why) <==> Because(p, f, input, organisers, why)
  {
    if input.authorisation in p.accountOf {
      var account := p.accountOf[input.authorisation].0;
      assert SignedBy(p, f, input, account) <==> VerifiedSigner(p, input, f, f) == Signer(account);
      assert (exists a :: SignedBy(p, f, input, a)) <==> SignedBy(p, f, input, account);
      hide VerifiedSigner, SignedBy;
    }
  }

  // ----- How long an input stays entitled -----

  /** Credentials keep their registrations, events their owners. */
  ghost predicate KeepsOwners(f: Facts, f': Facts) {
    && (forall c | c in f.credentials :: c in f'.credentials && f'.credentials[c].registration == f.credentials[c].registration)
    && (forall e | e in f.events :: e in f'.events && f'.events[e].owner == f.events[e].owner)
  }

  ghost predicate Grows(f: Facts, f': Facts) {
    KeepsOwners(f, f') && OnlyCleared(f, f')
  }

  lemma EventChangedKeepsOwners(f: Facts, n: nat, c: Command)
    requires c.SetEventStatus? || c.SetEventCapacity? || c.AddZone? || c.RemoveZone?
    requires EventChanged(f, n, c).Some?
    ensures KeepsOwners(f, EventChanged(f, n, c).value)
  {
    hide WithoutZone;
  }

  lemma CreatedKeepsOwners(o: Outside, f: Facts, n: nat, c: Command)
    requires c.CreateEvent? && Created(o, f, n, c).Some?
    ensures KeepsOwners(f, Created(o, f, n, c).value)
  {
  }

  lemma IssuedKeepsOwners(f: Facts, n: nat, c: Command)
    requires c.IssueTicket? && IssuedTo(f, n, c).Some?
    ensures KeepsOwners(f, IssuedTo(f, n, c).value)
  {
  }

  lemma RegisteredKeepsOwners(o: Outside, f: Facts, n: nat, c: Command)
    requires c.RegisterCredential? && Registered(o, f, n, c).Some?
    ensures KeepsOwners(f, Registered(o, f, n, c).value)
  {
  }

  lemma TicketChangedKeepsOwners(f: Facts, n: nat, at: int, c: Command)
    requires c.TransferTicket? || c.RemoveRestriction?
    requires if c.TransferTicket? then Transferred(f, n, at, c).Some? else Unrestricted(f, n, c).Some?
    ensures KeepsOwners(f, if c.TransferTicket? then Transferred(f, n, at, c).value else Unrestricted(f, n, c).value)
  {
  }

  lemma AttendedKeepsOwners(f: Facts, n: nat, r: Record, pass: Pass)
    requires Attended(f, n, r, pass).Some?
    ensures KeepsOwners(f, Attended(f, n, r, pass).value)
  {
  }

  lemma RecordKeepsOwners(o: Outside, f: Facts, n: nat, r: Record)
    requires Applied(o, f, n, r).Some?
    ensures KeepsOwners(f, Applied(o, f, n, r).value)
  {
    hide Created, EventChanged, IssuedTo, Transferred, Unrestricted, Registered, Attended, KeepsOwners;
    match r.entry {
      case OfPass(pass) => AttendedKeepsOwners(f, n, r, pass);
      case OfCommand(c) =>
        match c {
          case CreateEvent(_, _, _, _) => CreatedKeepsOwners(o, f, n, c);
          case IssueTicket(_, _, _, _, _, _) => IssuedKeepsOwners(f, n, c);
          case TransferTicket(_, _, _) => TicketChangedKeepsOwners(f, n, r.recordedAt, c);
          case RemoveRestriction(_, _, _) => TicketChangedKeepsOwners(f, n, r.recordedAt, c);
          case RegisterCredential(_, _) => RegisteredKeepsOwners(o, f, n, c);
          case OtherCommand =>
          case _ => EventChangedKeepsOwners(f, n, c);
        }
      case OtherEntry =>
    }
  }

  lemma {:induction false} CopyGrows(o: Outside, log: seq<Record>, n: nat, m: nat)
    requires n <= m <= |log| && CopyOf(o, log, m).Some?
    ensures CopyOf(o, log, n).Some? && Grows(CopyOf(o, log, n).value.facts, CopyOf(o, log, m).value.facts)
  {
    if n < m {
      CopyGrows(o, log, n, m - 1);
      var copy := CopyOf(o, log, m - 1).value;
      RecordKeepsOwners(o, copy.facts, copy.next, log[m - 1]);
      AppliedOnlyClears(o, copy.facts, copy.next, log[m - 1]);
      hide Applied;
    }
  }

  /** What the input needs has not changed: the ticket it transfers has the same holder, its pass's event is not over. */
  predicate Undisturbed(input: Input, f: Facts, f': Facts) {
    match input
    case SignedCommand(c, _, _) =>
      c.TransferTicket? && c.ticket in f.tickets && c.ticket in f'.tickets
      ==> f'.tickets[c.ticket].holder == f.tickets[c.ticket].holder
    case SignedPass(pass, _, _) =>
      pass.ticket in f'.tickets && f'.tickets[pass.ticket].event in f'.events
      ==> !Over(f'.events[f'.tickets[pass.ticket].event].status)
  }

  lemma GrowingKeepsSigner(p: Profile, input: Input, f: Facts, f': Facts)
    requires Grows(f, f') && !Registers(input) && VerifiedSigner(p, input, f, f).Signer?
    ensures VerifiedSigner(p, input, f', f') == VerifiedSigner(p, input, f, f)
  {
  }

  lemma GrowingKeepsEntitled(p: Profile, input: Input, f: Facts, f': Facts, organisers: set<Account>)
    requires Grows(f, f') && !Registers(input) && EntitledBy(p, input, f, organisers)
    ensures EntitledBy(p, input, f', organisers) <==> Undisturbed(input, f, f')
  {
    hide VerifiedSigner;
    GrowingKeepsSigner(p, input, f, f');
  }

  /** The copy entitles the input at its cursor, and nothing it needs is changed by any later one. */
  ghost predicate EntitledAndUndisturbed(p: Profile, o: Outside, log: seq<Record>, n: nat, input: Input,
                                         organisers: set<Account>)
    requires n <= |log| && CopyOf(o, log, n).Some?
  {
    && EntitledBy(p, input, CopyOf(o, log, n).value.facts, organisers)
    && forall m | n <= m <= |log| ::
         CopyOf(o, log, m).Some? && Undisturbed(input, CopyOf(o, log, n).value.facts, CopyOf(o, log, m).value.facts)
  }

  /**
    An input entitled by the copy at its cursor stays entitled by every later one exactly
    as long as nobody else comes to hold the ticket it transfers, or its pass's event is
    not over; every other input stays entitled for good.
   */
  lemma EntitledFromExactlyWhen(p: Profile, o: Outside, log: seq<Record>, n: nat, input: Input, organisers: set<Account>)
    requires n <= |log| && CopyOf(o, log, |log|).Some? && CopyOf(o, log, n).Some? && !Registers(input)
    ensures EntitledFrom(p, o, log, n, input, organisers) <==> EntitledAndUndisturbed(p, o, log, n, input, organisers)
  {
    hide CopyOf, EntitledBy, Undisturbed, Grows;
    var f := CopyOf(o, log, n).value.facts;
    forall m | n <= m <= |log| && EntitledBy(p, input, f, organisers)
      ensures CopyOf(o, log, m).Some?
      ensures EntitledBy(p, input, CopyOf(o, log, m).value.facts, organisers)
              <==> Undisturbed(input, f, CopyOf(o, log, m).value.facts)
    {
      CopyGrows(o, log, m, |log|);
      CopyGrows(o, log, n, m);
      GrowingKeepsEntitled(p, input, f, CopyOf(o, log, m).value.facts, organisers);
    }
  }

  // ----- The handler -----

  datatype Answer = Sponsored | RefusedFinally(why: Decision) | Lagging | Unavailable

  /** A decision that cannot be made because the copy cannot be read is none. */
  method Relay(decide: nat -> Option<Decision>, after: bool, reached: bool) returns (answer: Answer)
    ensures answer.Sponsored? <==>
              decide(0) == Some(Entitled) || (decide(0).Some? && after && reached && decide(1) == Some(Entitled))
    ensures answer.RefusedFinally? <==>
              && decide(0).Some? && !decide(0).value.Entitled?
              && (after ==> reached && decide(1).Some? && !decide(1).value.Entitled?)
    ensures answer.RefusedFinally? ==> Some(answer.why) == decide(if after then 1 else 0)
    ensures answer.Lagging? <==> decide(0).Some? && !decide(0).value.Entitled? && after && !reached
  {
    var decision := decide(0);
    if decision.None? {
      return Unavailable;
    }
    if !decision.value.Entitled? && after {
      if !reached {
        return Lagging;
      }
      decision := decide(1);
      if decision.None? {
        return Unavailable;
      }
    }
    answer := if decision.value.Entitled? then Sponsored else RefusedFinally(decision.value);
  }

  // ----- Copies that advance between the reads -----

  /** The positions of the copies one decision's reads see: never going back. */
  datatype Positions = Positions(listed: nat, looked: nat, first: nat, second: nat)

  predicate Advancing(start: nat, at: Positions, end: nat) {
    start <= at.listed <= at.looked <= at.first <= at.second <= end
  }

  function ReadsAt(o: Outside, log: seq<Record>, at: Positions, organisers: set<Account>): Reads
    requires Advancing(0, at, |log|) && CopyOf(o, log, |log|).Some?
  {
    CopyGrows(o, log, at.listed, |log|);
    CopyGrows(o, log, at.looked, |log|);
    CopyGrows(o, log, at.first, |log|);
    CopyGrows(o, log, at.second, |log|);
    Reads(CopyOf(o, log, at.listed).value.facts, CopyOf(o, log, at.looked).value.facts,
          CopyOf(o, log, at.first).value.facts, CopyOf(o, log, at.second).value.facts, organisers)
  }

  /** Entitled in every state of the copy from a position on, whoever the organisers are found to be. */
  ghost predicate EntitledFrom(p: Profile, o: Outside, log: seq<Record>, n: nat, input: Input, organisers: set<Account>)
    requires n <= |log|
  {
    forall m | n <= m <= |log| ::
      CopyOf(o, log, m).Some? && EntitledBy(p, input, CopyOf(o, log, m).value.facts, organisers)
  }

  /** The reads need not see one copy: entitled by each, the input is entitled by their mixture. */
  lemma MixedReadsEntitle(p: Profile, o: Outside, log: seq<Record>, n: nat, input: Input, at: Positions,
                          organisers: set<Account>)
    requires n <= |log| && CopyOf(o, log, |log|).Some? && Advancing(n, at, |log|) && !Registers(input)
    requires EntitledFrom(p, o, log, n, input, organisers)
    ensures Decide(p, input, ReadsAt(o, log, at, organisers)).Entitled?
  {
    hide CopyOf;
    assert EntitledBy(p, input, CopyOf(o, log, at.looked).value.facts, organisers);
    assert EntitledBy(p, input, CopyOf(o, log, at.first).value.facts, organisers);
    assert EntitledBy(p, input, CopyOf(o, log, at.second).value.facts, organisers);
    // A ticket's event, read first, is its event still when the event is read.
    CopyGrows(o, log, at.first, at.second);
  }

  /** The copy after `n` records is seen to reflect the cursor. */
  predicate Reflects(o: Outside, log: seq<Record>, n: nat, cursor: Cursor) {
    && n <= |log| && CopyOf(o, log, n).Some?
    && (cursor == LOG_START || KnowsCursor(CopyOf(o, log, n).value.log, cursor))
  }

  /** The copy reflects the record a receipt's cursor names once its position is past it. */
  lemma ReflectedIsRead(o: Outside, log: seq<Record>, n: nat, after: Cursor, a: nat)
    requires n <= |log| && CopyOf(o, log, n).Some? && DistinctCursors(log) && 0 < a <= |log|
    requires CursorAt(log, a) == after
    ensures KnowsCursor(CopyOf(o, log, n).value.log, after) <==> a <= n
  {
    CopyIsGapFree(o, log, n);
    var rows := CopyOf(o, log, n).value.log;
    if a <= n {
      assert rows[a - 1].cursor == after;
    }
    if KnowsCursor(rows, after) {
      var i :| i in rows && rows[i].cursor == after;
      assert CursorAt(log, i + 1) == after;
    }
  }

  /** A decision's reads, if they were answered: where the copy was at each, and who the organisers were. */
  datatype Reading = Reading(at: Positions, organisers: set<Account>)

  predicate ReadingOk(reading: Option<Reading>, start: nat, end: nat) {
    reading.Some? ==> Advancing(start, reading.value.at, end)
  }

  function DecisionOver(p: Profile, o: Outside, log: seq<Record>, input: Input, reading: Option<Reading>): Option<Decision>
    requires CopyOf(o, log, |log|).Some? && ReadingOk(reading, 0, |log|)
  {
    if reading.None? then None
    else Some(Decide(p, input, ReadsAt(o, log, reading.value.at, reading.value.organisers)))
  }

  /** One relayed input, both its decisions read from copies that advance between them. */
  method RelayOver(p: Profile, o: Outside, log: seq<Record>, input: Input, after: Option<Cursor>,
                   once: Option<Reading>, waited: Option<nat>, again: Option<Reading>)
    returns (answer: Answer)
    requires CopyOf(o, log, |log|).Some? && DistinctCursors(log) && ReadingOk(once, 0, |log|)
    // The wait ends when the copy is seen to reflect the cursor, at a position the second reads do not fall behind.
    requires waited.Some? && after.Some? ==> Reflects(o, log, waited.value, after.value)
    requires ReadingOk(again, if waited.Some? then waited.value else 0, |log|)
    ensures forall a: nat | a <= |log| && after == Some(CursorAt(log, a)) && !Registers(input) && again.Some?
                            && EntitledFrom(p, o, log, a, input, again.value.organisers) ::
              !answer.RefusedFinally? && (once.Some? && waited.Some? ==> answer.Sponsored?)
    ensures again.None? && after.Some? ==> !answer.RefusedFinally?
  {
    var first, second := DecisionOver(p, o, log, input, once), DecisionOver(p, o, log, input, again);
    answer := Relay((k: nat) => if k == 0 then first else second, after.Some?, waited.Some?);
    forall a: nat | a <= |log| && after == Some(CursorAt(log, a)) && !Registers(input) && again.Some?
                    && EntitledFrom(p, o, log, a, input, again.value.organisers)
      ensures !answer.RefusedFinally? && (once.Some? && waited.Some? ==> answer.Sponsored?)
    {
      if waited.Some? {
        SecondDecisionEntitles(p, o, log, input, a, waited.value, again.value);
      }
    }
  }

  lemma SecondDecisionEntitles(p: Profile, o: Outside, log: seq<Record>, input: Input, a: nat, waited: nat, again: Reading)
    requires CopyOf(o, log, |log|).Some? && DistinctCursors(log) && a <= |log| && !Registers(input)
    requires EntitledFrom(p, o, log, a, input, again.organisers)
    requires Reflects(o, log, waited, CursorAt(log, a)) && Advancing(waited, again.at, |log|)
    ensures Decide(p, input, ReadsAt(o, log, again.at, again.organisers)).Entitled?
  {
    assert CursorAt(log, 0) == LOG_START;
    if a > 0 {
      ReflectedIsRead(o, log, waited, CursorAt(log, a), a);
    }
    hide CopyOf, EntitledBy, DistinctCursors;
    MixedReadsEntitle(p, o, log, a, input, again.at, again.organisers);
  }
}
