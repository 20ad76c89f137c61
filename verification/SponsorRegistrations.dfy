/**
  Relaying registrations of credentials: who may sign one, read from copies that
  advance between the reads, and the limit on those sponsored for one account.
 */
module SponsorRegistrations {
  import opened Common
  import opened LedgerFacts
  import opened DerivedReader
  import opened DerivedFacts
  import opened SponsorRelay
  import Limits = RegistrationLimiter

  // ----- Who may sign a registration -----

  /** An account's first credential, which signs its own registration. */
  predicate SelfSigned(p: Profile, f: Facts, input: Input)
    requires Registers(input)
  {
    var account, registration := input.command.account, input.command.registration;
    && !AnyCredential(f, account)
    && input.authorisation in p.accountOf && p.accountOf[input.authorisation].0 == account
    && registration in p.decoded && p.decoded[registration] == p.accountOf[input.authorisation]
    && (registration, input.payload, input.authorisation) in p.verifies
  }

  /** A registration is decided by its rate alone, by one copy of the facts read at once. */
  predicate AuthorisedBy(p: Profile, input: Input, f: Facts) {
    Decide(p, input, Reads(f, f, f, f, {})).Limited?
  }

  /** Signed by a registered credential of some account, or the first of its own account and signed by itself. */
  ghost predicate SignedToRegister(p: Profile, f: Facts, input: Input)
    requires Registers(input)
  {
    SelfSigned(p, f, input) || exists account :: SignedBy(p, f, input, account)
  }

  /** Nothing else is authorised, and what is not is refused. */
  lemma AuthorisedMeansSigned(p: Profile, input: Input, f: Facts)
    requires Registers(input)
    ensures AuthorisedBy(p, input, f) <==> SignedToRegister(p, f, input)
    ensures !AuthorisedBy(p, input, f) ==> Decide(p, input, Reads(f, f, f, f, {})).RefusedFor?
  {
    if input.authorisation in p.accountOf {
      var account := p.accountOf[input.authorisation].0;
      if p.accountOf[input.authorisation] in f.credentials {
        assert AnyCredential(f, account);
      }
      assert (exists a :: SignedBy(p, f, input, a)) <==> SignedBy(p, f, input, account);
    }
  }

  ghost predicate AuthorisedFrom(p: Profile, o: Outside, log: seq<Record>, n: nat, input: Input)
    requires n <= |log|
  {
    forall m | n <= m <= |log| :: CopyOf(o, log, m).Some? && AuthorisedBy(p, input, CopyOf(o, log, m).value.facts)
  }

  /** Reads of different copies: once the account has a credential it has one in every later copy. */
  lemma GrowingReadsAuthorise(p: Profile, input: Input, listed: Facts, looked: Facts, first: Facts, second: Facts, organisers: set<Account>)
    requires Registers(input) && Grows(listed, looked)
    requires AuthorisedBy(p, input, listed) && AuthorisedBy(p, input, looked)
    ensures Decide(p, input, Reads(listed, looked, first, second, organisers)).Limited?
  {
    var account := input.command.account;
    if AnyCredential(listed, account) {
      var c :| c in listed.credentials && c.0 == account;
      assert c in looked.credentials;
      assert AnyCredential(looked, account);
    }
  }

  /** The reads need not see one copy: authorised by each, the registration is authorised by their mixture. */
  lemma MixedReadsAuthorise(p: Profile, o: Outside, log: seq<Record>, n: nat, input: Input, at: Positions, organisers: set<Account>)
    requires n <= |log| && CopyOf(o, log, |log|).Some? && Advancing(n, at, |log|) && Registers(input)
    requires AuthorisedFrom(p, o, log, n, input)
    ensures Decide(p, input, ReadsAt(o, log, at, organisers)).Limited?
  {
    hide CopyOf, Grows, AuthorisedBy;
    assert AuthorisedBy(p, input, CopyOf(o, log, at.listed).value.facts);
    assert AuthorisedBy(p, input, CopyOf(o, log, at.looked).value.facts);
    CopyGrows(o, log, at.listed, at.looked);
    CopyGrows(o, log, at.first, |log|);
    CopyGrows(o, log, at.second, |log|);
    GrowingReadsAuthorise(p, input, CopyOf(o, log, at.listed).value.facts, CopyOf(o, log, at.looked).value.facts,
                          CopyOf(o, log, at.first).value.facts, CopyOf(o, log, at.second).value.facts, organisers);
  }

  // ----- The handler -----

  type History = map<Account, Limits.Times>

  predicate HasRoom(history: History, account: Account, at: int, limit: nat, window: nat) {
    |Limits.Recent(Limits.Past(history, account), at, window)| < limit
  }

  /** A decision that is left to the rate limit is made by it. */
  method Charge(limiter: Limits.Limiter, decision: Decision, account: Account, at: int) returns (d: Decision)
    requires limiter.Valid() && limiter.last <= at
    modifies limiter
    ensures limiter.Valid() && old(limiter.last) <= limiter.last <= at
    ensures d.Entitled? <==>
              decision.Entitled? || (decision.Limited? && HasRoom(old(limiter.history), account, at, limiter.limit, limiter.window))
    ensures !d.Limited?
    ensures limiter.history == if decision.Limited? && d.Entitled?
                               then old(limiter.history)[account := Limits.Past(old(limiter.history), account) + [at]]
                               else old(limiter.history)
  {
    d := decision;
    if decision.Limited? {
      var sponsored := limiter.Decide(account, at);
      d := if sponsored then Entitled else RefusedFor(TooMany);
    }
  }

  predicate Authorises(p: Profile, o: Outside, log: seq<Record>, input: Input, reading: Option<Reading>)
    requires CopyOf(o, log, |log|).Some? && ReadingOk(reading, 0, |log|)
  {
    DecisionOver(p, o, log, input, reading) == Some(Limited)
  }

  /** A decision of a registration is refused, or left to the rate limit. */
  lemma RegistrationsAreLimited(p: Profile, input: Input, r: Reads)
    requires Registers(input)
    ensures !Decide(p, input, r).Entitled?
  {
  }

  /** One relayed registration, decided at `at` and, if refused, again at `later`. */
  method RelayRegistration(limiter: Limits.Limiter, p: Profile, o: Outside, log: seq<Record>, input: Input, after: Option<Cursor>,
                           once: Option<Reading>, at: int, waited: Option<nat>, again: Option<Reading>, later: int)
    returns (answer: SponsorRelay.Answer)
    requires Registers(input) && limiter.Valid() && limiter.last <= at <= later
    requires CopyOf(o, log, |log|).Some? && DistinctCursors(log) && ReadingOk(once, 0, |log|)
    requires waited.Some? && after.Some? ==> Reflects(o, log, waited.value, after.value)
    requires ReadingOk(again, if waited.Some? then waited.value else 0, |log|)
    modifies limiter
    ensures limiter.Valid()
    ensures var account, limit, window := input.command.account, limiter.limit, limiter.window;
            var history := old(limiter.history);
            var firstly := Authorises(p, o, log, input, once) && HasRoom(history, account, at, limit, window);
            var secondly := Authorises(p, o, log, input, again) && HasRoom(history, account, later, limit, window);
            && (answer.Sponsored? <==> firstly || (once.Some? && after.Some? && waited.Some? && secondly))
            && limiter.history == (if !answer.Sponsored? then history
                                   else history[account := Limits.Past(history, account) + [if firstly then at else later]])
    // Authorised from the submitter's cursor on, it is finally refused only for its rate.
    ensures forall a: nat | a <= |log| && after == Some(CursorAt(log, a)) && AuthorisedFrom(p, o, log, a, input)
                            && HasRoom(old(limiter.history), input.command.account, later, limiter.limit, limiter.window) ::
              !answer.RefusedFinally? && (once.Some? && waited.Some? && again.Some? ==> answer.Sponsored?)
  {
    hide Limits.Recent, Decide, CopyOf, DistinctCursors, Reflects, AuthorisedFrom;
    var account := input.command.account;
    var first, second := DecisionOver(p, o, log, input, once), None;
    if first.Some? {
      NotEntitled(p, o, log, input, once);
      var d := Charge(limiter, first.value, account, at);
      first := Some(d);
    }
    if first.Some? && !first.value.Entitled? && after.Some? && waited.Some? && again.Some? {
      NotEntitled(p, o, log, input, again);
      var d := Charge(limiter, DecisionOver(p, o, log, input, again).value, account, later);
      second := Some(d);
    }
    answer := Relay((k: nat) => if k == 0 then first else second, after.Some?, waited.Some?);
    forall a: nat | a <= |log| && after == Some(CursorAt(log, a)) && AuthorisedFrom(p, o, log, a, input) && again.Some? && waited.Some?
      ensures Authorises(p, o, log, input, again)
    {
      SecondDecisionAuthorises(p, o, log, input, a, waited.value, again.value);
    }
  }

  lemma NotEntitled(p: Profile, o: Outside, log: seq<Record>, input: Input, reading: Option<Reading>)
    requires CopyOf(o, log, |log|).Some? && ReadingOk(reading, 0, |log|) && Registers(input) && reading.Some?
    ensures DecisionOver(p, o, log, input, reading).Some? && !DecisionOver(p, o, log, input, reading).value.Entitled?
  {
    hide CopyOf, Decide;
    RegistrationsAreLimited(p, input, ReadsAt(o, log, reading.value.at, reading.value.organisers));
  }

  lemma SecondDecisionAuthorises(p: Profile, o: Outside, log: seq<Record>, input: Input, a: nat, waited: nat, again: Reading)
    requires CopyOf(o, log, |log|).Some? && DistinctCursors(log) && a <= |log| && Registers(input)
    requires AuthorisedFrom(p, o, log, a, input)
    requires Reflects(o, log, waited, CursorAt(log, a)) && Advancing(waited, again.at, |log|)
    ensures Authorises(p, o, log, input, Some(again))
  {
    assert CursorAt(log, 0) == LOG_START;
    if a > 0 {
      ReflectedIsRead(o, log, waited, CursorAt(log, a), a);
    }
    hide CopyOf, AuthorisedBy, DistinctCursors, Decide;
    MixedReadsAuthorise(p, o, log, a, input, again.at, again.organisers);
  }
}
