/**
  An operator's enrolment codes and sessions: revocation racing redemptions and
  code issuances, each a transaction of statements under row locks.
 */
module OperatorSessions {
  import opened Common

  type CodeId = nat
  type SessionId = nat
  type TxnId = nat

  const SESSION_LIFETIME := 24 * 60 * 60 * 1000
  const CODE_LIFETIME := 60 * 60 * 1000

  /** `after` counts the revocations committed before the code was issued. */
  datatype Code = Code(after: nat, expires: int, redeemed: bool, voided: bool) {
    predicate Usable() {
      !redeemed && !voided
    }
  }

  datatype Session = Session(code: CodeId, expires: int, revoked: bool) {
    predicate Live(at: int) {
      !revoked && at < expires
    }
  }

  datatype Txn =
    | Issuing(expires: int)
    | Redeeming(code: CodeId)
    | Asking(at: int)
    | Revoking(at: int)
    | Voided(at: int, codes: set<CodeId>)
    | Ended(at: int, codes: set<CodeId>, sessions: set<SessionId>)

  datatype State = State(
    now: int,
    revocations: nat,
    codes: map<CodeId, Code>,
    sessions: map<SessionId, Session>,
    operatorRow: Option<TxnId>,
    codeRows: map<CodeId, TxnId>,
    txns: map<TxnId, Txn>)

  predicate Init(s: State) {
    s.codes == map[] && s.sessions == map[] && s.operatorRow.None? && s.codeRows == map[] && s.txns == map[]
  }

  datatype Step =
    | Tick(ms: nat)
    | BeginIssue(t: TxnId)
    | CommitIssue(t: TxnId, code: CodeId)
    | BeginRevoke(t: TxnId)
    | LockOperator(t: TxnId)
    | VoidCodes(t: TxnId)
    | EndSessions(t: TxnId)
    | CommitRevoke(t: TxnId)
    | Redeem(t: TxnId, code: CodeId)
    | CommitRedeem(t: TxnId, session: SessionId)
    | Abort(t: TxnId)

  predicate CanStep(s: State, step: Step) {
    match step
    case Tick(_) => true
    case BeginIssue(t) => t !in s.txns && s.operatorRow.None?
    case CommitIssue(t, code) => t in s.txns && s.txns[t].Issuing? && code !in s.codes
    case BeginRevoke(t) => t !in s.txns
    case LockOperator(t) => t in s.txns && s.txns[t].Asking? && s.operatorRow.None?
    // Waits for the row of every code a redemption is using.
    case VoidCodes(t) =>
      t in s.txns && s.txns[t].Revoking? && forall c | c in s.codes && s.codes[c].Usable() :: c !in s.codeRows
    case EndSessions(t) => t in s.txns && s.txns[t].Voided?
    case CommitRevoke(t) => t in s.txns && s.txns[t].Ended?
    case Redeem(t, code) =>
      t !in s.txns && code in s.codes && s.codes[code].Usable() && s.now < s.codes[code].expires && code !in s.codeRows
    case CommitRedeem(t, session) =>
      t in s.txns && s.txns[t].Redeeming? && s.txns[t].code in s.codes && session !in s.sessions
    case Abort(t) => t in s.txns
  }

  function UsableCodes(codes: map<CodeId, Code>): set<CodeId> {
    set c | c in codes && codes[c].Usable()
  }

  function LiveSessions(sessions: map<SessionId, Session>, at: int): set<SessionId> {
    set x | x in sessions && sessions[x].Live(at)
  }

  function Unlocked(rows: map<CodeId, TxnId>, t: TxnId): (r: map<CodeId, TxnId>)
    ensures forall c :: c in r <==> c in rows && rows[c] != t
    ensures forall c | c in r :: r[c] == rows[c]
  {
    map c | c in rows && rows[c] != t :: rows[c]
  }

  function Locked(rows: map<CodeId, TxnId>, codes: set<CodeId>, t: TxnId): (r: map<CodeId, TxnId>)
    ensures forall c :: c in r <==> c in rows || c in codes
    ensures forall c | c in r :: r[c] == if c in codes then t else rows[c]
  {
    rows + map c | c in codes :: t
  }

  function Over(s: State, t: TxnId): State {
    s.(operatorRow := if s.operatorRow == Some(t) then None else s.operatorRow,
       codeRows := Unlocked(s.codeRows, t), txns := s.txns - {t})
  }

  function CodesVoided(codes: map<CodeId, Code>, gone: set<CodeId>): (r: map<CodeId, Code>)
    ensures r.Keys == codes.Keys
    ensures forall c | c in r :: r[c] == if c in gone then codes[c].(voided := true) else codes[c]
  {
    map c | c in codes :: if c in gone then codes[c].(voided := true) else codes[c]
  }

  function SessionsEnded(sessions: map<SessionId, Session>, gone: set<SessionId>): (r: map<SessionId, Session>)
    ensures r.Keys == sessions.Keys
    ensures forall x | x in r :: r[x] == if x in gone then sessions[x].(revoked := true) else sessions[x]
  {
    map x | x in sessions :: if x in gone then sessions[x].(revoked := true) else sessions[x]
  }

  function Do(s: State, step: Step): State
    requires CanStep(s, step)
  {
    match step
    case Tick(ms) => s.(now := s.now + ms)
    case BeginIssue(t) => s.(operatorRow := Some(t), txns := s.txns[t := Issuing(s.now + CODE_LIFETIME)])
    case CommitIssue(t, code) => Over(s.(codes := s.codes[code := Code(s.revocations, s.txns[t].expires, false, false)]), t)
    case BeginRevoke(t) => s.(txns := s.txns[t := Asking(s.now)])
    case LockOperator(t) => s.(operatorRow := Some(t), txns := s.txns[t := Revoking(s.txns[t].at)])
    case VoidCodes(t) =>
      var gone := UsableCodes(s.codes);
      s.(codeRows := Locked(s.codeRows, gone, t), txns := s.txns[t := Voided(s.txns[t].at, gone)])
    case EndSessions(t) =>
      s.(txns := s.txns[t := Ended(s.txns[t].at, s.txns[t].codes, LiveSessions(s.sessions, s.txns[t].at))])
    case CommitRevoke(t) =>
      Over(s.(codes := CodesVoided(s.codes, s.txns[t].codes), sessions := SessionsEnded(s.sessions, s.txns[t].sessions),
              revocations := s.revocations + 1), t)
    case Redeem(t, code) => s.(codeRows := s.codeRows[code := t], txns := s.txns[t := Redeeming(code)])
    case CommitRedeem(t, session) =>
      var code := s.txns[t].code;
      Over(s.(codes := s.codes[code := s.codes[code].(redeemed := true)],
              sessions := s.sessions[session := Session(code, s.now + SESSION_LIFETIME, false)]), t)
    case Abort(t) => Over(s, t)
  }

  // ----- What every step keeps -----

  predicate PastVoiding(txn: Txn) {
    txn.Voided? || txn.Ended?
  }

  ghost predicate LocksOk(s: State) {
    && (forall t | t in s.txns && !s.txns[t].Redeeming? && !s.txns[t].Asking? :: s.operatorRow == Some(t))
    && (forall t | t in s.txns && s.txns[t].Redeeming? ::
          s.txns[t].code in s.codeRows && s.codeRows[s.txns[t].code] == t
          && s.txns[t].code in s.codes && s.codes[s.txns[t].code].Usable())
    && (forall t | t in s.txns && PastVoiding(s.txns[t]) ::
          s.txns[t].codes == UsableCodes(s.codes) && forall c | c in s.txns[t].codes :: c in s.codeRows && s.codeRows[c] == t)
  }

  /** Past voiding, the sessions to end are all there are, and nothing can add one. */
  ghost predicate EndingOk(s: State) {
    && (forall t | t in s.txns && (s.txns[t].Asking? || s.txns[t].Revoking? || PastVoiding(s.txns[t])) :: s.txns[t].at <= s.now)
    && (forall t, x | t in s.txns && s.txns[t].Ended? && x in s.sessions && s.sessions[x].Live(s.now) :: x in s.txns[t].sessions)
  }

  /** What can still be redeemed, or is live, comes of a code issued after every revocation. */
  ghost predicate CurrentOk(s: State) {
    && (forall c | c in s.codes && s.codes[c].Usable() :: s.codes[c].after == s.revocations)
    && (forall x | x in s.sessions && s.sessions[x].Live(s.now) ::
          s.sessions[x].code in s.codes && s.codes[s.sessions[x].code].after == s.revocations)
  }

  ghost predicate Inv(s: State) {
    LocksOk(s) && EndingOk(s) && CurrentOk(s)
  }

  lemma StepKeepsLocks(s: State, step: Step)
    requires LocksOk(s) && CanStep(s, step)
    ensures LocksOk(Do(s, step))
  {
    var s' := Do(s, step);
    if step.CommitRedeem? {
      // Nobody is past voiding: the code in hand would be that revocation's.
      assert s.txns[step.t].code in UsableCodes(s.codes);
    }
    if step.Redeem? {
      assert step.code in UsableCodes(s.codes);
    }
  }

  lemma StepKeepsEnding(s: State, step: Step)
    requires LocksOk(s) && EndingOk(s) && CanStep(s, step)
    ensures EndingOk(Do(s, step))
  {
    if step.CommitRedeem? {
      assert s.txns[step.t].code in UsableCodes(s.codes);
    }
  }

  lemma StepKeepsCurrent(s: State, step: Step)
    requires Inv(s) && CanStep(s, step)
    ensures CurrentOk(Do(s, step))
  {
  }

  lemma StepKeepsInv(s: State, step: Step)
    requires Inv(s) && CanStep(s, step)
    ensures Inv(Do(s, step))
  {
    StepKeepsLocks(s, step);
    StepKeepsEnding(s, step);
    StepKeepsCurrent(s, step);
  }

  predicate IsRun(s: State, steps: seq<Step>)
    decreases |steps|
  {
    steps == [] || (CanStep(s, steps[0]) && IsRun(Do(s, steps[0]), steps[1..]))
  }

  function After(s: State, steps: seq<Step>): State
    requires IsRun(s, steps)
    decreases |steps|
  {
    if steps == [] then s else After(Do(s, steps[0]), steps[1..])
  }

  lemma {:induction false} RunKeepsInv(s: State, steps: seq<Step>)
    requires Inv(s) && IsRun(s, steps)
    ensures Inv(After(s, steps)) && s.revocations <= After(s, steps).revocations
    decreases |steps|
  {
    if steps != [] {
      assert s.revocations <= Do(s, steps[0]).revocations;
      hide CanStep, Do, Inv;
      StepKeepsInv(s, steps[0]);
      RunKeepsInv(Do(s, steps[0]), steps[1..]);
    }
  }

  /** The moment a revocation commits, no session is live and no code can be redeemed. */
  lemma RevocationEndsAll(s: State, t: TxnId)
    requires Inv(s) && CanStep(s, CommitRevoke(t))
    ensures var s' := Do(s, CommitRevoke(t));
            && s'.revocations == s.revocations + 1
            && (forall x | x in s'.sessions :: !s'.sessions[x].Live(s'.now))
            && (forall c | c in s'.codes :: !s'.codes[c].Usable())
  {
  }

  /**
    After a revocation commits, every session live later was opened by a code issued
    after it, whatever redemptions and issuances raced with it.
   */
  lemma LiveSessionsComeAfter(start: State, before: seq<Step>, t: TxnId, later: seq<Step>)
    requires Init(start) && IsRun(start, before) && CanStep(After(start, before), CommitRevoke(t))
    requires IsRun(Do(After(start, before), CommitRevoke(t)), later)
    ensures var revoked := Do(After(start, before), CommitRevoke(t));
            var s := After(revoked, later);
            forall x | x in s.sessions && s.sessions[x].Live(s.now) ::
              s.sessions[x].code in s.codes && s.codes[s.sessions[x].code].after >= revoked.revocations
  {
    RunKeepsInv(start, before);
    StepKeepsInv(After(start, before), CommitRevoke(t));
    RunKeepsInv(Do(After(start, before), CommitRevoke(t)), later);
  }

  // ----- How long a session and a code last -----

  predicate Revokes(steps: seq<Step>) {
    exists i | 0 <= i < |steps| :: steps[i].CommitRevoke?
  }

  /** Since it was opened: the session is what it was, unless a revocation committed; then it is over. */
  ghost predicate SessionSince(s: State, x: SessionId, since: int, revoked: bool) {
    && Inv(s) && x in s.sessions && s.sessions[x].expires == since + 24 * 60 * 60 * 1000 && since <= s.now
    && (!revoked ==> !s.sessions[x].revoked) && (revoked ==> !s.sessions[x].Live(s.now))
  }

  lemma StepKeepsSession(s: State, step: Step, x: SessionId, since: int, revoked: bool)
    requires SessionSince(s, x, since, revoked) && CanStep(s, step)
    ensures SessionSince(Do(s, step), x, since, revoked || step.CommitRevoke?)
  {
    StepKeepsInv(s, step);
    if step.CommitRevoke? {
      RevocationEndsAll(s, step.t);
    }
    hide Inv;
  }

  lemma {:induction false} RunKeepsSession(s: State, steps: seq<Step>, x: SessionId, since: int, revoked: bool)
    requires SessionSince(s, x, since, revoked) && IsRun(s, steps)
    ensures SessionSince(After(s, steps), x, since, revoked || Revokes(steps))
    decreases |steps|
  {
    hide SessionSince, CanStep, Do;
    if steps != [] {
      StepKeepsSession(s, steps[0], x, since, revoked);
      RunKeepsSession(Do(s, steps[0]), steps[1..], x, since, revoked || steps[0].CommitRevoke?);
      RevokesFirstOrLater(steps);
    }
  }

  lemma RevokesFirstOrLater(steps: seq<Step>)
    requires steps != []
    ensures Revokes(steps) <==> steps[0].CommitRevoke? || Revokes(steps[1..])
  {
    if Revokes(steps[1..]) {
      var i :| 0 <= i < |steps[1..]| && steps[1..][i].CommitRevoke?;
      assert steps[i + 1].CommitRevoke?;
    }
    if Revokes(steps) && !steps[0].CommitRevoke? {
      var i :| 0 <= i < |steps| && steps[i].CommitRevoke?;
      assert steps[1..][i - 1].CommitRevoke?;
    }
  }

  lemma InitIsOk(s: State)
    requires Init(s)
    ensures Inv(s)
  {
  }

  lemma OpenedNow(s: State, t: TxnId, x: SessionId)
    requires Inv(s) && CanStep(s, CommitRedeem(t, x))
    ensures SessionSince(Do(s, CommitRedeem(t, x)), x, s.now, false)
  {
    StepKeepsInv(s, CommitRedeem(t, x));
    hide Inv;
  }

  /** A session opened by redeeming a code is live for a day from then, unless a revocation commits meanwhile, and no longer. */
  lemma ASessionLivesExactlyWhile(start: State, before: seq<Step>, t: TxnId, x: SessionId, later: seq<Step>)
    requires Init(start) && IsRun(start, before) && CanStep(After(start, before), CommitRedeem(t, x))
    requires IsRun(Do(After(start, before), CommitRedeem(t, x)), later)
    ensures var s, since := After(Do(After(start, before), CommitRedeem(t, x)), later), After(start, before).now;
            && x in s.sessions
            && (s.sessions[x].Live(s.now) <==> s.now < since + 24 * 60 * 60 * 1000 && !Revokes(later))
  {
    InitIsOk(start);
    RunKeepsInv(start, before);
    var s := After(start, before);
    OpenedNow(s, t, x);
    hide Inv, CanStep, Do, IsRun, After;
    RunKeepsSession(Do(s, CommitRedeem(t, x)), later, x, s.now, false);
  }

  /** The code is redeemed: a redemption of it commits. */
  predicate RedeemedIn(s: State, steps: seq<Step>, c: CodeId)
    requires IsRun(s, steps)
    decreases |steps|
  {
    steps != [] && (Takes(s, steps[0], c) || RedeemedIn(Do(s, steps[0]), steps[1..], c))
  }

  predicate Takes(s: State, step: Step, c: CodeId)
    requires CanStep(s, step)
  {
    step.CommitRedeem? && s.txns[step.t].code == c
  }

  predicate StepOf(step: Step, t: TxnId) {
    !step.Tick? && step.t == t
  }

  predicate NeverSteps(steps: seq<Step>, t: TxnId) {
    forall i | 0 <= i < |steps| :: !StepOf(steps[i], t)
  }

  /** A request at work is what it was until it takes a step of its own. */
  lemma OthersLeaveIt(s: State, step: Step, t: TxnId)
    requires CanStep(s, step) && t in s.txns && !StepOf(step, t)
    ensures t in Do(s, step).txns && Do(s, step).txns[t] == s.txns[t] && s.now <= Do(s, step).now
  {
  }

  lemma {:induction false} RunLeavesIt(s: State, steps: seq<Step>, t: TxnId)
    requires IsRun(s, steps) && t in s.txns && NeverSteps(steps, t)
    ensures t in After(s, steps).txns && After(s, steps).txns[t] == s.txns[t]
    decreases |steps|
  {
    if steps != [] {
      OthersLeaveIt(s, steps[0], t);
      assert NeverSteps(steps[1..], t);
      hide CanStep, Do;
      RunLeavesIt(Do(s, steps[0]), steps[1..], t);
    }
  }

  /** Since it was issued: until when it may be redeemed, and that it is usable exactly while neither redeemed nor revoked. */
  ghost predicate CodeSince(s: State, c: CodeId, expires: int, over: bool) {
    Inv(s) && c in s.codes && s.codes[c].expires == expires && (s.codes[c].Usable() <==> !over)
  }

  lemma StepKeepsCode(s: State, step: Step, c: CodeId, expires: int, over: bool)
    requires CodeSince(s, c, expires, over) && CanStep(s, step)
    ensures CodeSince(Do(s, step), c, expires, over || step.CommitRevoke? || Takes(s, step, c))
  {
    StepKeepsInv(s, step);
    if step.CommitRevoke? {
      RevocationEndsAll(s, step.t);
    }
    hide Inv;
  }

  lemma {:induction false} RunKeepsCode(s: State, steps: seq<Step>, c: CodeId, expires: int, over: bool)
    requires CodeSince(s, c, expires, over) && IsRun(s, steps)
    ensures CodeSince(After(s, steps), c, expires, over || Revokes(steps) || RedeemedIn(s, steps, c))
    decreases |steps|
  {
    hide CodeSince, CanStep, Do, Takes;
    if steps != [] {
      StepKeepsCode(s, steps[0], c, expires, over);
      RunKeepsCode(Do(s, steps[0]), steps[1..], c, expires, over || steps[0].CommitRevoke? || Takes(s, steps[0], c));
      RevokesFirstOrLater(steps);
    }
  }

  lemma IssuedNow(s: State, t: TxnId, c: CodeId)
    requires Inv(s) && CanStep(s, CommitIssue(t, c))
    ensures CodeSince(Do(s, CommitIssue(t, c)), c, s.txns[t].expires, false)
  {
    StepKeepsInv(s, CommitIssue(t, c));
    hide Inv;
  }

  /** It can be redeemed, but for a redemption already at work on it. */
  predicate Redeemable(s: State, c: CodeId) {
    c in s.codes && s.codes[c].Usable() && s.now < s.codes[c].expires
  }

  /**
    A code can be redeemed for an hour from when its issuance began, until it is or a
    revocation commits, and never afterwards: it opens one session at most.
   */
  lemma ACodeIsUsableExactlyWhile(start: State, before: seq<Step>, t: TxnId, between: seq<Step>, c: CodeId, later: seq<Step>)
    requires Init(start) && IsRun(start, before) && CanStep(After(start, before), BeginIssue(t))
    requires var begun := Do(After(start, before), BeginIssue(t));
             && IsRun(begun, between) && NeverSteps(between, t) && CanStep(After(begun, between), CommitIssue(t, c))
             && IsRun(Do(After(begun, between), CommitIssue(t, c)), later)
    ensures var begun := Do(After(start, before), BeginIssue(t));
            var issued := Do(After(begun, between), CommitIssue(t, c));
            var s := After(issued, later);
            Redeemable(s, c) <==> s.now < begun.now + 60 * 60 * 1000 && !Revokes(later) && !RedeemedIn(issued, later, c)
  {
    InitIsOk(start);
    RunKeepsInv(start, before);
    var asked := After(start, before);
    StepKeepsInv(asked, BeginIssue(t));
    var begun := Do(asked, BeginIssue(t));
    assert begun.txns[t] == Issuing(begun.now + CODE_LIFETIME);
    RunKeepsInv(begun, between);
    RunLeavesIt(begun, between, t);
    var s := After(begun, between);
    IssuedNow(s, t, c);
    hide Inv, CanStep, Do, IsRun, After, RedeemedIn;
    RunKeepsCode(Do(s, CommitIssue(t, c)), later, c, begun.now + CODE_LIFETIME, false);
  }

  /** And whoever finds its row free redeems it then. */
  lemma RedeemableIsRedeemed(s: State, t: TxnId, c: CodeId)
    requires t !in s.txns && c !in s.codeRows
    ensures CanStep(s, Redeem(t, c)) <==> Redeemable(s, c)
  {
  }

  /** A request that fails or stops leaves codes and sessions as they were, and holds no row any more. */
  lemma AnAbortLeavesNothing(s: State, t: TxnId)
    requires Inv(s) && t in s.txns
    ensures var s' := Do(s, Abort(t));
            && s'.codes == s.codes && s'.sessions == s.sessions && t !in s'.txns
            && s'.operatorRow != Some(t) && (forall c | c in s'.codeRows :: s'.codeRows[c] != t)
            && (forall c | c in s.codeRows && s.codeRows[c] != t :: c in s'.codeRows && s'.codeRows[c] == s.codeRows[c])
  {
  }
}
