/**
  Admissions decided at a gate, matched with the ledger's outcomes: which are
  flagged, and why. Whatever the copy reads meanwhile, a flag says no more than
  the copy said when the matching began.
 */
module AdmissionFlags {
  import opened Common
  import opened LedgerFacts
  import opened DerivedReader
  import DerivedRows

  type ReportId = nat
  type Organiser = nat
  type Gate = nat

  const GATE_CLOCK_TOLERANCE := 10000

  datatype ErrorCode = PassReplayed | InvalidPass | PassExpired | OtherError

  /** How an admission ended: refused at the gate, or submitted to the ledger. */
  datatype Verdict = RefusedAtGate | AdmittedSettled | AdmittedRejected(code: ErrorCode) | AdmittedFailed {
    predicate Admits() {
      !RefusedAtGate?
    }
  }

  datatype Report = Report(id: ReportId, organiser: Organiser, event: EventId, gate: Gate, ticket: TicketId, pass: PassId,
                           holder: Option<Account>, presentedAt: int, deviceClock: int, receivedAt: int, verdict: Verdict)

  datatype Cause = GateClockOutside | SamePassAtTwoGates | TransferBeforeRecording | NotRecorded | Unexplained

  datatype TransferRead = TransferRead(sequence: nat, row: TransferRow)

  datatype Flag = Flag(report: ReportId, refusal: Option<ErrorCode>, cause: Cause, clockDrift: int, deadline: Option<int>,
                       others: seq<Report>, transfers: seq<TransferRead>)

  datatype Limits = Limits(maxPassWindow: nat, maxRecordingLag: nat)

  /** The copy's position: how many records it reflects, and when the last was recorded. */
  datatype Freshness = Freshness(records: nat, lastRecordedAt: Option<int>)

  function FreshnessAt(log: seq<Record>, n: nat): Freshness
    requires n <= |log|
  {
    Freshness(n, if n == 0 then None else Some(log[n - 1].recordedAt))
  }

  // ----- Queries of the copy, however far it has read by then -----

  predicate Consumed(f: Facts, ticket: TicketId, pass: PassId, before: nat) {
    (ticket, pass) in f.passes && f.passes[(ticket, pass)].sequence < before
  }

  /** The ticket's transfers recorded since a time, in log order, among the first `n` records. */
  function TransfersSince(transfers: map<nat, TransferRow>, ticket: TicketId, since: int, n: nat): seq<TransferRead> {
    if n == 0 then []
    else
      TransfersSince(transfers, ticket, since, n - 1)
      + if n - 1 in transfers && transfers[n - 1].ticket == ticket && since <= transfers[n - 1].recordedAt
        then [TransferRead(n - 1, transfers[n - 1])] else []
  }

  function AwayFrom(answers: seq<TransferRead>, holder: Account, before: nat): seq<TransferRead> {
    if answers == [] then []
    else (if answers[0].sequence < before && answers[0].row.from == holder then [answers[0]] else [])
         + AwayFrom(answers[1..], holder, before)
  }

  // ----- The flag of one report, from one copy -----

  function Abs(x: int): int {
    if x < 0 then -x else x
  }

  predicate ClockOutside(r: Report) {
    Abs(r.deviceClock - r.receivedAt) > GATE_CLOCK_TOLERANCE
  }

  function Deadline(limits: Limits, r: Report): int {
    r.presentedAt + limits.maxPassWindow + limits.maxRecordingLag
  }

  /** A failed submission whose pass can no longer be recorded, and was not. */
  predicate Overdue(f: Facts, seen: Freshness, limits: Limits, r: Report) {
    && r.verdict.AdmittedFailed? && !Consumed(f, r.ticket, r.pass, seen.records)
    && seen.lastRecordedAt.Some? && seen.lastRecordedAt.value > Deadline(limits, r)
  }

  function OthersOf(own: seq<Report>, r: Report): seq<Report> {
    if own == [] then []
    else (if own[0].pass == r.pass && own[0].id != r.id then [own[0]] else []) + OthersOf(own[1..], r)
  }

  predicate AnyAdmits(others: seq<Report>) {
    exists i | 0 <= i < |others| :: others[i].verdict.Admits()
  }

  function TransfersAway(f: Facts, seen: Freshness, r: Report): seq<TransferRead>
    requires r.holder.Some?
  {
    AwayFrom(TransfersSince(f.transfers, r.ticket, r.presentedAt - GATE_CLOCK_TOLERANCE, seen.records), r.holder.value,
             seen.records)
  }

  function FlagOf(f: Facts, seen: Freshness, limits: Limits, own: seq<Report>, r: Report): Option<Flag> {
    var refusal := if r.verdict.AdmittedRejected? then Some(r.verdict.code) else None;
    var overdue := Overdue(f, seen, limits, r);
    if refusal.None? && !ClockOutside(r) && !overdue then None
    else
      var others := OthersOf(own, r);
      var looked := !overdue && refusal == Some(InvalidPass) && r.holder.Some?;
      var transfers := if looked then TransfersAway(f, seen, r) else [];
      var cause :=
        if overdue then NotRecorded
        else if refusal.None? then GateClockOutside
        else if refusal == Some(PassReplayed) && AnyAdmits(others) then SamePassAtTwoGates
        else if looked then (if transfers != [] then TransferBeforeRecording else Unexplained)
        else if refusal == Some(PassExpired) && ClockOutside(r) then GateClockOutside
        else Unexplained;
      Some(Flag(r.id, refusal, cause, r.deviceClock - r.receivedAt, if overdue then Some(Deadline(limits, r)) else None,
                others, transfers))
  }

  function FlagsOf(f: Facts, seen: Freshness, limits: Limits, own: seq<Report>, k: nat): seq<Flag>
    requires k <= |own|
  {
    if k == 0 then []
    else
      var flag := FlagOf(f, seen, limits, own, own[k - 1]);
      FlagsOf(f, seen, limits, own, k - 1) + if flag.Some? then [flag.value] else []
  }

  // ----- A later copy answers the same about the records before a position -----

  lemma {:induction false} LaterCopyAgrees(o: Outside, log: seq<Record>, n: nat, m: nat)
    requires n <= m <= |log| && CopyOf(o, log, m).Some?
    ensures CopyOf(o, log, n).Some?
    ensures AgreeBefore(CopyOf(o, log, n).value.facts, CopyOf(o, log, m).value.facts, n)
  {
    hide Applied, AgreeBefore, AddsAt;
    if n < m {
      LaterCopyAgrees(o, log, n, m - 1);
      CopyPosition(o, log, m - 1);
      var copy := CopyOf(o, log, m - 1).value;
      AppliedAddsAtItsPlace(o, copy.facts, copy.next, log[m - 1]);
      AgreeingThenAdding(CopyOf(o, log, n).value.facts, copy.facts, CopyOf(o, log, m).value.facts, n, copy.next);
    } else {
      AgreesWithItself(CopyOf(o, log, n).value.facts, n);
    }
  }

  /** Transfers before a position and passes are the same, but for passes recorded from the position on. */
  ghost predicate AgreeBefore(early: Facts, late: Facts, n: nat) {
    && (forall k: nat | k < n :: k in late.transfers <==> k in early.transfers)
    && (forall k: nat | k < n && k in early.transfers :: late.transfers[k] == early.transfers[k])
    && (forall p | p in early.passes :: p in late.passes && late.passes[p] == early.passes[p])
    && (forall p | p in late.passes && p !in early.passes :: n <= late.passes[p].sequence)
  }

  lemma AgreesWithItself(f: Facts, n: nat)
    ensures AgreeBefore(f, f, n)
  {
  }

  lemma AgreeingThenAdding(early: Facts, f: Facts, f': Facts, n: nat, at: nat)
    requires AgreeBefore(early, f, n) && AddsAt(f, f', at) && n <= at
    ensures AgreeBefore(early, f', n)
  {
  }

  /** The record with sequence `n` adds only rows with that sequence. */
  ghost predicate AddsAt(f: Facts, f': Facts, n: nat) {
    && (forall k | k != n :: k in f'.transfers <==> k in f.transfers)
    && (forall k | k != n && k in f.transfers :: f'.transfers[k] == f.transfers[k])
    && (forall p | p in f.passes :: p in f'.passes && f'.passes[p] == f.passes[p])
    && (forall p | p in f'.passes && p !in f.passes :: f'.passes[p].sequence == n)
  }

  lemma AttendedAddsAtItsPlace(f: Facts, n: nat, r: Record, pass: Pass)
    requires Attended(f, n, r, pass).Some?
    ensures AddsAt(f, Attended(f, n, r, pass).value, n)
  {
  }

  lemma TransferredAddsAtItsPlace(f: Facts, n: nat, at: int, c: Command)
    requires c.TransferTicket? && Transferred(f, n, at, c).Some?
    ensures AddsAt(f, Transferred(f, n, at, c).value, n)
  {
  }

  lemma OthersAddNothing(o: Outside, f: Facts, n: nat, at: int, c: Command)
    requires !c.TransferTicket? && Commanded(o, f, n, at, c).Some?
    ensures var f' := Commanded(o, f, n, at, c).value; f'.transfers == f.transfers && f'.passes == f.passes
  {
    hide WithoutZone;
  }

  lemma AppliedAddsAtItsPlace(o: Outside, f: Facts, n: nat, r: Record)
    requires Applied(o, f, n, r).Some?
    ensures AddsAt(f, Applied(o, f, n, r).value, n)
  {
    hide Attended, Transferred;
    match r.entry {
      case OfPass(pass) => AttendedAddsAtItsPlace(f, n, r, pass);
      case OfCommand(c) =>
        if c.TransferTicket? {
          TransferredAddsAtItsPlace(f, n, r.recordedAt, c);
        } else {
          OthersAddNothing(o, f, n, r.recordedAt, c);
          hide Commanded;
        }
      case OtherEntry =>
    }
  }

  /** Every consumed pass of a copy is of a record before its position. */
  lemma {:induction false} ConsumedBefore(o: Outside, log: seq<Record>, n: nat)
    requires n <= |log| && CopyOf(o, log, n).Some?
    ensures forall p | p in CopyOf(o, log, n).value.facts.passes :: CopyOf(o, log, n).value.facts.passes[p].sequence < n
  {
    if n > 0 {
      ConsumedBefore(o, log, n - 1);
      CopyPosition(o, log, n - 1);
      var copy := CopyOf(o, log, n - 1).value;
      AppliedAddsAtItsPlace(o, copy.facts, copy.next, log[n - 1]);
      hide Applied;
    }
  }

  lemma {:induction false} TransfersAgree(early: map<nat, TransferRow>, late: map<nat, TransferRow>, ticket: TicketId, since: int,
                                         n: nat)
    requires forall k: nat | k < n :: k in late <==> k in early
    requires forall k: nat | k < n && k in early :: late[k] == early[k]
    ensures TransfersSince(late, ticket, since, n) == TransfersSince(early, ticket, since, n)
  {
    if n > 0 {
      TransfersAgree(early, late, ticket, since, n - 1);
    }
  }

  lemma {:induction false} AwaySplits(a: seq<TransferRead>, b: seq<TransferRead>, holder: Account, n: nat)
    ensures AwayFrom(a + b, holder, n) == AwayFrom(a, holder, n) + AwayFrom(b, holder, n)
  {
    if a == [] {
      assert a + b == b;
    } else {
      assert (a + b)[1..] == a[1..] + b;
      AwaySplits(a[1..], b, holder, n);
    }
  }

  /** What is read of a later copy, kept only before the position, is what an earlier copy says. */
  lemma {:induction false} ReadAndKept(late: map<nat, TransferRow>, ticket: TicketId, since: int, holder: Account, n: nat, m: nat)
    requires n <= m
    ensures AwayFrom(TransfersSince(late, ticket, since, m), holder, n) == AwayFrom(TransfersSince(late, ticket, since, n), holder, n)
  {
    if n < m {
      ReadAndKept(late, ticket, since, holder, n, m - 1);
      var more := if m - 1 in late && late[m - 1].ticket == ticket && since <= late[m - 1].recordedAt
                  then [TransferRead(m - 1, late[m - 1])] else [];
      AwaySplits(TransfersSince(late, ticket, since, m - 1), more, holder, n);
      NoneKept(more, holder, n);
      hide AwayFrom;
    }
  }

  lemma NoneKept(more: seq<TransferRead>, holder: Account, n: nat)
    requires |more| <= 1 && forall i | 0 <= i < |more| :: n <= more[i].sequence
    ensures AwayFrom(more, holder, n) == []
  {
    if more != [] {
      assert more[1..] == [];
    }
  }

  lemma LaterReadsAgree(o: Outside, log: seq<Record>, n: nat, m: nat, r: Report)
    requires n <= m <= |log| && CopyOf(o, log, m).Some?
    ensures CopyOf(o, log, n).Some?
    ensures var early, late := CopyOf(o, log, n).value.facts, CopyOf(o, log, m).value.facts;
            && Consumed(late, r.ticket, r.pass, n) == Consumed(early, r.ticket, r.pass, n)
            && (r.holder.Some? ==>
                  AwayFrom(TransfersSince(late.transfers, r.ticket, r.presentedAt - GATE_CLOCK_TOLERANCE, m), r.holder.value, n)
                  == TransfersAway(early, FreshnessAt(log, n), r))
  {
    hide CopyOf, TransfersSince, AwayFrom, AgreeBefore, Consumed;
    LaterCopyAgrees(o, log, n, m);
    ConsumedBefore(o, log, n);
    var early, late := CopyOf(o, log, n).value.facts, CopyOf(o, log, m).value.facts;
    ConsumedAgrees(early, late, n, r);
    if r.holder.Some? {
      AwayAgrees(early, late, n, m, r.ticket, r.presentedAt - GATE_CLOCK_TOLERANCE, r.holder.value);
    }
  }

  lemma ConsumedAgrees(early: Facts, late: Facts, n: nat, r: Report)
    requires AgreeBefore(early, late, n) && forall p | p in early.passes :: early.passes[p].sequence < n
    ensures Consumed(late, r.ticket, r.pass, n) == Consumed(early, r.ticket, r.pass, n)
  {
  }

  lemma AwayAgrees(early: Facts, late: Facts, n: nat, m: nat, ticket: TicketId, since: int, holder: Account)
    requires AgreeBefore(early, late, n) && n <= m
    ensures AwayFrom(TransfersSince(late.transfers, ticket, since, m), holder, n)
            == AwayFrom(TransfersSince(early.transfers, ticket, since, n), holder, n)
  {
    hide TransfersSince, AwayFrom;
    TransfersAgree(early.transfers, late.transfers, ticket, since, n);
    ReadAndKept(late.transfers, ticket, since, holder, n, m);
  }

  // ----- The matching, as it runs -----

  /** Every report of the event, in the order received. */
  function ReportsOf(stored: seq<Report>, event: EventId): seq<Report> {
    if stored == [] then []
    else (if stored[0].event == event then [stored[0]] else []) + ReportsOf(stored[1..], event)
  }

  function After(reports: seq<Report>, after: nat): seq<Report> {
    if reports == [] then [] else (if reports[0].id > after then [reports[0]] else []) + After(reports[1..], after)
  }

  /** Reports are numbered in the order received, from 1. */
  ghost predicate Numbered(reports: seq<Report>) {
    && (forall i | 0 <= i < |reports| :: reports[i].id > 0)
    && (forall i, j | 0 <= i < j < |reports| :: reports[i].id < reports[j].id)
  }

  /** A report before numbered ones, each of them a later one's. */
  lemma NumberedAfterFirst(reports: seq<Report>, kept: seq<Report>)
    requires reports != [] && Numbered(reports) && Numbered(kept)
    requires forall r: Report | r in kept :: r in reports[1..]
    ensures Numbered([reports[0]] + kept)
  {
    forall i | 0 <= i < |kept| ensures reports[0].id < kept[i].id {
      assert kept[i] in kept;
      var k :| 0 <= k < |reports[1..]| && reports[1..][k] == kept[i];
      assert reports[k + 1] == kept[i];
    }
  }

  lemma RestIsNumbered(reports: seq<Report>)
    requires reports != [] && Numbered(reports)
    ensures Numbered(reports[1..]) && forall r: Report :: r in reports <==> r == reports[0] || r in reports[1..]
  {
    assert forall j | 0 <= j < |reports[1..]| :: reports[1..][j] == reports[j + 1];
    assert reports == [reports[0]] + reports[1..];
  }

  lemma {:induction false} FilteredIsStored(stored: seq<Report>, event: EventId, r: Report)
    ensures r in ReportsOf(stored, event) <==> r in stored && r.event == event
  {
    if stored != [] {
      FilteredIsStored(stored[1..], event, r);
      assert stored == [stored[0]] + stored[1..];
    }
  }

  lemma {:induction false} FilteringKeepsNumbered(stored: seq<Report>, event: EventId)
    requires Numbered(stored)
    ensures Numbered(ReportsOf(stored, event))
  {
    if stored != [] {
      RestIsNumbered(stored);
      FilteringKeepsNumbered(stored[1..], event);
      var rest := ReportsOf(stored[1..], event);
      if stored[0].event == event {
        forall r: Report | r in rest ensures r in stored[1..] {
          FilteredIsStored(stored[1..], event, r);
        }
        hide ReportsOf;
        NumberedAfterFirst(stored, rest);
      }
    }
  }

  lemma {:induction false} AfterIsSuffix(reports: seq<Report>, i: nat, after: nat)
    requires Numbered(reports) && i <= |reports|
    requires forall j | 0 <= j < |reports| :: reports[j].id > after <==> j >= i
    ensures After(reports, after) == reports[i..]
  {
    if reports != [] {
      var rest := reports[1..];
      assert forall j | 0 <= j < |rest| :: rest[j] == reports[j + 1];
      AfterIsSuffix(rest, if i == 0 then 0 else i - 1, after);
      if i == 0 {
        assert reports[0..] == [reports[0]] + rest;
      } else {
        assert rest[i - 1..] == reports[i..];
      }
    }
  }

  /** What comes after the first `i` reports. */
  lemma AfterLast(reports: seq<Report>, i: nat)
    requires Numbered(reports) && 0 < i <= |reports|
    ensures After(reports, reports[i - 1].id) == reports[i..]
  {
    AfterIsSuffix(reports, i, reports[i - 1].id);
  }

  function Next(page: seq<Report>, after: nat): nat {
    if page == [] then after else page[|page| - 1].id
  }

  /** The store's answer to one page's query: at most `limit` of the event's reports after one. */
  function PageOf(reports: seq<Report>, after: nat, limit: nat): seq<Report> {
    var beyond := After(reports, after);
    if |beyond| <= limit then beyond else beyond[..limit]
  }

  lemma {:induction false} AfterIsSomeSuffix(reports: seq<Report>, after: nat) returns (k: nat)
    requires Numbered(reports)
    ensures k <= |reports| && forall j | 0 <= j < |reports| :: reports[j].id > after <==> j >= k
  {
    k := 0;
    while k < |reports| && reports[k].id <= after
      invariant k <= |reports| && forall j | 0 <= j < k :: reports[j].id <= after
    {
      k := k + 1;
    }
  }

  /** A page, and what comes after it, are what came after the page before. */
  lemma PageThenRest(wanted: seq<Report>, after: nat, limit: nat)
    requires Numbered(wanted) && limit >= 1
    ensures var page := PageOf(wanted, after, limit);
            && After(wanted, after) == page + After(wanted, Next(page, after))
            && (page == [] ==> After(wanted, after) == [])
  {
    var k := AfterIsSomeSuffix(wanted, after);
    AfterIsSuffix(wanted, k, after);
    hide After, Numbered;
    var page := PageOf(wanted, after, limit);
    if page != [] {
      assert page == wanted[k..k + |page|];
      AfterLast(wanted, k + |page|);
    }
  }

  /** Paging through an event's reports gathers every one, whatever the page size. */
  method ReportsFor(stored: seq<Report>, event: EventId, limit: nat) returns (all: seq<Report>)
    requires limit >= 1 && Numbered(stored)
    ensures all == ReportsOf(stored, event)
  {
    var wanted := ReportsOf(stored, event);
    FilteringKeepsNumbered(stored, event);
    AfterIsSuffix(wanted, 0, 0);
    hide After, ReportsOf, PageOf, Next, Numbered;
    var after: nat;
    all, after := [], 0;
    while true
      invariant all + After(wanted, after) == wanted
      decreases |After(wanted, after)|
    {
      var page := PageOf(wanted, after, limit);
      PageIsNext(all, wanted, after, limit);
      if page == [] {
        return;
      }
      all := all + page;
      after := Next(page, after);
    }
  }

  /** Reading one more page goes on where the pages before it ended, until nothing is left. */
  lemma PageIsNext(all: seq<Report>, wanted: seq<Report>, after: nat, limit: nat)
    requires Numbered(wanted) && limit >= 1 && all + After(wanted, after) == wanted
    ensures var page := PageOf(wanted, after, limit);
            if page == [] then all == wanted
            else && (all + page) + After(wanted, Next(page, after)) == wanted
                 && |After(wanted, Next(page, after))| < |After(wanted, after)|
  {
    PageThenRest(wanted, after, limit);
    hide After, PageOf, Next, Numbered;
    var page := PageOf(wanted, after, limit);
    assert all + (page + After(wanted, Next(page, after))) == (all + page) + After(wanted, Next(page, after));
    if page == [] {
      assert all + [] == all;
    }
  }

  function OwnOf(reports: seq<Report>, organiser: Organiser): seq<Report> {
    if reports == [] then []
    else (if reports[0].organiser == organiser then [reports[0]] else []) + OwnOf(reports[1..], organiser)
  }

  function SamePass(own: seq<Report>, pass: PassId): seq<Report> {
    if own == [] then [] else SamePass(own[..|own| - 1], pass) + (if own[|own| - 1].pass == pass then [own[|own| - 1]] else [])
  }

  method Own(reports: seq<Report>, organiser: Organiser) returns (own: seq<Report>)
    ensures own == OwnOf(reports, organiser)
  {
    own := [];
    var i := |reports|;
    while i > 0
      invariant 0 <= i <= |reports| && own == OwnOf(reports[i..], organiser)
    {
      i := i - 1;
      assert reports[i..][1..] == reports[i + 1..];
      if reports[i].organiser == organiser {
        own := [reports[i]] + own;
      }
    }
  }

  /** The organiser's reports by pass, in order. */
  method GroupByPass(own: seq<Report>) returns (byPass: map<PassId, seq<Report>>)
    ensures forall pass: PassId :: SamePass(own, pass) == if pass in byPass then byPass[pass] else []
  {
    byPass := map[];
    var i := 0;
    while i < |own|
      invariant 0 <= i <= |own|
      invariant forall pass: PassId :: SamePass(own[..i], pass) == if pass in byPass then byPass[pass] else []
    {
      var pass := own[i].pass;
      assert own[..i + 1][..i] == own[..i];
      byPass := byPass[pass := (if pass in byPass then byPass[pass] else []) + [own[i]]];
      i := i + 1;
    }
    assert own[..i] == own;
  }

  /** The others of a group. */
  method Others(group: seq<Report>, r: Report) returns (others: seq<Report>)
    ensures others == OthersOf(group, r)
    requires forall i | 0 <= i < |group| :: group[i].pass == r.pass
  {
    others := [];
    var i := |group|;
    while i > 0
      invariant 0 <= i <= |group| && others == OthersOf(group[i..], r)
    {
      i := i - 1;
      assert group[i..][1..] == group[i + 1..];
      if group[i].id != r.id {
        others := [group[i]] + others;
      }
    }
  }

  /** Looking only among the reports of the same pass finds the same others. */
  lemma {:induction false} OthersAreOfThePass(own: seq<Report>, r: Report)
    ensures OthersOf(SamePass(own, r.pass), r) == OthersOf(own, r)
    ensures forall i | 0 <= i < |SamePass(own, r.pass)| :: SamePass(own, r.pass)[i].pass == r.pass
  {
    if own != [] {
      var init, last := own[..|own| - 1], [own[|own| - 1]];
      OthersAreOfThePass(init, r);
      assert own == init + last;
      OthersSplit(init, last, r);
      OthersSplit(SamePass(init, r.pass), if last[0].pass == r.pass then last else [], r);
    }
  }

  lemma {:induction false} OthersSplit(a: seq<Report>, b: seq<Report>, r: Report)
    ensures OthersOf(a + b, r) == OthersOf(a, r) + OthersOf(b, r)
  {
    if a == [] {
      assert a + b == b;
    } else {
      assert (a + b)[1..] == a[1..] + b;
      OthersSplit(a[1..], b, r);
    }
  }

  /** One report matched, its queries answered by the copy as it is then, after `m` records. */
  method MatchOne(o: Outside, ghost log: seq<Record>, n: nat, m: nat, now: Facts, seen: Freshness, limits: Limits,
                  ghost own: seq<Report>, others: seq<Report>, r: Report) returns (flag: Option<Flag>)
    requires n <= m <= |log| && CopyOf(o, log, m).Some? && now == CopyOf(o, log, m).value.facts
    requires seen == FreshnessAt(log, n) && others == OthersOf(own, r)
    ensures CopyOf(o, log, n).Some? && flag == FlagOf(CopyOf(o, log, n).value.facts, seen, limits, own, r)
  {
    LaterReadsAgree(o, log, n, m, r);
    var errorCode := if r.verdict.AdmittedRejected? then Some(r.verdict.code) else None;
    var recordingDeadline := None;
    if r.verdict.AdmittedFailed? {
      var recorded := Consumed(now, r.ticket, r.pass, seen.records);
      if !recorded && seen.lastRecordedAt.Some? && seen.lastRecordedAt.value > Deadline(limits, r) {
        recordingDeadline := Some(Deadline(limits, r));
      }
    }
    if errorCode.None? && !ClockOutside(r) && recordingDeadline.None? {
      return None;
    }
    var transfers, cause := [], Unexplained;
    if recordingDeadline.Some? {
      cause := NotRecorded;
    } else if errorCode.None? {
      cause := GateClockOutside;
    } else if errorCode == Some(PassReplayed) && AnyAdmits(others) {
      cause := SamePassAtTwoGates;
    } else if errorCode == Some(InvalidPass) && r.holder.Some? {
      var read := TransfersSince(now.transfers, r.ticket, r.presentedAt - GATE_CLOCK_TOLERANCE, m);
      transfers := AwayFrom(read, r.holder.value, seen.records);
      cause := if |transfers| > 0 then TransferBeforeRecording else Unexplained;
    } else if errorCode == Some(PassExpired) && ClockOutside(r) {
      cause := GateClockOutside;
    }
    flag := Some(Flag(r.id, errorCode, cause, r.deviceClock - r.receivedAt, recordingDeadline, others, transfers));
  }

  // ----- What the flags say, of the reports and the log alone -----

  predicate RejectedAs(r: Report, code: ErrorCode) {
    r.verdict.AdmittedRejected? && r.verdict.code == code
  }

  predicate ClockOff(r: Report) {
    r.deviceClock > r.receivedAt + 10000 || r.deviceClock < r.receivedAt - 10000
  }

  /** Its submission had no verdict, no record before the position is of its pass, and it is past the last moment for one. */
  ghost predicate NeverRecorded(log: seq<Record>, n: nat, limits: Limits, r: Report)
    requires n <= |log|
  {
    && r.verdict.AdmittedFailed? && n > 0
    && log[n - 1].recordedAt > r.presentedAt + limits.maxPassWindow + limits.maxRecordingLag
    && forall i | 0 <= i < n :: !DerivedRows.Consumes(log[i], (r.ticket, r.pass))
  }

  /** The record transfers the ticket away from the pass's holder, no earlier than presented less the tolerance. */
  predicate LeavesHolder(log: seq<Record>, i: nat, r: Report)
    requires i < |log|
  {
    && r.holder.Some? && DerivedRows.Transfers(log[i], r.ticket)
    && DerivedRows.HolderOf(log, i, r.ticket) == r.holder.value && log[i].recordedAt >= r.presentedAt - 10000
  }

  /** Another own report is of the same pass. */
  predicate SharesPass(own: seq<Report>, r: Report, other: Report) {
    other in own && other.pass == r.pass && other.id != r.id
  }

  ghost predicate AdmittedElsewhere(own: seq<Report>, r: Report) {
    exists other :: SharesPass(own, r, other) && !other.verdict.RefusedAtGate?
  }

  ghost predicate HolderLeft(log: seq<Record>, n: nat, r: Report)
    requires n <= |log|
  {
    exists i | 0 <= i < n :: LeavesHolder(log, i, r)
  }

  ghost predicate Flagged(log: seq<Record>, n: nat, limits: Limits, r: Report)
    requires n <= |log|
  {
    r.verdict.AdmittedRejected? || ClockOff(r) || NeverRecorded(log, n, limits, r)
  }

  /** A flag's cause is decided: each cause exactly when its evidence is there. */
  ghost predicate CauseSays(log: seq<Record>, n: nat, limits: Limits, own: seq<Report>, r: Report, cause: Cause)
    requires n <= |log|
  {
    && (cause.NotRecorded? <==> NeverRecorded(log, n, limits, r))
    && (cause.SamePassAtTwoGates? <==> RejectedAs(r, PassReplayed) && AdmittedElsewhere(own, r))
    && (cause.TransferBeforeRecording? <==> RejectedAs(r, InvalidPass) && HolderLeft(log, n, r))
    && (cause.GateClockOutside? <==>
          ClockOff(r) && (RejectedAs(r, PassExpired)
                          || (!r.verdict.AdmittedRejected? && !NeverRecorded(log, n, limits, r))))
    && (cause.Unexplained? <==>
          || RejectedAs(r, OtherError) || (RejectedAs(r, PassExpired) && !ClockOff(r))
          || (RejectedAs(r, PassReplayed) && !AdmittedElsewhere(own, r))
          || (RejectedAs(r, InvalidPass) && !HolderLeft(log, n, r)))
  }

  /** The transfers a flag lists are the records that left the holder, in order. */
  ghost predicate TransfersSay(log: seq<Record>, n: nat, r: Report, listed: seq<TransferRead>)
    requires n <= |log|
  {
    && (forall i, j | 0 <= i < j < |listed| :: listed[i].sequence < listed[j].sequence)
    && (forall x: TransferRead :: x in listed <==>
          && RejectedAs(r, InvalidPass) && x.sequence < n && LeavesHolder(log, x.sequence, r)
          && var c := log[x.sequence].entry.command;
          x.row == TransferRow(c.event, r.ticket, r.holder.value, c.receiver, log[x.sequence].recordedAt))
  }

  ghost predicate FlagSays(log: seq<Record>, n: nat, limits: Limits, own: seq<Report>, r: Report, flag: Flag)
    requires n <= |log|
  {
    && flag.report == r.id && flag.clockDrift == r.deviceClock - r.receivedAt
    && flag.refusal == (if r.verdict.AdmittedRejected? then Some(r.verdict.code) else None)
    && flag.deadline == (if NeverRecorded(log, n, limits, r)
                         then Some(r.presentedAt + limits.maxPassWindow + limits.maxRecordingLag) else None)
    && CauseSays(log, n, limits, own, r, flag.cause)
    && Numbered(flag.others) && (forall other: Report :: other in flag.others <==> SharesPass(own, r, other))
    && TransfersSay(log, n, r, flag.transfers)
  }

  predicate InOrder(flags: seq<Flag>) {
    forall i, j | 0 <= i < j < |flags| :: flags[i].report < flags[j].report
  }

  predicate HasFlag(flags: seq<Flag>, id: ReportId) {
    exists i | 0 <= i < |flags| :: flags[i].report == id
  }

  /** It is the flag of one of the first `k` reports. */
  ghost predicate IsFlag(log: seq<Record>, n: nat, limits: Limits, own: seq<Report>, k: nat, flag: Flag)
    requires n <= |log| && k <= |own|
  {
    exists i | 0 <= i < k :: Flagged(log, n, limits, own[i]) && FlagSays(log, n, limits, own, own[i], flag)
  }

  /** Exactly those of the first `k` reports that are to be flagged are, in order, each once. */
  ghost predicate FlagsSay(log: seq<Record>, n: nat, limits: Limits, own: seq<Report>, k: nat, flags: seq<Flag>)
    requires n <= |log| && k <= |own|
  {
    && InOrder(flags)
    && (forall i | 0 <= i < |flags| :: IsFlag(log, n, limits, own, k, flags[i]))
    && (forall i | 0 <= i < k && Flagged(log, n, limits, own[i]) :: HasFlag(flags, own[i].id))
  }

  lemma OverdueMeans(o: Outside, log: seq<Record>, n: nat, limits: Limits, r: Report)
    requires n <= |log| && CopyOf(o, log, n).Some?
    ensures Overdue(CopyOf(o, log, n).value.facts, FreshnessAt(log, n), limits, r) <==> NeverRecorded(log, n, limits, r)
  {
    DerivedRows.CopySaysTheLog(o, log, n);
    assert DerivedRows.PassSays(log, n, CopyOf(o, log, n).value.facts, (r.ticket, r.pass));
    hide CopyOf, DerivedRows.RowsSay;
  }

  lemma {:induction false} TransfersSinceAre(transfers: map<nat, TransferRow>, ticket: TicketId, since: int, n: nat)
    ensures var listed := TransfersSince(transfers, ticket, since, n);
            && (forall i, j | 0 <= i < j < |listed| :: listed[i].sequence < listed[j].sequence)
            && (forall x: TransferRead :: x in listed <==>
                  && x.sequence < n && x.sequence in transfers && x.row == transfers[x.sequence]
                  && x.row.ticket == ticket && since <= x.row.recordedAt)
  {
    if n > 0 {
      TransfersSinceAre(transfers, ticket, since, n - 1);
      var before := TransfersSince(transfers, ticket, since, n - 1);
      forall i | 0 <= i < |before| ensures before[i].sequence < n - 1 {
        assert before[i] in before;
      }
    }
  }

  lemma {:induction false} AwayFromAre(answers: seq<TransferRead>, holder: Account, before: nat)
    requires forall i, j | 0 <= i < j < |answers| :: answers[i].sequence < answers[j].sequence
    ensures var kept := AwayFrom(answers, holder, before);
            && (forall i, j | 0 <= i < j < |kept| :: kept[i].sequence < kept[j].sequence)
            && (forall x: TransferRead :: x in kept <==> x in answers && x.sequence < before && x.row.from == holder)
  {
    if answers != [] {
      AwayFromAre(answers[1..], holder, before);
      var kept := AwayFrom(answers[1..], holder, before);
      forall i | 0 <= i < |kept| ensures answers[0].sequence < kept[i].sequence {
        assert kept[i] in answers[1..];
        var k :| 0 <= k < |answers[1..]| && answers[1..][k] == kept[i];
        assert answers[k + 1] == kept[i];
      }
      assert answers == [answers[0]] + answers[1..];
    }
  }

  /** The row read is the log's record that takes the ticket away from the report's holder. */
  predicate ReadsLeaving(log: seq<Record>, n: nat, r: Report, x: TransferRead)
    requires n <= |log|
  {
    && x.sequence < n && LeavesHolder(log, x.sequence, r)
    && var c := log[x.sequence].entry.command;
       x.row == TransferRow(c.event, r.ticket, r.holder.value, c.receiver, log[x.sequence].recordedAt)
  }

  predicate RowReadsLeaving(f: Facts, n: nat, r: Report, x: TransferRead)
    requires r.holder.Some?
  {
    && x.sequence < n && x.sequence in f.transfers && x.row == f.transfers[x.sequence]
    && x.row.ticket == r.ticket && r.presentedAt - GATE_CLOCK_TOLERANCE <= x.row.recordedAt
    && x.row.from == r.holder.value
  }

  lemma RowsAwayAre(f: Facts, seen: Freshness, r: Report)
    requires r.holder.Some?
    ensures var listed := TransfersAway(f, seen, r);
            && (forall i, j | 0 <= i < j < |listed| :: listed[i].sequence < listed[j].sequence)
            && (forall x: TransferRead :: x in listed <==> RowReadsLeaving(f, seen.records, r, x))
  {
    var since := r.presentedAt - GATE_CLOCK_TOLERANCE;
    TransfersSinceAre(f.transfers, r.ticket, since, seen.records);
    AwayFromAre(TransfersSince(f.transfers, r.ticket, since, seen.records), r.holder.value, seen.records);
    hide TransfersSince, AwayFrom;
  }

  lemma RowLeaves(log: seq<Record>, n: nat, f: Facts, r: Report, x: TransferRead)
    requires n <= |log| && r.holder.Some? && DerivedRows.TransferSays(log, n, f, x.sequence)
    ensures ReadsLeaving(log, n, r, x) <==> RowReadsLeaving(f, n, r, x)
  {
    hide DerivedRows.HolderOf;
  }

  /** The transfers read of a copy are the log's. */
  lemma TransfersAwayAre(o: Outside, log: seq<Record>, n: nat, r: Report)
    requires n <= |log| && CopyOf(o, log, n).Some? && r.holder.Some?
    ensures var listed := TransfersAway(CopyOf(o, log, n).value.facts, FreshnessAt(log, n), r);
            && (forall i, j | 0 <= i < j < |listed| :: listed[i].sequence < listed[j].sequence)
            && (forall x: TransferRead :: x in listed <==> ReadsLeaving(log, n, r, x))
  {
    var f := CopyOf(o, log, n).value.facts;
    DerivedRows.CopySaysTheLog(o, log, n);
    hide CopyOf, TransfersAway, ReadsLeaving, RowReadsLeaving, DerivedRows.TransferSays;
    RowsAwayAre(f, FreshnessAt(log, n), r);
    var listed := TransfersAway(f, FreshnessAt(log, n), r);
    forall x: TransferRead
      ensures x in listed <==> ReadsLeaving(log, n, r, x)
    {
      RowLeaves(log, n, f, r, x);
    }
  }

  lemma {:induction false} OthersOfAre(own: seq<Report>, r: Report)
    requires Numbered(own)
    ensures Numbered(OthersOf(own, r))
    ensures forall other: Report :: other in OthersOf(own, r) <==> SharesPass(own, r, other)
  {
    if own == [] {
    } else {
      RestIsNumbered(own);
      OthersOfAre(own[1..], r);
      NumberedAfterFirst(own, OthersOf(own[1..], r));
      hide Numbered;
      if own[0].pass != r.pass || own[0].id == r.id {
        assert [] + OthersOf(own[1..], r) == OthersOf(own[1..], r);
      }
    }
  }

  lemma AnyAdmitsMeans(own: seq<Report>, r: Report)
    requires Numbered(own)
    ensures AnyAdmits(OthersOf(own, r)) <==> AdmittedElsewhere(own, r)
  {
    OthersOfAre(own, r);
    hide OthersOf, SharesPass, Numbered;
    var others := OthersOf(own, r);
    if AdmittedElsewhere(own, r) {
      var other :| SharesPass(own, r, other) && !other.verdict.RefusedAtGate?;
      assert other in others;
    }
    if AnyAdmits(others) {
      var i :| 0 <= i < |others| && others[i].verdict.Admits();
      assert others[i] in others;
    }
  }

  lemma HolderLeftMeans(o: Outside, log: seq<Record>, n: nat, r: Report)
    requires n <= |log| && CopyOf(o, log, n).Some?
    ensures HolderLeft(log, n, r) <==>
              r.holder.Some? && TransfersAway(CopyOf(o, log, n).value.facts, FreshnessAt(log, n), r) != []
  {
    hide CopyOf;
    if r.holder.Some? {
      TransfersAwayAre(o, log, n, r);
      var listed := TransfersAway(CopyOf(o, log, n).value.facts, FreshnessAt(log, n), r);
      hide TransfersAway, LeavesHolder;
      if HolderLeft(log, n, r) {
        var i :| 0 <= i < n && LeavesHolder(log, i, r);
        AListedTransfer(log, i, r);
        var c := log[i].entry.command;
        assert TransferRead(i, TransferRow(c.event, r.ticket, r.holder.value, c.receiver, log[i].recordedAt)) in listed;
      }
      NonEmptyHas(listed);
    }
  }

  lemma NonEmptyHas<T>(s: seq<T>)
    ensures s != [] <==> exists x :: x in s
  {
    if s != [] {
      assert s[0] in s;
    }
  }

  lemma AListedTransfer(log: seq<Record>, i: nat, r: Report)
    requires i < |log| && LeavesHolder(log, i, r)
    ensures r.holder.Some? && log[i].entry.OfCommand? && log[i].entry.command.TransferTicket?
  {
  }

  /** The transfers listed: those away from the holder, if the pass was refused as invalid. */
  lemma ListedSay(o: Outside, log: seq<Record>, n: nat, r: Report)
    requires n <= |log| && CopyOf(o, log, n).Some?
    ensures TransfersSay(log, n, r, if RejectedAs(r, InvalidPass) && r.holder.Some?
                                    then TransfersAway(CopyOf(o, log, n).value.facts, FreshnessAt(log, n), r) else [])
  {
    hide CopyOf, TransfersAway;
    if r.holder.Some? {
      TransfersAwayAre(o, log, n, r);
    }
  }

  lemma CauseMeans(f: Facts, seen: Freshness, log: seq<Record>, n: nat, limits: Limits, own: seq<Report>, r: Report, flag: Flag)
    requires n <= |log| && FlagOf(f, seen, limits, own, r) == Some(flag)
    requires Overdue(f, seen, limits, r) <==> NeverRecorded(log, n, limits, r)
    requires AnyAdmits(OthersOf(own, r)) <==> AdmittedElsewhere(own, r)
    requires HolderLeft(log, n, r) <==> r.holder.Some? && TransfersAway(f, seen, r) != []
    requires NeverRecorded(log, n, limits, r) ==> r.verdict.AdmittedFailed?
    ensures CauseSays(log, n, limits, own, r, flag.cause)
  {
    hide Overdue, OthersOf, AnyAdmits, TransfersAway, NeverRecorded, AdmittedElsewhere, HolderLeft;
  }

  lemma NeverRecordedFailed(log: seq<Record>, n: nat, limits: Limits, r: Report)
    requires n <= |log| && NeverRecorded(log, n, limits, r)
    ensures r.verdict.AdmittedFailed?
  {
  }

  /** What a flag holds beside its cause. */
  lemma FlagHolds(f: Facts, seen: Freshness, limits: Limits, own: seq<Report>, r: Report)
    ensures FlagOf(f, seen, limits, own, r).Some? <==> r.verdict.AdmittedRejected? || ClockOff(r) || Overdue(f, seen, limits, r)
    ensures FlagOf(f, seen, limits, own, r).Some? ==>
              var flag := FlagOf(f, seen, limits, own, r).value;
              && flag.report == r.id && flag.clockDrift == r.deviceClock - r.receivedAt && flag.others == OthersOf(own, r)
              && flag.refusal == (if r.verdict.AdmittedRejected? then Some(r.verdict.code) else None)
              && flag.deadline == (if Overdue(f, seen, limits, r) then Some(Deadline(limits, r)) else None)
              && flag.transfers == (if RejectedAs(r, InvalidPass) && r.holder.Some? then TransfersAway(f, seen, r) else [])
  {
    hide OthersOf, AnyAdmits, TransfersAway, Consumed;
  }

  /** One report's flag says what the reports and the log say of it. */
  lemma FlagMeans(o: Outside, log: seq<Record>, n: nat, limits: Limits, own: seq<Report>, r: Report)
    requires n <= |log| && CopyOf(o, log, n).Some? && Numbered(own)
    ensures var flag := FlagOf(CopyOf(o, log, n).value.facts, FreshnessAt(log, n), limits, own, r);
            && (flag.Some? <==> Flagged(log, n, limits, r))
            && (flag.Some? ==> FlagSays(log, n, limits, own, r, flag.value))
  {
    OverdueMeans(o, log, n, limits, r);
    OthersOfAre(own, r);
    AnyAdmitsMeans(own, r);
    HolderLeftMeans(o, log, n, r);
    ListedSay(o, log, n, r);
    if NeverRecorded(log, n, limits, r) {
      NeverRecordedFailed(log, n, limits, r);
    }
    hide CopyOf, Overdue, OthersOf, AnyAdmits, TransfersAway, NeverRecorded, SharesPass, AdmittedElsewhere, HolderLeft, Numbered,
      TransfersSay, CauseSays, FreshnessAt, FlagOf, ClockOff, RejectedAs;
    var f, seen := CopyOf(o, log, n).value.facts, FreshnessAt(log, n);
    FlagHolds(f, seen, limits, own, r);
    var flag := FlagOf(f, seen, limits, own, r);
    if flag.Some? {
      CauseMeans(f, seen, log, n, limits, own, r, flag.value);
    }
  }

  lemma {:induction false} FlagsMean(o: Outside, log: seq<Record>, n: nat, limits: Limits, own: seq<Report>, k: nat)
    requires n <= |log| && CopyOf(o, log, n).Some? && Numbered(own) && k <= |own|
    ensures FlagsSay(log, n, limits, own, k, FlagsOf(CopyOf(o, log, n).value.facts, FreshnessAt(log, n), limits, own, k))
  {
    if k > 0 {
      FlagsMean(o, log, n, limits, own, k - 1);
      FlagMeans(o, log, n, limits, own, own[k - 1]);
      hide CopyOf, FlagsSay, FlagOf, FlagSays, Flagged, Numbered, FreshnessAt;
      var f, seen := CopyOf(o, log, n).value.facts, FreshnessAt(log, n);
      OneMoreFlag(log, n, limits, own, k - 1, k, FlagsOf(f, seen, limits, own, k - 1), FlagOf(f, seen, limits, own, own[k - 1]));
    }
  }

  lemma IsFlagOfMore(log: seq<Record>, n: nat, limits: Limits, own: seq<Report>, k: nat, m: nat, flag: Flag)
    requires n <= |log| && k <= m <= |own| && IsFlag(log, n, limits, own, k, flag)
    ensures IsFlag(log, n, limits, own, m, flag)
  {
    hide Flagged, FlagSays;
  }

  /** The flags so far are of reports before the next one. */
  lemma NextIsLater(log: seq<Record>, n: nat, limits: Limits, own: seq<Report>, k: nat, flag: Flag)
    requires n <= |log| && Numbered(own) && k < |own| && IsFlag(log, n, limits, own, k, flag)
    ensures flag.report < own[k].id
  {
    hide Flagged, CauseSays, TransfersSay, SharesPass;
  }

  lemma NewFlag(log: seq<Record>, n: nat, limits: Limits, own: seq<Report>, k: nat, m: nat, flag: Flag)
    requires n <= |log| && m == k + 1 <= |own| && Flagged(log, n, limits, own[k]) && FlagSays(log, n, limits, own, own[k], flag)
    ensures IsFlag(log, n, limits, own, m, flag) && flag.report == own[k].id
  {
    assert IsFlag(log, n, limits, own, m, flag) by {
      hide Flagged, FlagSays;
    }
    hide Flagged, CauseSays, TransfersSay, SharesPass;
  }

  lemma HasFlagStill(flags: seq<Flag>, more: seq<Flag>, id: ReportId)
    requires HasFlag(flags, id) && flags <= more
    ensures HasFlag(more, id)
  {
    var i :| 0 <= i < |flags| && flags[i].report == id;
    assert more[i].report == id;
  }

  lemma OneMoreFlag(log: seq<Record>, n: nat, limits: Limits, own: seq<Report>, k: nat, m: nat, flags: seq<Flag>, one: Option<Flag>)
    requires n <= |log| && Numbered(own) && m == k + 1 <= |own| && FlagsSay(log, n, limits, own, k, flags)
    requires (one.Some? <==> Flagged(log, n, limits, own[k])) && (one.Some? ==> FlagSays(log, n, limits, own, own[k], one.value))
    ensures FlagsSay(log, n, limits, own, m, flags + if one.Some? then [one.value] else [])
  {
    var more := flags + if one.Some? then [one.value] else [];
    if one.Some? {
      NewFlag(log, n, limits, own, k, m, one.value);
    }
    hide Flagged, FlagSays, IsFlag, HasFlag, Numbered;
    forall i | 0 <= i < |flags| ensures flags[i].report < own[k].id && IsFlag(log, n, limits, own, m, flags[i]) {
      NextIsLater(log, n, limits, own, k, flags[i]);
      IsFlagOfMore(log, n, limits, own, k, m, flags[i]);
    }
    forall i | 0 <= i < m && Flagged(log, n, limits, own[i]) ensures HasFlag(more, own[i].id) {
      if i < k {
        HasFlagStill(flags, more, own[i].id);
      } else {
        HasLast(flags, one.value);
      }
    }
  }

  lemma HasLast(flags: seq<Flag>, flag: Flag)
    ensures HasFlag(flags + [flag], flag.report)
  {
    assert (flags + [flag])[|flags|] == flag;
  }

  /** The organiser's own reports of the event, however they are gathered. */
  lemma {:induction false} OwnAre(reports: seq<Report>, organiser: Organiser)
    requires Numbered(reports)
    ensures Numbered(OwnOf(reports, organiser))
    ensures forall r: Report :: r in OwnOf(reports, organiser) <==> r in reports && r.organiser == organiser
  {
    if reports == [] {
    } else {
      RestIsNumbered(reports);
      OwnAre(reports[1..], organiser);
      NumberedAfterFirst(reports, OwnOf(reports[1..], organiser));
      hide Numbered;
      if reports[0].organiser != organiser {
        assert [] + OwnOf(reports[1..], organiser) == OwnOf(reports[1..], organiser);
      }
    }
  }

  lemma OwnReports(stored: seq<Report>, event: EventId, organiser: Organiser)
    requires Numbered(stored)
    ensures var own := OwnOf(ReportsOf(stored, event), organiser);
            Numbered(own) && forall r: Report :: r in own <==> r in stored && r.event == event && r.organiser == organiser
  {
    FilteringKeepsNumbered(stored, event);
    OwnAre(ReportsOf(stored, event), organiser);
    forall r: Report ensures r in ReportsOf(stored, event) <==> r in stored && r.event == event {
      FilteredIsStored(stored, event, r);
    }
  }

  /** Own reports matched one after another, the copy going on meanwhile. */
  method MatchOwn(o: Outside, log: seq<Record>, n: nat, readings: seq<nat>, seen: Freshness, limits: Limits, own: seq<Report>)
    returns (flags: seq<Flag>)
    requires n <= |log| && CopyOf(o, log, |log|).Some? && seen == FreshnessAt(log, n)
    requires |readings| == |own| && forall i | 0 <= i < |readings| :: n <= readings[i] <= |log|
    ensures CopyOf(o, log, n).Some?
    ensures flags == FlagsOf(CopyOf(o, log, n).value.facts, seen, limits, own, |own|)
  {
    hide CopyOf, FlagOf, OthersOf, SamePass;
    var byPass := GroupByPass(own);
    LaterCopyAgrees(o, log, n, |log|);
    flags := [];
    var i := 0;
    while i < |own|
      invariant 0 <= i <= |own| && flags == FlagsOf(CopyOf(o, log, n).value.facts, seen, limits, own, i)
    {
      var r := own[i];
      LaterCopyAgrees(o, log, readings[i], |log|);
      var now := CopyOf(o, log, readings[i]).value.facts;
      OthersAreOfThePass(own, r);
      var others := Others(if r.pass in byPass then byPass[r.pass] else [], r);
      var flag := MatchOne(o, log, n, readings[i], now, seen, limits, own, others, r);
      if flag.Some? {
        flags := flags + [flag.value];
      }
      i := i + 1;
    }
  }

  /**
    The flags of an event's reports. The copy's position is read first; while the
    reports are matched the copy goes on reading, `readings[i]` records by the i-th. The
    flags are those of the reports and the log before that first position, alone, and say
    of each own report exactly what these show.
   */
  method MatchAdmissionFlags(o: Outside, log: seq<Record>, n: nat, readings: seq<nat>, stored: seq<Report>, limit: nat,
                             limits: Limits, organiser: Organiser, event: EventId)
    returns (flags: seq<Flag>, seen: Freshness)
    requires limit >= 1 && Numbered(stored) && n <= |log| && CopyOf(o, log, |log|).Some?
    requires |readings| == |OwnOf(ReportsOf(stored, event), organiser)| && forall i | 0 <= i < |readings| :: n <= readings[i] <= |log|
    ensures seen == FreshnessAt(log, n) && CopyOf(o, log, n).Some?
    ensures var own := OwnOf(ReportsOf(stored, event), organiser);
            && flags == FlagsOf(CopyOf(o, log, n).value.facts, seen, limits, own, |own|)
            && FlagsSay(log, n, limits, own, |own|, flags)
            && (forall r: Report :: r in own <==> r in stored && r.event == event && r.organiser == organiser)
  {
    hide CopyOf, FlagsOf, OwnOf, ReportsOf, Numbered, FlagsSay;
    OwnReports(stored, event, organiser);
    seen := FreshnessAt(log, n);
    var all := ReportsFor(stored, event, limit);
    var own := Own(all, organiser);
    flags := MatchOwn(o, log, n, readings, seen, limits, own);
    FlagsMean(o, log, n, limits, own, |own|);
  }

  // ----- `not-recorded` is for good -----

  /** Records the ledger may accept: its clock never goes back, and a pass is recorded within its window and lag. */
  ghost predicate Legal(log: seq<Record>, limits: Limits) {
    && (forall i, j | 0 <= i <= j < |log| :: log[i].recordedAt <= log[j].recordedAt)
    && (forall i | 0 <= i < |log| && log[i].entry.OfPass? :: LegalPass(log[i], limits))
  }

  predicate LegalPass(r: Record, limits: Limits)
    requires r.entry.OfPass?
  {
    var pass := r.entry.pass;
    && r.presentedAt.Some? && pass.notBefore <= r.presentedAt.value <= pass.notAfter
    && pass.notAfter - pass.notBefore <= limits.maxPassWindow && r.recordedAt <= pass.notAfter + limits.maxRecordingLag
  }

  /** The record is of the pass reported: the one presented when the report says, within its window. */
  predicate RecordsPass(record: Record, r: Report) {
    && record.entry.OfPass? && record.entry.pass.ticket == r.ticket && record.entry.pass.id == r.pass
    && record.entry.pass.notBefore <= r.presentedAt <= record.entry.pass.notAfter
  }

  lemma {:induction false} RecordedIsConsumed(o: Outside, log: seq<Record>, n: nat, i: nat)
    requires i < n <= |log| && CopyOf(o, log, n).Some? && log[i].entry.OfPass?
    ensures var pass := log[i].entry.pass; Consumed(CopyOf(o, log, n).value.facts, pass.ticket, pass.id, n)
  {
    if i == n - 1 {
      CopyPosition(o, log, n - 1);
    } else {
      RecordedIsConsumed(o, log, n - 1, i);
      LaterCopyAgrees(o, log, n - 1, n);
    }
  }

  /** Once flagged as not recorded, no log that goes on from there can ever record that pass. */
  lemma NotRecordedIsForGood(o: Outside, log: seq<Record>, n: nat, limits: Limits, own: seq<Report>, r: Report, flag: Flag)
    requires n <= |log| && CopyOf(o, log, n).Some? && Legal(log, limits)
    requires FlagOf(CopyOf(o, log, n).value.facts, FreshnessAt(log, n), limits, own, r) == Some(flag)
    requires flag.cause.NotRecorded?
    ensures forall i | 0 <= i < |log| :: !RecordsPass(log[i], r)
  {
    forall i | 0 <= i < |log| ensures !RecordsPass(log[i], r) {
      NotRecordedAt(o, log, n, limits, r, i);
    }
  }

  lemma NotRecordedAt(o: Outside, log: seq<Record>, n: nat, limits: Limits, r: Report, i: nat)
    requires n <= |log| && CopyOf(o, log, n).Some? && Legal(log, limits) && i < |log|
    requires Overdue(CopyOf(o, log, n).value.facts, FreshnessAt(log, n), limits, r)
    ensures !RecordsPass(log[i], r)
  {
    if i < n {
      if log[i].entry.OfPass? {
        RecordedIsConsumed(o, log, n, i);
      }
    } else {
      assert log[n - 1].recordedAt <= log[i].recordedAt;
    }
  }

  /** Until the deadline has passed the ledger can still record it: the deadline is not a moment too early. */
  lemma UntilTheDeadlineItMayBeRecorded(o: Outside, log: seq<Record>, limits: Limits, r: Report, cursor: Cursor)
    requires CopyOf(o, log, |log|).Some? && Legal(log, limits) && r.verdict.AdmittedFailed?
    requires HasTicket(CopyOf(o, log, |log|).value.facts, r.ticket, r.event)
    requires (r.ticket, r.pass) !in CopyOf(o, log, |log|).value.facts.passes
    requires !KnowsCursor(CopyOf(o, log, |log|).value.log, cursor)
    requires !Overdue(CopyOf(o, log, |log|).value.facts, FreshnessAt(log, |log|), limits, r)
    ensures exists record :: RecordsPass(record, r) && Legal(log + [record], limits) && CopyOf(o, log + [record], |log| + 1).Some?
  {
    var pass := Pass(r.pass, r.ticket, 0, r.presentedAt, r.presentedAt + limits.maxPassWindow);
    var record := Record(cursor, Deadline(limits, r), Some(r.event), OfPass(pass), Some(r.presentedAt));
    var longer := log + [record];
    assert RecordsPass(record, r);
    CopyOfPrefix(o, log, longer, |log|);
    CopyIsGapFree(o, log, |log|);
    assert longer[|log|] == record;
    forall i, j | 0 <= i <= j < |longer| ensures longer[i].recordedAt <= longer[j].recordedAt {
      if i < |log| {
        assert log[i].recordedAt <= log[|log| - 1].recordedAt;
      }
    }
  }
}
