/** What the derived copy says of every log the ledger accepted. */
module DerivedFacts {
  import opened Common
  import opened LedgerFacts
  import opened DerivedReader
  import opened DerivedRows

  // ----- Counting -----

  function TicketsOf(f: Facts, event: EventId): set<TicketId> {
    set t | t in f.tickets && f.tickets[t].event == event
  }

  function PassesOf(f: Facts, ticket: TicketId): set<(TicketId, PassId)> {
    set p | p in f.passes && p.0 == ticket
  }

  /** An event's issued tickets are its tickets. */
  ghost predicate IssuedOk(f: Facts) {
    && (forall t | t in f.tickets :: f.tickets[t].event in f.events)
    && (forall e | e in f.events :: f.events[e].issued == |TicketsOf(f, e)|)
  }

  predicate TicketAttendance(f: Facts, t: TicketId)
    requires t in f.tickets
  {
    && f.tickets[t].attendances == |PassesOf(f, t)|
    && (t in f.attendance <==> f.tickets[t].attendances > 0)
    && (t in f.attendance ==> f.attendance[t].count == f.tickets[t].attendances && f.attendance[t].event == f.tickets[t].event)
  }

  /** A ticket's attendances, its attendance count and its consumed passes agree. */
  ghost predicate AttendancesOk(f: Facts) {
    && (forall p | p in f.passes :: p.0 in f.tickets && f.passes[p].event == f.tickets[p.0].event)
    && (forall t | t in f.attendance :: t in f.tickets)
    && (forall t | t in f.tickets :: TicketAttendance(f, t))
  }

  /** No ticket is added, moved to another event or restricted; no event's count of issued tickets changes. */
  ghost predicate SameTickets(f: Facts, f': Facts) {
    && f'.tickets.Keys == f.tickets.Keys
    && (forall t | t in f.tickets ::
          && f'.tickets[t].event == f.tickets[t].event && f'.tickets[t].terms == f.tickets[t].terms
          && (f'.tickets[t].cannotResale ==> f.tickets[t].cannotResale)
          && (f'.tickets[t].cannotTransfer ==> f.tickets[t].cannotTransfer))
    && (forall e | e in f.events :: e in f'.events && f'.events[e].issued == f.events[e].issued)
    && (forall e | e in f'.events && e !in f.events :: f'.events[e].issued == 0)
  }

  lemma CreatedKeepsTickets(o: Outside, f: Facts, n: nat, c: Command)
    requires c.CreateEvent? && Created(o, f, n, c).Some?
    ensures SameTickets(f, Created(o, f, n, c).value)
  {
  }

  lemma EventChangedKeepsTickets(f: Facts, n: nat, c: Command)
    requires c.SetEventStatus? || c.SetEventCapacity? || c.AddZone? || c.RemoveZone?
    requires EventChanged(f, n, c).Some?
    ensures SameTickets(f, EventChanged(f, n, c).value)
  {
    hide WithoutZone;
  }

  lemma TransferredKeepsTickets(f: Facts, n: nat, at: int, c: Command)
    requires c.TransferTicket? && Transferred(f, n, at, c).Some?
    ensures SameTickets(f, Transferred(f, n, at, c).value)
  {
  }

  lemma UnrestrictedKeepsTickets(f: Facts, n: nat, c: Command)
    requires c.RemoveRestriction? && Unrestricted(f, n, c).Some?
    ensures SameTickets(f, Unrestricted(f, n, c).value)
  {
  }

  lemma AttendedKeepsTickets(f: Facts, n: nat, r: Record, pass: Pass)
    requires Attended(f, n, r, pass).Some?
    ensures SameTickets(f, Attended(f, n, r, pass).value)
  {
  }

  /** Nothing but an issuance adds a ticket or raises a count of issued tickets. */
  lemma OthersKeepTickets(o: Outside, f: Facts, n: nat, r: Record)
    requires Applied(o, f, n, r).Some? && !(r.entry.OfCommand? && r.entry.command.IssueTicket?)
    ensures SameTickets(f, Applied(o, f, n, r).value)
  {
    hide Created, EventChanged, Transferred, Unrestricted, Attended;
    match r.entry {
      case OfPass(pass) => AttendedKeepsTickets(f, n, r, pass);
      case OfCommand(c) =>
        match c {
          case CreateEvent(_, _, _, _) => CreatedKeepsTickets(o, f, n, c);
          case TransferTicket(_, _, _) => TransferredKeepsTickets(f, n, r.recordedAt, c);
          case RemoveRestriction(_, _, _) => UnrestrictedKeepsTickets(f, n, c);
          case RegisterCredential(_, _) =>
          case OtherCommand =>
          case _ => EventChangedKeepsTickets(f, n, c);
        }
      case OtherEntry =>
    }
  }

  lemma IssuedCounts(f: Facts, n: nat, c: Command, e: EventId)
    requires c.IssueTicket? && IssuedTo(f, n, c).Some? && e in f.events
    ensures var f' := IssuedTo(f, n, c).value;
            |TicketsOf(f', e)| - |TicketsOf(f, e)| == f'.events[e].issued - f.events[e].issued
  {
    var f' := IssuedTo(f, n, c).value;
    if e == c.event {
      assert TicketsOf(f', e) == TicketsOf(f, e) + {c.ticket};
    } else {
      assert TicketsOf(f', e) == TicketsOf(f, e);
    }
  }

  lemma IssuedKeepsIssued(f: Facts, n: nat, c: Command)
    requires IssuedOk(f) && c.IssueTicket? && IssuedTo(f, n, c).Some?
    ensures IssuedOk(IssuedTo(f, n, c).value)
  {
    var f' := IssuedTo(f, n, c).value;
    hide TicketsOf;
    forall e | e in f'.events ensures f'.events[e].issued == |TicketsOf(f', e)| {
      IssuedCounts(f, n, c, e);
    }
  }

  lemma SameTicketsKeepsIssued(f: Facts, f': Facts)
    requires IssuedOk(f) && SameTickets(f, f')
    ensures IssuedOk(f')
  {
    forall e | e in f'.events ensures f'.events[e].issued == |TicketsOf(f', e)| {
      assert TicketsOf(f', e) == TicketsOf(f, e);
      assert e !in f.events ==> TicketsOf(f, e) == {};
    }
  }

  lemma AppliedKeepsIssued(o: Outside, f: Facts, n: nat, r: Record)
    requires IssuedOk(f) && Applied(o, f, n, r).Some?
    ensures IssuedOk(Applied(o, f, n, r).value)
  {
    hide IssuedOk, SameTickets;
    if r.entry.OfCommand? && r.entry.command.IssueTicket? {
      IssuedKeepsIssued(f, n, r.entry.command);
    } else {
      OthersKeepTickets(o, f, n, r);
      SameTicketsKeepsIssued(f, Applied(o, f, n, r).value);
    }
  }

  lemma AttendedCounts(f: Facts, n: nat, r: Record, pass: Pass, t: TicketId)
    requires AttendancesOk(f) && Attended(f, n, r, pass).Some? && t in f.tickets
    ensures TicketAttendance(Attended(f, n, r, pass).value, t)
  {
    var f' := Attended(f, n, r, pass).value;
    assert TicketAttendance(f, t);
    if t == pass.ticket {
      assert PassesOf(f', t) == PassesOf(f, t) + {(pass.ticket, pass.id)};
    } else {
      assert PassesOf(f', t) == PassesOf(f, t);
    }
  }

  lemma AttendedKeepsAttendances(f: Facts, n: nat, r: Record, pass: Pass)
    requires AttendancesOk(f) && Attended(f, n, r, pass).Some?
    ensures AttendancesOk(Attended(f, n, r, pass).value)
  {
    var f' := Attended(f, n, r, pass).value;
    hide TicketAttendance;
    forall t | t in f'.tickets ensures TicketAttendance(f', t) {
      AttendedCounts(f, n, r, pass, t);
    }
  }

  /** Attendances of tickets there before are as they were; a ticket just issued has none. */
  ghost predicate SameAttendances(f: Facts, f': Facts) {
    && f'.passes == f.passes && f'.attendance == f.attendance
    && (forall t | t in f.tickets ::
          t in f'.tickets && f'.tickets[t].attendances == f.tickets[t].attendances && f'.tickets[t].event == f.tickets[t].event)
    && (forall t | t in f'.tickets && t !in f.tickets :: f'.tickets[t].attendances == 0)
  }

  lemma CommandedLeavesAttendances(o: Outside, f: Facts, n: nat, at: int, c: Command)
    requires Commanded(o, f, n, at, c).Some?
    ensures SameAttendances(f, Commanded(o, f, n, at, c).value)
  {
    hide WithoutZone;
  }

  lemma SameAttendancesStayOk(f: Facts, f': Facts)
    requires AttendancesOk(f) && SameAttendances(f, f')
    ensures AttendancesOk(f')
  {
    forall t | t in f'.tickets ensures TicketAttendance(f', t) {
      assert PassesOf(f', t) == PassesOf(f, t);
      if t in f.tickets {
        assert TicketAttendance(f, t);
      } else {
        assert PassesOf(f, t) == {};
      }
    }
  }

  lemma CommandedKeepsAttendances(o: Outside, f: Facts, n: nat, at: int, c: Command)
    requires AttendancesOk(f) && Commanded(o, f, n, at, c).Some?
    ensures AttendancesOk(Commanded(o, f, n, at, c).value)
  {
    CommandedLeavesAttendances(o, f, n, at, c);
    hide Commanded, SameAttendances, AttendancesOk;
    SameAttendancesStayOk(f, Commanded(o, f, n, at, c).value);
  }

  ghost predicate CountsOk(f: Facts) {
    IssuedOk(f) && AttendancesOk(f)
  }

  lemma {:induction false} CopyCounts(o: Outside, log: seq<Record>, n: nat)
    requires n <= |log| && CopyOf(o, log, n).Some?
    ensures CountsOk(CopyOf(o, log, n).value.facts)
  {
    if n > 0 {
      CopyCounts(o, log, n - 1);
      var copy, r := CopyOf(o, log, n - 1).value, log[n - 1];
      hide IssuedOk, AttendancesOk;
      AppliedKeepsIssued(o, copy.facts, copy.next, r);
      match r.entry {
        case OfCommand(c) => CommandedKeepsAttendances(o, copy.facts, copy.next, r.recordedAt, c);
        case OfPass(pass) => AttendedKeepsAttendances(copy.facts, copy.next, r, pass);
        case OtherEntry =>
      }
    } else {
      assert TicketsOf(EMPTY, 0) == {};
    }
  }

  // ----- Transfers -----

  /** Who the ticket was issued to, by the first `n` records. */
  function IssuedHolder(log: seq<Record>, n: nat, t: TicketId): Option<Account>
    requires n <= |log|
  {
    if n == 0 then None
    else if Issues(log[n - 1], t) then Some(log[n - 1].entry.command.holder)
    else IssuedHolder(log, n - 1, t)
  }

  /** Who the transfers before `k` leave the ticket with, starting from its issued holder. */
  function HolderBefore(transfers: map<nat, TransferRow>, t: TicketId, issued: Account, k: nat): Account {
    if k == 0 then issued
    else if k - 1 in transfers && transfers[k - 1].ticket == t then transfers[k - 1].to
    else HolderBefore(transfers, t, issued, k - 1)
  }

  /** Each transfer of the ticket leaves the account the one before it reached. */
  predicate Chained(transfers: map<nat, TransferRow>, t: TicketId, issued: Account) {
    forall k | k in transfers && transfers[k].ticket == t :: transfers[k].from == HolderBefore(transfers, t, issued, k)
  }

  ghost predicate TransfersOk(f: Facts, log: seq<Record>, n: nat)
    requires n <= |log|
  {
    && (forall k | k in f.transfers :: k < n && f.transfers[k].ticket in f.tickets)
    && (forall t | t in f.tickets ::
          && IssuedHolder(log, n, t).Some? && Chained(f.transfers, t, IssuedHolder(log, n, t).value)
          && f.tickets[t].holder == HolderBefore(f.transfers, t, IssuedHolder(log, n, t).value, n))
  }

  /** Adding a later transfer leaves earlier holders alone. */
  lemma {:induction false} LaterTransferLeaves(transfers: map<nat, TransferRow>, n: nat, row: TransferRow, t: TicketId,
                                              issued: Account, k: nat)
    requires k <= n
    ensures HolderBefore(transfers[n := row], t, issued, k) == HolderBefore(transfers, t, issued, k)
  {
    if k > 0 {
      LaterTransferLeaves(transfers, n, row, t, issued, k - 1);
    }
  }

  lemma {:induction false} NeverTransferred(transfers: map<nat, TransferRow>, t: TicketId, issued: Account, k: nat)
    requires forall i | i in transfers :: transfers[i].ticket != t
    ensures HolderBefore(transfers, t, issued, k) == issued
  {
    if k > 0 {
      NeverTransferred(transfers, t, issued, k - 1);
    }
  }

  lemma TransferKeepsChain(f: Facts, log: seq<Record>, n: nat, c: Command, at: int)
    requires n < |log| && TransfersOk(f, log, n) && c.TransferTicket? && Transferred(f, n, at, c).Some?
    requires log[n].entry == OfCommand(c)
    ensures TransfersOk(Transferred(f, n, at, c).value, log, n + 1)
  {
    var f' := Transferred(f, n, at, c).value;
    var row := f'.transfers[n];
    forall t | t in f'.tickets
      ensures IssuedHolder(log, n + 1, t) == IssuedHolder(log, n, t)
      ensures Chained(f'.transfers, t, IssuedHolder(log, n, t).value)
      ensures f'.tickets[t].holder == HolderBefore(f'.transfers, t, IssuedHolder(log, n, t).value, n + 1)
    {
      var issued := IssuedHolder(log, n, t).value;
      LaterTransferLeaves(f.transfers, n, row, t, issued, n);
      forall k | k in f'.transfers && f'.transfers[k].ticket == t
        ensures f'.transfers[k].from == HolderBefore(f'.transfers, t, issued, k)
      {
        LaterTransferLeaves(f.transfers, n, row, t, issued, k);
      }
    }
  }

  lemma IssueKeepsChain(f: Facts, log: seq<Record>, n: nat, c: Command)
    requires n < |log| && TransfersOk(f, log, n) && c.IssueTicket? && IssuedTo(f, n, c).Some?
    requires log[n].entry == OfCommand(c)
    ensures TransfersOk(IssuedTo(f, n, c).value, log, n + 1)
  {
    NeverTransferred(f.transfers, c.ticket, c.holder, n + 1);
  }

  lemma OthersKeepChain(o: Outside, f: Facts, log: seq<Record>, n: nat)
    requires n < |log| && TransfersOk(f, log, n) && Applied(o, f, n, log[n]).Some?
    requires !(log[n].entry.OfCommand? && (log[n].entry.command.IssueTicket? || log[n].entry.command.TransferTicket?))
    ensures TransfersOk(Applied(o, f, n, log[n]).value, log, n + 1)
  {
    hide Applied;
    OthersKeepHolders(o, f, n, log[n]);
  }

  ghost predicate SameHolders(f: Facts, f': Facts) {
    && f'.transfers == f.transfers && f'.tickets.Keys == f.tickets.Keys
    && (forall t | t in f.tickets :: f'.tickets[t].holder == f.tickets[t].holder)
  }

  lemma AttendedKeepsHolders(f: Facts, n: nat, r: Record, pass: Pass)
    requires Attended(f, n, r, pass).Some?
    ensures SameHolders(f, Attended(f, n, r, pass).value)
  {
  }

  lemma CommandedKeepsHolders(o: Outside, f: Facts, n: nat, at: int, c: Command)
    requires !c.IssueTicket? && !c.TransferTicket? && Commanded(o, f, n, at, c).Some?
    ensures SameHolders(f, Commanded(o, f, n, at, c).value)
  {
    hide WithoutZone;
  }

  lemma OthersKeepHolders(o: Outside, f: Facts, n: nat, r: Record)
    requires Applied(o, f, n, r).Some?
    requires !(r.entry.OfCommand? && (r.entry.command.IssueTicket? || r.entry.command.TransferTicket?))
    ensures SameHolders(f, Applied(o, f, n, r).value)
  {
    hide Commanded, Attended;
    match r.entry {
      case OfCommand(c) => CommandedKeepsHolders(o, f, n, r.recordedAt, c);
      case OfPass(pass) => AttendedKeepsHolders(f, n, r, pass);
      case OtherEntry =>
    }
  }

  /** Every ticket's transfers form a chain from its issued holder to its current one. */
  lemma {:induction false} TransfersChain(o: Outside, log: seq<Record>, n: nat)
    requires n <= |log| && CopyOf(o, log, n).Some?
    ensures TransfersOk(CopyOf(o, log, n).value.facts, log, n)
  {
    if n > 0 {
      TransfersChain(o, log, n - 1);
      CopyPosition(o, log, n - 1);
      var copy, entry := CopyOf(o, log, n - 1).value, log[n - 1].entry;
      hide TransfersOk;
      if entry.OfCommand? && entry.command.TransferTicket? {
        TransferKeepsChain(copy.facts, log, n - 1, entry.command, log[n - 1].recordedAt);
      } else if entry.OfCommand? && entry.command.IssueTicket? {
        IssueKeepsChain(copy.facts, log, n - 1, entry.command);
      } else {
        OthersKeepChain(o, copy.facts, log, n - 1);
      }
    }
  }

  // ----- Restrictions -----

  /** From one copy to a later one a ticket keeps its event and terms, and restrictions are only cleared. */
  ghost predicate OnlyCleared(f: Facts, f': Facts) {
    forall t | t in f.tickets ::
      && t in f'.tickets && f'.tickets[t].event == f.tickets[t].event && f'.tickets[t].terms == f.tickets[t].terms
      && (f'.tickets[t].cannotResale ==> f.tickets[t].cannotResale)
      && (f'.tickets[t].cannotTransfer ==> f.tickets[t].cannotTransfer)
  }

  lemma AppliedOnlyClears(o: Outside, f: Facts, n: nat, r: Record)
    requires Applied(o, f, n, r).Some?
    ensures OnlyCleared(f, Applied(o, f, n, r).value)
  {
    if r.entry.OfCommand? && r.entry.command.IssueTicket? {
      var c := r.entry.command;
      assert Applied(o, f, n, r) == IssuedTo(f, n, c);
    } else {
      OthersKeepTickets(o, f, n, r);
      hide Applied;
    }
  }

  lemma {:induction false} RestrictionsOnlyClear(o: Outside, log: seq<Record>, n: nat, m: nat)
    requires n <= m <= |log| && CopyOf(o, log, m).Some?
    ensures CopyOf(o, log, n).Some? && OnlyCleared(CopyOf(o, log, n).value.facts, CopyOf(o, log, m).value.facts)
  {
    if n < m {
      RestrictionsOnlyClear(o, log, n, m - 1);
      var copy := CopyOf(o, log, m - 1).value;
      AppliedOnlyClears(o, copy.facts, copy.next, log[m - 1]);
      hide Applied;
    }
  }
}
