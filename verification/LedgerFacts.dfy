/**
  The derived copy's tables: what each accepted record of the ledger's log does to
  them. Effects follow from the record alone, plus an event's owner, which the
  ledger is asked for, and a registration's account and credential, which the
  cryptographic profile decodes.
 */
module LedgerFacts {
  import opened Common

  type EventId = nat
  type TicketId = nat
  type ZoneId = nat
  type Account = nat
  type Credential = nat
  type PassId = nat
  type Cursor = nat
  type Registration = nat

  datatype Zone = Zone(id: ZoneId, seated: bool)

  datatype EventStatus = Active | Sealed | Cancelled | Finished

  /** A ticket's terms that no command changes: class, provenance, zone, placement, attendance policy. */
  type Terms = nat

  datatype Restriction = CannotResale | CannotTransfer | OtherRestriction

  datatype Command =
    | CreateEvent(event: EventId, capacity: Option<nat>, zones: seq<Zone>, metadata: Option<nat>)
    | SetEventStatus(event: EventId, status: EventStatus)
    | SetEventCapacity(event: EventId, capacity: Option<nat>)
    | AddZone(event: EventId, zone: Zone)
    | RemoveZone(event: EventId, zoneId: ZoneId)
    | IssueTicket(ticket: TicketId, event: EventId, holder: Account, terms: Terms, cannotResale: bool, cannotTransfer: bool)
    | TransferTicket(ticket: TicketId, event: EventId, receiver: Account)
    | RemoveRestriction(ticket: TicketId, event: EventId, restriction: Restriction)
    | RegisterCredential(account: Account, registration: Registration)
    | OtherCommand

  datatype Pass = Pass(id: PassId, ticket: TicketId, holder: Account, notBefore: int, notAfter: int)

  datatype Entry = OfCommand(command: Command) | OfPass(pass: Pass) | OtherEntry

  datatype Record = Record(cursor: Cursor, recordedAt: int, event: Option<EventId>, entry: Entry, presentedAt: Option<int>)

  datatype EventRow = EventRow(owner: Account, status: EventStatus, capacity: Option<nat>, issued: nat,
                               zones: seq<Zone>, metadata: Option<nat>, sequence: nat)
  datatype TicketRow = TicketRow(event: EventId, holder: Account, terms: Terms, cannotResale: bool, cannotTransfer: bool,
                                 attendances: nat, sequence: nat)
  datatype TransferRow = TransferRow(event: EventId, ticket: TicketId, from: Account, to: Account, recordedAt: int)
  datatype AttendanceRow = AttendanceRow(event: EventId, count: nat, lastRecordedAt: int, sequence: nat)
  datatype PassRow = PassRow(event: EventId, holder: Account, notBefore: int, notAfter: int, presentedAt: int,
                             recordedAt: int, sequence: nat)
  datatype CredentialRow = CredentialRow(registration: Registration, sequence: nat)

  datatype Facts = Facts(
    events: map<EventId, EventRow>,
    tickets: map<TicketId, TicketRow>,
    transfers: map<nat, TransferRow>,
    attendance: map<TicketId, AttendanceRow>,
    passes: map<(TicketId, PassId), PassRow>,
    credentials: map<(Account, Credential), CredentialRow>)

  const EMPTY := Facts(map[], map[], map[], map[], map[], map[])

  /** What is asked outside the log. Owners never change; decoding is a function of the bytes. */
  datatype Outside = Outside(owners: map<EventId, Account>, decoded: map<Registration, (Account, Credential)>)

  // ----- The effect of one record; `None` when the copy cannot follow it -----

  function WithoutZone(zones: seq<Zone>, id: ZoneId): seq<Zone> {
    if zones == [] then []
    else (if zones[0].id == id then [] else [zones[0]]) + WithoutZone(zones[1..], id)
  }

  predicate HasTicket(f: Facts, ticket: TicketId, event: EventId) {
    ticket in f.tickets && f.tickets[ticket].event == event
  }

  function OnEvent(f: Facts, event: EventId, row: EventRow): Facts {
    f.(events := f.events[event := row])
  }

  function OnTicket(f: Facts, ticket: TicketId, row: TicketRow): Facts {
    f.(tickets := f.tickets[ticket := row])
  }

  function Created(o: Outside, f: Facts, n: nat, c: Command): Option<Facts>
    requires c.CreateEvent?
  {
    if c.event !in o.owners || c.event in f.events then None
    else Some(OnEvent(f, c.event, EventRow(o.owners[c.event], Active, c.capacity, 0, c.zones, c.metadata, n)))
  }

  function EventChanged(f: Facts, n: nat, c: Command): Option<Facts>
    requires c.SetEventStatus? || c.SetEventCapacity? || c.AddZone? || c.RemoveZone?
  {
    if c.event !in f.events then None
    else
      var row := f.events[c.event].(sequence := n);
      Some(OnEvent(f, c.event,
                   match c
                   case SetEventStatus(_, status) => row.(status := status)
                   case SetEventCapacity(_, capacity) => row.(capacity := capacity)
                   case AddZone(_, zone) => row.(zones := row.zones + [zone])
                   case RemoveZone(_, id) => row.(zones := WithoutZone(row.zones, id))))
  }

  function IssuedTo(f: Facts, n: nat, c: Command): Option<Facts>
    requires c.IssueTicket?
  {
    if c.ticket in f.tickets || c.event !in f.events then None
    else
      var row := TicketRow(c.event, c.holder, c.terms, c.cannotResale || c.cannotTransfer, c.cannotTransfer, 0, n);
      var event := f.events[c.event];
      Some(OnEvent(OnTicket(f, c.ticket, row), c.event, event.(issued := event.issued + 1, sequence := n)))
  }

  function Transferred(f: Facts, n: nat, at: int, c: Command): Option<Facts>
    requires c.TransferTicket?
  {
    if !HasTicket(f, c.ticket, c.event) || n in f.transfers then None
    else
      var row := f.tickets[c.ticket];
      Some(OnTicket(f, c.ticket, row.(holder := c.receiver, sequence := n)).(
             transfers := f.transfers[n := TransferRow(c.event, c.ticket, row.holder, c.receiver, at)]))
  }

  function Unrestricted(f: Facts, n: nat, c: Command): Option<Facts>
    requires c.RemoveRestriction?
  {
    if c.restriction.OtherRestriction? || !HasTicket(f, c.ticket, c.event) then None
    else
      var row := f.tickets[c.ticket].(sequence := n);
      Some(OnTicket(f, c.ticket,
                    if c.restriction.CannotResale? then row.(cannotResale := false) else row.(cannotTransfer := false)))
  }

  /** A credential already registered keeps its stored registration. */
  function Registered(o: Outside, f: Facts, n: nat, c: Command): Option<Facts>
    requires c.RegisterCredential?
  {
    if c.registration !in o.decoded || o.decoded[c.registration].0 != c.account then None
    else if o.decoded[c.registration] in f.credentials then Some(f)
    else Some(f.(credentials := f.credentials[o.decoded[c.registration] := CredentialRow(c.registration, n)]))
  }

  function Commanded(o: Outside, f: Facts, n: nat, at: int, c: Command): Option<Facts> {
    match c
    case CreateEvent(_, _, _, _) => Created(o, f, n, c)
    case IssueTicket(_, _, _, _, _, _) => IssuedTo(f, n, c)
    case TransferTicket(_, _, _) => Transferred(f, n, at, c)
    case RemoveRestriction(_, _, _) => Unrestricted(f, n, c)
    case RegisterCredential(_, _) => Registered(o, f, n, c)
    case OtherCommand => None
    case _ => EventChanged(f, n, c)
  }

  /** One more attendance: the ticket's count, the attendance row, and the pass consumed go together. */
  function Attended(f: Facts, n: nat, r: Record, pass: Pass): Option<Facts> {
    if r.event.None? || !HasTicket(f, pass.ticket, r.event.value) then None
    else if r.presentedAt.None? || (pass.ticket, pass.id) in f.passes then None
    else
      var row := f.tickets[pass.ticket];
      var known := pass.ticket in f.attendance;
      var count := if known then f.attendance[pass.ticket].count + 1 else 1;
      var event := if known then f.attendance[pass.ticket].event else r.event.value;
      Some(f.(tickets := f.tickets[pass.ticket := row.(attendances := row.attendances + 1, sequence := n)],
              attendance := f.attendance[pass.ticket := AttendanceRow(event, count, r.recordedAt, n)],
              passes := f.passes[(pass.ticket, pass.id) := PassRow(r.event.value, pass.holder, pass.notBefore, pass.notAfter,
                                                                   r.presentedAt.value, r.recordedAt, n)]))
  }

  /** The effect of the record with sequence `n`. */
  function Applied(o: Outside, f: Facts, n: nat, r: Record): Option<Facts> {
    match r.entry
    case OfCommand(c) => Commanded(o, f, n, r.recordedAt, c)
    case OfPass(pass) => Attended(f, n, r, pass)
    case OtherEntry => None
  }

  // ----- The same, table by table, inside a transaction -----

  /** The tables as a transaction has changed them so far. */
  class Tables {
    const outside: Outside
    var events: map<EventId, EventRow>
    var tickets: map<TicketId, TicketRow>
    var transfers: map<nat, TransferRow>
    var attendance: map<TicketId, AttendanceRow>
    var passes: map<(TicketId, PassId), PassRow>
    var credentials: map<(Account, Credential), CredentialRow>

    constructor (outside: Outside, facts: Facts)
      ensures Contents() == facts && this.outside == outside
    {
      this.outside := outside;
      events, tickets, transfers := facts.events, facts.tickets, facts.transfers;
      attendance, passes, credentials := facts.attendance, facts.passes, facts.credentials;
    }

    function Contents(): Facts
      reads this
    {
      Facts(events, tickets, transfers, attendance, passes, credentials)
    }

    /** Inserts a row; a row already there refuses it. */
    method InsertEvent(event: EventId, row: EventRow) returns (one: bool)
      modifies this`events
      ensures one <==> event !in old(events)
      ensures events == if one then old(events)[event := row] else old(events)
    {
      one := event !in events;
      if one {
        events := events[event := row];
      }
    }

    method UpdateEvent(n: nat, c: Command) returns (one: bool)
      requires c.SetEventStatus? || c.SetEventCapacity? || c.AddZone? || c.RemoveZone?
      modifies this`events
      ensures one <==> EventChanged(old(Contents()), n, c).Some?
      ensures one ==> Contents() == EventChanged(old(Contents()), n, c).value
    {
      one := c.event in events;
      if one {
        var row := events[c.event].(sequence := n);
        match c {
          case SetEventStatus(_, status) => row := row.(status := status);
          case SetEventCapacity(_, capacity) => row := row.(capacity := capacity);
          case AddZone(_, zone) => row := row.(zones := row.zones + [zone]);
          case RemoveZone(_, id) =>
            var kept := ZonesWithout(row.zones, id);
            row := row.(zones := kept);
        }
        events := events[c.event := row];
      }
    }

    method Issue(n: nat, c: Command) returns (one: bool)
      requires c.IssueTicket?
      modifies this`events, this`tickets
      ensures one <==> IssuedTo(old(Contents()), n, c).Some?
      ensures one ==> Contents() == IssuedTo(old(Contents()), n, c).value
    {
      if c.ticket in tickets || c.event !in events {
        return false;
      }
      tickets := tickets[c.ticket := TicketRow(c.event, c.holder, c.terms, c.cannotResale || c.cannotTransfer,
                                               c.cannotTransfer, 0, n)];
      var event := events[c.event];
      events := events[c.event := event.(issued := event.issued + 1, sequence := n)];
      one := true;
    }

    method Transfer(n: nat, at: int, c: Command) returns (one: bool)
      requires c.TransferTicket?
      modifies this`tickets, this`transfers
      ensures one <==> Transferred(old(Contents()), n, at, c).Some?
      ensures one ==> Contents() == Transferred(old(Contents()), n, at, c).value
    {
      if c.ticket !in tickets || tickets[c.ticket].event != c.event {
        return false;
      }
      var from := tickets[c.ticket].holder;
      tickets := tickets[c.ticket := tickets[c.ticket].(holder := c.receiver, sequence := n)];
      if n in transfers {
        return false;
      }
      transfers := transfers[n := TransferRow(c.event, c.ticket, from, c.receiver, at)];
      one := true;
    }

    method Unrestrict(n: nat, c: Command) returns (one: bool)
      requires c.RemoveRestriction?
      modifies this`tickets
      ensures one <==> Unrestricted(old(Contents()), n, c).Some?
      ensures one ==> Contents() == Unrestricted(old(Contents()), n, c).value
    {
      if c.restriction.OtherRestriction? || c.ticket !in tickets || tickets[c.ticket].event != c.event {
        return false;
      }
      var row := tickets[c.ticket].(sequence := n);
      if c.restriction.CannotResale? {
        row := row.(cannotResale := false);
      } else {
        row := row.(cannotTransfer := false);
      }
      tickets := tickets[c.ticket := row];
      one := true;
    }

    method Register(n: nat, c: Command) returns (one: bool)
      requires c.RegisterCredential?
      modifies this`credentials
      ensures one <==> Registered(outside, old(Contents()), n, c).Some?
      ensures one ==> Contents() == Registered(outside, old(Contents()), n, c).value
    {
      if c.registration !in outside.decoded || outside.decoded[c.registration].0 != c.account {
        return false;
      }
      var named := outside.decoded[c.registration];
      if named !in credentials {
        credentials := credentials[named := CredentialRow(c.registration, n)];
      }
      one := true;
    }

    method Attend(n: nat, r: Record, pass: Pass) returns (one: bool)
      modifies this`tickets, this`attendance, this`passes
      ensures one <==> Attended(old(Contents()), n, r, pass).Some?
      ensures one ==> Contents() == Attended(old(Contents()), n, r, pass).value
    {
      if r.event.None? || pass.ticket !in tickets || tickets[pass.ticket].event != r.event.value {
        return false;
      }
      var row := tickets[pass.ticket];
      tickets := tickets[pass.ticket := row.(attendances := row.attendances + 1, sequence := n)];
      if pass.ticket in attendance {
        var counted := attendance[pass.ticket];
        attendance := attendance[pass.ticket := counted.(count := counted.count + 1, lastRecordedAt := r.recordedAt, sequence := n)];
      } else {
        attendance := attendance[pass.ticket := AttendanceRow(r.event.value, 1, r.recordedAt, n)];
      }
      if r.presentedAt.None? || (pass.ticket, pass.id) in passes {
        return false;
      }
      passes := passes[(pass.ticket, pass.id) := PassRow(r.event.value, pass.holder, pass.notBefore, pass.notAfter,
                                                         r.presentedAt.value, r.recordedAt, n)];
      one := true;
    }

    method ApplyCommand(n: nat, at: int, c: Command) returns (one: bool)
      modifies this
      ensures one <==> Commanded(outside, old(Contents()), n, at, c).Some?
      ensures one ==> Contents() == Commanded(outside, old(Contents()), n, at, c).value
    {
      match c {
        case CreateEvent(event, capacity, zones, metadata) =>
          if event !in outside.owners {
            return false;
          }
          one := InsertEvent(event, EventRow(outside.owners[event], Active, capacity, 0, zones, metadata, n));
        case IssueTicket(_, _, _, _, _, _) => one := Issue(n, c);
        case TransferTicket(_, _, _) => one := Transfer(n, at, c);
        case RemoveRestriction(_, _, _) => one := Unrestrict(n, c);
        case RegisterCredential(_, _) => one := Register(n, c);
        case OtherCommand => one := false;
        case _ => one := UpdateEvent(n, c);
      }
    }

    /** Applies one record; when it does not, the transaction is to be rolled back. */
    method Apply(n: nat, r: Record) returns (one: bool)
      modifies this
      ensures one <==> Applied(outside, old(Contents()), n, r).Some?
      ensures one ==> Contents() == Applied(outside, old(Contents()), n, r).value
    {
      match r.entry {
        case OfCommand(c) => one := ApplyCommand(n, r.recordedAt, c);
        case OfPass(pass) => one := Attend(n, r, pass);
        case OtherEntry => one := false;
      }
    }
  }

  method ZonesWithout(zones: seq<Zone>, id: ZoneId) returns (kept: seq<Zone>)
    ensures kept == WithoutZone(zones, id)
  {
    kept := [];
    var i := |zones|;
    while i > 0
      invariant 0 <= i <= |zones| && kept == WithoutZone(zones[i..], id)
    {
      i := i - 1;
      assert zones[i..][1..] == zones[i + 1..];
      if zones[i].id != id {
        kept := [zones[i]] + kept;
      }
    }
  }

  lemma {:induction false} WithoutZoneSplits(zones: seq<Zone>, id: ZoneId, i: nat)
    requires i <= |zones|
    ensures WithoutZone(zones, id) == WithoutZone(zones[..i], id) + WithoutZone(zones[i..], id)
  {
    if i == 0 {
      assert zones[0..] == zones && zones[..0] == [];
    } else {
      WithoutZoneSplits(zones[1..], id, i - 1);
      assert zones[1..][..i - 1] == zones[..i][1..] && zones[1..][i - 1..] == zones[i..];
    }
  }

  /** Removing a zone removes it wherever it is. */
  lemma {:induction false} WithoutZoneRemoves(zones: seq<Zone>, id: ZoneId, zone: Zone)
    ensures zone in WithoutZone(zones, id) <==> zone in zones && zone.id != id
    ensures |WithoutZone(zones, id)| <= |zones|
  {
    if zones != [] {
      WithoutZoneRemoves(zones[1..], id, zone);
      assert zones == [zones[0]] + zones[1..];
    }
  }

  /** Every other zone is kept, after those kept before it and before those kept after it. */
  lemma WithoutZoneKeepsOrder(zones: seq<Zone>, id: ZoneId, i: nat)
    requires i < |zones| && zones[i].id != id
    ensures WithoutZone(zones, id) == WithoutZone(zones[..i], id) + [zones[i]] + WithoutZone(zones[i + 1..], id)
  {
    WithoutZoneSplits(zones, id, i);
    assert zones[i..][1..] == zones[i + 1..];
  }
}
