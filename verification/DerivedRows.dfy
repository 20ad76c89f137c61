/**
  What the derived copy's rows hold, said of the log alone: which record made each
  row, which record last set each of its columns, and which records the copy can follow.
 */
module DerivedRows {
  import opened Common
  import opened LedgerFacts
  import opened DerivedReader

  // ----- What a record is about -----

  predicate Creates(r: Record, e: EventId) {
    r.entry.OfCommand? && r.entry.command.CreateEvent? && r.entry.command.event == e
  }

  predicate SetsStatus(r: Record, e: EventId) {
    r.entry.OfCommand? && r.entry.command.SetEventStatus? && r.entry.command.event == e
  }

  predicate SetsCapacity(r: Record, e: EventId) {
    r.entry.OfCommand? && r.entry.command.SetEventCapacity? && r.entry.command.event == e
  }

  predicate AddsZone(r: Record, e: EventId) {
    r.entry.OfCommand? && r.entry.command.AddZone? && r.entry.command.event == e
  }

  predicate RemovesZone(r: Record, e: EventId, z: ZoneId) {
    r.entry.OfCommand? && r.entry.command.RemoveZone? && r.entry.command.event == e && r.entry.command.zoneId == z
  }

  predicate IssuesIn(r: Record, e: EventId) {
    r.entry.OfCommand? && r.entry.command.IssueTicket? && r.entry.command.event == e
  }

  predicate Issues(r: Record, t: TicketId) {
    r.entry.OfCommand? && r.entry.command.IssueTicket? && r.entry.command.ticket == t
  }

  predicate Transfers(r: Record, t: TicketId) {
    r.entry.OfCommand? && r.entry.command.TransferTicket? && r.entry.command.ticket == t
  }

  predicate Frees(r: Record, t: TicketId, restriction: Restriction) {
    r.entry.OfCommand? && r.entry.command.RemoveRestriction? && r.entry.command.ticket == t
    && r.entry.command.restriction == restriction
  }

  predicate Admits(r: Record, t: TicketId) {
    r.entry.OfPass? && r.entry.pass.ticket == t
  }

  predicate Consumes(r: Record, p: (TicketId, PassId)) {
    r.entry.OfPass? && r.entry.pass.ticket == p.0 && r.entry.pass.id == p.1
  }

  predicate Registers(o: Outside, r: Record, key: (Account, Credential)) {
    r.entry.OfCommand? && r.entry.command.RegisterCredential? && r.entry.command.registration in o.decoded
    && o.decoded[r.entry.command.registration] == key
  }

  /** The record changes the event's row. */
  predicate OfEvent(r: Record, e: EventId) {
    Creates(r, e) || SetsStatus(r, e) || SetsCapacity(r, e) || AddsZone(r, e) || IssuesIn(r, e)
    || (r.entry.OfCommand? && r.entry.command.RemoveZone? && r.entry.command.event == e)
  }

  /** The record changes the ticket's row. */
  predicate OfTicket(r: Record, t: TicketId) {
    Issues(r, t) || Transfers(r, t) || Admits(r, t) || Frees(r, t, CannotResale) || Frees(r, t, CannotTransfer)
  }

  // ----- What the first `n` records say of an event -----

  /** The record that created it. */
  function CreatedAt(log: seq<Record>, n: nat, e: EventId): (at: Option<nat>)
    requires n <= |log|
    ensures at.Some? ==> at.value < n && Creates(log[at.value], e)
  {
    if n == 0 then None else if Creates(log[n - 1], e) then Some(n - 1) else CreatedAt(log, n - 1, e)
  }

  function StatusOf(log: seq<Record>, n: nat, e: EventId): EventStatus
    requires n <= |log|
  {
    if n == 0 then Active
    else if SetsStatus(log[n - 1], e) then log[n - 1].entry.command.status
    else StatusOf(log, n - 1, e)
  }

  function CapacityOf(log: seq<Record>, n: nat, e: EventId): Option<nat>
    requires n <= |log|
  {
    if n == 0 then None
    else if Creates(log[n - 1], e) || SetsCapacity(log[n - 1], e) then log[n - 1].entry.command.capacity
    else CapacityOf(log, n - 1, e)
  }

  /** How many tickets of it were issued. */
  function IssuedOf(log: seq<Record>, n: nat, e: EventId): nat
    requires n <= |log|
  {
    if n == 0 then 0 else IssuedOf(log, n - 1, e) + if IssuesIn(log[n - 1], e) then 1 else 0
  }

  /** The zones a record brings the event. */
  function Brings(r: Record, e: EventId): seq<Zone> {
    if Creates(r, e) then r.entry.command.zones else if AddsZone(r, e) then [r.entry.command.zone] else []
  }

  /** A record from `from` on, before `n`, removes the zone. */
  predicate RemovedOf(log: seq<Record>, from: nat, n: nat, e: EventId, z: ZoneId)
    requires from <= n <= |log|
  {
    exists j | from <= j < n :: RemovesZone(log[j], e, z)
  }

  /** Those of the zones that no record from `from` on, before `n`, removes. */
  function Staying(log: seq<Record>, from: nat, n: nat, e: EventId, zones: seq<Zone>): seq<Zone>
    requires from <= n <= |log|
  {
    if zones == [] then []
    else (if RemovedOf(log, from, n, e, zones[0].id) then [] else [zones[0]])
         + Staying(log, from, n, e, zones[1..])
  }

  /** The zones the first `k` records bring it, in order, that none of the first `n` removes afterwards. */
  function ZonesOf(log: seq<Record>, k: nat, n: nat, e: EventId): seq<Zone>
    requires k <= n <= |log|
  {
    if k == 0 then [] else ZonesOf(log, k - 1, n, e) + Staying(log, k, n, e, Brings(log[k - 1], e))
  }

  /** The last record that changed its row. */
  function LastOfEvent(log: seq<Record>, n: nat, e: EventId): nat
    requires n <= |log|
  {
    if n == 0 then 0 else if OfEvent(log[n - 1], e) then n - 1 else LastOfEvent(log, n - 1, e)
  }

  // ----- What they say of a ticket -----

  /** The record that issued it. */
  function IssuedAt(log: seq<Record>, n: nat, t: TicketId): (at: Option<nat>)
    requires n <= |log|
    ensures at.Some? ==> at.value < n && Issues(log[at.value], t)
  {
    if n == 0 then None else if Issues(log[n - 1], t) then Some(n - 1) else IssuedAt(log, n - 1, t)
  }

  /** Who holds it: whom it was last transferred to, or was issued to. */
  function HolderOf(log: seq<Record>, n: nat, t: TicketId): Account
    requires n <= |log|
  {
    if n == 0 then 0
    else if Transfers(log[n - 1], t) then log[n - 1].entry.command.receiver
    else if Issues(log[n - 1], t) then log[n - 1].entry.command.holder
    else HolderOf(log, n - 1, t)
  }

  predicate FreedOf(log: seq<Record>, n: nat, t: TicketId, restriction: Restriction)
    requires n <= |log|
  {
    exists i | 0 <= i < n :: Frees(log[i], t, restriction)
  }

  /** How often it was admitted. */
  function AdmissionsOf(log: seq<Record>, n: nat, t: TicketId): nat
    requires n <= |log|
  {
    if n == 0 then 0 else AdmissionsOf(log, n - 1, t) + if Admits(log[n - 1], t) then 1 else 0
  }

  function LastAdmission(log: seq<Record>, n: nat, t: TicketId): (at: Option<nat>)
    requires n <= |log|
    ensures at.Some? ==> at.value < n
    ensures at.Some? <==> AdmissionsOf(log, n, t) > 0
  {
    if n == 0 then None else if Admits(log[n - 1], t) then Some(n - 1) else LastAdmission(log, n - 1, t)
  }

  function LastOfTicket(log: seq<Record>, n: nat, t: TicketId): nat
    requires n <= |log|
  {
    if n == 0 then 0 else if OfTicket(log[n - 1], t) then n - 1 else LastOfTicket(log, n - 1, t)
  }

  // ----- What they say of a pass and of a credential -----

  /** The record that consumed the pass. */
  function ConsumedAt(log: seq<Record>, n: nat, p: (TicketId, PassId)): (at: Option<nat>)
    requires n <= |log|
    ensures at.Some? ==> at.value < n && Consumes(log[at.value], p)
    ensures at.Some? <==> exists i | 0 <= i < n :: Consumes(log[i], p)
  {
    if n == 0 then None else if Consumes(log[n - 1], p) then Some(n - 1) else ConsumedAt(log, n - 1, p)
  }

  /** The first record that registered the credential. */
  function RegisteredAt(o: Outside, log: seq<Record>, n: nat, key: (Account, Credential)): (at: Option<nat>)
    requires n <= |log|
    ensures at.Some? ==> at.value < n && Registers(o, log[at.value], key)
  {
    if n == 0 then None
    else if RegisteredAt(o, log, n - 1, key).Some? then RegisteredAt(o, log, n - 1, key)
    else if Registers(o, log[n - 1], key) then Some(n - 1)
    else None
  }

  // ----- The rows -----

  /** The event's row is what the first `n` records say of it. */
  ghost predicate EventSays(o: Outside, log: seq<Record>, n: nat, f: Facts, e: EventId)
    requires n <= |log|
  {
    var at := CreatedAt(log, n, e);
    && (e in f.events <==> at.Some?)
    && (at.None? ==> ZonesOf(log, n, n, e) == [] && IssuedOf(log, n, e) == 0 && StatusOf(log, n, e).Active?)
    && (at.Some? ==>
          var row := f.events[e];
          && e in o.owners && row.owner == o.owners[e] && row.metadata == log[at.value].entry.command.metadata
          && row.status == StatusOf(log, n, e) && row.capacity == CapacityOf(log, n, e)
          && row.issued == IssuedOf(log, n, e) && row.zones == ZonesOf(log, n, n, e)
          && row.sequence == LastOfEvent(log, n, e))
  }

  /** The ticket's row, and its attendance's, are what they say of it. */
  ghost predicate TicketSays(log: seq<Record>, n: nat, f: Facts, t: TicketId)
    requires n <= |log|
  {
    var at := IssuedAt(log, n, t);
    && (t in f.tickets <==> at.Some?)
    && (at.None? ==> AdmissionsOf(log, n, t) == 0 && !FreedOf(log, n, t, CannotResale) && !FreedOf(log, n, t, CannotTransfer))
    && (t in f.attendance <==> LastAdmission(log, n, t).Some?)
    && (at.Some? ==>
          var row, c := f.tickets[t], log[at.value].entry.command;
          && row.event == c.event && row.terms == c.terms && row.holder == HolderOf(log, n, t)
          && row.cannotResale == ((c.cannotResale || c.cannotTransfer) && !FreedOf(log, n, t, CannotResale))
          && row.cannotTransfer == (c.cannotTransfer && !FreedOf(log, n, t, CannotTransfer))
          && row.attendances == AdmissionsOf(log, n, t) && row.sequence == LastOfTicket(log, n, t)
          && (t in f.attendance ==>
                var last := LastAdmission(log, n, t).value;
                f.attendance[t] == AttendanceRow(c.event, AdmissionsOf(log, n, t), log[last].recordedAt, last)))
  }

  /** A transfer has a row exactly if the record with its sequence is one; it names the holder the ticket had. */
  ghost predicate TransferSays(log: seq<Record>, n: nat, f: Facts, k: nat)
    requires n <= |log|
  {
    && (k in f.transfers <==> k < n && log[k].entry.OfCommand? && log[k].entry.command.TransferTicket?)
    && (k in f.transfers ==>
          var c := log[k].entry.command;
          f.transfers[k] == TransferRow(c.event, c.ticket, HolderOf(log, k, c.ticket), c.receiver, log[k].recordedAt))
  }

  /** A pass has a row exactly if a record consumed it, and the row is that record's. */
  ghost predicate PassSays(log: seq<Record>, n: nat, f: Facts, p: (TicketId, PassId))
    requires n <= |log|
  {
    var at := ConsumedAt(log, n, p);
    && (p in f.passes <==> at.Some?)
    && (at.Some? ==>
          var r := log[at.value];
          var pass := r.entry.pass;
          && r.event.Some? && r.presentedAt.Some?
          && f.passes[p] == PassRow(r.event.value, pass.holder, pass.notBefore, pass.notAfter, r.presentedAt.value,
                                    r.recordedAt, at.value))
  }

  ghost predicate CredentialSays(o: Outside, log: seq<Record>, n: nat, f: Facts, key: (Account, Credential))
    requires n <= |log|
  {
    var at := RegisteredAt(o, log, n, key);
    && (key in f.credentials <==> at.Some?)
    && (at.Some? ==> f.credentials[key] == CredentialRow(log[at.value].entry.command.registration, at.value))
  }

  ghost predicate RowsSay(o: Outside, log: seq<Record>, n: nat, f: Facts)
    requires n <= |log|
  {
    && (forall e: EventId :: EventSays(o, log, n, f, e))
    && (forall t: TicketId :: TicketSays(log, n, f, t))
    && (forall k: nat :: TransferSays(log, n, f, k))
    && (forall p: (TicketId, PassId) :: PassSays(log, n, f, p))
    && (forall key: (Account, Credential) :: CredentialSays(o, log, n, f, key))
  }

  // ----- One more record -----

  lemma RemovedNext(log: seq<Record>, from: nat, n: nat, e: EventId, z: ZoneId)
    requires from <= n < |log|
    ensures RemovedOf(log, from, n + 1, e, z) <==> RemovedOf(log, from, n, e, z) || RemovesZone(log[n], e, z)
  {
    if RemovedOf(log, from, n, e, z) {
      var j :| from <= j < n && RemovesZone(log[j], e, z);
      assert from <= j < n + 1;
    }
  }

  lemma {:induction false} StayingUnlessRemoved(log: seq<Record>, from: nat, n: nat, e: EventId, zones: seq<Zone>)
    requires from <= n < |log|
    ensures Staying(log, from, n + 1, e, zones)
            == if log[n].entry.OfCommand? && log[n].entry.command.RemoveZone? && log[n].entry.command.event == e
               then WithoutZone(Staying(log, from, n, e, zones), log[n].entry.command.zoneId)
               else Staying(log, from, n, e, zones)
  {
    if zones != [] {
      StayingUnlessRemoved(log, from, n, e, zones[1..]);
      RemovedNext(log, from, n, e, zones[0].id);
      hide RemovedOf;
      var rest := Staying(log, from, n, e, zones[1..]);
      assert ([zones[0]] + rest)[1..] == rest && [] + rest == rest;
    }
  }

  lemma {:induction false} NoneRemovedYet(log: seq<Record>, n: nat, e: EventId, zones: seq<Zone>)
    requires n <= |log|
    ensures Staying(log, n, n, e, zones) == zones
  {
    if zones != [] {
      NoneRemovedYet(log, n, e, zones[1..]);
      assert zones == [zones[0]] + zones[1..];
    }
  }

  lemma {:induction false} WithoutSplits(a: seq<Zone>, b: seq<Zone>, id: ZoneId)
    ensures WithoutZone(a + b, id) == WithoutZone(a, id) + WithoutZone(b, id)
  {
    WithoutZoneSplits(a + b, id, |a|);
    assert (a + b)[..|a|] == a && (a + b)[|a|..] == b;
  }

  lemma NothingIsWithout(id: ZoneId)
    ensures WithoutZone([], id) == []
  {
  }

  lemma {:induction false} ZonesUnlessRemoved(log: seq<Record>, k: nat, n: nat, e: EventId)
    requires k <= n < |log|
    ensures ZonesOf(log, k, n + 1, e)
            == if log[n].entry.OfCommand? && log[n].entry.command.RemoveZone? && log[n].entry.command.event == e
               then WithoutZone(ZonesOf(log, k, n, e), log[n].entry.command.zoneId)
               else ZonesOf(log, k, n, e)
  {
    hide Staying, WithoutZone, Brings;
    if k > 0 {
      ZonesUnlessRemoved(log, k - 1, n, e);
      var brought := Brings(log[k - 1], e);
      StayingUnlessRemoved(log, k, n, e, brought);
      assert ZonesOf(log, k, n, e) == ZonesOf(log, k - 1, n, e) + Staying(log, k, n, e, brought);
      assert ZonesOf(log, k, n + 1, e) == ZonesOf(log, k - 1, n + 1, e) + Staying(log, k, n + 1, e, brought);
      if log[n].entry.OfCommand? && log[n].entry.command.RemoveZone? && log[n].entry.command.event == e {
        WithoutSplits(ZonesOf(log, k - 1, n, e), Staying(log, k, n, e, brought), log[n].entry.command.zoneId);
      }
    } else if log[n].entry.OfCommand? && log[n].entry.command.RemoveZone? {
      NothingIsWithout(log[n].entry.command.zoneId);
    }
  }

  /** One more record removes its zone, or brings its own. */
  lemma ZonesNext(log: seq<Record>, n: nat, e: EventId)
    requires n < |log|
    ensures ZonesOf(log, n + 1, n + 1, e)
            == (if log[n].entry.OfCommand? && log[n].entry.command.RemoveZone? && log[n].entry.command.event == e
                then WithoutZone(ZonesOf(log, n, n, e), log[n].entry.command.zoneId)
                else ZonesOf(log, n, n, e)) + Brings(log[n], e)
  {
    ZonesUnlessRemoved(log, n, n, e);
    NoneRemovedYet(log, n + 1, e, Brings(log[n], e));
  }

  predicate SameEvent(f: Facts, f': Facts, e: EventId) {
    (e in f'.events <==> e in f.events) && (e in f.events ==> f'.events[e] == f.events[e])
  }

  /** A record that is not of an event leaves what is said of it. */
  lemma OtherSaysEvent(o: Outside, log: seq<Record>, n: nat, f: Facts, f': Facts, e: EventId)
    requires n < |log| && EventSays(o, log, n, f, e) && SameEvent(f, f', e) && !OfEvent(log[n], e)
    ensures EventSays(o, log, n + 1, f', e)
  {
    ZonesNext(log, n, e);
    hide ZonesOf;
  }

  lemma CreatedSaysEvent(o: Outside, log: seq<Record>, n: nat, f: Facts, c: Command, e: EventId)
    requires n < |log| && EventSays(o, log, n, f, e) && log[n].entry == OfCommand(c)
    requires c.CreateEvent? && Created(o, f, n, c).Some?
    ensures EventSays(o, log, n + 1, Created(o, f, n, c).value, e)
  {
    if c.event == e {
      ZonesNext(log, n, e);
      hide ZonesOf;
    } else {
      hide EventSays;
      OtherSaysEvent(o, log, n, f, Created(o, f, n, c).value, e);
    }
  }

  lemma ChangedSaysEvent(o: Outside, log: seq<Record>, n: nat, f: Facts, c: Command, e: EventId)
    requires n < |log| && EventSays(o, log, n, f, e) && log[n].entry == OfCommand(c)
    requires c.SetEventStatus? || c.SetEventCapacity? || c.AddZone? || c.RemoveZone?
    requires EventChanged(f, n, c).Some?
    ensures EventSays(o, log, n + 1, EventChanged(f, n, c).value, e)
  {
    if c.event == e {
      ZonesNext(log, n, e);
      hide ZonesOf, WithoutZone;
    } else {
      hide EventSays, WithoutZone;
      OtherSaysEvent(o, log, n, f, EventChanged(f, n, c).value, e);
    }
  }

  lemma IssuedSaysEvent(o: Outside, log: seq<Record>, n: nat, f: Facts, c: Command, e: EventId)
    requires n < |log| && EventSays(o, log, n, f, e) && log[n].entry == OfCommand(c)
    requires c.IssueTicket? && IssuedTo(f, n, c).Some?
    ensures EventSays(o, log, n + 1, IssuedTo(f, n, c).value, e)
  {
    if c.event == e {
      ZonesNext(log, n, e);
      hide ZonesOf;
    } else {
      hide EventSays;
      OtherSaysEvent(o, log, n, f, IssuedTo(f, n, c).value, e);
    }
  }

  lemma CommandSaysEvent(o: Outside, log: seq<Record>, n: nat, f: Facts, e: EventId)
    requires n < |log| && EventSays(o, log, n, f, e) && log[n].entry.OfCommand?
    requires Commanded(o, f, n, log[n].recordedAt, log[n].entry.command).Some?
    ensures EventSays(o, log, n + 1, Commanded(o, f, n, log[n].recordedAt, log[n].entry.command).value, e)
  {
    hide EventSays, WithoutZone;
    var c := log[n].entry.command;
    if c.CreateEvent? {
      CreatedSaysEvent(o, log, n, f, c, e);
    } else if c.SetEventStatus? || c.SetEventCapacity? || c.AddZone? || c.RemoveZone? {
      ChangedSaysEvent(o, log, n, f, c, e);
    } else if c.IssueTicket? {
      IssuedSaysEvent(o, log, n, f, c, e);
    } else {
      OtherSaysEvent(o, log, n, f, Commanded(o, f, n, log[n].recordedAt, c).value, e);
    }
  }

  lemma FreedNext(log: seq<Record>, n: nat, t: TicketId, restriction: Restriction)
    requires n < |log|
    ensures FreedOf(log, n + 1, t, restriction) <==> FreedOf(log, n, t, restriction) || Frees(log[n], t, restriction)
  {
  }

  lemma IssuedSaysTicket(log: seq<Record>, n: nat, f: Facts, c: Command, t: TicketId)
    requires n < |log| && TicketSays(log, n, f, t) && log[n].entry == OfCommand(c)
    requires c.IssueTicket? && IssuedTo(f, n, c).Some?
    ensures TicketSays(log, n + 1, IssuedTo(f, n, c).value, t)
  {
    FreedNext(log, n, t, CannotResale);
    FreedNext(log, n, t, CannotTransfer);
    hide FreedOf;
  }

  lemma TransferredSaysTicket(log: seq<Record>, n: nat, f: Facts, at: int, c: Command, t: TicketId)
    requires n < |log| && TicketSays(log, n, f, t) && log[n].entry == OfCommand(c)
    requires c.TransferTicket? && Transferred(f, n, at, c).Some?
    ensures TicketSays(log, n + 1, Transferred(f, n, at, c).value, t)
  {
    FreedNext(log, n, t, CannotResale);
    FreedNext(log, n, t, CannotTransfer);
    hide FreedOf;
  }

  lemma UnrestrictedSaysTicket(log: seq<Record>, n: nat, f: Facts, c: Command, t: TicketId)
    requires n < |log| && TicketSays(log, n, f, t) && log[n].entry == OfCommand(c)
    requires c.RemoveRestriction? && Unrestricted(f, n, c).Some?
    ensures TicketSays(log, n + 1, Unrestricted(f, n, c).value, t)
  {
    FreedNext(log, n, t, CannotResale);
    FreedNext(log, n, t, CannotTransfer);
    hide FreedOf;
  }

  lemma OtherSaysTicket(log: seq<Record>, n: nat, f: Facts, f': Facts, t: TicketId)
    requires n < |log| && TicketSays(log, n, f, t) && !OfTicket(log[n], t)
    requires f'.tickets == f.tickets && f'.attendance == f.attendance
    ensures TicketSays(log, n + 1, f', t)
  {
    FreedNext(log, n, t, CannotResale);
    FreedNext(log, n, t, CannotTransfer);
    hide FreedOf;
  }

  lemma OthersLeaveTickets(o: Outside, f: Facts, n: nat, at: int, c: Command)
    requires Commanded(o, f, n, at, c).Some? && !c.IssueTicket? && !c.TransferTicket? && !c.RemoveRestriction?
    ensures Commanded(o, f, n, at, c).value.tickets == f.tickets && Commanded(o, f, n, at, c).value.attendance == f.attendance
  {
    hide WithoutZone;
  }

  lemma CommandSaysTicket(o: Outside, log: seq<Record>, n: nat, f: Facts, t: TicketId)
    requires n < |log| && TicketSays(log, n, f, t) && log[n].entry.OfCommand?
    requires Commanded(o, f, n, log[n].recordedAt, log[n].entry.command).Some?
    ensures TicketSays(log, n + 1, Commanded(o, f, n, log[n].recordedAt, log[n].entry.command).value, t)
  {
    hide TicketSays, IssuedTo, Transferred, Unrestricted, Created, EventChanged, Registered;
    var c := log[n].entry.command;
    if c.IssueTicket? {
      IssuedSaysTicket(log, n, f, c, t);
    } else if c.TransferTicket? {
      TransferredSaysTicket(log, n, f, log[n].recordedAt, c, t);
    } else if c.RemoveRestriction? {
      UnrestrictedSaysTicket(log, n, f, c, t);
    } else {
      OthersLeaveTickets(o, f, n, log[n].recordedAt, c);
      OtherSaysTicket(log, n, f, Commanded(o, f, n, log[n].recordedAt, c).value, t);
    }
  }

  lemma AttendedSaysTicket(log: seq<Record>, n: nat, f: Facts, t: TicketId)
    requires n < |log| && TicketSays(log, n, f, t) && log[n].entry.OfPass?
    requires Attended(f, n, log[n], log[n].entry.pass).Some?
    ensures TicketSays(log, n + 1, Attended(f, n, log[n], log[n].entry.pass).value, t)
  {
    FreedNext(log, n, t, CannotResale);
    FreedNext(log, n, t, CannotTransfer);
    hide FreedOf;
  }

  lemma NextSaysEvent(o: Outside, log: seq<Record>, n: nat, f: Facts, e: EventId)
    requires n < |log| && EventSays(o, log, n, f, e) && Applied(o, f, n, log[n]).Some?
    ensures EventSays(o, log, n + 1, Applied(o, f, n, log[n]).value, e)
  {
    hide EventSays, Commanded;
    if log[n].entry.OfCommand? {
      CommandSaysEvent(o, log, n, f, e);
    } else {
      OtherSaysEvent(o, log, n, f, Applied(o, f, n, log[n]).value, e);
    }
  }

  lemma NextSaysTicket(o: Outside, log: seq<Record>, n: nat, f: Facts, t: TicketId)
    requires n < |log| && TicketSays(log, n, f, t) && Applied(o, f, n, log[n]).Some?
    ensures TicketSays(log, n + 1, Applied(o, f, n, log[n]).value, t)
  {
    hide TicketSays, Commanded, Attended;
    if log[n].entry.OfCommand? {
      CommandSaysTicket(o, log, n, f, t);
    } else {
      AttendedSaysTicket(log, n, f, t);
    }
  }

  lemma TransferredSaysTransfer(log: seq<Record>, n: nat, f: Facts, c: Command, k: nat)
    requires n < |log| && TransferSays(log, n, f, k) && log[n].entry == OfCommand(c)
    requires c.TransferTicket? && Transferred(f, n, log[n].recordedAt, c).Some? && TicketSays(log, n, f, c.ticket)
    ensures TransferSays(log, n + 1, Transferred(f, n, log[n].recordedAt, c).value, k)
  {
    hide FreedOf, AdmissionsOf, LastAdmission, LastOfTicket;
  }

  lemma OthersLeaveTransfers(o: Outside, f: Facts, n: nat, r: Record)
    requires Applied(o, f, n, r).Some? && !(r.entry.OfCommand? && r.entry.command.TransferTicket?)
    ensures Applied(o, f, n, r).value.transfers == f.transfers
  {
    hide WithoutZone;
  }

  lemma NextSaysTransfer(o: Outside, log: seq<Record>, n: nat, f: Facts, k: nat)
    requires n < |log| && TransferSays(log, n, f, k) && Applied(o, f, n, log[n]).Some?
    requires log[n].entry.OfCommand? && log[n].entry.command.TransferTicket? ==> TicketSays(log, n, f, log[n].entry.command.ticket)
    ensures TransferSays(log, n + 1, Applied(o, f, n, log[n]).value, k)
  {
    hide Transferred, TicketSays;
    if log[n].entry.OfCommand? && log[n].entry.command.TransferTicket? {
      TransferredSaysTransfer(log, n, f, log[n].entry.command, k);
    } else {
      OthersLeaveTransfers(o, f, n, log[n]);
      hide Applied;
    }
  }

  lemma AttendedSaysPass(log: seq<Record>, n: nat, f: Facts, p: (TicketId, PassId))
    requires n < |log| && PassSays(log, n, f, p) && log[n].entry.OfPass? && Attended(f, n, log[n], log[n].entry.pass).Some?
    ensures PassSays(log, n + 1, Attended(f, n, log[n], log[n].entry.pass).value, p)
  {
  }

  lemma CommandsLeavePasses(o: Outside, f: Facts, n: nat, r: Record)
    requires r.entry.OfCommand? && Applied(o, f, n, r).Some?
    ensures Applied(o, f, n, r).value.passes == f.passes
  {
    hide WithoutZone;
  }

  lemma OtherSaysPass(log: seq<Record>, n: nat, f: Facts, f': Facts, p: (TicketId, PassId))
    requires n < |log| && PassSays(log, n, f, p) && f'.passes == f.passes && !Consumes(log[n], p)
    ensures PassSays(log, n + 1, f', p)
  {
  }

  lemma NextSaysPass(o: Outside, log: seq<Record>, n: nat, f: Facts, p: (TicketId, PassId))
    requires n < |log| && PassSays(log, n, f, p) && Applied(o, f, n, log[n]).Some?
    ensures PassSays(log, n + 1, Applied(o, f, n, log[n]).value, p)
  {
    hide PassSays, Commanded, Attended;
    if log[n].entry.OfPass? {
      AttendedSaysPass(log, n, f, p);
    } else {
      CommandsLeavePasses(o, f, n, log[n]);
      OtherSaysPass(log, n, f, Applied(o, f, n, log[n]).value, p);
    }
  }

  lemma RegisteredSaysCredential(o: Outside, log: seq<Record>, n: nat, f: Facts, c: Command, key: (Account, Credential))
    requires n < |log| && CredentialSays(o, log, n, f, key) && log[n].entry == OfCommand(c)
    requires c.RegisterCredential? && Registered(o, f, n, c).Some?
    ensures CredentialSays(o, log, n + 1, Registered(o, f, n, c).value, key)
  {
  }

  lemma OtherSaysCredential(o: Outside, log: seq<Record>, n: nat, f: Facts, f': Facts, key: (Account, Credential))
    requires n < |log| && CredentialSays(o, log, n, f, key) && f'.credentials == f.credentials
    requires !Registers(o, log[n], key)
    ensures CredentialSays(o, log, n + 1, f', key)
  {
  }

  lemma OthersLeaveCredentials(o: Outside, f: Facts, n: nat, r: Record)
    requires Applied(o, f, n, r).Some? && !(r.entry.OfCommand? && r.entry.command.RegisterCredential?)
    ensures Applied(o, f, n, r).value.credentials == f.credentials
  {
    hide WithoutZone;
  }

  lemma NextSaysCredential(o: Outside, log: seq<Record>, n: nat, f: Facts, key: (Account, Credential))
    requires n < |log| && CredentialSays(o, log, n, f, key) && Applied(o, f, n, log[n]).Some?
    ensures CredentialSays(o, log, n + 1, Applied(o, f, n, log[n]).value, key)
  {
    hide CredentialSays;
    if log[n].entry.OfCommand? && log[n].entry.command.RegisterCredential? {
      RegisteredSaysCredential(o, log, n, f, log[n].entry.command, key);
    } else {
      OthersLeaveCredentials(o, f, n, log[n]);
      OtherSaysCredential(o, log, n, f, Applied(o, f, n, log[n]).value, key);
    }
  }

  lemma NextSays(o: Outside, log: seq<Record>, n: nat, m: nat, f: Facts)
    requires m == n + 1 <= |log| && RowsSay(o, log, n, f) && Applied(o, f, n, log[n]).Some?
    ensures RowsSay(o, log, m, Applied(o, f, n, log[n]).value)
  {
    hide EventSays, TicketSays, TransferSays, PassSays, CredentialSays, Commanded, Attended;
    var f' := Applied(o, f, n, log[n]).value;
    forall e: EventId ensures EventSays(o, log, m, f', e) {
      NextSaysEvent(o, log, n, f, e);
    }
    forall t: TicketId ensures TicketSays(log, m, f', t) {
      NextSaysTicket(o, log, n, f, t);
    }
    forall k: nat ensures TransferSays(log, m, f', k) {
      NextSaysTransfer(o, log, n, f, k);
    }
    forall p: (TicketId, PassId) ensures PassSays(log, m, f', p) {
      NextSaysPass(o, log, n, f, p);
    }
    forall key: (Account, Credential) ensures CredentialSays(o, log, m, f', key) {
      NextSaysCredential(o, log, n, f, key);
    }
  }

  /** Every row of the copy is what the records before its position say. */
  lemma {:induction false} CopySaysTheLog(o: Outside, log: seq<Record>, n: nat)
    requires n <= |log| && CopyOf(o, log, n).Some?
    ensures RowsSay(o, log, n, CopyOf(o, log, n).value.facts)
  {
    if n > 0 {
      CopySaysTheLog(o, log, n - 1);
      CopyPosition(o, log, n - 1);
      hide RowsSay, Applied;
      NextSays(o, log, n - 1, n, CopyOf(o, log, n - 1).value.facts);
    } else {
      NothingSaid(o, log);
    }
  }

  lemma NothingSaid(o: Outside, log: seq<Record>)
    ensures RowsSay(o, log, 0, EMPTY)
  {
  }

  // ----- Which records the copy can follow -----

  predicate IssuedIn(log: seq<Record>, n: nat, t: TicketId, e: EventId)
    requires n <= |log|
  {
    IssuedAt(log, n, t).Some? && log[IssuedAt(log, n, t).value].entry.command.event == e
  }

  /** The command makes sense of what the records before it say. */
  predicate Sensible(o: Outside, log: seq<Record>, n: nat, c: Command)
    requires n <= |log|
  {
    match c
    case CreateEvent(e, _, _, _) => e in o.owners && CreatedAt(log, n, e).None?
    case SetEventStatus(e, _) => CreatedAt(log, n, e).Some?
    case SetEventCapacity(e, _) => CreatedAt(log, n, e).Some?
    case AddZone(e, _) => CreatedAt(log, n, e).Some?
    case RemoveZone(e, _) => CreatedAt(log, n, e).Some?
    case IssueTicket(t, e, _, _, _, _) => IssuedAt(log, n, t).None? && CreatedAt(log, n, e).Some?
    case TransferTicket(t, e, _) => IssuedIn(log, n, t, e)
    case RemoveRestriction(t, e, restriction) => !restriction.OtherRestriction? && IssuedIn(log, n, t, e)
    case RegisterCredential(account, bytes) => bytes in o.decoded && o.decoded[bytes].0 == account
    case OtherCommand => false
  }

  /** The record makes sense of the records before it. */
  predicate MakesSense(o: Outside, log: seq<Record>, n: nat)
    requires n < |log|
  {
    match log[n].entry
    case OfCommand(c) => Sensible(o, log, n, c)
    case OfPass(pass) =>
      && log[n].event.Some? && log[n].presentedAt.Some? && IssuedIn(log, n, pass.ticket, log[n].event.value)
      && ConsumedAt(log, n, (pass.ticket, pass.id)).None?
    case OtherEntry => false
  }

  /** It does, and its cursor is none of theirs. */
  predicate Follows(o: Outside, log: seq<Record>, n: nat)
    requires n < |log|
  {
    MakesSense(o, log, n) && forall i | 0 <= i < n :: log[i].cursor != log[n].cursor
  }

  lemma AppliedExactlyWhen(o: Outside, log: seq<Record>, n: nat, f: Facts)
    requires n < |log| && RowsSay(o, log, n, f)
    ensures Applied(o, f, n, log[n]).Some? <==> MakesSense(o, log, n)
  {
    hide ZonesOf, StatusOf, CapacityOf, IssuedOf, LastOfEvent, FreedOf, AdmissionsOf, LastAdmission, LastOfTicket, HolderOf,
      WithoutZone;
    match log[n].entry {
      case OfCommand(c) =>
        if c.CreateEvent? || c.SetEventStatus? || c.SetEventCapacity? || c.AddZone? || c.RemoveZone? || c.IssueTicket? {
          assert EventSays(o, log, n, f, c.event);
        }
        if c.IssueTicket? || c.TransferTicket? || c.RemoveRestriction? {
          assert TicketSays(log, n, f, c.ticket);
        }
        assert TransferSays(log, n, f, n);
      case OfPass(pass) =>
        assert TicketSays(log, n, f, pass.ticket);
        assert PassSays(log, n, f, (pass.ticket, pass.id));
      case OtherEntry =>
    }
  }

  lemma CursorKnown(o: Outside, log: seq<Record>, n: nat)
    requires n < |log| && CopyOf(o, log, n).Some?
    ensures var copy := CopyOf(o, log, n).value;
            copy.next in copy.log || KnowsCursor(copy.log, log[n].cursor)
            <==> exists i | 0 <= i < n :: log[i].cursor == log[n].cursor
  {
    CopyIsGapFree(o, log, n);
    hide CopyOf;
    var copy := CopyOf(o, log, n).value;
    if i :| 0 <= i < n && log[i].cursor == log[n].cursor {
      assert i in copy.log && copy.log[i].cursor == log[n].cursor;
    }
  }

  /** There is a copy of the first `n` records exactly when each makes sense of the ones before it. */
  lemma {:induction false} CopyFollowsExactlyWhen(o: Outside, log: seq<Record>, n: nat)
    requires n <= |log|
    ensures CopyOf(o, log, n).Some? <==> forall i | 0 <= i < n :: Follows(o, log, i)
  {
    if n > 0 {
      CopyFollowsExactlyWhen(o, log, n - 1);
      if CopyOf(o, log, n - 1).Some? {
        CopySaysTheLog(o, log, n - 1);
        CopyPosition(o, log, n - 1);
        CursorKnown(o, log, n - 1);
        hide RowsSay, Applied, KnowsCursor;
        AppliedExactlyWhen(o, log, n - 1, CopyOf(o, log, n - 1).value.facts);
        assert CopyOf(o, log, n).Some? <==> Follows(o, log, n - 1);
      }
      hide CopyOf, Follows;
      assert (forall i | 0 <= i < n :: Follows(o, log, i)) <==> (forall i | 0 <= i < n - 1 :: Follows(o, log, i)) && Follows(o, log, n - 1);
    }
  }
}
