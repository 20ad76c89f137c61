/**
  Any number of readers over one store, while the ledger's log grows: a reader
  locks the position's row for its whole batch, and may fail at any point.
 */
module DerivedReaders {
  import opened Common
  import opened LedgerFacts
  import opened DerivedReader

  type ReaderId = nat

  /** A batch in progress: the position it read, its page once pulled, and its own uncommitted copy. */
  datatype Work = Work(from: Copy, records: seq<Record>, done: nat, tx: Copy)

  datatype Store = Store(log: seq<Record>, copy: Copy, lock: Option<ReaderId>, work: map<ReaderId, Work>)

  datatype Event =
    | Append(record: Record)
    | Lock(r: ReaderId)
    | Pulled(r: ReaderId, batchSize: nat, page: Answer)
    | ApplyNext(r: ReaderId)
    | Commit(r: ReaderId)
    | Fail(r: ReaderId)

  predicate Fresh(log: seq<Record>, record: Record) {
    record.cursor != LOG_START && forall i | 0 <= i < |log| :: log[i].cursor != record.cursor
  }

  ghost predicate CanHappen(o: Outside, s: Store, e: Event) {
    match e
    case Append(record) => Fresh(s.log, record)
    case Lock(r) => s.lock.None? && r !in s.work
    case Pulled(r, batchSize, page) =>
      r in s.work && s.work[r].records == [] && page.Page? && page.records != []
      && PageOk(s.work[r].from.cursor, batchSize, page) && Reads(s.log, s.work[r].from.cursor, page)
    case ApplyNext(r) =>
      r in s.work && s.work[r].done < |s.work[r].records|
      && Extended(o, s.work[r].tx, s.work[r].records[s.work[r].done]).Some?
    case Commit(r) => r in s.work && s.work[r].records != [] && s.work[r].done == |s.work[r].records|
    case Fail(r) => r in s.work
  }

  function Happen(o: Outside, s: Store, e: Event): Store
    requires CanHappen(o, s, e)
  {
    match e
    case Append(record) => s.(log := s.log + [record])
    case Lock(r) => s.(lock := Some(r), work := s.work[r := Work(s.copy, [], 0, s.copy)])
    case Pulled(r, _, page) => s.(work := s.work[r := s.work[r].(records := page.records)])
    case ApplyNext(r) =>
      var w := s.work[r];
      s.(work := s.work[r := w.(done := w.done + 1, tx := Extended(o, w.tx, w.records[w.done]).value)])
    case Commit(r) => s.(copy := s.work[r].tx, lock := None, work := s.work - {r})
    case Fail(r) => s.(lock := None, work := s.work - {r})
  }

  const BEGINNING := Store([], UNREAD, None, map[])

  /** The events can happen in order, each possible when its turn comes. */
  ghost predicate IsHistory(o: Outside, s: Store, events: seq<Event>)
    decreases |events|
  {
    events == [] || (CanHappen(o, s, events[0]) && IsHistory(o, Happen(o, s, events[0]), events[1..]))
  }

  /** The store they leave. */
  ghost function Left(o: Outside, s: Store, events: seq<Event>): Store
    requires IsHistory(o, s, events)
    decreases |events|
  {
    if events == [] then s else Left(o, Happen(o, s, events[0]), events[1..])
  }

  ghost predicate WorkOk(o: Outside, s: Store, w: Work) {
    && w.from == s.copy && w.done <= |w.records| && s.copy.next + |w.records| <= |s.log|
    && (forall i | 0 <= i < |w.records| :: w.records[i] == s.log[s.copy.next + i])
    && CopyOf(o, s.log, s.copy.next + w.done) == Some(w.tx)
  }

  ghost predicate Consistent(o: Outside, s: Store) {
    && DistinctCursors(s.log) && s.copy.next <= |s.log| && CopyOf(o, s.log, s.copy.next) == Some(s.copy)
    && (forall r | r in s.work :: s.lock == Some(r) && WorkOk(o, s, s.work[r]))
  }

  lemma AppendKeepsConsistent(o: Outside, s: Store, record: Record)
    requires Consistent(o, s) && Fresh(s.log, record)
    ensures Consistent(o, s.(log := s.log + [record]))
  {
    var log := s.log + [record];
    CopyOfPrefix(o, s.log, log, s.copy.next);
    forall i, j | 0 <= i < j <= |log| ensures CursorAt(log, i) != CursorAt(log, j) {
      assert CursorAt(s.log, i) == CursorAt(log, i);
      if j <= |s.log| {
        assert CursorAt(s.log, j) == CursorAt(log, j);
      }
    }
    forall r | r in s.work ensures WorkOk(o, s.(log := log), s.work[r]) {
      CopyOfPrefix(o, s.log, log, s.copy.next + s.work[r].done);
    }
  }

  /** A page read from the committed position is the log's next records. */
  lemma PageIsNext(o: Outside, log: seq<Record>, copy: Copy, page: Answer)
    requires copy.next <= |log| && CopyOf(o, log, copy.next) == Some(copy) && page.Page?
    requires Reads(log, copy.cursor, page)
    ensures copy.next + |page.records| <= |log|
    ensures forall i | 0 <= i < |page.records| :: page.records[i] == log[copy.next + i]
  {
    CopyPosition(o, log, copy.next);
    hide CopyOf;
    assert page.records <= log[copy.next..];
    forall i | 0 <= i < |page.records| ensures page.records[i] == log[copy.next + i] {
      assert page.records[i] == log[copy.next..][i];
    }
  }

  lemma PulledKeepsConsistent(o: Outside, s: Store, r: ReaderId, batchSize: nat, page: Answer)
    requires Consistent(o, s) && CanHappen(o, s, Pulled(r, batchSize, page))
    ensures Consistent(o, Happen(o, s, Pulled(r, batchSize, page)))
  {
    hide CopyOf, Reads, PageOk, DistinctCursors;
    assert WorkOk(o, s, s.work[r]);
    PageIsNext(o, s.log, s.copy, page);
  }

  lemma ApplyKeepsConsistent(o: Outside, s: Store, r: ReaderId)
    requires Consistent(o, s) && CanHappen(o, s, ApplyNext(r))
    ensures Consistent(o, Happen(o, s, ApplyNext(r)))
  {
    hide Extended, DistinctCursors;
    var w := s.work[r];
    assert WorkOk(o, s, w);
    assert w.records[w.done] == s.log[s.copy.next + w.done];
    assert CopyOf(o, s.log, s.copy.next + w.done + 1) == Extended(o, w.tx, w.records[w.done]);
    hide CopyOf;
  }

  lemma CommitKeepsConsistent(o: Outside, s: Store, r: ReaderId)
    requires Consistent(o, s) && CanHappen(o, s, Commit(r))
    ensures Consistent(o, Happen(o, s, Commit(r)))
  {
    CopyIsGapFree(o, s.log, s.copy.next + s.work[r].done);
  }

  lemma EventKeepsConsistent(o: Outside, s: Store, e: Event)
    requires Consistent(o, s) && CanHappen(o, s, e)
    ensures Consistent(o, Happen(o, s, e))
  {
    match e {
      case Append(record) => AppendKeepsConsistent(o, s, record);
      case Pulled(r, batchSize, page) => PulledKeepsConsistent(o, s, r, batchSize, page);
      case ApplyNext(r) => ApplyKeepsConsistent(o, s, r);
      case Commit(r) => CommitKeepsConsistent(o, s, r);
      case _ =>
    }
  }

  lemma {:induction false} HistoryIsConsistent(o: Outside, s: Store, events: seq<Event>)
    requires Consistent(o, s) && IsHistory(o, s, events)
    ensures Consistent(o, Left(o, s, events))
    decreases |events|
  {
    hide CanHappen, Happen, Consistent;
    if events != [] {
      EventKeepsConsistent(o, s, events[0]);
      HistoryIsConsistent(o, Happen(o, s, events[0]), events[1..]);
    }
  }

  /**
    Whatever the batch sizes, however many readers and wherever they fail, the
    committed copy is the plain fold of the projections over the records before its
    position, with that position's cursor and one row a record.
   */
  lemma CommittedCopyIsTheFold(o: Outside, events: seq<Event>)
    requires IsHistory(o, BEGINNING, events)
    ensures var s := Left(o, BEGINNING, events);
            && s.copy.next <= |s.log| && CopyOf(o, s.log, s.copy.next) == Some(s.copy)
            && s.copy.cursor == CursorAt(s.log, s.copy.next)
            && (forall i: nat :: i in s.copy.log <==> i < s.copy.next)
            && (forall i: nat | i < s.copy.next :: s.copy.log[i] == RowOf(s.log[i]))
  {
    HistoryIsConsistent(o, BEGINNING, events);
    var s := Left(o, BEGINNING, events);
    CopyIsGapFree(o, s.log, s.copy.next);
  }

  /** One event never takes the copy back: it reflects the same records, or more. */
  lemma CopyOnlyAdvances(o: Outside, s: Store, e: Event)
    requires Consistent(o, s) && CanHappen(o, s, e)
    ensures var s' := Happen(o, s, e); s.copy.next <= s'.copy.next && s.log <= s'.log
  {
    if e.Commit? {
      CommitAdvances(o, s, e.r);
    } else {
      hide Consistent;
    }
  }

  lemma CommitAdvances(o: Outside, s: Store, r: ReaderId)
    requires Consistent(o, s) && CanHappen(o, s, Commit(r))
    ensures s.copy.next < Happen(o, s, Commit(r)).copy.next
  {
    CopyIsGapFree(o, s.log, s.copy.next + s.work[r].done);
  }
}
