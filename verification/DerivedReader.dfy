/**
  The derived copy's reader. Each batch is one transaction: the rows of its
  records, every projection's effect and the new position commit together or not
  at all.
 */
module DerivedReader {
  import opened Common
  import opened LedgerFacts

  /** What is recorded of an applied record. */
  datatype LogRow = LogRow(cursor: Cursor, recordedAt: int, event: Option<EventId>, presentedAt: Option<int>)

  datatype Copy = Copy(cursor: Cursor, next: nat, log: map<nat, LogRow>, facts: Facts)

  const LOG_START: Cursor := 0

  const UNREAD := Copy(LOG_START, 0, map[], EMPTY)

  function RowOf(r: Record): LogRow {
    LogRow(r.cursor, r.recordedAt, r.event, r.presentedAt)
  }

  /** The store keeps one row per cursor. */
  predicate KnowsCursor(rows: map<nat, LogRow>, cursor: Cursor) {
    exists i | i in rows :: rows[i].cursor == cursor
  }

  // ----- The plain fold -----

  function Extended(o: Outside, copy: Copy, r: Record): Option<Copy> {
    if copy.next in copy.log || KnowsCursor(copy.log, r.cursor) then None
    else
      match Applied(o, copy.facts, copy.next, r)
      case None => None
      case Some(facts) => Some(Copy(r.cursor, copy.next + 1, copy.log[copy.next := RowOf(r)], facts))
  }

  /** The projections folded over the first `n` records. */
  function CopyOf(o: Outside, log: seq<Record>, n: nat): Option<Copy>
    requires n <= |log|
  {
    if n == 0 then Some(UNREAD)
    else
      match CopyOf(o, log, n - 1)
      case None => None
      case Some(copy) => Extended(o, copy, log[n - 1])
  }

  lemma CopyNext(o: Outside, log: seq<Record>, n: nat)
    requires n < |log| && CopyOf(o, log, n).Some?
    ensures CopyOf(o, log, n + 1) == Extended(o, CopyOf(o, log, n).value, log[n])
  {
  }

  /** Where the log is read from after its first `n` records. */
  function CursorAt(log: seq<Record>, n: nat): Cursor
    requires n <= |log|
  {
    if n == 0 then LOG_START else log[n - 1].cursor
  }

  /** Every record of the log has a cursor of its own, none of them the start's. */
  ghost predicate DistinctCursors(log: seq<Record>) {
    forall i, j | 0 <= i < j <= |log| :: CursorAt(log, i) != CursorAt(log, j)
  }

  /** The copy's rows number the records it reflects, without gaps, and its position is their end. */
  lemma {:induction false} CopyIsGapFree(o: Outside, log: seq<Record>, n: nat)
    requires n <= |log| && CopyOf(o, log, n).Some?
    ensures var copy := CopyOf(o, log, n).value;
            && copy.next == n && copy.cursor == CursorAt(log, n)
            && (forall i: nat :: i in copy.log <==> i < n)
            && (forall i: nat | i < n :: copy.log[i] == RowOf(log[i]))
  {
    hide Applied, KnowsCursor;
    if n > 0 {
      CopyIsGapFree(o, log, n - 1);
    }
  }

  lemma CopyPosition(o: Outside, log: seq<Record>, n: nat)
    requires n <= |log| && CopyOf(o, log, n).Some?
    ensures CopyOf(o, log, n).value.next == n && CopyOf(o, log, n).value.cursor == CursorAt(log, n)
  {
    CopyIsGapFree(o, log, n);
  }

  /** Extending the log changes nothing of what its prefixes give. */
  lemma {:induction false} CopyOfPrefix(o: Outside, log: seq<Record>, longer: seq<Record>, n: nat)
    requires n <= |log| && log <= longer
    ensures CopyOf(o, longer, n) == CopyOf(o, log, n)
  {
    hide Extended;
    if n > 0 {
      CopyOfPrefix(o, log, longer, n - 1);
    }
  }

  /** Past a record that cannot be applied there is no copy. */
  lemma {:induction false} NoCopyFrom(o: Outside, log: seq<Record>, n: nat, m: nat)
    requires n <= m <= |log| && CopyOf(o, log, n).None?
    ensures CopyOf(o, log, m).None?
  {
    if n < m {
      NoCopyFrom(o, log, n, m - 1);
    }
  }

  // ----- Reading the log -----

  /** The ledger's answer to a read: an error, or some records and the cursor to read from next. */
  datatype Answer = Failed | Page(records: seq<Record>, next: Cursor)

  /** The log's own records from a cursor on, empty only at its head. What the answer claims beside them is not trusted. */
  ghost predicate Reads(log: seq<Record>, from: Cursor, page: Answer) {
    page.Page? ==>
      forall i | 0 <= i <= |log| && CursorAt(log, i) == from ::
        page.records <= log[i..] && (page.records == [] ==> i == |log|)
  }

  datatype Step = Advanced(records: seq<Record>) | AtHead | ReadError | ContractError | Unprojectable | Lost

  /** When the connection is lost: before a record is applied, or while committing, when the commit may have arrived. */
  datatype Loss = Nowhere | Before(record: nat) | Committing(arrives: bool)

  /** What happens to one step: whether the ledger answers and with how many records, and whether the connection is lost. */
  datatype Turn = Turn(answers: bool, size: nat, loss: Loss)

  /** The checks made of a page before anything of it is applied. */
  predicate PageOk(from: Cursor, batchSize: nat, page: Answer)
    requires page.Page?
  {
    && |page.records| <= batchSize
    && page.next == (if page.records == [] then from else page.records[|page.records| - 1].cursor)
  }

  /** The connection is lost with `n` records after `from` to apply: before one of them that all before it can be applied. */
  ghost predicate LostAt(o: Outside, log: seq<Record>, from: nat, n: nat, loss: Loss)
    requires from + n <= |log|
  {
    loss.Before? && loss.record < n && CopyOf(o, log, from + loss.record).Some?
  }

  /** A record that cannot be applied stops the batch where it is. */
  lemma NoCopyAfter(o: Outside, log: seq<Record>, from: nat, k: nat, n: nat, loss: Loss)
    requires k < n && from + n <= |log| && CopyOf(o, log, from + k + 1).None? && (loss.Before? ==> k < loss.record || n <= loss.record)
    ensures CopyOf(o, log, from + n).None? && !LostAt(o, log, from, n, loss)
  {
    NoCopyFrom(o, log, from + k + 1, from + n);
    if loss.Before? && loss.record < n {
      NoCopyFrom(o, log, from + k + 1, from + loss.record);
    }
  }

  /**
    Applies a page's records to the copy, one by one, inside a transaction; the outcome
    is the copy to commit, unless a record cannot be applied or the connection is lost.
   */
  method ApplyRecords(o: Outside, ghost log: seq<Record>, from: Copy, records: seq<Record>, loss: Loss)
    returns (step: Step, tx: Copy)
    requires from.next + |records| <= |log| && records == log[from.next..from.next + |records|]
    requires CopyOf(o, log, from.next) == Some(from)
    ensures step.Lost? <==> LostAt(o, log, from.next, |records|, loss)
    ensures step.Unprojectable? <==> CopyOf(o, log, from.next + |records|).None? && !step.Lost?
    ensures !step.Lost? && !step.Unprojectable? ==>
              step == Advanced(records) && CopyOf(o, log, from.next + |records|) == Some(tx)
  {
    hide Applied, KnowsCursor, CopyOf;
    CopyPosition(o, log, from.next);
    tx := from;
    var tables := new Tables(o, from.facts);
    var k := 0;
    while k < |records|
      invariant 0 <= k <= |records| && tables.outside == o && fresh(tables)
      invariant tx.next == from.next + k && tables.Contents() == tx.facts
      invariant CopyOf(o, log, from.next + k) == Some(tx)
      invariant loss.Before? ==> k <= loss.record || |records| <= loss.record
    {
      if loss == Before(k) {
        return Lost, from;
      }
      assert !(loss.Before? && loss.record == k);
      var r := records[k];
      assert r == log[from.next + k];
      CopyNext(o, log, from.next + k);
      if tx.next in tx.log || KnowsCursor(tx.log, r.cursor) {
        NoCopyAfter(o, log, from.next, k, |records|, loss);
        return Unprojectable, from;
      }
      var one := tables.Apply(tx.next, r);
      if !one {
        NoCopyAfter(o, log, from.next, k, |records|, loss);
        return Unprojectable, from;
      }
      tx := Copy(r.cursor, tx.next + 1, tx.log[tx.next := RowOf(r)], tables.Contents());
      k := k + 1;
    }
    step := Advanced(records);
  }

  class Reader {
    const outside: Outside
    const batchSize: nat
    /** The store, as last committed. */
    var committed: Copy

    constructor (outside: Outside, batchSize: nat)
      requires batchSize >= 1
      ensures committed == UNREAD && this.outside == outside && this.batchSize == batchSize
    {
      this.outside, this.batchSize, committed := outside, batchSize, UNREAD;
    }

    /** The store holds the fold of the projections over what it says it has read. */
    ghost predicate Follows(log: seq<Record>)
      reads this
    {
      committed.next <= |log| && CopyOf(outside, log, committed.next) == Some(committed)
    }

    /**
      One batch: its whole page is committed, or nothing. Each outcome has its one cause;
      when the connection is lost while committing, the reader does not know which.
     */
    method Step(ghost log: seq<Record>, page: Answer, loss: Loss) returns (step: Step)
      requires Follows(log) && DistinctCursors(log) && Reads(log, committed.cursor, page)
      modifies this`committed
      ensures Follows(log)
      ensures step.ReadError? <==> page.Failed?
      ensures step.ContractError? <==> page.Page? && !PageOk(old(committed.cursor), batchSize, page)
      ensures step.AtHead? <==> page.Page? && PageOk(old(committed.cursor), batchSize, page) && page.records == []
      ensures step.AtHead? ==> committed.next == |log|
      ensures step.Advanced? || step.Lost? || step.Unprojectable? ==>
                page.Page? && page.records != [] && old(committed.next) + |page.records| <= |log|
      ensures step.Advanced? || step.Lost? || step.Unprojectable? ==>
                var n := old(committed.next) + |page.records|;
                var before := LostAt(outside, log, old(committed.next), |page.records|, loss);
                && (step.Lost? <==> before || (CopyOf(outside, log, n).Some? && loss.Committing?))
                && (step.Unprojectable? <==> !before && CopyOf(outside, log, n).None?)
                && (step.Advanced? ==> step.records == page.records)
                && (if step.Advanced? || (step.Lost? && loss == Committing(true))
                    then committed.next == n && committed.cursor == page.next
                    else committed == old(committed))
      ensures step.ReadError? || step.ContractError? || step.AtHead? ==> committed == old(committed)
    {
      hide CopyOf;
      CopyPosition(outside, log, committed.next);
      if page.Failed? {
        return ReadError;
      }
      if !PageOk(committed.cursor, batchSize, page) {
        return ContractError;
      }
      assert page.records <= log[committed.next..];
      if page.records == [] {
        return AtHead;
      }
      var tx;
      step, tx := ApplyRecords(outside, log, committed, page.records, loss);
      if step.Advanced? {
        CopyPosition(outside, log, committed.next + |page.records|);
        assert log[committed.next..][|page.records| - 1] == page.records[|page.records| - 1];
        if loss != Committing(false) {
          committed := tx;
        }
        if loss.Committing? {
          step := Lost;
        }
      }
    }

    /** An honest answer to a read of at most `batchSize` records: as many of those left as the ledger gives. */
    method Pull(log: seq<Record>, turn: Turn) returns (page: Answer)
      requires batchSize >= 1 && Follows(log) && DistinctCursors(log)
      ensures page.Failed? <==> !turn.answers
      ensures page.Page? ==> PageOk(committed.cursor, batchSize, page) && (page.records == [] <==> committed.next == |log|)
      ensures Reads(log, committed.cursor, page)
    {
      CopyPosition(outside, log, committed.next);
      if !turn.answers {
        return Failed;
      }
      var i := committed.next;
      if i == |log| {
        page := Page([], committed.cursor);
      } else {
        var size := if turn.size < 1 then 1 else if batchSize < turn.size then batchSize else turn.size;
        if |log| - i < size {
          size := |log| - i;
        }
        page := Page(log[i..i + size], log[i + size - 1].cursor);
      }
    }

    /** One pull, and the step over what it gives. */
    method Take(log: seq<Record>, turn: Turn) returns (step: Step)
      requires batchSize >= 1 && Follows(log) && DistinctCursors(log)
      modifies this`committed
      ensures Follows(log)
      ensures step.ReadError? <==> !turn.answers
      ensures step.AtHead? <==> turn.answers && old(committed.next) == |log|
      ensures step.Lost? ==> !turn.loss.Nowhere?
      ensures step.Unprojectable? ==> CopyOf(outside, log, |log|).None?
      ensures step.Advanced? ==> !turn.loss.Committing? && 1 <= |step.records| <= batchSize
      ensures step.Advanced? || step.ReadError? || step.AtHead? || step.Lost? || step.Unprojectable?
      ensures if step.Advanced? then committed.next == old(committed.next) + |step.records|
              else if step.Lost? && turn.loss == Committing(true)
              then old(committed.next) < committed.next <= old(committed.next) + batchSize
              else committed == old(committed)
    {
      hide CopyOf, CursorAt, DistinctCursors, Reads;
      var page := Pull(log, turn);
      ghost var from := committed.next;
      step := Step(log, page, turn.loss);
      if step.Unprojectable? {
        NoCopyFrom(outside, log, from + |page.records|, |log|);
      }
    }

    /**
      Steps until a pull returns nothing, or a step fails; `turns` is what the ledger and
      the connection do at each. Of a log the ledger accepted it ends at the head, having
      applied what was left, unless a turn fails: in an error of the read exactly if the
      ledger did not answer, and lost exactly if the connection was. Then the batch under
      way may have been committed all the same.
     */
    method CatchUp(log: seq<Record>, turns: nat -> Turn) returns (applied: nat, last: Step, steps: nat)
      requires Follows(log) && DistinctCursors(log) && batchSize >= 1
      modifies this`committed
      ensures Follows(log) && steps <= |log| - old(committed.next)
      ensures forall k: nat | k < steps :: turns(k).answers && !turns(k).loss.Committing?
      ensures last.ReadError? <==> !turns(steps).answers
      ensures last.AtHead? || last.ReadError? || last.Lost? || last.Unprojectable?
      ensures last.AtHead? ==> committed.next == |log|
      ensures last.Lost? ==> !turns(steps).loss.Nowhere?
      ensures last.Unprojectable? ==> CopyOf(outside, log, |log|).None?
      ensures committed.next == old(committed.next) + applied
              || (last.Lost? && turns(steps).loss == Committing(true)
                  && old(committed.next) + applied < committed.next <= old(committed.next) + applied + batchSize)
      ensures CopyOf(outside, log, |log|).Some? && (forall k: nat | k <= steps :: turns(k).answers && turns(k).loss.Nowhere?) ==>
                last.AtHead? && applied == |log| - old(committed.next)
    {
      hide CopyOf, DistinctCursors;
      applied, steps := 0, 0;
      while true
        invariant Follows(log) && committed.next == old(committed.next) + applied && steps <= applied
        invariant forall k: nat | k < steps :: turns(k).answers && !turns(k).loss.Committing?
        decreases |log| - committed.next
      {
        last := Take(log, turns(steps));
        if !last.Advanced? {
          return;
        }
        applied, steps := applied + |last.records|, steps + 1;
      }
    }
  }
}
