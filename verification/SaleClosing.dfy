/**
  Closing an event's sales: once a `releaseAll` has returned, nothing of the
  event is outstanding or payable, and nothing becomes so, until its sales reopen.
 */
module SaleClosing {
  import opened Common
  import opened Allocation
  import opened SaleProtocol
  import opened SaleLocks
  import opened SaleRoom
  import opened SaleMoney

  /** A `releaseAll` that has listed what to visit, and whose closure is in force. */
  predicate Current(s: State, d: Drain) {
    s.closed && d.listed && d.epoch == s.epoch
  }

  /** A payment that found the sales open. */
  predicate PayPassed(txn: Txn) {
    txn.Paying? && !txn.pay.PayStarted?
  }

  predicate Payable(s: State, k: HostedId) {
    k in s.hosted && k in s.remote && s.remote[k].status.Open?
  }

  predicate PaidFor(paid: set<HostedId>, hosted: map<HostedId, Hosted>, h: HoldId) {
    exists k | k in paid :: k in hosted && hosted[k].hold == h
  }

  /** What is outstanding is still to be visited, or its payment was found on the way. */
  ghost predicate HoldsListed(s: State, d: Drain) {
    forall h | h in s.holds && s.holds[h].status.Outstanding? :: h in d.todo || PaidFor(d.paid, s.hosted, h)
  }

  ghost predicate PayableListed(s: State, d: Drain) {
    forall k | Payable(s, k) :: s.hosted[k].hold in d.todo
  }

  ghost predicate PayersListed(s: State, d: Drain) {
    forall t | t in s.txns && PayPassed(s.txns[t]) :: s.txns[t].hold in d.todo
  }

  ghost predicate DrainsOk(s: State) {
    forall r | r in s.drains && Current(s, s.drains[r]) ::
      HoldsListed(s, s.drains[r]) && PayableListed(s, s.drains[r]) && PayersListed(s, s.drains[r])
  }

  ghost predicate DoneOk(s: State) {
    forall r | r in s.drains ::
      && s.drains[r].epoch <= s.epoch && (!s.drains[r].listed ==> s.drains[r].todo == {})
      && (s.drains[r].done ==> s.drains[r].listed && s.drains[r].todo == {} && forall k | k in s.drains[r].paid :: Handled(s, k))
  }

  /** A hold being ended, its checkout cancelled, has nothing left to pay. */
  ghost predicate EndsOk(s: State) {
    forall t, k | t in s.txns && s.txns[t].Ending? && s.txns[t].end.EndReady? && Payable(s, k) ::
      s.hosted[k].hold != s.txns[t].hold
  }

  /** A visit under way is of a hold still to be visited. */
  ghost predicate VisitsOk(s: State) {
    forall t | t in s.txns && s.txns[t].Ending? && s.txns[t].cause.Some? ::
      s.txns[t].cause.value in s.drains && s.txns[t].hold in s.drains[s.txns[t].cause.value].todo
  }

  ghost predicate Closing(s: State) {
    DrainsOk(s) && DoneOk(s) && EndsOk(s) && VisitsOk(s)
  }

  // ----- What returning means -----

  /** Nothing of the event is outstanding, payable, or about to become so. */
  ghost predicate AllReleased(s: State) {
    && (forall h | h in s.holds :: !s.holds[h].status.Outstanding?)
    && (forall k :: !Payable(s, k))
    && (forall t | t in s.txns :: !PayPassed(s.txns[t]))
  }

  lemma ReturnedMeansReleased(s: State, r: DrainId)
    requires Closing(s) && EndedOk(s.refunds, s.sales, s.hosted, s.holds) && SalesOk(s.sales, s.hosted, s.remote)
    requires r in s.drains && s.drains[r].done && s.closed && s.drains[r].epoch == s.epoch
    ensures AllReleased(s)
  {
    var d := s.drains[r];
    assert Current(s, d);
    forall h | h in s.holds && PaidFor(d.paid, s.hosted, h) ensures !s.holds[h].status.Outstanding? {
      var k :| k in d.paid && k in s.hosted && s.hosted[k].hold == h;
      assert Handled(s, k);
    }
  }

  // ----- Steps that list nothing, visit nothing, and start nothing -----

  /** Nothing becomes outstanding or payable while sales are closed. */
  ghost predicate Starts(s: State, s': State) {
    && (s'.closed ==> forall h | h in s'.holds && s'.holds[h].status.Outstanding? :: h in s.holds && s.holds[h].status.Outstanding?)
    && (s'.closed ==>
          forall t | t in s'.txns && PayPassed(s'.txns[t]) ::
            t in s.txns && PayPassed(s.txns[t]) && s'.txns[t].hold == s.txns[t].hold)
  }

  ghost predicate SameRows(s: State, s': State) {
    && (forall k | k in s.hosted :: k in s'.hosted && s'.hosted[k].hold == s.hosted[k].hold)
    && (forall k | Payable(s', k) :: Payable(s, k))
    && (forall t | t in s'.txns && s'.txns[t].Ending? && s'.txns[t].end.EndReady? ::
          t in s.txns && s.txns[t].Ending? && s.txns[t].end.EndReady? && s'.txns[t].hold == s.txns[t].hold)
  }

  ghost predicate SameVisits(s: State, s': State) {
    && s'.drains == s.drains
    && (forall t | t in s'.txns && s'.txns[t].Ending? && s'.txns[t].cause.Some? ::
          (s'.txns[t].cause.value in s.drains && s'.txns[t].hold in s.drains[s'.txns[t].cause.value].todo)
          || (t in s.txns && s.txns[t].Ending? && s.txns[t].cause == s'.txns[t].cause && s.txns[t].hold == s'.txns[t].hold))
  }

  ghost predicate Remembers(s: State, s': State) {
    && (forall k | k in s.refunds :: k in s'.refunds)
    && (forall x | x in s.sales :: x in s'.sales && s'.sales[x].hosted == s.sales[x].hosted)
  }

  lemma RememberingKeepsHandled(s: State, s': State, k: HostedId)
    requires Remembers(s, s') && Handled(s, k)
    ensures Handled(s', k)
  {
    if k !in s.refunds {
      var x :| x in s.sales && s.sales[x].hosted == k;
      assert s'.sales[x].hosted == k;
    }
  }

  lemma RememberingKeepsDone(s: State, s': State)
    requires DoneOk(s) && Remembers(s, s') && s'.drains == s.drains && s.epoch <= s'.epoch
    ensures DoneOk(s')
  {
    hide Handled, Remembers;
    forall r, k | r in s.drains && s.drains[r].done && k in s.drains[r].paid ensures Handled(s', k) {
      RememberingKeepsHandled(s, s', k);
    }
  }

  lemma StartingNothingKeepsDrain(s: State, s': State, d: Drain)
    requires HoldsListed(s, d) && PayableListed(s, d) && PayersListed(s, d)
    requires Starts(s, s') && SameRows(s, s') && s'.closed
    ensures HoldsListed(s', d) && PayableListed(s', d) && PayersListed(s', d)
  {
    forall h | h in s'.holds && s'.holds[h].status.Outstanding? ensures h in d.todo || PaidFor(d.paid, s'.hosted, h) {
      if h !in d.todo {
        var k :| k in d.paid && k in s.hosted && s.hosted[k].hold == h;
        assert s'.hosted[k].hold == h;
      }
    }
  }

  lemma StartingNothingKeepsClosing(s: State, s': State)
    requires Closing(s) && Starts(s, s') && SameRows(s, s') && Remembers(s, s') && SameVisits(s, s')
    requires s'.epoch == s.epoch && (s'.closed ==> s.closed)
    ensures Closing(s')
  {
    RememberingKeepsDone(s, s');
    hide DoneOk, Remembers;
    assert EndsOk(s') && VisitsOk(s');
    hide EndsOk, VisitsOk, SameVisits;
    forall r | r in s'.drains && Current(s', s'.drains[r])
      ensures HoldsListed(s', s'.drains[r]) && PayableListed(s', s'.drains[r]) && PayersListed(s', s'.drains[r])
    {
      assert Current(s, s.drains[r]);
      hide HoldsListed, PayableListed, PayersListed, Starts, SameRows;
      StartingNothingKeepsDrain(s, s', s.drains[r]);
    }
  }

  lemma ProgressKeepsClosing(s: State, step: Progress)
    requires Closing(s) && ProgressEnabled(s, step)
    ensures Closing(ApplyProgress(s, step))
  {
    var s' := ApplyProgress(s, step);
    ProgressStartsNothing(s, step);
    hide ApplyProgress, ProgressEnabled, Closing, Starts, SameRows, SameVisits, Remembers;
    StartingNothingKeepsClosing(s, s');
  }

  lemma ProgressStartsNothing(s: State, step: Progress)
    requires ProgressEnabled(s, step)
    ensures var s' := ApplyProgress(s, step);
            && Starts(s, s') && SameRows(s, s') && Remembers(s, s') && SameVisits(s, s')
            && s'.epoch == s.epoch && s'.closed == s.closed
  {
    hide ApplyProgress, ProgressEnabled;
    ProgressLeaves(s, step);
  }

  /** Only an allocation's own progress changes. */
  lemma ProgressLeaves(s: State, step: Progress)
    requires ProgressEnabled(s, step)
    ensures var s' := ApplyProgress(s, step);
            && s'.holds == s.holds && s'.hosted == s.hosted && s'.remote == s.remote && s'.refunds == s.refunds
            && s'.sales == s.sales && s'.drains == s.drains && s'.epoch == s.epoch && s'.closed == s.closed
            && forall t | t in s'.txns && !s'.txns[t].Allocating? :: t in s.txns && s'.txns[t] == s.txns[t]
  {
    hide Unlocked, Lapsing, ExpiredHolds, GrantedSeat, OnLedger, Issued, Handled;
  }

  // ----- Commits -----

  lemma CommitStartsNothing(s: State, step: Commit)
    requires Windows(s) && CommitEnabled(s, step) && !step.DoClose?
    ensures Starts(s, ApplyCommit(s, step))
  {
    if step.DoPlace? || step.DoSell? {
      assert Window(s.now, BeingPaid(s.txns), s.quotas, s.holds, s.grants, s.ledger, s.closed, s.txns[step.t].a);
    }
    hide Unlocked, PlaceFree, PlaceTaken, PlaceRefused, RoomSeen, AllocatedCount, Entitle, Window, CountsSeen,
      QuotaHasRoom;
  }

  lemma CommitKeepsSameRows(s: State, step: Commit)
    requires CommitEnabled(s, step)
    ensures var s' := ApplyCommit(s, step); SameRows(s, s')
  {
    hide Unlocked, PlaceFree, PlaceTaken, PlaceRefused, RoomSeen, AllocatedCount, Entitle, CountsSeen,
      QuotaHasRoom, Lapsing, SetHold, EndHold;
  }

  lemma CommitRemembers(s: State, step: Commit)
    requires CommitEnabled(s, step)
    ensures Remembers(s, ApplyCommit(s, step))
    ensures var s' := ApplyCommit(s, step);
            step.DoClose? || (SameVisits(s, s') && s'.epoch == s.epoch && s'.closed == s.closed)
  {
    hide Unlocked, PlaceFree, PlaceTaken, PlaceRefused, RoomSeen, AllocatedCount, CountsSeen, QuotaHasRoom,
      Lapsing, SetHold, EndHold;
  }

  /** A closure joins the one in force, or comes into force with no visit listed under it yet. */
  lemma CloseKeepsClosing(s: State, t: TxnId)
    requires Closing(s) && CanClose(s, t)
    ensures Closing(Close(s, t))
  {
    var s' := Close(s, t);
    hide Unlocked;
    assert EndsOk(s') && VisitsOk(s');
    assert DoneOk(s') by {
      forall r, k | r in s.drains && s.drains[r].done && k in s.drains[r].paid ensures Handled(s', k) {
        assert Handled(s, k);
      }
    }
    hide DoneOk, EndsOk, VisitsOk;
    forall r | r in s'.drains && Current(s', s'.drains[r])
      ensures HoldsListed(s', s'.drains[r]) && PayableListed(s', s'.drains[r]) && PayersListed(s', s'.drains[r])
    {
      assert r in s.drains && s'.drains[r] == s.drains[r];
      assert Current(s, s.drains[r]);
    }
  }

  lemma CommitKeepsClosing(s: State, step: Commit)
    requires Windows(s) && Closing(s) && CommitEnabled(s, step)
    ensures Closing(ApplyCommit(s, step))
  {
    if step.DoClose? {
      CloseKeepsClosing(s, step.t);
    } else {
      CommitStartsNothing(s, step);
      CommitKeepsSameRows(s, step);
      CommitRemembers(s, step);
      hide ApplyCommit, CommitEnabled, Closing, Starts, SameRows, SameVisits, Remembers, Windows;
      StartingNothingKeepsClosing(s, ApplyCommit(s, step));
    }
  }

  // ----- The desk -----

  /** Every row the provider still takes money for is open, so its hold is listed. */
  lemma ListKeepsClosing(s: State, r: DrainId)
    requires Closing(s) && CanList(s, r)
    requires HostedOk(s.holds, s.hosted, s.remote) && TxnsOk(s.txns, s.holds, s.hosted, s.remote)
    ensures Closing(List(s, r))
  {
    var s' := List(s, r);
    assert EndsOk(s') && VisitsOk(s');
    assert DoneOk(s') by {
      forall r, k | r in s.drains && s.drains[r].done && k in s.drains[r].paid ensures Handled(s', k) {
        assert Handled(s, k);
      }
    }
    hide DoneOk, EndsOk, VisitsOk;
    ListedIsListed(s, r);
    forall r' | r' in s'.drains && Current(s', s'.drains[r'])
      ensures HoldsListed(s', s'.drains[r']) && PayableListed(s', s'.drains[r']) && PayersListed(s', s'.drains[r'])
    {
      if r' != r {
        assert Current(s, s.drains[r']);
      }
    }
  }

  lemma ListedIsListed(s: State, r: DrainId)
    requires CanList(s, r)
    requires HostedOk(s.holds, s.hosted, s.remote) && TxnsOk(s.txns, s.holds, s.hosted, s.remote)
    ensures var s' := List(s, r);
            HoldsListed(s', s'.drains[r]) && PayableListed(s', s'.drains[r]) && PayersListed(s', s'.drains[r])
  {
    var s' := List(s, r);
    forall k | Payable(s', k) ensures s'.hosted[k].hold in ToVisit(s) {
      assert OpenRow(s, k, s.hosted[k].hold);
    }
    forall t | t in s'.txns && PayPassed(s'.txns[t]) ensures s'.txns[t].hold in ToVisit(s) {
      assert TxnOk(s.txns[t], s.holds, s.hosted, s.remote);
    }
  }

  lemma ReturnKeepsClosing(s: State, r: DrainId)
    requires Closing(s) && CanReturn(s, r)
    ensures Closing(Return(s, r))
  {
    var s' := Return(s, r);
    assert EndsOk(s') && VisitsOk(s');
    assert DoneOk(s') by {
      forall r, k | r in s.drains && s.drains[r].done && k in s.drains[r].paid ensures Handled(s', k) {
        assert Handled(s, k);
      }
    }
    hide DoneOk, EndsOk, VisitsOk;
    forall r' | r' in s'.drains && Current(s', s'.drains[r'])
      ensures HoldsListed(s', s'.drains[r']) && PayableListed(s', s'.drains[r']) && PayersListed(s', s'.drains[r'])
    {
      assert Current(s, s.drains[r']);
    }
  }

  lemma DeskStartsNothing(s: State, step: Desk)
    requires DeskEnabled(s, step) && !step.DoList? && !step.DoReturn?
    ensures var s' := ApplyDesk(s, step);
            && Starts(s, s') && SameRows(s, s') && Remembers(s, s') && SameVisits(s, s') && s'.epoch == s.epoch
            && (s'.closed ==> s.closed)
  {
  }

  lemma DeskKeepsClosing(s: State, step: Desk)
    requires Closing(s) && DeskEnabled(s, step)
    requires HostedOk(s.holds, s.hosted, s.remote) && TxnsOk(s.txns, s.holds, s.hosted, s.remote)
    ensures Closing(ApplyDesk(s, step))
  {
    if step.DoList? {
      ListKeepsClosing(s, step.r);
    } else if step.DoReturn? {
      ReturnKeepsClosing(s, step.r);
    } else {
      DeskStartsNothing(s, step);
      hide ApplyDesk, DeskEnabled, Closing, Starts, SameRows, SameVisits, Remembers, HostedOk, TxnsOk;
      StartingNothingKeepsClosing(s, ApplyDesk(s, step));
    }
  }

  // ----- The till -----

  /** A payment started before the closure may add a row, of a hold still to be visited. */
  lemma PayCommitKeepsClosing(s: State, t: TxnId)
    requires Locks(s) && Closing(s) && CanPayCommit(s, t)
    ensures Closing(PayCommit(s, t))
  {
    var s' := PayCommit(s, t);
    PayCommitKeepsEnds(s, t);
    assert VisitsOk(s');
    hide EndsOk, VisitsOk;
    RememberingKeepsDone(s, s');
    hide DoneOk, LocksOk;
    forall r | r in s'.drains && Current(s', s'.drains[r])
      ensures HoldsListed(s', s'.drains[r]) && PayableListed(s', s'.drains[r]) && PayersListed(s', s'.drains[r])
    {
      assert Current(s, s.drains[r]);
      PayCommitKeepsDrain(s, t, s.drains[r]);
    }
  }

  lemma PayCommitKeepsEnds(s: State, t: TxnId)
    requires Locks(s) && EndsOk(s) && CanPayCommit(s, t)
    ensures EndsOk(PayCommit(s, t))
  {
    var s' := PayCommit(s, t);
    hide Unlocked, NoOtherOpen;
    forall t', k | t' in s'.txns && s'.txns[t'].Ending? && s'.txns[t'].end.EndReady? && Payable(s', k)
      ensures s'.hosted[k].hold != s'.txns[t'].hold
    {
      assert KeepsRow(s.txns[t], s.txns[t].hold) && KeepsRow(s.txns[t'], s.txns[t'].hold);
      assert s.rows[s.txns[t].hold] == t && s.rows[s.txns[t'].hold] == t';
      assert k == s.txns[t].pay.made || Payable(s, k);
    }
  }

  lemma PayCommitKeepsDrain(s: State, t: TxnId, d: Drain)
    requires CanPayCommit(s, t) && HoldsListed(s, d) && PayableListed(s, d) && PayersListed(s, d)
    ensures var s' := PayCommit(s, t); HoldsListed(s', d) && PayableListed(s', d) && PayersListed(s', d)
  {
    var s' := PayCommit(s, t);
    hide Unlocked, NoOtherOpen;
    assert PayPassed(s.txns[t]);
    forall k | Payable(s', k) ensures s'.hosted[k].hold in d.todo {
      assert k == s.txns[t].pay.made || Payable(s, k);
    }
    forall h | h in s'.holds && s'.holds[h].status.Outstanding? ensures h in d.todo || PaidFor(d.paid, s'.hosted, h) {
      if h !in d.todo {
        var k :| k in d.paid && k in s.hosted && s.hosted[k].hold == h;
        assert s'.hosted[k].hold == h;
      }
    }
  }

  /** The open checkout of a hold being ended is cancelled; its hold has no other. */
  lemma EndCancelKeepsClosing(s: State, t: TxnId, open: Option<HostedId>)
    requires Closing(s) && CanEndCancel(s, t, open) && HostedOk(s.holds, s.hosted, s.remote) && OpenRowsOk(s.hosted)
    ensures Closing(EndCancel(s, t, open))
  {
    var s' := EndCancel(s, t, open);
    EndCancelKeepsEnds(s, t, open);
    assert VisitsOk(s');
    hide EndsOk, VisitsOk, HostedOk, OpenRowsOk;
    RememberingKeepsDone(s, s');
    hide DoneOk;
    forall r | r in s'.drains && Current(s', s'.drains[r])
      ensures HoldsListed(s', s'.drains[r]) && PayableListed(s', s'.drains[r]) && PayersListed(s', s'.drains[r])
    {
      assert Current(s, s.drains[r]);
      assert forall k | Payable(s', k) :: Payable(s, k);
    }
  }

  lemma EndCancelKeepsEnds(s: State, t: TxnId, open: Option<HostedId>)
    requires EndsOk(s) && CanEndCancel(s, t, open) && HostedOk(s.holds, s.hosted, s.remote) && OpenRowsOk(s.hosted)
    ensures EndsOk(EndCancel(s, t, open))
  {
    var s' := EndCancel(s, t, open);
    forall t', k | t' in s'.txns && s'.txns[t'].Ending? && s'.txns[t'].end.EndReady? && Payable(s', k)
      ensures s'.hosted[k].hold != s'.txns[t'].hold
    {
      assert Payable(s, k);
      if t' == t {
        assert OpenRow(s, k, s.hosted[k].hold);
      }
    }
  }

  /** A visit ends what it listed: the hold is over, or its payment awaits its reconciliation. */
  lemma EndCommitKeepsClosing(s: State, t: TxnId)
    requires Locks(s) && Closing(s) && CanEndCommit(s, t) && TxnsOk(s.txns, s.holds, s.hosted, s.remote)
    ensures Closing(EndCommit(s, t))
  {
    var s' := EndCommit(s, t);
    EndCommitKeepsDone(s, t);
    EndCommitKeepsEnds(s, t);
    EndCommitKeepsVisits(s, t);
    EndCommitRows(s, t);
    hide EndCommit, DoneOk, VisitsOk;
    forall r | r in s'.drains && Current(s', s'.drains[r])
      ensures HoldsListed(s', s'.drains[r]) && PayableListed(s', s'.drains[r]) && PayersListed(s', s'.drains[r])
    {
      assert Current(s, s.drains[r]);
      EndCommitKeepsHolds(s, t, r);
      EndCommitKeepsPayable(s, t, r);
      EndCommitKeepsPayers(s, t, r);
    }
  }

  /** Rows stay whose they are, and the provider's records are untouched. */
  lemma EndCommitRows(s: State, t: TxnId)
    requires CanEndCommit(s, t)
    ensures var s' := EndCommit(s, t);
            && s'.hosted.Keys == s.hosted.Keys && s'.remote == s.remote && s'.txns == s.txns - {t}
            && s'.refunds == s.refunds && s'.sales == s.sales && s'.epoch == s.epoch && s'.closed == s.closed
            && s'.drains == Visited(s, t)
            && forall k | k in s.hosted :: s'.hosted[k].hold == s.hosted[k].hold
  {
    hide Visited, HoldsEnded;
  }

  lemma EndCommitKeepsDone(s: State, t: TxnId)
    requires DoneOk(s) && VisitsOk(s) && CanEndCommit(s, t)
    ensures DoneOk(EndCommit(s, t))
  {
    EndCommitRows(s, t);
    hide EndCommit;
    forall r, k | r in s.drains && s.drains[r].done && k in s.drains[r].paid ensures Handled(EndCommit(s, t), k) {
      assert Handled(s, k);
    }
  }

  lemma EndCommitKeepsEnds(s: State, t: TxnId)
    requires EndsOk(s) && CanEndCommit(s, t)
    ensures EndsOk(EndCommit(s, t))
  {
    EndCommitRows(s, t);
    hide EndCommit;
    assert forall k | Payable(EndCommit(s, t), k) :: Payable(s, k);
  }

  lemma EndCommitKeepsVisits(s: State, t: TxnId)
    requires Locks(s) && VisitsOk(s) && CanEndCommit(s, t)
    ensures VisitsOk(EndCommit(s, t))
  {
    EndCommitRows(s, t);
    hide EndCommit;
    assert KeepsRow(s.txns[t], s.txns[t].hold);
    forall t' | t' in s.txns && t' != t && s.txns[t'].Ending? ensures s.txns[t'].hold != s.txns[t].hold {
      assert KeepsRow(s.txns[t'], s.txns[t'].hold);
      assert s.rows[s.txns[t'].hold] == t';
    }
  }

  lemma EndCommitKeepsHolds(s: State, t: TxnId, r: DrainId)
    requires r in s.drains && HoldsListed(s, s.drains[r]) && CanEndCommit(s, t)
    requires TxnsOk(s.txns, s.holds, s.hosted, s.remote)
    ensures HoldsListed(EndCommit(s, t), EndCommit(s, t).drains[r])
  {
    var s' := EndCommit(s, t);
    forall h | h in s'.holds && s'.holds[h].status.Outstanding?
      ensures h in s'.drains[r].todo || PaidFor(s'.drains[r].paid, s'.hosted, h)
    {
      if h == s.txns[t].hold {
        assert TxnOk(s.txns[t], s.holds, s.hosted, s.remote);
      }
    }
  }

  lemma EndCommitKeepsPayable(s: State, t: TxnId, r: DrainId)
    requires r in s.drains && PayableListed(s, s.drains[r]) && EndsOk(s) && CanEndCommit(s, t)
    ensures PayableListed(EndCommit(s, t), EndCommit(s, t).drains[r])
  {
    EndCommitRows(s, t);
    hide EndCommit;
    assert forall k | Payable(EndCommit(s, t), k) :: Payable(s, k);
  }

  lemma EndCommitKeepsPayers(s: State, t: TxnId, r: DrainId)
    requires Locks(s) && r in s.drains && PayersListed(s, s.drains[r]) && CanEndCommit(s, t)
    ensures PayersListed(EndCommit(s, t), EndCommit(s, t).drains[r])
  {
    EndCommitRows(s, t);
    hide EndCommit;
    assert KeepsRow(s.txns[t], s.txns[t].hold);
    forall t' | t' in s.txns && PayPassed(s.txns[t']) ensures s.txns[t'].hold != s.txns[t].hold {
      assert KeepsRow(s.txns[t'], s.txns[t'].hold);
      assert s.rows[s.txns[t'].hold] == t';
    }
  }

  lemma TillStartsNothing(s: State, step: Till)
    requires TillEnabled(s, step) && !step.DoPayCommit? && !step.DoEndCancel? && !step.DoEndCommit?
    ensures var s' := ApplyTill(s, step);
            && Starts(s, s') && SameRows(s, s') && Remembers(s, s') && SameVisits(s, s') && s'.epoch == s.epoch
            && s'.closed == s.closed
  {
    hide ApplyTill, TillEnabled, Starts, SameRows, Remembers, SameVisits;
    TillPassesNothing(s, step);
    TillLeavesRows(s, step);
  }

  lemma TillPassesNothing(s: State, step: Till)
    requires TillEnabled(s, step) && !step.DoPayCommit? && !step.DoEndCancel? && !step.DoEndCommit?
    ensures var s' := ApplyTill(s, step);
            Starts(s, s') && Remembers(s, s') && s'.epoch == s.epoch && s'.closed == s.closed
  {
    hide Unlocked, NoOtherOpen;
  }

  lemma TillLeavesRows(s: State, step: Till)
    requires TillEnabled(s, step) && !step.DoPayCommit? && !step.DoEndCancel? && !step.DoEndCommit?
    ensures SameRows(s, ApplyTill(s, step)) && SameVisits(s, ApplyTill(s, step))
  {
    hide Unlocked, NoOtherOpen;
  }

  lemma TillKeepsClosing(s: State, step: Till)
    requires Locks(s) && Closing(s) && TillEnabled(s, step)
    requires HostedOk(s.holds, s.hosted, s.remote) && OpenRowsOk(s.hosted)
    requires TxnsOk(s.txns, s.holds, s.hosted, s.remote)
    ensures Closing(ApplyTill(s, step))
  {
    hide Closing, HostedOk, OpenRowsOk, TxnsOk, LocksOk;
    if step.DoPayCommit? {
      PayCommitKeepsClosing(s, step.t);
    } else if step.DoEndCancel? {
      EndCancelKeepsClosing(s, step.t, step.open);
    } else if step.DoEndCommit? {
      EndCommitKeepsClosing(s, step.t);
    } else {
      TillStartsNothing(s, step);
      hide ApplyTill, TillEnabled, Starts, SameRows, SameVisits, Remembers;
      StartingNothingKeepsClosing(s, ApplyTill(s, step));
    }
  }

  // ----- The world, and the ledger -----

  lemma WorldKeepsClosing(s: State, step: World)
    requires Closing(s) && WorldEnabled(s, step)
    ensures Closing(ApplyWorld(s, step))
  {
    WorldStartsNothing(s, step);
    hide ApplyWorld, WorldEnabled, Closing, Starts, SameRows, SameVisits, Remembers;
    StartingNothingKeepsClosing(s, ApplyWorld(s, step));
  }

  lemma WorldStartsNothing(s: State, step: World)
    requires WorldEnabled(s, step)
    ensures var s' := ApplyWorld(s, step);
            && Starts(s, s') && SameRows(s, s') && Remembers(s, s') && SameVisits(s, s') && s'.epoch == s.epoch
            && s'.closed == s.closed
  {
    hide NoOtherOpen;
  }

  lemma OutcomeKeepsClosing(s: State, step: Outcome)
    requires Closing(s) && OutcomeEnabled(s, step)
    ensures Closing(ApplyOutcome(s, step))
  {
    OutcomeStartsNothing(s, step);
    hide ApplyOutcome, OutcomeEnabled, Closing, Starts, SameRows, SameVisits, Remembers;
    StartingNothingKeepsClosing(s, ApplyOutcome(s, step));
  }

  lemma OutcomeStartsNothing(s: State, step: Outcome)
    requires OutcomeEnabled(s, step)
    ensures var s' := ApplyOutcome(s, step);
            && Starts(s, s') && SameRows(s, s') && Remembers(s, s') && SameVisits(s, s') && s'.epoch == s.epoch
            && s'.closed == s.closed
  {
  }
}
