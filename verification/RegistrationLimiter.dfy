/**
  A bound on the registrations one account has sponsored: at most a limit in
  any window of a length. Accounts quiet for a window are forgotten; deciding
  without them is deciding with the whole history.
 */
module RegistrationLimiter {
  type Account = nat
  type Times = seq<int>

  const SWEEP_THRESHOLD := 10000

  /** The times after `at - window`, in order. */
  function Recent(times: Times, at: int, window: nat): Times {
    if times == [] then []
    else (if times[0] > at - window then [times[0]] else []) + Recent(times[1..], at, window)
  }

  function Past(known: map<Account, Times>, account: Account): Times {
    if account in known then known[account] else []
  }

  predicate Sorted(times: Times) {
    forall i, j | 0 <= i <= j < |times| :: times[i] <= times[j]
  }

  /** Each registration comes a window after the one that many before it. */
  predicate Spaced(times: Times, limit: nat, window: nat) {
    forall k | limit <= k < |times| :: times[k - limit] <= times[k] - window
  }

  /** How many of the times are in the window that ends at `at`. */
  function CountIn(times: Times, at: int, window: nat): nat {
    if times == [] then 0
    else CountIn(times[..|times| - 1], at, window) + if at - window < times[|times| - 1] <= at then 1 else 0
  }

  // ----- Forgetting -----

  lemma {:induction false} RecentOfRecent(times: Times, at: int, later: int, window: nat)
    requires at <= later
    ensures Recent(Recent(times, at, window), later, window) == Recent(times, later, window)
  {
    if times != [] {
      RecentOfRecent(times[1..], at, later, window);
      var rest := Recent(times[1..], at, window);
      if times[0] > at - window {
        assert ([times[0]] + rest)[1..] == rest;
      } else {
        assert Recent(times, at, window) == rest && Recent(times, later, window) == Recent(times[1..], later, window);
      }
    }
  }

  lemma {:induction false} RecentAppends(times: Times, more: Times, at: int, window: nat)
    ensures Recent(times + more, at, window) == Recent(times, at, window) + Recent(more, at, window)
  {
    if times == [] {
      assert times + more == more;
    } else {
      assert (times + more)[1..] == times[1..] + more;
      RecentAppends(times[1..], more, at, window);
    }
  }

  lemma {:induction false} NoneRecent(times: Times, at: int, window: nat)
    requires forall i | 0 <= i < |times| :: times[i] <= at - window
    ensures Recent(times, at, window) == []
  {
    if times != [] {
      NoneRecent(times[1..], at, window);
    }
  }

  // ----- The bound -----

  /** In sorted times, as many recent ones as the limit reach back that far. */
  lemma {:induction false} RecentReachBack(times: Times, at: int, limit: nat, window: nat)
    requires Sorted(times) && limit >= 1 && |times| >= limit && times[|times| - limit] > at - window
    ensures |Recent(times, at, window)| >= limit
  {
    if |times| == limit {
      AllRecent(times, at, window);
    } else {
      assert times[1..][|times[1..]| - limit] == times[|times| - limit];
      RecentReachBack(times[1..], at, limit, window);
    }
  }

  lemma {:induction false} AllRecent(times: Times, at: int, window: nat)
    requires Sorted(times) && (times == [] || times[0] > at - window)
    ensures Recent(times, at, window) == times
  {
    if times != [] {
      assert times[1..] == [] || times[1..][0] == times[1];
      AllRecent(times[1..], at, window);
    }
  }

  lemma {:induction false} CountAtMost(times: Times, at: int, window: nat, quiet: nat)
    requires quiet <= |times| && forall i | 0 <= i < quiet :: times[i] <= at - window
    ensures CountIn(times, at, window) <= |times| - quiet
  {
    if times != [] {
      var n := |times|;
      CountAtMost(times[..n - 1], at, window, if quiet == n then n - 1 else quiet);
    }
  }

  /** Spaced registrations never exceed the limit in any window. */
  lemma {:induction false} SpacedIsBounded(times: Times, limit: nat, window: nat, at: int)
    requires Sorted(times) && Spaced(times, limit, window)
    ensures CountIn(times, at, window) <= limit
  {
    if times != [] {
      var n := |times|;
      if times[n - 1] > at {
        SpacedIsBounded(times[..n - 1], limit, window, at);
      } else if n <= limit {
        CountAtMost(times, at, window, 0);
      } else {
        assert times[n - 1 - limit] <= times[n - 1] - window;
        CountAtMost(times, at, window, n - limit);
      }
    }
  }

  class Limiter {
    const limit: nat
    const window: nat
    /** What the limiter remembers: the times of an account's recent registrations. */
    var registrations: map<Account, Times>
    /** Every registration ever sponsored, and when one was last asked for. */
    ghost var history: map<Account, Times>
    ghost var last: int

    constructor (limit: nat, window: nat, start: int)
      requires limit >= 1 && window >= 1
      ensures Valid() && this.limit == limit && this.window == window && history == map[] && last == start
    {
      this.limit, this.window, registrations, history, last := limit, window, map[], map[], start;
    }

    /** What is remembered gives the recent registrations of every account; none ever exceeded the limit. */
    ghost predicate Valid()
      reads this
    {
      && limit >= 1
      && (forall a: Account :: Recent(Past(registrations, a), last, window) == Recent(Past(history, a), last, window))
      && (forall a: Account :: Kept(Past(history, a)))
    }

    ghost predicate Kept(times: Times)
      reads this
    {
      Sorted(times) && Spaced(times, limit, window) && (times != [] ==> times[|times| - 1] <= last)
    }

    /** Once there are many, accounts whose registrations are all past the window are dropped. */
    method Sweep(at: int)
      requires Valid() && last <= at
      modifies this`registrations
      ensures forall a: Account :: Recent(Past(registrations, a), at, window) == Recent(Past(old(registrations), a), at, window)
    {
      if |registrations| < SWEEP_THRESHOLD {
        return;
      }
      var accounts := registrations.Keys;
      while accounts != {}
        invariant accounts <= registrations.Keys
        invariant forall a: Account :: Recent(Past(registrations, a), at, window) == Recent(Past(old(registrations), a), at, window)
        decreases |accounts|
      {
        var account :| account in accounts;
        accounts := accounts - {account};
        var times := registrations[account];
        var quiet := Quiet(times, at);
        if quiet {
          NoneRecent(times, at, window);
          registrations := registrations - {account};
        }
      }
    }

    method Quiet(times: Times, at: int) returns (quiet: bool)
      ensures quiet <==> forall i | 0 <= i < |times| :: times[i] <= at - window
    {
      var i := 0;
      while i < |times|
        invariant 0 <= i <= |times| && forall j | 0 <= j < i :: times[j] <= at - window
      {
        if times[i] > at - window {
          return false;
        }
        i := i + 1;
      }
      quiet := true;
    }

    /**
      Decides one registration. It is sponsored exactly when the whole history has
      fewer than the limit in the window ending now.
     */
    method Decide(account: Account, at: int) returns (sponsored: bool)
      requires Valid() && last <= at
      modifies this
      ensures Valid() && last == at
      ensures sponsored <==> |Recent(Past(old(history), account), at, window)| < limit
      ensures history == if sponsored then old(history)[account := Past(old(history), account) + [at]] else old(history)
    {
      hide Recent, Sorted, Spaced;
      RecentStays(at);
      Sweep(at);
      ghost var before := Past(history, account);
      var recent := Recent(Past(registrations, account), at, window);
      sponsored := |recent| < limit;
      SpacingKept(before, at);
      RecentOfRecent(before, at, at, window);
      RecentAppends(recent, [at], at, window);
      RecentAppends(before, [at], at, window);
      if sponsored {
        registrations := registrations[account := recent + [at]];
        history := history[account := before + [at]];
      } else {
        registrations := registrations[account := recent];
      }
      last := at;
      forall a: Account ensures Kept(Past(history, a)) {
        assert old(Kept(Past(history, a)));
      }
      forall a: Account ensures Recent(Past(registrations, a), at, window) == Recent(Past(history, a), at, window) {
      }
    }

    /** What is remembered still gives the recent registrations at any later time. */
    lemma RecentStays(at: int)
      requires Valid() && last <= at
      ensures forall a: Account :: Recent(Past(registrations, a), at, window) == Recent(Past(history, a), at, window)
    {
      forall a: Account ensures Recent(Past(registrations, a), at, window) == Recent(Past(history, a), at, window) {
        RecentOfRecent(Past(registrations, a), last, at, window);
        RecentOfRecent(Past(history, a), last, at, window);
      }
    }

    /** A registration sponsored now keeps the spacing. */
    lemma SpacingKept(times: Times, at: int)
      requires Kept(times) && last <= at && limit >= 1
      ensures |Recent(times, at, window)| < limit ==> Sorted(times + [at]) && Spaced(times + [at], limit, window)
    {
      if |times| >= limit && times[|times| - limit] > at - window {
        RecentReachBack(times, at, limit, window);
      }
    }

    /** No window ever contains more sponsored registrations of an account than the limit. */
    lemma NeverMoreThanTheLimit(account: Account, at: int)
      requires Valid()
      ensures CountIn(Past(history, account), at, window) <= limit
    {
      assert Kept(Past(history, account));
      SpacedIsBounded(Past(history, account), limit, window, at);
    }
  }
}
