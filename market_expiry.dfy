/**
 * Market types, expiry and activity of a market at a block time, and the loops
 * that filter lists of markets by expiry and look a market up by name.
 *
 * The block time `now` is a parameter, in nanoseconds since the Unix epoch.
 */
module MarketExpiry {
  import opened MarketTypes

  predicate IsFutures(m: Market)
  {
    m.marketType == FuturesMarket
  }

  predicate IsSpot(m: Market)
  {
    m.marketType == SpotMarket
  }

  /** A futures market whose expiry time falls in the first second of the Unix epoch. */
  predicate IsPerpetualFutures(m: Market)
  {
    IsFutures(m) && ExpiryUnix(m) == 0
  }

  /** `Market.IsMarketBeforeExpiry`: only a dated futures market expires. */
  predicate IsMarketBeforeExpiry(m: Market, now: int)
  {
    if !IsFutures(m) then true
    else if IsPerpetualFutures(m) then true
    else now < m.expiryTime
  }

  /** `Market.IsMarketActive`: switched on and not yet expired. */
  predicate IsMarketActive(m: Market, now: int)
  {
    m.isActive && IsMarketBeforeExpiry(m, now)
  }

  /** A market is perpetual exactly when it is futures and expires in [0 s, 1 s). */
  lemma PerpetualMeansFirstSecond(m: Market)
    ensures IsPerpetualFutures(m) <==> IsFutures(m) && 0 <= m.expiryTime < NanosPerSecond
  {
    var s := ExpiryUnix(m);
    if s >= 1 {
      assert NanosPerSecond <= s * NanosPerSecond;
    } else if s <= -1 {
      assert s * NanosPerSecond <= -NanosPerSecond;
    }
  }

  /** Spot markets and perpetual futures never expire. */
  lemma NeverExpiring(m: Market, now: int)
    requires IsSpot(m) || IsPerpetualFutures(m)
    ensures IsMarketBeforeExpiry(m, now)
  {
  }

  /** A dated futures market is before expiry exactly until its expiry time. */
  lemma DatedFuturesExpiry(m: Market, now: int)
    requires IsFutures(m) && !(0 <= m.expiryTime < NanosPerSecond)
    ensures IsMarketBeforeExpiry(m, now) <==> now < m.expiryTime
  {
    PerpetualMeansFirstSecond(m);
  }

  /** Once expired, a market stays expired, and once inactive it stays inactive. */
  lemma ExpiryIsPermanent(m: Market, now: int, later: int)
    requires now <= later
    ensures !IsMarketBeforeExpiry(m, now) ==> !IsMarketBeforeExpiry(m, later)
    ensures !IsMarketActive(m, now) ==> !IsMarketActive(m, later)
  {
  }

  // ----- Filters -----

  /** The markets of `ms` that `keep` accepts, in their order. */
  function Filter(ms: seq<Market>, keep: Market -> bool): (r: seq<Market>)
    ensures |r| <= |ms|
  {
    if |ms| == 0 then []
    else Filter(ms[..|ms| - 1], keep) + (if keep(ms[|ms| - 1]) then [ms[|ms| - 1]] else [])
  }

  function BeforeExpiryAt(now: int): Market -> bool
  {
    m => IsMarketBeforeExpiry(m, now)
  }

  function ToSettleAt(now: int): Market -> bool
  {
    m => !IsMarketBeforeExpiry(m, now) && !m.isSettled
  }

  /** A market is kept exactly when it is in the list and accepted. */
  lemma {:induction false} FilterMembership(ms: seq<Market>, keep: Market -> bool, x: Market)
    ensures x in Filter(ms, keep) <==> x in ms && keep(x)
  {
    if |ms| > 0 {
      var init := ms[..|ms| - 1];
      FilterMembership(init, keep, x);
      assert ms == init + [ms[|ms| - 1]];
    }
  }

  /** Filtering distributes over concatenation, so the kept markets keep their order. */
  lemma {:induction false} FilterConcat(a: seq<Market>, b: seq<Market>, keep: Market -> bool)
    ensures Filter(a + b, keep) == Filter(a, keep) + Filter(b, keep)
  {
    if |b| == 0 {
      assert a + b == a;
    } else {
      var init := b[..|b| - 1];
      FilterConcat(a, init, keep);
      assert (a + b)[..|a + b| - 1] == a + init;
    }
  }

  /** Every market the filter keeps is accepted: filtering twice changes nothing. */
  lemma {:induction false} FilterIdempotent(ms: seq<Market>, keep: Market -> bool)
    ensures Filter(Filter(ms, keep), keep) == Filter(ms, keep)
  {
    if |ms| > 0 {
      var init := ms[..|ms| - 1];
      FilterIdempotent(init, keep);
      var last := ms[|ms| - 1];
      FilterConcat(Filter(init, keep), if keep(last) then [last] else [], keep);
      assert Filter([last], keep) == Filter([], keep) + (if keep(last) then [last] else []) by {
        assert [last][..0] == [];
      }
    }
  }

  /** No market is both before expiry and to be settled. */
  lemma FiltersDisjoint(ms: seq<Market>, now: int, x: Market)
    ensures !(x in Filter(ms, BeforeExpiryAt(now)) && x in Filter(ms, ToSettleAt(now)))
  {
    FilterMembership(ms, BeforeExpiryAt(now), x);
    FilterMembership(ms, ToSettleAt(now), x);
  }

  /** The markets to settle are exactly the listed ones that are expired and not settled. */
  lemma ToSettleMembership(ms: seq<Market>, now: int, x: Market)
    ensures x in Filter(ms, ToSettleAt(now))
            <==> x in ms && !IsMarketBeforeExpiry(x, now) && !x.isSettled
  {
    FilterMembership(ms, ToSettleAt(now), x);
  }

  /** `FilterMarketsBeforeExpiry`: the markets not yet expired at `now`, in order. */
  method FilterMarketsBeforeExpiry(now: int, markets: seq<Market>) returns (res: seq<Market>)
    ensures res == Filter(markets, BeforeExpiryAt(now))
  {
    res := [];
    var i := 0;
    while i < |markets|
      invariant 0 <= i <= |markets|
      invariant res == Filter(markets[..i], BeforeExpiryAt(now))
    {
      assert markets[..i + 1][..i] == markets[..i];
      if IsMarketBeforeExpiry(markets[i], now) {
        res := res + [markets[i]];
      }
      i := i + 1;
    }
    assert markets[..i] == markets;
  }

  /** `FilterMarketsToSettle`: the expired markets not yet settled, in order. */
  method FilterMarketsToSettle(now: int, markets: seq<Market>) returns (res: seq<Market>)
    ensures res == Filter(markets, ToSettleAt(now))
  {
    res := [];
    var i := 0;
    while i < |markets|
      invariant 0 <= i <= |markets|
      invariant res == Filter(markets[..i], ToSettleAt(now))
    {
      assert markets[..i + 1][..i] == markets[..i];
      if !IsMarketBeforeExpiry(markets[i], now) && !markets[i].isSettled {
        res := res + [markets[i]];
      }
      i := i + 1;
    }
    assert markets[..i] == markets;
  }

  /** `Market.IsInMarkets`: whether some listed market has the same name. */
  method IsInMarkets(m: Market, markets: seq<Market>) returns (found: bool)
    ensures found <==> exists i :: 0 <= i < |markets| && markets[i].name == m.name
  {
    var i := 0;
    while i < |markets|
      invariant 0 <= i <= |markets|
      invariant forall j :: 0 <= j < i ==> markets[j].name != m.name
    {
      if markets[i].name == m.name {
        return true;
      }
      i := i + 1;
    }
    return false;
  }
}
