/** The trading rules and the same-day ordering that both replay engines share:
    a running (cash, shares) position, BUY truncating to whole shares,
    SELL liquidating the whole position, everything else a no-op, and the
    stable timestamp sort applied to one day's decisions. */
module Replay {

  /** Milliseconds in one calendar day; timestamps are milliseconds since the epoch. */
  const DayLength: int := 86_400_000

  type Time = int
  /** A calendar day, as the number of days since the epoch (day d covers [d*DayLength, (d+1)*DayLength)). */
  type Day = int
  type AssetId = string
  /** A price in minor currency units per share; the price service only hands out positive prices. */
  type Price = p: int | p > 0 witness 1
  /** The price of one asset at a given instant. */
  type PriceFeed = Time -> Price

  datatype Option<T> = None | Some(value: T)

  /** A decision of the automated strategy; `kind` is "BUY", "SELL" or "HOLD" (any other string is ignored). */
  datatype Decision = Decision(kind: string, assetId: AssetId, riskLevel: int, date: Time)

  /** The running state of the autoinvested leg. */
  datatype Position = Position(cash: int, shares: int)

  /** One day's pair of portfolio values, in minor units. */
  datatype ChartEntry = ChartEntry(autoinvested: int, noAutoinvested: int)

  const Zero := ChartEntry(0, 0)

  function Plus(a: ChartEntry, b: ChartEntry): ChartEntry {
    ChartEntry(a.autoinvested + b.autoinvested, a.noAutoinvested + b.noAutoinvested)
  }

  lemma PlusZero(a: ChartEntry)
    ensures Plus(a, Zero) == a
  {
  }

  lemma ZeroPlus(a: ChartEntry)
    ensures Plus(Zero, a) == a
  {
  }

  lemma PlusComm(a: ChartEntry, b: ChartEntry)
    ensures Plus(a, b) == Plus(b, a)
  {
  }

  lemma PlusAssoc(a: ChartEntry, b: ChartEntry, c: ChartEntry)
    ensures Plus(Plus(a, b), c) == Plus(a, Plus(b, c))
  {
  }

  function DayOf(t: Time): Day {
    t / DayLength
  }

  /** The worth of a position when every share is valued at `price`. */
  function Value(p: Position, price: int): int {
    p.cash + p.shares * price
  }

  predicate NonNegative(p: Position) {
    p.cash >= 0 && p.shares >= 0
  }

  lemma NonNegativeValue(p: Position, price: Price)
    requires NonNegative(p)
    ensures Value(p, price) >= 0
  {
  }

  /** `Math.trunc(a / b)` for a positive divisor: the quotient rounded toward zero. */
  function TruncDiv(a: int, b: int): (q: int)
    requires b > 0
    ensures a >= 0 ==> q >= 0 && 0 <= a - q * b < b
    ensures a < 0 ==> q <= 0 && -b < a - q * b <= 0
  {
    if a >= 0 then a / b else -((-a) / b)
  }

  /** BUY at `price`: turn the cash into as many whole shares as it buys, truncating toward zero. */
  function Buy(p: Position, price: Price): (r: Position)
    ensures Value(r, price) == Value(p, price)
    ensures p.cash >= 0 ==> 0 <= r.cash < price && r.shares >= p.shares
    ensures p.cash < 0 ==> 0 <= -r.cash < price && r.shares <= p.shares
  {
    var bought := TruncDiv(p.cash, price);
    DistributeRight(p.shares, bought, price);
    Position(p.cash - bought * price, p.shares + bought)
  }

  lemma DistributeRight(a: int, b: int, c: int)
    ensures (a + b) * c == a * c + b * c
  {
  }

  /** SELL at `price`: liquidate the whole position into cash. */
  function Sell(p: Position, price: Price): (r: Position)
    ensures r.shares == 0 && Value(r, price) == Value(p, price)
  {
    Position(p.cash + price * p.shares, 0)
  }

  /** One decision applied to the running position, priced at the decision's own instant. */
  function ApplyDecision(p: Position, d: Decision, price: PriceFeed): (r: Position)
    ensures d.kind != "BUY" && d.kind != "SELL" ==> r == p
    ensures Value(r, price(d.date)) == Value(p, price(d.date))
    ensures NonNegative(p) ==> NonNegative(r)
  {
    if d.kind == "BUY" then Buy(p, price(d.date))
    else if d.kind == "SELL" then Sell(p, price(d.date))
    else p
  }

  /** The decisions applied one after another, first to last. */
  function ApplyAll(p: Position, ds: seq<Decision>, price: PriceFeed): (r: Position)
    ensures NonNegative(p) ==> NonNegative(r)
    decreases |ds|
  {
    if ds == [] then p
    else ApplyDecision(ApplyAll(p, ds[..|ds| - 1], price), ds[|ds| - 1], price)
  }

  predicate NoTrades(ds: seq<Decision>) {
    forall i :: 0 <= i < |ds| ==> ds[i].kind != "BUY" && ds[i].kind != "SELL"
  }

  /** Decisions that are neither BUY nor SELL leave the position as it was. */
  lemma {:induction false} NoTradesKeepPosition(p: Position, ds: seq<Decision>, price: PriceFeed)
    requires NoTrades(ds)
    ensures ApplyAll(p, ds, price) == p
    decreases |ds|
  {
    if ds != [] {
      NoTradesKeepPosition(p, ds[..|ds| - 1], price);
    }
  }

  predicate EndsWithSell(ds: seq<Decision>) {
    |ds| > 0 && ds[|ds| - 1].kind == "SELL"
  }

  /** A SELL as the last decision leaves no shares. */
  lemma LastSellLiquidates(p: Position, ds: seq<Decision>, price: PriceFeed)
    requires EndsWithSell(ds)
    ensures ApplyAll(p, ds, price).shares == 0
  {
  }

  /** The loop over one day's decisions in both engines. */
  method ApplyInOrder(start: Position, ds: seq<Decision>, price: PriceFeed) returns (p: Position)
    ensures p == ApplyAll(start, ds, price)
  {
    p := start;
    for i := 0 to |ds|
      invariant p == ApplyAll(start, ds[..i], price)
    {
      assert ds[..i + 1][..i] == ds[..i];
      var priceAtDecision := price(ds[i].date);
      if ds[i].kind == "BUY" {
        var boughtShares := TruncDiv(p.cash, priceAtDecision);
        p := Position(p.cash - boughtShares * priceAtDecision, p.shares + boughtShares);
      } else if ds[i].kind == "SELL" {
        p := Position(p.cash + priceAtDecision * p.shares, 0);
      }
    }
    assert ds[..|ds|] == ds;
  }

  // ----- Array.prototype.sort with the comparator `a.date - b.date` (a stable sort) -----

  predicate SortedByTime(s: seq<Decision>) {
    forall i, j :: 0 <= i < j < |s| ==> s[i].date <= s[j].date
  }

  /** `d` placed before the first element that is not earlier than it. */
  function InsertByTime(d: Decision, s: seq<Decision>): (r: seq<Decision>)
    requires SortedByTime(s)
    ensures SortedByTime(r)
    ensures forall x :: x in r ==> x == d || x in s
    decreases |s|
  {
    if s == [] || d.date <= s[0].date then
      assert forall x :: x in s ==> d.date <= x.date by {
        assert forall i :: 0 <= i < |s| ==> s[0].date <= s[i].date;
      }
      ConsSorted(d, s);
      [d] + s
    else
      var rest := InsertByTime(d, s[1..]);
      assert forall x :: x in rest ==> s[0].date <= x.date by {
        assert forall x :: x in s[1..] ==> s[0].date <= x.date;
      }
      ConsSorted(s[0], rest);
      [s[0]] + rest
  }

  /** Inserting adds exactly one occurrence of `d` and keeps every other element. */
  lemma {:induction false} InsertByTimeCount(d: Decision, s: seq<Decision>)
    requires SortedByTime(s)
    ensures multiset(InsertByTime(d, s)) == multiset(s) + multiset{d}
    decreases |s|
  {
    if s == [] || d.date <= s[0].date {
    } else {
      InsertByTimeCount(d, s[1..]);
      assert s == [s[0]] + s[1..];
    }
  }

  /** A list stays sorted when an element no later than all of its elements is put in front. */
  lemma ConsSorted(x: Decision, r: seq<Decision>)
    requires SortedByTime(r) && forall y :: y in r ==> x.date <= y.date
    ensures SortedByTime([x] + r)
  {
    forall i, j | 0 <= i < j < |[x] + r| ensures ([x] + r)[i].date <= ([x] + r)[j].date {
      if i > 0 {
        assert ([x] + r)[i] == r[i - 1];
      }
      assert ([x] + r)[j] == r[j - 1] && r[j - 1] in r;
    }
  }

  function SortByTime(s: seq<Decision>): (r: seq<Decision>)
    ensures SortedByTime(r)
    ensures multiset(r) == multiset(s)
    decreases |s|
  {
    if s == [] then []
    else
      assert s == [s[0]] + s[1..];
      InsertByTimeCount(s[0], SortByTime(s[1..]));
      InsertByTime(s[0], SortByTime(s[1..]))
  }

  /** Two sequences holding the same multiset hold the same elements. */
  lemma SameMembers(a: seq<Decision>, b: seq<Decision>)
    requires multiset(a) == multiset(b)
    ensures forall x :: x in a <==> x in b
  {
    forall x ensures x in a <==> x in b {
      assert x in a <==> x in multiset(a);
      assert x in b <==> x in multiset(b);
    }
  }

  /** The decisions whose timestamp is exactly `t`, in their order in `s`. */
  function AtTime(s: seq<Decision>, t: Time): seq<Decision>
    decreases |s|
  {
    if s == [] then []
    else (if s[0].date == t then [s[0]] else []) + AtTime(s[1..], t)
  }

  /** Picking out one timestamp distributes over concatenation. */
  lemma {:induction false} AtTimeConcat(a: seq<Decision>, b: seq<Decision>, t: Time)
    ensures AtTime(a + b, t) == AtTime(a, t) + AtTime(b, t)
    decreases |a|
  {
    if a != [] {
      assert (a + b)[0] == a[0] && (a + b)[1..] == a[1..] + b;
      AtTimeConcat(a[1..], b, t);
      var head := if a[0].date == t then [a[0]] else [];
      assert AtTime(a + b, t) == head + (AtTime(a[1..], t) + AtTime(b, t));
      assert AtTime(a, t) == head + AtTime(a[1..], t);
    } else {
      assert a + b == b;
    }
  }

  lemma {:induction false} InsertByTimeAtTime(d: Decision, s: seq<Decision>, t: Time)
    requires SortedByTime(s)
    ensures AtTime(InsertByTime(d, s), t) == if d.date == t then [d] + AtTime(s, t) else AtTime(s, t)
    decreases |s|
  {
    if s == [] || d.date <= s[0].date {
      assert ([d] + s)[1..] == s;
    } else {
      InsertByTimeAtTime(d, s[1..], t);
      var rest := InsertByTime(d, s[1..]);
      assert ([s[0]] + rest)[1..] == rest;
    }
  }

  /** The sort is stable: decisions with equal timestamps stay in their input order. */
  lemma {:induction false} SortByTimeStable(s: seq<Decision>, t: Time)
    ensures AtTime(SortByTime(s), t) == AtTime(s, t)
    decreases |s|
  {
    if s != [] {
      SortByTimeStable(s[1..], t);
      InsertByTimeAtTime(s[0], SortByTime(s[1..]), t);
    }
  }
}
