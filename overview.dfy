/** The simulation page's data fetch: one `createChartData` run per selected
    asset, then the overview series, which adds the assets' entries date key by
    date key into a fresh `ChartEntryCollection`. */
module Overview {
  import opened Replay
  import opened EntryCollection
  import opened Simulation

  type Series = seq<(Day, ChartEntry)>

  /** `map.get(key) || {autoinvested: 0, noAutoinvested: 0}`: a stored entry is never falsy. */
  function GetOrZero(m: EntryMap, k: Day): (r: ChartEntry)
    ensures Lookup(m, k).Some? ==> r == Lookup(m, k).value
    ensures Lookup(m, k).None? ==> r == Zero
  {
    if k in m.values then m.values[k] else Zero
  }

  /** One step of the inner `forEach`: add `v` to whatever is stored under `k`. */
  function AddOne(acc: EntryMap, k: Day, v: ChartEntry): (r: EntryMap)
    requires WellFormed(acc)
    ensures WellFormed(r)
  {
    Put(acc, k, Plus(GetOrZero(acc, k), v))
  }

  lemma AddOneValue(acc: EntryMap, k: Day, v: ChartEntry, j: Day)
    requires WellFormed(acc)
    ensures GetOrZero(AddOne(acc, k, v), j) == Plus(GetOrZero(acc, j), Under((k, v), j))
  {
    assert AddOne(acc, k, v).values == acc.values[k := Plus(GetOrZero(acc, k), v)];
    if j != k {
      PlusZero(GetOrZero(acc, j));
    }
  }

  /** One asset's entries added into the accumulator, in iteration order. */
  function AddInto(acc: EntryMap, es: Series): (r: EntryMap)
    requires WellFormed(acc)
    ensures WellFormed(r)
    decreases |es|
  {
    if es == [] then acc
    else
      var n := |es| - 1;
      AddOne(AddInto(acc, es[..n]), es[n].0, es[n].1)
  }

  /** The overview: every asset's entries added into an initially empty collection, asset by asset. */
  function Aggregate(ss: seq<Series>): (r: EntryMap)
    ensures WellFormed(r)
    decreases |ss|
  {
    if ss == [] then Empty
    else
      var n := |ss| - 1;
      AddInto(Aggregate(ss[..n]), ss[n])
  }

  // ----- The reference sums the aggregation is proved against -----

  predicate HasKey(es: Series, k: Day) {
    exists j :: 0 <= j < |es| && es[j].0 == k
  }

  /** The sum of the entries stored under `k` in one series (Zero if there is none). */
  function SumOf(es: Series, k: Day): ChartEntry
    decreases |es|
  {
    if es == [] then Zero
    else
      var n := |es| - 1;
      Plus(SumOf(es[..n], k), Under(es[n], k))
  }

  /** A pair's contribution to the sum under `k`. */
  function Under(e: (Day, ChartEntry), k: Day): ChartEntry {
    if e.0 == k then e.1 else Zero
  }

  /** The sum over all assets of their entries under `k`. */
  function SumAt(ss: seq<Series>, k: Day): ChartEntry
    decreases |ss|
  {
    if ss == [] then Zero
    else
      var n := |ss| - 1;
      Plus(SumAt(ss[..n], k), SumOf(ss[n], k))
  }

  /** The date keys of a series, in order. */
  function Keys(es: Series): (r: seq<Day>)
    ensures |r| == |es| && forall j :: 0 <= j < |es| ==> r[j] == es[j].0
    decreases |es|
  {
    if es == [] then [] else Keys(es[..|es| - 1]) + [es[|es| - 1].0]
  }

  // One unfolding of each left fold, stated once so the proofs below need not unfold it in place.

  lemma SumOfStep(es: Series, k: Day)
    requires |es| > 0
    ensures SumOf(es, k) == Plus(SumOf(es[..|es| - 1], k), Under(es[|es| - 1], k))
  {
  }

  lemma SumAtStep(ss: seq<Series>, k: Day)
    requires |ss| > 0
    ensures SumAt(ss, k) == Plus(SumAt(ss[..|ss| - 1], k), SumOf(ss[|ss| - 1], k))
  {
  }

  lemma AddIntoStep(acc: EntryMap, es: Series)
    requires WellFormed(acc) && |es| > 0
    ensures AddInto(acc, es) == AddOne(AddInto(acc, es[..|es| - 1]), es[|es| - 1].0, es[|es| - 1].1)
  {
  }

  lemma AggregateStep(ss: seq<Series>)
    requires |ss| > 0
    ensures Aggregate(ss) == AddInto(Aggregate(ss[..|ss| - 1]), ss[|ss| - 1])
  {
  }

  lemma AddIntoPrefix(acc: EntryMap, es: Series, j: nat)
    requires WellFormed(acc) && j < |es|
    ensures AddInto(acc, es[..j + 1]) == AddOne(AddInto(acc, es[..j]), es[j].0, es[j].1)
  {
    assert es[..j + 1][..j] == es[..j];
    AddIntoStep(acc, es[..j + 1]);
  }

  lemma AggregatePrefix(ss: seq<Series>, i: nat)
    requires i < |ss|
    ensures Aggregate(ss[..i + 1]) == AddInto(Aggregate(ss[..i]), ss[i])
  {
    assert ss[..i + 1][..i] == ss[..i];
    AggregateStep(ss[..i + 1]);
  }

  // ----- One asset added into the accumulator -----

  /** After adding a series, a key is present iff it was already or the series has it. */
  lemma {:induction false} AddIntoKeys(acc: EntryMap, es: Series, k: Day)
    requires WellFormed(acc)
    ensures k in AddInto(acc, es).values <==> k in acc.values || HasKey(es, k)
    decreases |es|
  {
    if es != [] {
      var n := |es| - 1;
      AddIntoKeys(acc, es[..n], k);
      HasKeyPrefix(es, n, k);
      HasKeyPrefix(es, |es|, k);
      assert es[..|es|] == es;
      AddIntoStep(acc, es);
    }
  }

  /** After adding a series, each key holds its old value plus the series' entries under it. */
  lemma {:induction false} AddIntoValue(acc: EntryMap, es: Series, k: Day)
    requires WellFormed(acc)
    ensures GetOrZero(AddInto(acc, es), k) == Plus(GetOrZero(acc, k), SumOf(es, k))
    decreases |es|
  {
    if es != [] {
      var n := |es| - 1;
      var before := AddInto(acc, es[..n]);
      AddIntoValue(acc, es[..n], k);
      AddOneValue(before, es[n].0, es[n].1, k);
      assert (es[n].0, es[n].1) == es[n];
      AddIntoStep(acc, es);
      SumOfStep(es, k);
      PlusAssoc(GetOrZero(acc, k), SumOf(es[..n], k), Under(es[n], k));
    } else {
      PlusZero(GetOrZero(acc, k));
    }
  }

  /** Adding a series whose keys are all present keeps the key order. */
  lemma {:induction false} AddIntoKnownKeys(acc: EntryMap, es: Series)
    requires WellFormed(acc)
    requires forall j :: 0 <= j < |es| ==> es[j].0 in acc.values
    ensures AddInto(acc, es).keys == acc.keys
    decreases |es|
  {
    if es != [] {
      var n := |es| - 1;
      AddIntoKnownKeys(acc, es[..n]);
      AddIntoKeys(acc, es[..n], es[n].0);
      AddIntoStep(acc, es);
    }
  }

  /** Adding a series with new, distinct keys appends them in series order. */
  lemma {:induction false} AddIntoNewKeys(acc: EntryMap, es: Series)
    requires WellFormed(acc)
    requires Distinct(Keys(es))
    requires forall j :: 0 <= j < |es| ==> es[j].0 !in acc.values
    ensures AddInto(acc, es).keys == acc.keys + Keys(es)
    decreases |es|
  {
    if es != [] {
      var front, last := es[..|es| - 1], es[|es| - 1];
      NewKeysSplit(acc, es, front, last);
      AddIntoNewKeys(acc, front);
      AddIntoKeys(acc, front, last.0);
      AddIntoStep(acc, es);
    }
  }

  /** The facts the recursion needs about the front of a series whose keys are new and distinct. */
  lemma NewKeysSplit(acc: EntryMap, es: Series, front: Series, last: (Day, ChartEntry))
    requires |es| > 0 && front == es[..|es| - 1] && last == es[|es| - 1]
    requires Distinct(Keys(es))
    requires forall j :: 0 <= j < |es| ==> es[j].0 !in acc.values
    ensures Keys(es) == Keys(front) + [last.0]
    ensures Distinct(Keys(front)) && !HasKey(front, last.0)
    ensures forall j :: 0 <= j < |front| ==> front[j].0 !in acc.values
  {
    var n := |front|;
    assert Keys(front) == Keys(es)[..n];
  }

  // ----- The properties of the overview -----

  /** The overview's keys are the union of the assets' keys. */
  lemma {:induction false} AggregateKeys(ss: seq<Series>, k: Day)
    ensures k in Aggregate(ss).values <==> exists i :: 0 <= i < |ss| && HasKey(ss[i], k)
    decreases |ss|
  {
    if ss != [] {
      var n := |ss| - 1;
      AggregateKeys(ss[..n], k);
      AddIntoKeys(Aggregate(ss[..n]), ss[n], k);
      AggregateStep(ss);
      if exists i :: 0 <= i < n && HasKey(ss[..n][i], k) {
        var i :| 0 <= i < n && HasKey(ss[..n][i], k);
        assert HasKey(ss[i], k);
      }
      if exists i :: 0 <= i < |ss| && HasKey(ss[i], k) {
        var i :| 0 <= i < |ss| && HasKey(ss[i], k);
        if i < n {
          assert HasKey(ss[..n][i], k);
        }
      }
    }
  }

  /** Each key of the overview holds the sum over all assets; an asset without the key adds nothing. */
  lemma {:induction false} AggregateValue(ss: seq<Series>, k: Day)
    ensures GetOrZero(Aggregate(ss), k) == SumAt(ss, k)
    decreases |ss|
  {
    if ss != [] {
      var n := |ss| - 1;
      AggregateValue(ss[..n], k);
      AddIntoValue(Aggregate(ss[..n]), ss[n], k);
      AggregateStep(ss);
      SumAtStep(ss, k);
    }
  }

  /** A series without the key adds nothing under it. */
  lemma {:induction false} SumOfAbsent(es: Series, k: Day)
    requires forall j :: 0 <= j < |es| ==> es[j].0 != k
    ensures SumOf(es, k) == Zero
    decreases |es|
  {
    if es != [] {
      var n := |es| - 1;
      assert forall j :: 0 <= j < n ==> es[..n][j] == es[j];
      SumOfAbsent(es[..n], k);
      assert Under(es[n], k) == Zero;
      PlusZero(SumOf(es[..n], k));
      SumOfStep(es, k);
    }
  }

  /** Within a series of distinct keys, the sum under a key it has is the one entry stored there. */
  lemma {:induction false} SumOfPresent(es: Series, j: nat, k: Day)
    requires Distinct(Keys(es))
    requires j < |es| && es[j].0 == k
    ensures SumOf(es, k) == es[j].1
    decreases |es|
  {
    var n := |es| - 1;
    var keys := Keys(es);
    if j == n {
      forall i | 0 <= i < n ensures es[..n][i].0 != k {
        assert keys[i] != keys[n];
      }
      SumOfAbsent(es[..n], k);
      assert Under(es[n], k) == es[n].1;
      ZeroPlus(es[n].1);
      SumOfStep(es, k);
    } else {
      assert Keys(es[..n]) == keys[..n];
      assert keys[j] != keys[n];
      SumOfPresent(es[..n], j, k);
      assert Under(es[n], k) == Zero;
      PlusZero(SumOf(es[..n], k));
      SumOfStep(es, k);
    }
  }

  /** Read through its entries, a collection adds exactly its own value under each key, and Zero under a key it lacks. */
  lemma EntriesSum(m: EntryMap, k: Day)
    requires WellFormed(m)
    ensures SumOf(Entries(m), k) == GetOrZero(m, k)
  {
    var es := Entries(m);
    assert Keys(es) == m.keys;
    if k in m.values {
      var j :| 0 <= j < |m.keys| && m.keys[j] == k;
      SumOfPresent(es, j, k);
    } else {
      SumOfAbsent(es, k);
    }
  }

  /** A key occurs among the first `n` pairs iff one of them carries it. */
  lemma HasKeyPrefix(es: Series, n: nat, k: Day)
    requires n <= |es|
    ensures HasKey(es[..n], k) <==> exists j :: 0 <= j < n && es[j].0 == k
  {
    if HasKey(es[..n], k) {
      var j :| 0 <= j < n && es[..n][j].0 == k;
      assert es[j].0 == k;
    }
    if exists j :: 0 <= j < n && es[j].0 == k {
      var j :| 0 <= j < n && es[j].0 == k;
      assert es[..n][j].0 == k;
    }
  }

  lemma {:induction false} SumAtConcat(a: seq<Series>, b: seq<Series>, k: Day)
    ensures SumAt(a + b, k) == Plus(SumAt(a, k), SumAt(b, k))
    decreases |b|
  {
    if b == [] {
      assert a + b == a;
      PlusZero(SumAt(a, k));
    } else {
      var n := |b| - 1;
      assert (a + b)[..|a + b| - 1] == a + b[..n];
      assert (a + b)[|a + b| - 1] == b[n];
      SumAtConcat(a, b[..n], k);
      SumAtStep(a + b, k);
      SumAtStep(b, k);
      PlusAssoc(SumAt(a, k), SumAt(b[..n], k), SumOf(b[n], k));
    }
  }

  /** Reordering the assets does not change any sum. */
  lemma {:induction false} SumAtPermutation(a: seq<Series>, b: seq<Series>, k: Day)
    requires multiset(a) == multiset(b)
    ensures SumAt(a, k) == SumAt(b, k)
    decreases |a|
  {
    if a == [] {
      assert b == [] by {
        assert |multiset(b)| == 0;
      }
    } else {
      var n := |a| - 1;
      var x := a[n];
      assert x in multiset(b);
      var j :| 0 <= j < |b| && b[j] == x;
      var front, back := b[..j], b[j + 1..];
      assert b == front + [x] + back;
      assert a == a[..n] + [x];
      assert multiset(a) == multiset(a[..n]) + multiset{x};
      assert multiset(b) == multiset(front) + multiset{x} + multiset(back);
      assert multiset(front + back) == multiset(front) + multiset(back);
      assert multiset(a[..n]) == multiset(a) - multiset{x};
      assert multiset(front + back) == multiset(b) - multiset{x};
      SumAtPermutation(a[..n], front + back, k);
      SumAtConcat(front + [x], back, k);
      SumAtConcat(front, [x], k);
      SumAtConcat(front, back, k);
      SumAtStep(a, k);
      SumAtStep([x], k);
      assert [x][..0] == [];
      ZeroPlus(SumOf(x, k));
      PlusAssoc(SumAt(front, k), SumOf(x, k), SumAt(back, k));
      PlusComm(SumOf(x, k), SumAt(back, k));
      PlusAssoc(SumAt(front, k), SumAt(back, k), SumOf(x, k));
    }
  }

  /** The overview's contents do not depend on the order of the assets. */
  lemma AggregateOrderIndependent(a: seq<Series>, b: seq<Series>)
    requires multiset(a) == multiset(b)
    ensures Aggregate(a).values == Aggregate(b).values
  {
    var ma, mb := Aggregate(a), Aggregate(b);
    forall k ensures k in ma.values <==> k in mb.values {
      AggregateKeys(a, k);
      AggregateKeys(b, k);
      if exists i :: 0 <= i < |a| && HasKey(a[i], k) {
        var i :| 0 <= i < |a| && HasKey(a[i], k);
        assert a[i] in multiset(b);
      }
      if exists i :: 0 <= i < |b| && HasKey(b[i], k) {
        var i :| 0 <= i < |b| && HasKey(b[i], k);
        assert b[i] in multiset(a);
      }
    }
    forall k | k in ma.values ensures ma.values[k] == mb.values[k] {
      AggregateValue(a, k);
      AggregateValue(b, k);
      SumAtPermutation(a, b, k);
    }
  }

  /** When every asset has the same distinct keys in the same order, the overview lists them in that order. */
  lemma {:induction false} AggregateSameKeys(ss: seq<Series>, keys: seq<Day>)
    requires |ss| > 0 && Distinct(keys)
    requires forall i :: 0 <= i < |ss| ==> Keys(ss[i]) == keys
    ensures Aggregate(ss).keys == keys
    decreases |ss|
  {
    var n := |ss| - 1;
    if n == 0 {
      assert ss[..n] == [];
      AddIntoNewKeys(Empty, ss[0]);
    } else {
      AggregateSameKeys(ss[..n], keys);
      var acc := Aggregate(ss[..n]);
      forall j | 0 <= j < |ss[n]| ensures ss[n][j].0 in acc.values {
        assert Keys(ss[n])[j] == keys[j];
      }
      AddIntoKnownKeys(acc, ss[n]);
    }
  }

  // ----- The fetch -----

  /** A selected asset: `amount` is the number of shares held, `locatedMoney` the cash set aside. */
  datatype SimulationItem = SimulationItem(assetId: AssetId, amount: Option<int>, locatedMoney: Option<int>)

  /** `x || 0` on an optional number. */
  function OrZero(x: Option<int>): int {
    if x.Some? then x.value else 0
  }

  /** The chart `fetchData` asks `createChartData` for on behalf of one selected asset. */
  function AssetChart(item: SimulationItem, fromDate: Time, toDate: Time, riskLevel: int,
                      decisionsFor: (AssetId, int) -> seq<Decision>, priceFor: AssetId -> PriceFeed): Series
  {
    ChartData(OrZero(item.locatedMoney), OrZero(item.amount), fromDate, toDate,
              decisionsFor(item.assetId, riskLevel), priceFor(item.assetId))
  }

  /** The series computed for each selected asset, in selection order. */
  function AssetSeries(items: seq<SimulationItem>, fromDate: Time, toDate: Time, riskLevel: int,
                       decisionsFor: (AssetId, int) -> seq<Decision>, priceFor: AssetId -> PriceFeed): (r: seq<Series>)
    ensures |r| == |items|
    ensures forall i :: 0 <= i < |items| ==> r[i] == AssetChart(items[i], fromDate, toDate, riskLevel, decisionsFor, priceFor)
    decreases |items|
  {
    if items == [] then []
    else
      var front := items[..|items| - 1];
      assert forall i :: 0 <= i < |front| ==> front[i] == items[i];
      AssetSeries(front, fromDate, toDate, riskLevel, decisionsFor, priceFor)
        + [AssetChart(items[|items| - 1], fromDate, toDate, riskLevel, decisionsFor, priceFor)]
  }

  /** The entries of each collection, in iteration order. */
  ghost function SeriesOf(cs: seq<ChartEntryCollection>): (r: seq<Series>)
    requires forall c :: c in cs ==> c.Valid()
    reads cs
    ensures |r| == |cs| && forall i :: 0 <= i < |cs| ==> cs[i].Valid() && r[i] == Entries(cs[i].Model())
    decreases |cs|
  {
    if cs == [] then []
    else
      var n := |cs| - 1;
      assert cs[n] in cs;
      assert cs[n].Valid();
      SeriesOf(cs[..n]) + [Entries(cs[n].Model())]
  }

  /** The inner `forEach`: one collection's entries added, in order, into `overview`. */
  method AddEntries(overview: ChartEntryCollection, es: Series)
    requires overview.Valid()
    modifies overview
    ensures overview.Valid() && overview.Model() == AddInto(old(overview.Model()), es)
  {
    ghost var acc := overview.Model();
    for j := 0 to |es|
      invariant overview.Valid()
      invariant overview.Model() == AddInto(acc, es[..j])
    {
      ghost var before := overview.Model();
      var key, value := es[j].0, es[j].1;
      var stored := overview.Get(key);
      var currentValue := if stored.Some? then stored.value else Zero;
      assert currentValue == GetOrZero(before, key);
      overview.Set(key, ChartEntry(currentValue.autoinvested + value.autoinvested,
                                   currentValue.noAutoinvested + value.noAutoinvested));
      assert overview.Model() == AddOne(before, key, value);
      AddIntoPrefix(acc, es, j);
    }
    assert es[..|es|] == es;
  }

  /** The overview loop: every collection's entries added, in order, into a fresh collection. */
  method AggregateOverview(assetsData: seq<ChartEntryCollection>) returns (overview: ChartEntryCollection)
    requires forall c :: c in assetsData ==> c.Valid()
    ensures fresh(overview) && overview.Valid()
    ensures overview.Model() == Aggregate(old(SeriesOf(assetsData)))
  {
    ghost var series := SeriesOf(assetsData);
    overview := new ChartEntryCollection();
    for i := 0 to |assetsData|
      invariant fresh(overview) && overview.Valid()
      invariant overview.Model() == Aggregate(series[..i])
    {
      var es := Entries(assetsData[i].Model());
      assert es == series[i];
      AddEntries(overview, es);
      AggregatePrefix(series, i);
    }
    assert series[..|assetsData|] == series;
  }

  lemma SeriesOfAppend(cs: seq<ChartEntryCollection>, c: ChartEntryCollection)
    requires forall d :: d in cs ==> d.Valid()
    requires c.Valid()
    ensures SeriesOf(cs + [c]) == SeriesOf(cs) + [Entries(c.Model())]
  {
    assert (cs + [c])[..|cs|] == cs;
  }

  lemma AssetSeriesPrefix(items: seq<SimulationItem>, i: nat, fromDate: Time, toDate: Time, riskLevel: int,
                          decisionsFor: (AssetId, int) -> seq<Decision>, priceFor: AssetId -> PriceFeed)
    requires i < |items|
    ensures AssetSeries(items[..i + 1], fromDate, toDate, riskLevel, decisionsFor, priceFor)
         == AssetSeries(items[..i], fromDate, toDate, riskLevel, decisionsFor, priceFor)
            + [AssetChart(items[i], fromDate, toDate, riskLevel, decisionsFor, priceFor)]
  {
    assert items[..i + 1][..i] == items[..i];
  }

  /** The callback of the `Promise.all`: one asset's decisions fetched and replayed. */
  method AssetChartData(item: SimulationItem, fromDate: Time, toDate: Time, riskLevel: int,
                        decisionsFor: (AssetId, int) -> seq<Decision>, priceFor: AssetId -> PriceFeed)
    returns (entryCollection: ChartEntryCollection)
    ensures fresh(entryCollection) && entryCollection.Valid()
    ensures Entries(entryCollection.Model()) == AssetChart(item, fromDate, toDate, riskLevel, decisionsFor, priceFor)
  {
    var decisions := decisionsFor(item.assetId, riskLevel);
    entryCollection := CreateChartData(OrZero(item.locatedMoney), OrZero(item.amount),
                                       fromDate, toDate, decisions, priceFor(item.assetId));
  }

  /** The `Promise.all` over the selected assets, run one asset after another: a chart per asset. */
  method ChartsPerAsset(items: seq<SimulationItem>, fromDate: Time, toDate: Time, riskLevel: int,
                        decisionsFor: (AssetId, int) -> seq<Decision>, priceFor: AssetId -> PriceFeed)
    returns (assetsData: seq<ChartEntryCollection>)
    ensures forall c :: c in assetsData ==> fresh(c) && c.Valid()
    ensures SeriesOf(assetsData) == AssetSeries(items, fromDate, toDate, riskLevel, decisionsFor, priceFor)
  {
    assetsData := [];
    for i := 0 to |items|
      invariant |assetsData| == i
      invariant forall j :: 0 <= j < i ==>
                  fresh(assetsData[j]) && assetsData[j].Valid()
                  && Entries(assetsData[j].Model()) == AssetChart(items[j], fromDate, toDate, riskLevel, decisionsFor, priceFor)
    {
      var entryCollection := AssetChartData(items[i], fromDate, toDate, riskLevel, decisionsFor, priceFor);
      assetsData := assetsData + [entryCollection];
      assert assetsData[i] == entryCollection;
    }
    forall c | c in assetsData ensures fresh(c) && c.Valid() {
      var j :| 0 <= j < |assetsData| && assetsData[j] == c;
    }
    SeriesOfCharts(assetsData, items, fromDate, toDate, riskLevel, decisionsFor, priceFor);
  }

  /** Collections holding each asset's chart, in order, have exactly the series `AssetSeries` specifies. */
  lemma SeriesOfCharts(cs: seq<ChartEntryCollection>, items: seq<SimulationItem>, fromDate: Time, toDate: Time,
                       riskLevel: int, decisionsFor: (AssetId, int) -> seq<Decision>, priceFor: AssetId -> PriceFeed)
    requires |cs| == |items|
    requires forall c :: c in cs ==> c.Valid()
    requires forall j :: 0 <= j < |cs| ==>
               cs[j].Valid() && Entries(cs[j].Model()) == AssetChart(items[j], fromDate, toDate, riskLevel, decisionsFor, priceFor)
    ensures SeriesOf(cs) == AssetSeries(items, fromDate, toDate, riskLevel, decisionsFor, priceFor)
  {
    var a, b := SeriesOf(cs), AssetSeries(items, fromDate, toDate, riskLevel, decisionsFor, priceFor);
    forall j | 0 <= j < |cs| ensures a[j] == b[j] {
    }
  }

  /** `fetchData`: a chart per selected asset, then their overview. */
  method FetchData(items: seq<SimulationItem>, fromDate: Time, toDate: Time, riskLevel: int,
                   decisionsFor: (AssetId, int) -> seq<Decision>, priceFor: AssetId -> PriceFeed)
    returns (assetsData: seq<ChartEntryCollection>, overview: ChartEntryCollection)
    ensures forall c :: c in assetsData ==> fresh(c) && c.Valid()
    ensures SeriesOf(assetsData) == AssetSeries(items, fromDate, toDate, riskLevel, decisionsFor, priceFor)
    ensures fresh(overview) && overview.Valid()
    ensures overview.Model() == Aggregate(AssetSeries(items, fromDate, toDate, riskLevel, decisionsFor, priceFor))
  {
    assetsData := ChartsPerAsset(items, fromDate, toDate, riskLevel, decisionsFor, priceFor);
    overview := AggregateOverview(assetsData);
  }

  /** Each asset's chart is keyed by the consecutive days of the range. */
  lemma AssetChartKeys(item: SimulationItem, fromDate: Time, toDate: Time, riskLevel: int,
                       decisionsFor: (AssetId, int) -> seq<Decision>, priceFor: AssetId -> PriceFeed)
    ensures var keys := Keys(AssetChart(item, fromDate, toDate, riskLevel, decisionsFor, priceFor));
            |keys| == (if DayOf(fromDate) <= DayOf(toDate) then DayOf(toDate) - DayOf(fromDate) + 1 else 0)
            && forall j :: 0 <= j < |keys| ==> keys[j] == DayOf(fromDate) + j
  {
  }

  /** Every asset's chart covers the same days, so the overview has one key per day of
      the range, in ascending order. */
  lemma OverviewShape(items: seq<SimulationItem>, fromDate: Time, toDate: Time, riskLevel: int,
                      decisionsFor: (AssetId, int) -> seq<Decision>, priceFor: AssetId -> PriceFeed)
    requires |items| > 0
    ensures var overview := Aggregate(AssetSeries(items, fromDate, toDate, riskLevel, decisionsFor, priceFor));
            |overview.keys| == (if DayOf(fromDate) <= DayOf(toDate) then DayOf(toDate) - DayOf(fromDate) + 1 else 0)
            && forall j :: 0 <= j < |overview.keys| ==> overview.keys[j] == DayOf(fromDate) + j
  {
    var ss := AssetSeries(items, fromDate, toDate, riskLevel, decisionsFor, priceFor);
    var keys := Keys(ss[0]);
    AssetChartKeys(items[0], fromDate, toDate, riskLevel, decisionsFor, priceFor);
    forall i | 0 <= i < |ss| ensures Keys(ss[i]) == keys {
      AssetChartKeys(items[i], fromDate, toDate, riskLevel, decisionsFor, priceFor);
    }
    AggregateSameKeys(ss, keys);
  }
}
