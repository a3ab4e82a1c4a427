/** The portfolio chart's `buildChart`: one shared day axis from the earliest
    decision or purchase date up to now, every holding replayed over it
    independently and its daily values added into one accumulator keyed by
    the UTC date. */
module PortfolioChart {
  import opened Replay
  import opened EntryCollection

  /** One position of the user's portfolio: `amount` shares bought at `boughtPrice` each. */
  datatype Holding = Holding(assetId: AssetId, amount: int, boughtPrice: int)

  /** An entry of `assetsMap`; only its presence matters to the chart. */
  datatype Asset = Asset(assetId: AssetId, ticker: string, mic: string)

  function Elements<T>(s: seq<T>): (r: set<T>)
    ensures r == {} <==> |s| == 0
  {
    var r := set x | x in s;
    assert |s| > 0 ==> s[0] in r;
    r
  }

  /** Every holding is dated as bought a week before now. */
  function BuyDate(now: Time): (t: Time)
    ensures DayOf(t) == DayOf(now) - 7
  {
    now - 7 * DayLength
  }

  /** The instant `${dateISO}T23:59:59Z` the day's closing price is taken at. */
  function ClosingTime(day: Day): (t: Time)
    ensures DayOf(t) == day && t + 1000 == (day + 1) * DayLength
  {
    day * DayLength + DayLength - 1000
  }

  // ----- The date axis -----

  /** The dates of the decisions listed under `keys`. */
  ghost function DecisionTimes(decisionsMap: map<AssetId, seq<Decision>>, keys: set<AssetId>): set<Time> {
    set k, i | k in keys && k in decisionsMap && 0 <= i < |decisionsMap[k]| :: decisionsMap[k][i].date
  }

  /** `allTimes`: every decision date and one buy date per holding. */
  ghost function AllTimes(holdings: seq<Holding>, decisionsMap: map<AssetId, seq<Decision>>, now: Time): set<Time> {
    DecisionTimes(decisionsMap, decisionsMap.Keys) + (if |holdings| > 0 then {BuyDate(now)} else {})
  }

  /** The least element of a non-empty finite set, as `reduce((a, b) => (a < b ? a : b))` finds it. */
  ghost function MinOf(s: set<int>): (m: int)
    requires s != {}
    ensures m in s && forall x :: x in s ==> m <= x
    decreases |s|
  {
    HasElement(s);
    var y :| y in s;
    if s == {y} then
      assert forall x :: x in s ==> x == y;
      y
    else
      var m := MinOf(s - {y});
      assert forall x :: x in s ==> x == y || x in s - {y};
      if y < m then y else m
  }

  lemma HasElement(s: set<int>)
    requires s != {}
    ensures exists y :: y in s
  {
    if forall y :: y !in s {
      assert false;
    }
  }

  /** The loop `for (d = minDate; d <= maxDate; d.setDate(d.getDate() + 1))`: the day of each `d`. */
  function Axis(start: Time, end: Time): (r: seq<Day>)
    ensures |r| == if start <= end then (end - start) / DayLength + 1 else 0
    ensures forall j :: 0 <= j < |r| ==> r[j] == DayOf(start) + j
    decreases end - start
  {
    if start > end then [] else [DayOf(start)] + Axis(start + DayLength, end)
  }

  /** The axis stops on the day of `end` when `start`'s time of day is not later than `end`'s,
      and on the day before otherwise. */
  lemma AxisEnds(start: Time, end: Time)
    requires start <= end
    ensures var r := Axis(start, end);
      (start % DayLength <= end % DayLength ==> r[|r| - 1] == DayOf(end)) &&
      (start % DayLength > end % DayLength ==> r[|r| - 1] == DayOf(end) - 1)
  {
    var qs, rs := start / DayLength, start % DayLength;
    var qe, re := end / DayLength, end % DayLength;
    assert end - start == (qe - qs) * DayLength + (re - rs);
    if rs <= re {
      assert (end - start) / DayLength == qe - qs;
    } else {
      assert end - start == (qe - qs - 1) * DayLength + (DayLength + re - rs);
      assert (end - start) / DayLength == qe - qs - 1;
    }
  }

  // ----- One holding's replay -----

  /** `decisions.filter(d => d.date.toISOString().startsWith(dateISO))`: the decisions on that UTC day. */
  function OnDay(ds: seq<Decision>, day: Day): (r: seq<Decision>)
    ensures forall d :: d in r <==> d in ds && DayOf(d.date) == day
    decreases |ds|
  {
    if ds == [] then []
    else (if DayOf(ds[0].date) == day then [ds[0]] else []) + OnDay(ds[1..], day)
  }

  /** The day's decisions, then `.sort((a, b) => a.date - b.date)`. */
  function DayDecisions(ds: seq<Decision>, day: Day): (r: seq<Decision>)
    ensures SortedByTime(r) && multiset(r) == multiset(OnDay(ds, day))
    ensures forall d :: d in r <==> d in ds && DayOf(d.date) == day
  {
    var r := SortByTime(OnDay(ds, day));
    assert forall d :: d in r <==> d in multiset(r);
    r
  }

  lemma {:induction false} AtTimeOnDay(ds: seq<Decision>, day: Day, t: Time)
    requires DayOf(t) == day
    ensures AtTime(OnDay(ds, day), t) == AtTime(ds, t)
    decreases |ds|
  {
    if ds != [] {
      AtTimeOnDay(ds[1..], day, t);
      var head := if DayOf(ds[0].date) == day then [ds[0]] else [];
      if head != [] {
        assert head[1..] == [];
      }
      AtTimeConcat(head, OnDay(ds[1..], day), t);
    }
  }

  /** Decisions of the same day with equal timestamps are applied in their stored order. */
  lemma DayDecisionsStable(ds: seq<Decision>, day: Day, t: Time)
    requires DayOf(t) == day
    ensures AtTime(DayDecisions(ds, day), t) == AtTime(ds, t)
  {
    SortByTimeStable(OnDay(ds, day), t);
    AtTimeOnDay(ds, day, t);
  }

  /** The entries one holding adds to the days of `days`, starting from the position `p`:
      each day applies that day's decisions and then values both legs at the closing price. */
  function HoldingSeries(p: Position, initialNoAuto: int, days: seq<Day>, ds: seq<Decision>, price: PriceFeed): (r: seq<ChartEntry>)
    ensures |r| == |days|
    decreases |days|
  {
    if days == [] then []
    else
      var q := ApplyAll(p, DayDecisions(ds, days[0]), price);
      var closing := price(ClosingTime(days[0]));
      [ChartEntry(Value(q, closing), initialNoAuto + q.shares * closing)]
        + HoldingSeries(q, initialNoAuto, days[1..], ds, price)
  }

  /** `decisionsMap[h.assetId] || []`. */
  function DecisionsFor(decisionsMap: map<AssetId, seq<Decision>>, id: AssetId): seq<Decision> {
    if id in decisionsMap then decisionsMap[id] else []
  }

  function Zeros(n: nat): (r: seq<ChartEntry>)
    ensures |r| == n && forall j :: 0 <= j < n ==> r[j] == Zero
  {
    seq(n, _ => Zero)
  }

  function AddSeries(a: seq<ChartEntry>, b: seq<ChartEntry>): (r: seq<ChartEntry>)
    requires |a| == |b|
    ensures |r| == |a| && forall j :: 0 <= j < |a| ==> r[j] == Plus(a[j], b[j])
  {
    seq(|a|, j requires 0 <= j < |a| => Plus(a[j], b[j]))
  }

  lemma AddZeros(a: seq<ChartEntry>)
    ensures AddSeries(a, Zeros(|a|)) == a
  {
    forall j | 0 <= j < |a| ensures AddSeries(a, Zeros(|a|))[j] == a[j] {
      PlusZero(a[j]);
    }
  }

  /** What holding `h` adds to each day of the axis: nothing when its asset is unknown,
      otherwise its own replay from `cash = amount*boughtPrice`, `shares = amount`. */
  function Contribution(h: Holding, assetsMap: map<AssetId, Asset>, decisionsMap: map<AssetId, seq<Decision>>,
                        axis: seq<Day>, priceOf: AssetId -> PriceFeed): (r: seq<ChartEntry>)
    ensures |r| == |axis|
  {
    if h.assetId !in assetsMap then Zeros(|axis|)
    else
      var start := h.amount * h.boughtPrice;
      HoldingSeries(Position(start, h.amount), start, axis, DecisionsFor(decisionsMap, h.assetId), priceOf(h.assetId))
  }

  /** The accumulator after the given holdings, one entry per axis day. */
  function Totals(hs: seq<Holding>, assetsMap: map<AssetId, Asset>, decisionsMap: map<AssetId, seq<Decision>>,
                  axis: seq<Day>, priceOf: AssetId -> PriceFeed): (r: seq<ChartEntry>)
    ensures |r| == |axis|
    decreases |hs|
  {
    if hs == [] then Zeros(|axis|)
    else
      var n := |hs| - 1;
      AddSeries(Totals(hs[..n], assetsMap, decisionsMap, axis, priceOf), Contribution(hs[n], assetsMap, decisionsMap, axis, priceOf))
  }

  lemma TotalsPrefix(hs: seq<Holding>, i: nat, assetsMap: map<AssetId, Asset>, decisionsMap: map<AssetId, seq<Decision>>,
                     axis: seq<Day>, priceOf: AssetId -> PriceFeed)
    requires i < |hs|
    ensures Totals(hs[..i + 1], assetsMap, decisionsMap, axis, priceOf)
         == AddSeries(Totals(hs[..i], assetsMap, decisionsMap, axis, priceOf), Contribution(hs[i], assetsMap, decisionsMap, axis, priceOf))
  {
    assert hs[..i + 1][..i] == hs[..i];
  }

  lemma TotalsSnoc(hs: seq<Holding>, x: Holding, assetsMap: map<AssetId, Asset>, decisionsMap: map<AssetId, seq<Decision>>,
                   axis: seq<Day>, priceOf: AssetId -> PriceFeed)
    ensures Totals(hs + [x], assetsMap, decisionsMap, axis, priceOf)
         == AddSeries(Totals(hs, assetsMap, decisionsMap, axis, priceOf), Contribution(x, assetsMap, decisionsMap, axis, priceOf))
  {
    assert (hs + [x])[..|hs|] == hs;
  }

  /** The chart `buildChart` hands to `setChartData`: each axis day with its accumulated pair
      (in minor units; the division by 100 is left to display). */
  ghost function BuildChartSpec(holdings: seq<Holding>, assetsMap: map<AssetId, Asset>, decisionsMap: map<AssetId, seq<Decision>>,
                                now: Time, priceOf: AssetId -> PriceFeed): seq<(Day, ChartEntry)>
  {
    var times := AllTimes(holdings, decisionsMap, now);
    if times == {} then []
    else
      var axis := Axis(MinOf(times), now);
      var totals := Totals(holdings, assetsMap, decisionsMap, axis, priceOf);
      seq(|axis|, j requires 0 <= j < |axis| => (axis[j], totals[j]))
  }

  /** The effect's guard: build only with holdings, assets and decisions, otherwise an empty chart. */
  ghost function ChartDataSpec(holdings: seq<Holding>, assetsMap: map<AssetId, Asset>, decisionsMap: map<AssetId, seq<Decision>>,
                               now: Time, priceOf: AssetId -> PriceFeed): seq<(Day, ChartEntry)>
  {
    if |holdings| > 0 && |assetsMap| > 0 && |decisionsMap| > 0 then BuildChartSpec(holdings, assetsMap, decisionsMap, now, priceOf)
    else []
  }

  // ----- The imperative body of buildChart -----

  /** `dataByDate` holds `vals[j]` under the day `days[j]`. */
  predicate Holds(data: map<Day, ChartEntry>, days: seq<Day>, vals: seq<ChartEntry>) {
    |days| == |vals| && forall j :: 0 <= j < |days| ==> days[j] in data && data[days[j]] == vals[j]
  }

  lemma HoldsUpdate(data: map<Day, ChartEntry>, days: seq<Day>, vals: seq<ChartEntry>, j: nat, v: ChartEntry)
    requires Holds(data, days, vals) && Distinct(days) && j < |days|
    ensures Holds(data[days[j] := v], days, vals[j := v])
  {
  }

  /** The `date` of each decision, in order. */
  function Dates(arr: seq<Decision>): (r: seq<Time>)
    ensures |r| == |arr| && forall i :: 0 <= i < |arr| ==> r[i] == arr[i].date
  {
    seq(|arr|, i requires 0 <= i < |arr| => arr[i].date)
  }

  lemma ElementsConcat<T>(a: seq<T>, b: seq<T>)
    ensures Elements(a + b) == Elements(a) + Elements(b)
  {
    assert forall x :: x in a + b <==> x in a || x in b;
  }

  lemma DecisionTimesAdd(decisionsMap: map<AssetId, seq<Decision>>, keys: set<AssetId>, k: AssetId)
    requires k in decisionsMap
    ensures DecisionTimes(decisionsMap, keys + {k}) == DecisionTimes(decisionsMap, keys) + Elements(Dates(decisionsMap[k]))
  {
    var arr := decisionsMap[k];
    forall t | t in Elements(Dates(arr)) ensures t in DecisionTimes(decisionsMap, keys + {k}) {
      var i :| 0 <= i < |arr| && Dates(arr)[i] == t;
      assert decisionsMap[k][i].date == t;
    }
  }

  lemma CollectStep(decisionsMap: map<AssetId, seq<Decision>>, visited: set<AssetId>, k: AssetId,
                    before: seq<Time>, after: seq<Time>)
    requires k in decisionsMap && after == before + Dates(decisionsMap[k])
    requires Elements(before) == DecisionTimes(decisionsMap, visited)
    ensures Elements(after) == DecisionTimes(decisionsMap, visited + {k})
  {
    ElementsConcat(before, Dates(decisionsMap[k]));
    DecisionTimesAdd(decisionsMap, visited, k);
  }

  /** `allDecisionDates` (every decision of every asset, in some order) followed by `buyDates`. */
  method CollectTimes(holdings: seq<Holding>, decisionsMap: map<AssetId, seq<Decision>>, now: Time) returns (allTimes: seq<Time>)
    ensures Elements(allTimes) == AllTimes(holdings, decisionsMap, now)
  {
    var allDecisionDates: seq<Time> := [];
    var remaining := decisionsMap.Keys;
    ghost var visited: set<AssetId> := {};
    while remaining != {}
      invariant remaining + visited == decisionsMap.Keys && remaining !! visited
      invariant Elements(allDecisionDates) == DecisionTimes(decisionsMap, visited)
      decreases |remaining|
    {
      var k :| k in remaining;
      var arr := decisionsMap[k];
      ghost var before := allDecisionDates;
      allDecisionDates := AppendDates(allDecisionDates, arr);
      CollectStep(decisionsMap, visited, k, before, allDecisionDates);
      remaining, visited := remaining - {k}, visited + {k};
    }
    assert visited == decisionsMap.Keys;
    var buyDates := seq(|holdings|, _ => BuyDate(now));
    allTimes := allDecisionDates + buyDates;
    ElementsConcat(allDecisionDates, buyDates);
    BuyDatesElements(buyDates, |holdings|, now);
  }

  /** `arr.forEach(d => allDecisionDates.push(d.date))`. */
  method AppendDates(acc: seq<Time>, arr: seq<Decision>) returns (r: seq<Time>)
    ensures r == acc + Dates(arr)
  {
    r := acc;
    for i := 0 to |arr|
      invariant r == acc + Dates(arr[..i])
    {
      assert Dates(arr[..i + 1]) == Dates(arr[..i]) + [arr[i].date];
      r := r + [arr[i].date];
    }
    assert arr[..|arr|] == arr;
  }

  lemma BuyDatesElements(buyDates: seq<Time>, n: nat, now: Time)
    requires buyDates == seq(n, _ => BuyDate(now))
    ensures Elements(buyDates) == if n > 0 then {BuyDate(now)} else {}
  {
    if n > 0 {
      assert buyDates[0] == BuyDate(now);
    }
  }

  /** `allTimes.reduce((a, b) => (a < b ? a : b))`. */
  method Earliest(allTimes: seq<Time>) returns (minDate: Time)
    requires |allTimes| > 0
    ensures minDate == MinOf(Elements(allTimes))
  {
    minDate := allTimes[0];
    for i := 1 to |allTimes|
      invariant minDate in allTimes[..i]
      invariant forall j :: 0 <= j < i ==> minDate <= allTimes[j]
    {
      minDate := if minDate < allTimes[i] then minDate else allTimes[i];
    }
    assert allTimes[..|allTimes|] == allTimes;
    var m := MinOf(Elements(allTimes));
    assert minDate in Elements(allTimes);
    assert m in allTimes;
  }

  /** The axis loop: push each day and set its accumulator entry to zero. */
  method DateRange(minDate: Time, maxDate: Time) returns (allDates: seq<Day>, dataByDate: map<Day, ChartEntry>)
    ensures allDates == Axis(minDate, maxDate)
    ensures Holds(dataByDate, allDates, Zeros(|allDates|))
    ensures dataByDate.Keys == Elements(allDates)
  {
    allDates, dataByDate := [], map[];
    var d := minDate;
    while d <= maxDate
      invariant allDates + Axis(d, maxDate) == Axis(minDate, maxDate)
      invariant Holds(dataByDate, allDates, Zeros(|allDates|))
      invariant dataByDate.Keys == Elements(allDates)
      decreases maxDate - d
    {
      var iso := DayOf(d);
      assert Axis(d, maxDate) == [iso] + Axis(d + DayLength, maxDate);
      allDates := allDates + [iso];
      dataByDate := dataByDate[iso := Zero];
      d := d + DayLength;
    }
  }

  lemma HoldingSeriesStep(p: Position, initialNoAuto: int, days: seq<Day>, j: nat, next: nat, ds: seq<Decision>,
                          price: PriceFeed, series: seq<ChartEntry>)
    requires j < |days| && |series| == |days| && next == j + 1
    requires HoldingSeries(p, initialNoAuto, days[j..], ds, price) == series[j..]
    ensures var q := ApplyAll(p, DayDecisions(ds, days[j]), price);
      var closing := price(ClosingTime(days[j]));
      series[j] == ChartEntry(Value(q, closing), initialNoAuto + q.shares * closing) &&
      HoldingSeries(q, initialNoAuto, days[next..], ds, price) == series[next..]
  {
    assert days[j..][0] == days[j] && days[j..][1..] == days[j + 1..];
    assert series[j..][0] == series[j] && series[j..][1..] == series[j + 1..];
  }

  /** The body for one holding whose asset is known: replay it over every axis day and add its values in. */
  method SimulateHolding(h: Holding, decisionsMap: map<AssetId, seq<Decision>>, allDates: seq<Day>,
                         priceOf: AssetId -> PriceFeed, dataByDate: map<Day, ChartEntry>, ghost before: seq<ChartEntry>)
    returns (data: map<Day, ChartEntry>)
    requires Distinct(allDates) && Holds(dataByDate, allDates, before)
    ensures Holds(data, allDates, AddSeries(before,
              HoldingSeries(Position(h.amount * h.boughtPrice, h.amount), h.amount * h.boughtPrice,
                            allDates, DecisionsFor(decisionsMap, h.assetId), priceOf(h.assetId))))
  {
    // `cashForAuto` and `sharesHeld`, kept together
    var held := Position(h.amount * h.boughtPrice, h.amount);
    var initialNoAuto := h.amount * h.boughtPrice;
    var decisions := DecisionsFor(decisionsMap, h.assetId);
    var price := priceOf(h.assetId);
    ghost var series := HoldingSeries(held, initialNoAuto, allDates, decisions, price);
    data := dataByDate;
    var j := 0;
    while j < |allDates|
      invariant j <= |allDates|
      invariant Holds(data, allDates, PartialSum(before, series, j))
      invariant HoldingSeries(held, initialNoAuto, allDates[j..], decisions, price) == series[j..]
    {
      var next := j + 1;
      var dateISO := allDates[j];
      HoldingSeriesStep(held, initialNoAuto, allDates, j, next, decisions, price, series);
      var dayDecisions := DayDecisions(decisions, dateISO);
      held := ApplyInOrder(held, dayDecisions, price);
      var eodPx := price(ClosingTime(dateISO));
      var entry := ChartEntry(held.cash + held.shares * eodPx, initialNoAuto + held.shares * eodPx);
      AccumulateDay(data, allDates, before, series, j, next, entry);
      data := data[dateISO := Plus(data[dateISO], entry)];
      j := next;
    }
    PartialSumAll(before, series);
  }

  /** The accumulator part-way through one holding's days: the first `j` days have the holding added. */
  ghost function PartialSum(b: seq<ChartEntry>, s: seq<ChartEntry>, j: nat): (r: seq<ChartEntry>)
    requires |b| == |s|
    ensures |r| == |b|
  {
    seq(|b|, m requires 0 <= m < |b| => if m < j then Plus(b[m], s[m]) else b[m])
  }

  /** Adding the holding's value for day `j` extends the accumulated prefix by that day. */
  lemma AccumulateDay(data: map<Day, ChartEntry>, days: seq<Day>, b: seq<ChartEntry>, s: seq<ChartEntry>,
                      j: nat, next: nat, entry: ChartEntry)
    requires Distinct(days) && |b| == |s| == |days| && j < |days| && next == j + 1
    requires Holds(data, days, PartialSum(b, s, j)) && entry == s[j]
    ensures days[j] in data
    ensures Holds(data[days[j] := Plus(data[days[j]], entry)], days, PartialSum(b, s, next))
  {
    assert data[days[j]] == b[j];
    HoldsUpdate(data, days, PartialSum(b, s, j), j, Plus(b[j], s[j]));
    PartialSumStep(b, s, j, next);
  }

  lemma PartialSumStep(b: seq<ChartEntry>, s: seq<ChartEntry>, j: nat, next: nat)
    requires |b| == |s| && j < |b| && next == j + 1
    ensures PartialSum(b, s, next) == PartialSum(b, s, j)[j := Plus(b[j], s[j])]
  {
  }

  lemma PartialSumAll(b: seq<ChartEntry>, s: seq<ChartEntry>)
    requires |b| == |s|
    ensures PartialSum(b, s, |b|) == AddSeries(b, s)
  {
  }

  /** The loop over the holdings: each known holding adds its replay into the accumulator. */
  method AccumulateHoldings(holdings: seq<Holding>, assetsMap: map<AssetId, Asset>, decisionsMap: map<AssetId, seq<Decision>>,
                            allDates: seq<Day>, priceOf: AssetId -> PriceFeed, initial: map<Day, ChartEntry>)
    returns (dataByDate: map<Day, ChartEntry>)
    requires Distinct(allDates) && Holds(initial, allDates, Zeros(|allDates|))
    ensures Holds(dataByDate, allDates, Totals(holdings, assetsMap, decisionsMap, allDates, priceOf))
  {
    dataByDate := initial;
    assert holdings[..0] == [];
    for i := 0 to |holdings|
      invariant Holds(dataByDate, allDates, Totals(holdings[..i], assetsMap, decisionsMap, allDates, priceOf))
    {
      var h := holdings[i];
      TotalsPrefix(holdings, i, assetsMap, decisionsMap, allDates, priceOf);
      ghost var before := Totals(holdings[..i], assetsMap, decisionsMap, allDates, priceOf);
      if h.assetId !in assetsMap {
        AddZeros(before);
        continue;
      }
      dataByDate := SimulateHolding(h, decisionsMap, allDates, priceOf, dataByDate, before);
    }
    assert holdings[..|holdings|] == holdings;
  }

  /** `buildChart`, with both clock reads taken as `now`. */
  method BuildChart(holdings: seq<Holding>, assetsMap: map<AssetId, Asset>, decisionsMap: map<AssetId, seq<Decision>>,
                    now: Time, priceOf: AssetId -> PriceFeed) returns (out: seq<(Day, ChartEntry)>)
    ensures out == BuildChartSpec(holdings, assetsMap, decisionsMap, now, priceOf)
  {
    var allTimes := CollectTimes(holdings, decisionsMap, now);
    if |allTimes| == 0 {
      return [];
    }
    var minDate := Earliest(allTimes);
    var maxDate := now;
    var allDates, dataByDate := DateRange(minDate, maxDate);
    dataByDate := AccumulateHoldings(holdings, assetsMap, decisionsMap, allDates, priceOf, dataByDate);
    out := seq(|allDates|, j requires 0 <= j < |allDates| && allDates[j] in dataByDate => (allDates[j], dataByDate[allDates[j]]));
  }

  /** The effect: `buildChart()` when there are holdings, assets and decisions, else `setChartData([])`. */
  method ChartData(holdings: seq<Holding>, assetsMap: map<AssetId, Asset>, decisionsMap: map<AssetId, seq<Decision>>,
                   now: Time, priceOf: AssetId -> PriceFeed) returns (chartData: seq<(Day, ChartEntry)>)
    ensures |holdings| == 0 || |assetsMap| == 0 || |decisionsMap| == 0 ==> chartData == []
    ensures chartData == ChartDataSpec(holdings, assetsMap, decisionsMap, now, priceOf)
  {
    if |holdings| > 0 && |assetsMap| > 0 && |decisionsMap| > 0 {
      chartData := BuildChart(holdings, assetsMap, decisionsMap, now, priceOf);
    } else {
      chartData := [];
    }
  }

  // ----- Properties of the chart -----

  /** The chart is empty exactly when no collected time lies at or before now: with no
      holdings and no decisions, or with every decision in the future. */
  lemma ChartEmpty(holdings: seq<Holding>, assetsMap: map<AssetId, Asset>, decisionsMap: map<AssetId, seq<Decision>>,
                   now: Time, priceOf: AssetId -> PriceFeed)
    ensures BuildChartSpec(holdings, assetsMap, decisionsMap, now, priceOf) == []
        <==> forall t :: t in AllTimes(holdings, decisionsMap, now) ==> t > now
  {
    var times := AllTimes(holdings, decisionsMap, now);
    if times != {} {
      var m := MinOf(times);
      assert |Axis(m, now)| == 0 <==> m > now;
    }
  }

  /** The axis: consecutive days from the day of the earliest collected time, ending on the
      day of `now` or the day before, one entry per day. */
  lemma ChartAxis(holdings: seq<Holding>, assetsMap: map<AssetId, Asset>, decisionsMap: map<AssetId, seq<Decision>>,
                  now: Time, priceOf: AssetId -> PriceFeed)
    requires BuildChartSpec(holdings, assetsMap, decisionsMap, now, priceOf) != []
    ensures var times := AllTimes(holdings, decisionsMap, now);
      var r := BuildChartSpec(holdings, assetsMap, decisionsMap, now, priceOf);
      times != {} &&
      |r| == (now - MinOf(times)) / DayLength + 1 &&
      r[0].0 == DayOf(MinOf(times)) &&
      (forall t :: t in times ==> r[0].0 <= DayOf(t)) &&
      (forall j :: 0 <= j < |r| ==> r[j].0 == r[0].0 + j) &&
      (r[|r| - 1].0 == DayOf(now) || r[|r| - 1].0 == DayOf(now) - 1)
  {
    var times := AllTimes(holdings, decisionsMap, now);
    assert times != {};
    var m := MinOf(times);
    var axis := Axis(m, now);
    var r := BuildChartSpec(holdings, assetsMap, decisionsMap, now, priceOf);
    ChartDays(holdings, assetsMap, decisionsMap, now, priceOf);
    AxisShape(m, now, axis);
    forall t | t in times ensures DayOf(m) <= DayOf(t) {
      DayOfMonotone(m, t);
    }
  }

  lemma AxisShape(start: Time, end: Time, axis: seq<Day>)
    requires axis == Axis(start, end) && |axis| > 0
    ensures start <= end && |axis| == (end - start) / DayLength + 1
    ensures axis[0] == DayOf(start) && forall j :: 0 <= j < |axis| ==> axis[j] == axis[0] + j
    ensures axis[|axis| - 1] == DayOf(end) || axis[|axis| - 1] == DayOf(end) - 1
  {
    AxisEnds(start, end);
  }

  /** The chart's days are the axis from the earliest collected time to now. */
  lemma ChartDays(holdings: seq<Holding>, assetsMap: map<AssetId, Asset>, decisionsMap: map<AssetId, seq<Decision>>,
                  now: Time, priceOf: AssetId -> PriceFeed)
    requires AllTimes(holdings, decisionsMap, now) != {}
    ensures var axis := Axis(MinOf(AllTimes(holdings, decisionsMap, now)), now);
      var r := BuildChartSpec(holdings, assetsMap, decisionsMap, now, priceOf);
      |r| == |axis| && forall j :: 0 <= j < |r| ==> r[j].0 == axis[j]
  {
  }

  lemma DayOfMonotone(a: Time, b: Time)
    requires a <= b
    ensures DayOf(a) <= DayOf(b)
  {
  }

  /** Behind the guard there is always a holding, hence a buy date a week back: the chart
      then spans at least eight days. */
  lemma GuardedChartSpansAWeek(holdings: seq<Holding>, assetsMap: map<AssetId, Asset>, decisionsMap: map<AssetId, seq<Decision>>,
                               now: Time, priceOf: AssetId -> PriceFeed)
    requires |holdings| > 0
    ensures |BuildChartSpec(holdings, assetsMap, decisionsMap, now, priceOf)| >= 8
  {
    var times := AllTimes(holdings, decisionsMap, now);
    assert BuyDate(now) in times;
    var m := MinOf(times);
    assert m <= now - 7 * DayLength;
    assert (now - m) / DayLength >= 7;
  }

  predicate EntriesNonNegative(r: seq<ChartEntry>) {
    forall j :: 0 <= j < |r| ==> r[j].autoinvested >= 0 && r[j].noAutoinvested >= 0
  }

  /** From a non-negative position, and with a non-negative baseline amount, a holding never
      adds a negative value to either leg. */
  lemma {:induction false} HoldingSeriesNonNegative(p: Position, initialNoAuto: int, days: seq<Day>, ds: seq<Decision>, price: PriceFeed)
    requires NonNegative(p) && initialNoAuto >= 0
    ensures EntriesNonNegative(HoldingSeries(p, initialNoAuto, days, ds, price))
    decreases |days|
  {
    if days != [] {
      var q := ApplyAll(p, DayDecisions(ds, days[0]), price);
      var closing := price(ClosingTime(days[0]));
      NonNegativeValue(q, closing);
      assert q.shares * closing >= 0;
      HoldingSeriesNonNegative(q, initialNoAuto, days[1..], ds, price);
      EntriesNonNegativeCons(ChartEntry(Value(q, closing), initialNoAuto + q.shares * closing),
                             HoldingSeries(q, initialNoAuto, days[1..], ds, price));
    }
  }

  lemma EntriesNonNegativeCons(x: ChartEntry, rest: seq<ChartEntry>)
    requires x.autoinvested >= 0 && x.noAutoinvested >= 0 && EntriesNonNegative(rest)
    ensures EntriesNonNegative([x] + rest)
  {
    var r := [x] + rest;
    forall j | 1 <= j < |r| ensures r[j].autoinvested >= 0 && r[j].noAutoinvested >= 0 {
      assert r[j] == rest[j - 1];
    }
  }

  lemma AddSeriesNonNegative(a: seq<ChartEntry>, b: seq<ChartEntry>)
    requires |a| == |b| && EntriesNonNegative(a) && EntriesNonNegative(b)
    ensures EntriesNonNegative(AddSeries(a, b))
  {
  }

  /** Holdings of non-negative amounts at non-negative prices give a chart with no negative value. */
  lemma {:induction false} TotalsNonNegative(hs: seq<Holding>, assetsMap: map<AssetId, Asset>, decisionsMap: map<AssetId, seq<Decision>>,
                                            axis: seq<Day>, priceOf: AssetId -> PriceFeed)
    requires forall i :: 0 <= i < |hs| ==> hs[i].amount >= 0 && hs[i].boughtPrice >= 0
    ensures EntriesNonNegative(Totals(hs, assetsMap, decisionsMap, axis, priceOf))
    decreases |hs|
  {
    if hs != [] {
      var n := |hs| - 1;
      var h := hs[n];
      TotalsNonNegative(hs[..n], assetsMap, decisionsMap, axis, priceOf);
      if h.assetId in assetsMap {
        var start := h.amount * h.boughtPrice;
        assert start >= 0;
        HoldingSeriesNonNegative(Position(start, h.amount), start, axis, DecisionsFor(decisionsMap, h.assetId), priceOf(h.assetId));
      }
      AddSeriesNonNegative(Totals(hs[..n], assetsMap, decisionsMap, axis, priceOf), Contribution(h, assetsMap, decisionsMap, axis, priceOf));
    }
  }

  predicate LegsAgree(r: seq<ChartEntry>) {
    forall j :: 0 <= j < |r| ==> r[j].autoinvested == r[j].noAutoinvested
  }

  /** No BUY or SELL decision falls on any of `days`. */
  predicate NoTradesOnDays(ds: seq<Decision>, days: seq<Day>) {
    forall x :: x in ds && DayOf(x.date) in days ==> x.kind != "BUY" && x.kind != "SELL"
  }

  /** No BUY or SELL decision falls on or before day `lastDay`. */
  predicate NoTradesUntil(ds: seq<Decision>, lastDay: Day) {
    forall x :: x in ds && DayOf(x.date) <= lastDay ==> x.kind != "BUY" && x.kind != "SELL"
  }

  /** Without BUY or SELL decisions on the axis days a holding adds the same amount to both legs
      every day. */
  lemma {:induction false} HoldingSeriesNoTrades(p: Position, days: seq<Day>, ds: seq<Decision>, price: PriceFeed)
    requires NoTradesOnDays(ds, days)
    ensures LegsAgree(HoldingSeries(p, p.cash, days, ds, price))
    decreases |days|
  {
    if days != [] {
      NoTradesFirstDay(p, days, ds, price);
      HoldingSeriesNoTrades(p, days[1..], ds, price);
      var closing := price(ClosingTime(days[0]));
      LegsAgreeCons(ChartEntry(Value(p, closing), p.cash + p.shares * closing),
                    HoldingSeries(p, p.cash, days[1..], ds, price));
    }
  }

  /** The first axis day leaves the position as it was, and the later days have no trades either. */
  lemma NoTradesFirstDay(p: Position, days: seq<Day>, ds: seq<Decision>, price: PriceFeed)
    requires |days| > 0 && NoTradesOnDays(ds, days)
    ensures ApplyAll(p, DayDecisions(ds, days[0]), price) == p
    ensures NoTradesOnDays(ds, days[1..])
  {
    var today := DayDecisions(ds, days[0]);
    forall i | 0 <= i < |today| ensures today[i].kind != "BUY" && today[i].kind != "SELL" {
      assert today[i] in today;
    }
    NoTradesKeepPosition(p, today, price);
    forall x | x in ds && DayOf(x.date) in days[1..] ensures x.kind != "BUY" && x.kind != "SELL" {
      var j :| 0 <= j < |days[1..]| && days[1..][j] == DayOf(x.date);
      assert days[j + 1] == DayOf(x.date);
    }
  }

  lemma LegsAgreeCons(x: ChartEntry, rest: seq<ChartEntry>)
    requires x.autoinvested == x.noAutoinvested && LegsAgree(rest)
    ensures LegsAgree([x] + rest)
  {
    var r := [x] + rest;
    forall j | 1 <= j < |r| ensures r[j].autoinvested == r[j].noAutoinvested {
      assert r[j] == rest[j - 1];
    }
  }

  lemma {:induction false} TotalsNoTrades(hs: seq<Holding>, assetsMap: map<AssetId, Asset>, decisionsMap: map<AssetId, seq<Decision>>,
                                         axis: seq<Day>, priceOf: AssetId -> PriceFeed)
    requires forall k :: k in decisionsMap ==> NoTradesOnDays(decisionsMap[k], axis)
    ensures LegsAgree(Totals(hs, assetsMap, decisionsMap, axis, priceOf))
    decreases |hs|
  {
    if hs != [] {
      var n := |hs| - 1;
      var h := hs[n];
      TotalsNoTrades(hs[..n], assetsMap, decisionsMap, axis, priceOf);
      if h.assetId in assetsMap {
        var start := h.amount * h.boughtPrice;
        HoldingSeriesNoTrades(Position(start, h.amount), axis, DecisionsFor(decisionsMap, h.assetId), priceOf(h.assetId));
      }
    }
  }

  /** With no BUY or SELL decision for any asset dated today or earlier, the two lines of the
      chart coincide: a trade in the future lies beyond the axis. */
  lemma ChartNoTrades(holdings: seq<Holding>, assetsMap: map<AssetId, Asset>, decisionsMap: map<AssetId, seq<Decision>>,
                      now: Time, priceOf: AssetId -> PriceFeed)
    requires forall k :: k in decisionsMap ==> NoTradesUntil(decisionsMap[k], DayOf(now))
    ensures var r := BuildChartSpec(holdings, assetsMap, decisionsMap, now, priceOf);
      forall j :: 0 <= j < |r| ==> r[j].1.autoinvested == r[j].1.noAutoinvested
  {
    var times := AllTimes(holdings, decisionsMap, now);
    if times != {} {
      var axis := Axis(MinOf(times), now);
      forall k | k in decisionsMap ensures NoTradesOnDays(decisionsMap[k], axis) {
        AxisUntilNow(MinOf(times), now, axis, decisionsMap[k]);
      }
      TotalsNoTrades(holdings, assetsMap, decisionsMap, axis, priceOf);
    }
  }

  /** Every axis day is today or earlier, so trades up to today cover the whole axis. */
  lemma AxisUntilNow(start: Time, now: Time, axis: seq<Day>, ds: seq<Decision>)
    requires axis == Axis(start, now) && NoTradesUntil(ds, DayOf(now))
    ensures NoTradesOnDays(ds, axis)
  {
    if |axis| > 0 {
      AxisShape(start, now, axis);
      forall x | x in ds && DayOf(x.date) in axis ensures x.kind != "BUY" && x.kind != "SELL" {
        var j :| 0 <= j < |axis| && axis[j] == DayOf(x.date);
        assert axis[j] <= axis[|axis| - 1];
      }
    }
  }

  /** With non-negative holdings the chart never shows a negative value. */
  lemma ChartNonNegative(holdings: seq<Holding>, assetsMap: map<AssetId, Asset>, decisionsMap: map<AssetId, seq<Decision>>,
                         now: Time, priceOf: AssetId -> PriceFeed)
    requires forall i :: 0 <= i < |holdings| ==> holdings[i].amount >= 0 && holdings[i].boughtPrice >= 0
    ensures var r := BuildChartSpec(holdings, assetsMap, decisionsMap, now, priceOf);
      forall j :: 0 <= j < |r| ==> r[j].1.autoinvested >= 0 && r[j].1.noAutoinvested >= 0
  {
    var times := AllTimes(holdings, decisionsMap, now);
    if times != {} {
      TotalsNonNegative(holdings, assetsMap, decisionsMap, Axis(MinOf(times), now), priceOf);
    }
  }

  /** The no-autoinvest leg follows the autoinvested share count: on a day whose last decision
      is a SELL it is worth exactly the initial amount, whatever the closing price. */
  lemma {:induction false} BaselineAfterSell(p: Position, initialNoAuto: int, days: seq<Day>, ds: seq<Decision>,
                                             price: PriceFeed, j: nat)
    requires j < |days|
    requires EndsWithSell(DayDecisions(ds, days[j]))
    ensures HoldingSeries(p, initialNoAuto, days, ds, price)[j].noAutoinvested == initialNoAuto
    decreases j
  {
    if j == 0 {
      BaselineAfterSellToday(p, initialNoAuto, days, ds, price);
    } else {
      var prev := j - 1;
      var q := ApplyAll(p, DayDecisions(ds, days[0]), price);
      HoldingSeriesShift(p, initialNoAuto, days, ds, price, prev, j);
      BaselineAfterSell(q, initialNoAuto, days[1..], ds, price, prev);
    }
  }

  lemma HoldingSeriesShift(p: Position, initialNoAuto: int, days: seq<Day>, ds: seq<Decision>, price: PriceFeed,
                           prev: nat, j: nat)
    requires j < |days| && j == prev + 1
    ensures days[1..][prev] == days[j]
    ensures HoldingSeries(p, initialNoAuto, days, ds, price)[j]
         == HoldingSeries(ApplyAll(p, DayDecisions(ds, days[0]), price), initialNoAuto, days[1..], ds, price)[prev]
  {
    HoldingSeriesTail(p, initialNoAuto, days, ds, price);
  }

  lemma BaselineAfterSellToday(p: Position, initialNoAuto: int, days: seq<Day>, ds: seq<Decision>, price: PriceFeed)
    requires |days| > 0 && EndsWithSell(DayDecisions(ds, days[0]))
    ensures HoldingSeries(p, initialNoAuto, days, ds, price)[0].noAutoinvested == initialNoAuto
  {
    var today := DayDecisions(ds, days[0]);
    LastSellLiquidates(p, today, price);
    var q := ApplyAll(p, today, price);
    var closing := price(ClosingTime(days[0]));
    assert HoldingSeries(p, initialNoAuto, days, ds, price)[0] == ChartEntry(Value(q, closing), initialNoAuto + q.shares * closing);
  }

  lemma HoldingSeriesTail(p: Position, initialNoAuto: int, days: seq<Day>, ds: seq<Decision>, price: PriceFeed)
    requires |days| > 0
    ensures HoldingSeries(p, initialNoAuto, days, ds, price)[1..]
         == HoldingSeries(ApplyAll(p, DayDecisions(ds, days[0]), price), initialNoAuto, days[1..], ds, price)
  {
  }

  /** Putting in a holding whose asset is unknown changes none of the accumulated values. */
  lemma {:induction false} TotalsWithoutContribution(a: seq<Holding>, h: Holding, b: seq<Holding>, assetsMap: map<AssetId, Asset>,
                                                    decisionsMap: map<AssetId, seq<Decision>>, axis: seq<Day>, priceOf: AssetId -> PriceFeed)
    requires h.assetId !in assetsMap
    ensures Totals(a + [h] + b, assetsMap, decisionsMap, axis, priceOf) == Totals(a + b, assetsMap, decisionsMap, axis, priceOf)
    decreases |b|
  {
    if b == [] {
      assert a + [h] + b == a + [h] && a + b == a;
      TotalsSnoc(a, h, assetsMap, decisionsMap, axis, priceOf);
      AddZeros(Totals(a, assetsMap, decisionsMap, axis, priceOf));
    } else {
      var c := b[..|b| - 1];
      var x := b[|b| - 1];
      assert b == c + [x];
      TotalsWithoutContribution(a, h, c, assetsMap, decisionsMap, axis, priceOf);
      SnocRegroup(a, h, c, x);
      TotalsSnoc(a + [h] + c, x, assetsMap, decisionsMap, axis, priceOf);
      TotalsSnoc(a + c, x, assetsMap, decisionsMap, axis, priceOf);
    }
  }

  lemma SnocRegroup<T>(a: seq<T>, h: T, c: seq<T>, x: T)
    ensures a + [h] + (c + [x]) == (a + [h] + c) + [x]
    ensures a + (c + [x]) == (a + c) + [x]
  {
  }

  /** A holding whose asset is missing from `assetsMap` leaves the chart as it is, once there is
      another holding (its buy date is the same as theirs). */
  lemma AbsentHoldingIgnored(holdings: seq<Holding>, i: nat, h: Holding, assetsMap: map<AssetId, Asset>,
                             decisionsMap: map<AssetId, seq<Decision>>, now: Time, priceOf: AssetId -> PriceFeed)
    requires i <= |holdings| && |holdings| > 0 && h.assetId !in assetsMap
    ensures BuildChartSpec(holdings[..i] + [h] + holdings[i..], assetsMap, decisionsMap, now, priceOf)
         == BuildChartSpec(holdings, assetsMap, decisionsMap, now, priceOf)
  {
    var more := holdings[..i] + [h] + holdings[i..];
    assert holdings[..i] + holdings[i..] == holdings;
    assert AllTimes(more, decisionsMap, now) == AllTimes(holdings, decisionsMap, now);
    var times := AllTimes(holdings, decisionsMap, now);
    TotalsWithoutContribution(holdings[..i], h, holdings[i..], assetsMap, decisionsMap, Axis(MinOf(times), now), priceOf);
  }

  lemma AddSeriesSwap(f: seq<ChartEntry>, b: seq<ChartEntry>, x: seq<ChartEntry>)
    requires |f| == |b| == |x|
    ensures AddSeries(AddSeries(f, b), x) == AddSeries(AddSeries(f, x), b)
  {
    forall j | 0 <= j < |f| ensures AddSeries(AddSeries(f, b), x)[j] == AddSeries(AddSeries(f, x), b)[j] {
      PlusAssoc(f[j], b[j], x[j]);
      PlusComm(b[j], x[j]);
      PlusAssoc(f[j], x[j], b[j]);
    }
  }

  lemma AddSeriesAssoc(a: seq<ChartEntry>, b: seq<ChartEntry>, c: seq<ChartEntry>)
    requires |a| == |b| == |c|
    ensures AddSeries(AddSeries(a, b), c) == AddSeries(a, AddSeries(b, c))
  {
    forall j | 0 <= j < |a| ensures AddSeries(AddSeries(a, b), c)[j] == AddSeries(a, AddSeries(b, c))[j] {
      PlusAssoc(a[j], b[j], c[j]);
    }
  }

  /** The accumulator over two runs of holdings is the sum of the accumulators over each. */
  lemma {:induction false} TotalsConcat(a: seq<Holding>, b: seq<Holding>, assetsMap: map<AssetId, Asset>,
                                       decisionsMap: map<AssetId, seq<Decision>>, axis: seq<Day>, priceOf: AssetId -> PriceFeed)
    ensures Totals(a + b, assetsMap, decisionsMap, axis, priceOf)
         == AddSeries(Totals(a, assetsMap, decisionsMap, axis, priceOf), Totals(b, assetsMap, decisionsMap, axis, priceOf))
    decreases |b|
  {
    var ta := Totals(a, assetsMap, decisionsMap, axis, priceOf);
    if b == [] {
      assert a + b == a;
      AddZeros(ta);
    } else {
      var n := |b| - 1;
      TotalsConcat(a, b[..n], assetsMap, decisionsMap, axis, priceOf);
      assert a + b == (a + b[..n]) + [b[n]];
      assert b == b[..n] + [b[n]];
      TotalsSnoc(a + b[..n], b[n], assetsMap, decisionsMap, axis, priceOf);
      TotalsSnoc(b[..n], b[n], assetsMap, decisionsMap, axis, priceOf);
      AddSeriesAssoc(ta, Totals(b[..n], assetsMap, decisionsMap, axis, priceOf), Contribution(b[n], assetsMap, decisionsMap, axis, priceOf));
    }
  }

  /** The accumulated values do not depend on the order of the holdings. */
  lemma {:induction false} TotalsPermutation(a: seq<Holding>, b: seq<Holding>, assetsMap: map<AssetId, Asset>,
                                            decisionsMap: map<AssetId, seq<Decision>>, axis: seq<Day>, priceOf: AssetId -> PriceFeed)
    requires multiset(a) == multiset(b)
    ensures Totals(a, assetsMap, decisionsMap, axis, priceOf) == Totals(b, assetsMap, decisionsMap, axis, priceOf)
    decreases |a|
  {
    if a == [] {
      assert b == [] by {
        assert |multiset(b)| == 0;
      }
    } else {
      var n := |a| - 1;
      var x := a[n];
      assert x in multiset(b);
      var j :| 0 <= j < |b| && b[j] == x;
      var front, back := b[..j], b[j + 1..];
      assert b == (front + [x]) + back;
      assert a == a[..n] + [x];
      assert multiset(a) == multiset(a[..n]) + multiset{x};
      assert multiset(b) == multiset(front) + multiset{x} + multiset(back);
      assert multiset(front + back) == multiset(front) + multiset(back);
      assert multiset(a[..n]) == multiset(a) - multiset{x};
      assert multiset(front + back) == multiset(b) - multiset{x};
      TotalsPermutation(a[..n], front + back, assetsMap, decisionsMap, axis, priceOf);
      TotalsSnoc(a[..n], x, assetsMap, decisionsMap, axis, priceOf);
      TotalsConcat(front, back, assetsMap, decisionsMap, axis, priceOf);
      TotalsConcat(front + [x], back, assetsMap, decisionsMap, axis, priceOf);
      TotalsSnoc(front, x, assetsMap, decisionsMap, axis, priceOf);
      AddSeriesSwap(Totals(front, assetsMap, decisionsMap, axis, priceOf), Totals(back, assetsMap, decisionsMap, axis, priceOf),
                    Contribution(x, assetsMap, decisionsMap, axis, priceOf));
    }
  }

  /** Reordering the holdings leaves the chart unchanged. */
  lemma ChartOrderIndependent(holdings: seq<Holding>, reordered: seq<Holding>, assetsMap: map<AssetId, Asset>,
                              decisionsMap: map<AssetId, seq<Decision>>, now: Time, priceOf: AssetId -> PriceFeed)
    requires multiset(holdings) == multiset(reordered)
    ensures BuildChartSpec(holdings, assetsMap, decisionsMap, now, priceOf) == BuildChartSpec(reordered, assetsMap, decisionsMap, now, priceOf)
  {
    assert |holdings| == |multiset(holdings)| == |reordered|;
    var times := AllTimes(holdings, decisionsMap, now);
    if times != {} {
      TotalsPermutation(holdings, reordered, assetsMap, decisionsMap, Axis(MinOf(times), now), priceOf);
    }
  }
}
