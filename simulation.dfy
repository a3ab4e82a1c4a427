/** The simulation page: its date helpers and `createChartData`, the replay of
    one asset's decisions over a date range that yields one chart entry per
    calendar day. */
module Simulation {
  import opened Replay
  import opened EntryCollection

  // ----- Date helpers (local time is taken to be UTC) -----

  /** `startOfDay`: midnight at the start of the day `date` falls in. */
  function StartOfDay(date: Time): (r: Time)
    ensures r <= date < r + DayLength
    ensures r % DayLength == 0
    ensures DayOf(r) == DayOf(date)
  {
    DayOf(date) * DayLength
  }

  /** `addDays`: the same time of day, `days` calendar days later. */
  function AddDays(date: Time, days: int): (r: Time)
    ensures DayOf(r) == DayOf(date) + days
    ensures r - StartOfDay(r) == date - StartOfDay(date)
  {
    date + days * DayLength
  }

  /** `endOfDay`: 23:59:59.999, the last millisecond of the day `date` falls in. */
  function EndOfDay(date: Time): (r: Time)
    ensures DayOf(r) == DayOf(date)
    ensures DayOf(r + 1) == DayOf(date) + 1
  {
    StartOfDay(date) + DayLength - 1
  }

  /** `dateBetween`: strictly after `min` and strictly before `max`. */
  predicate DateBetween(date: Time, min: Time, max: Time) {
    date < max && date > min
  }

  /** The window a day selects its decisions from lies inside that day and
      excludes its midnight: a decision exactly at midnight belongs to no day. */
  lemma DayWindow(t: Time, current: Time)
    requires current % DayLength == 0
    ensures DateBetween(t, current, AddDays(current, 1)) <==> DayOf(t) == DayOf(current) && t != current
  {
  }

  /** `decisions.filter(decision => dateBetween(decision.date, min, max))`. */
  function DecisionsBetween(ds: seq<Decision>, min: Time, max: Time): (r: seq<Decision>)
    ensures forall d :: d in r <==> d in ds && DateBetween(d.date, min, max)
    decreases |ds|
  {
    if ds == [] then []
    else (if DateBetween(ds[0].date, min, max) then [ds[0]] else []) + DecisionsBetween(ds[1..], min, max)
  }

  lemma {:induction false} DecisionsBetweenConcat(a: seq<Decision>, b: seq<Decision>, min: Time, max: Time)
    ensures DecisionsBetween(a + b, min, max) == DecisionsBetween(a, min, max) + DecisionsBetween(b, min, max)
    decreases |a|
  {
    if a == [] {
      assert a + b == b;
    } else {
      assert (a + b)[0] == a[0] && (a + b)[1..] == a[1..] + b;
      DecisionsBetweenConcat(a[1..], b, min, max);
    }
  }

  /** The decisions a day applies, in the order it applies them. */
  function DecisionsAtDay(ds: seq<Decision>, current: Time): (r: seq<Decision>)
    ensures SortedByTime(r)
    ensures multiset(r) == multiset(DecisionsBetween(ds, current, AddDays(current, 1)))
    ensures forall x :: x in r <==> x in ds && DateBetween(x.date, current, AddDays(current, 1))
  {
    var between := DecisionsBetween(ds, current, AddDays(current, 1));
    var sorted := SortByTime(between);
    SameMembers(sorted, between);
    sorted
  }

  /** The window filter keeps every decision of a timestamp inside the window, in list order. */
  lemma {:induction false} AtTimeBetween(ds: seq<Decision>, min: Time, max: Time, t: Time)
    requires DateBetween(t, min, max)
    ensures AtTime(DecisionsBetween(ds, min, max), t) == AtTime(ds, t)
    decreases |ds|
  {
    if ds != [] {
      AtTimeBetween(ds[1..], min, max, t);
      var head := if DateBetween(ds[0].date, min, max) then [ds[0]] else [];
      if head != [] {
        assert head[1..] == [];
      }
      AtTimeConcat(head, DecisionsBetween(ds[1..], min, max), t);
    }
  }

  /** Decisions of one day with equal timestamps are applied in the order of the `decisions`
      argument. */
  lemma DecisionsAtDayStable(ds: seq<Decision>, current: Time, t: Time)
    requires DateBetween(t, current, AddDays(current, 1))
    ensures AtTime(DecisionsAtDay(ds, current), t) == AtTime(ds, t)
  {
    SortByTimeStable(DecisionsBetween(ds, current, AddDays(current, 1)), t);
    AtTimeBetween(ds, current, AddDays(current, 1), t);
  }

  /** The chart entries from `day` through `lastDay` when the autoinvested leg
      enters `day` holding `pos`; the no-autoinvested leg is always valued
      from the original `baseline`. */
  function ChartSeries(baseline: Position, pos: Position, day: Day, lastDay: Day,
                       decisions: seq<Decision>, getPrice: PriceFeed): (r: seq<(Day, ChartEntry)>)
    ensures |r| == if day <= lastDay then lastDay - day + 1 else 0
    ensures forall i :: 0 <= i < |r| ==> r[i].0 == day + i
    decreases lastDay - day
  {
    if day > lastDay then []
    else
      var current := day * DayLength;
      var p := ApplyAll(pos, DecisionsAtDay(decisions, current), getPrice);
      var priceAtEOD := getPrice(EndOfDay(current));
      [(day, ChartEntry(Value(p, priceAtEOD), Value(baseline, priceAtEOD)))]
        + ChartSeries(baseline, p, day + 1, lastDay, decisions, getPrice)
  }

  lemma ChartSeriesUnfold(baseline: Position, pos: Position, day: Day, lastDay: Day,
                          decisions: seq<Decision>, getPrice: PriceFeed)
    requires day <= lastDay
    ensures var p := ApplyAll(pos, DecisionsAtDay(decisions, day * DayLength), getPrice);
            var priceAtEOD := getPrice(EndOfDay(day * DayLength));
            ChartSeries(baseline, pos, day, lastDay, decisions, getPrice)
              == [(day, ChartEntry(Value(p, priceAtEOD), Value(baseline, priceAtEOD)))]
                 + ChartSeries(baseline, p, day + 1, lastDay, decisions, getPrice)
  {
  }

  /** Every key already recorded is earlier than `day`. */
  predicate KeysBefore(values: map<Day, ChartEntry>, day: Day) {
    forall k :: k in values ==> k < day
  }

  lemma KeysBeforeAdd(values: map<Day, ChartEntry>, day: Day, e: ChartEntry)
    requires KeysBefore(values, day)
    ensures KeysBefore(values[day := e], day + 1)
  {
  }

  lemma AppendAssoc<T>(a: seq<T>, b: seq<T>, c: seq<T>)
    ensures (a + b) + c == a + (b + c)
  {
  }

  /** What `createChartData(cash, shares, fromDate, toDate, decisions, getPrice)` yields, in iteration order. */
  function ChartData(cash: int, shares: int, fromDate: Time, toDate: Time,
                     decisions: seq<Decision>, getPrice: PriceFeed): (r: seq<(Day, ChartEntry)>)
    ensures |r| == if DayOf(fromDate) <= DayOf(toDate) then DayOf(toDate) - DayOf(fromDate) + 1 else 0
    ensures forall i :: 0 <= i < |r| ==> r[i].0 == DayOf(fromDate) + i
  {
    ChartSeries(Position(cash, shares), Position(cash, shares), DayOf(fromDate), DayOf(toDate), decisions, getPrice)
  }

  method CreateChartData(cash: int, shares: int, fromDate: Time, toDate: Time,
                         decisions: seq<Decision>, getPrice: PriceFeed)
    returns (entryCollection: ChartEntryCollection)
    ensures fresh(entryCollection) && entryCollection.Valid()
    ensures Entries(entryCollection.Model()) == ChartData(cash, shares, fromDate, toDate, decisions, getPrice)
  {
    var position := Position(cash, shares);
    entryCollection := new ChartEntryCollection();

    var start := StartOfDay(fromDate);
    var end := StartOfDay(toDate);
    var current := start;
    ghost var day := DayOf(fromDate);
    ghost var lastDay := DayOf(toDate);
    ghost var target := ChartData(cash, shares, fromDate, toDate, decisions, getPrice);
    assert start == day * DayLength && end == lastDay * DayLength;
    while current <= end
      invariant current == day * DayLength
      invariant fresh(entryCollection) && entryCollection.Valid()
      invariant KeysBefore(entryCollection.values, day)
      invariant Entries(entryCollection.Model())
                  + ChartSeries(Position(cash, shares), position, day, lastDay, decisions, getPrice) == target
      decreases end - current
    {
      MidnightOrder(day, lastDay);
      DayOfMidnight(day);
      ghost var m := entryCollection.Model();
      ghost var nextDay := day + 1;
      var next := RecordDay(entryCollection, cash, shares, position, current, decisions, getPrice);
      CreateStep(m, Position(cash, shares), position, next, getPrice(EndOfDay(current)), day, nextDay, lastDay,
                 decisions, getPrice, target);
      position := next;
      NextMidnight(day, nextDay);
      current := AddDays(current, 1);
      day := nextDay;
    }
    MidnightOrder(day, lastDay);
  }

  /** One round of the loop: the day's decisions in timestamp order, then the
      day's entry under its date key. */
  method RecordDay(entryCollection: ChartEntryCollection, cash: int, shares: int, start: Position, current: Time,
                   decisions: seq<Decision>, getPrice: PriceFeed)
    returns (pos: Position)
    requires entryCollection.Valid()
    modifies entryCollection
    ensures pos == ApplyAll(start, DecisionsAtDay(decisions, current), getPrice)
    ensures entryCollection.Valid()
    ensures entryCollection.Model()
              == Put(old(entryCollection.Model()), DayOf(current),
                     ChartEntry(Value(pos, getPrice(EndOfDay(current))),
                                Value(Position(cash, shares), getPrice(EndOfDay(current)))))
  {
    var decisionsAtDay := DecisionsAtDay(decisions, current);
    pos := ApplyInOrder(start, decisionsAtDay, getPrice);
    var currentCash, currentShares := pos.cash, pos.shares;

    var priceAtEOD := getPrice(EndOfDay(current));
    var dateKey := DayOf(current);
    entryCollection.Set(dateKey, ChartEntry(currentCash + currentShares * priceAtEOD, cash + shares * priceAtEOD));
  }

  /** One round of the loop: recording `day`'s entry moves it from the pending
      series to the collection. */
  lemma CreateStep(m: EntryMap, baseline: Position, pos: Position, p: Position, priceAtEOD: Price,
                   day: Day, nextDay: Day, lastDay: Day, decisions: seq<Decision>, getPrice: PriceFeed,
                   target: seq<(Day, ChartEntry)>)
    requires WellFormed(m) && KeysBefore(m.values, day) && day <= lastDay && nextDay == day + 1
    requires p == ApplyAll(pos, DecisionsAtDay(decisions, day * DayLength), getPrice)
    requires priceAtEOD == getPrice(EndOfDay(day * DayLength))
    requires Entries(m) + ChartSeries(baseline, pos, day, lastDay, decisions, getPrice) == target
    ensures KeysBefore(Put(m, day, ChartEntry(Value(p, priceAtEOD), Value(baseline, priceAtEOD))).values, nextDay)
    ensures Entries(Put(m, day, ChartEntry(Value(p, priceAtEOD), Value(baseline, priceAtEOD))))
              + ChartSeries(baseline, p, nextDay, lastDay, decisions, getPrice) == target
  {
    var entry := ChartEntry(Value(p, priceAtEOD), Value(baseline, priceAtEOD));
    var rest := ChartSeries(baseline, p, day + 1, lastDay, decisions, getPrice);
    ChartSeriesUnfold(baseline, pos, day, lastDay, decisions, getPrice);
    assert day !in m.values;
    EntriesOfNewKey(m, day, entry);
    AppendAssoc(Entries(m), [(day, entry)], rest);
    KeysBeforeAdd(m.values, day, entry);
  }

  lemma NextMidnight(day: Day, nextDay: Day)
    requires nextDay == day + 1
    ensures AddDays(day * DayLength, 1) == nextDay * DayLength
  {
  }

  lemma MidnightOrder(a: Day, b: Day)
    ensures a * DayLength <= b * DayLength <==> a <= b
  {
  }

  lemma DayOfMidnight(day: Day)
    ensures DayOf(day * DayLength) == day
  {
  }

  // ----- Properties of the replay -----

  /** With a non-negative starting position the autoinvested leg never goes
      negative, and neither does either leg's value on any day. */
  lemma {:induction false} ChartSeriesNonNegative(baseline: Position, pos: Position, day: Day, lastDay: Day,
                                                  decisions: seq<Decision>, getPrice: PriceFeed)
    requires NonNegative(baseline) && NonNegative(pos)
    ensures ValuesNonNegative(ChartSeries(baseline, pos, day, lastDay, decisions, getPrice))
    decreases lastDay - day
  {
    if day <= lastDay {
      var current := day * DayLength;
      var p := ApplyAll(pos, DecisionsAtDay(decisions, current), getPrice);
      var eod := getPrice(EndOfDay(current));
      NonNegativeValue(p, eod);
      NonNegativeValue(baseline, eod);
      ChartSeriesNonNegative(baseline, p, day + 1, lastDay, decisions, getPrice);
      ChartSeriesUnfold(baseline, pos, day, lastDay, decisions, getPrice);
      ValuesNonNegativeCons((day, ChartEntry(Value(p, eod), Value(baseline, eod))),
                            ChartSeries(baseline, p, day + 1, lastDay, decisions, getPrice));
    }
  }

  lemma ValuesNonNegativeCons(x: (Day, ChartEntry), rest: seq<(Day, ChartEntry)>)
    requires x.1.autoinvested >= 0 && x.1.noAutoinvested >= 0 && ValuesNonNegative(rest)
    ensures ValuesNonNegative([x] + rest)
  {
    var r := [x] + rest;
    forall i | 1 <= i < |r| ensures r[i].1.autoinvested >= 0 && r[i].1.noAutoinvested >= 0 {
      assert r[i] == rest[i - 1];
    }
  }

  predicate ValuesNonNegative(r: seq<(Day, ChartEntry)>) {
    forall i :: 0 <= i < |r| ==> r[i].1.autoinvested >= 0 && r[i].1.noAutoinvested >= 0
  }

  /** The no-autoinvested leg is the original position marked to the day's
      end-of-day price, whatever the decisions did. */
  lemma {:induction false} BaselineIsOriginalPosition(baseline: Position, pos: Position, day: Day, lastDay: Day,
                                                      decisions: seq<Decision>, getPrice: PriceFeed)
    ensures BaselineMarked(ChartSeries(baseline, pos, day, lastDay, decisions, getPrice), baseline, day, getPrice)
    decreases lastDay - day
  {
    if day <= lastDay {
      var p := ApplyAll(pos, DecisionsAtDay(decisions, day * DayLength), getPrice);
      var eod := getPrice(EndOfDay(day * DayLength));
      var next := day + 1;
      BaselineIsOriginalPosition(baseline, p, next, lastDay, decisions, getPrice);
      ChartSeriesUnfold(baseline, pos, day, lastDay, decisions, getPrice);
      BaselineMarkedCons((day, ChartEntry(Value(p, eod), Value(baseline, eod))),
                         ChartSeries(baseline, p, next, lastDay, decisions, getPrice), baseline, day, next, getPrice);
    }
  }

  lemma BaselineMarkedCons(x: (Day, ChartEntry), rest: seq<(Day, ChartEntry)>, baseline: Position,
                           day: Day, next: Day, getPrice: PriceFeed)
    requires next == day + 1
    requires x.1.noAutoinvested == Value(baseline, getPrice(EndOfDay(day * DayLength)))
    requires BaselineMarked(rest, baseline, next, getPrice)
    ensures BaselineMarked([x] + rest, baseline, day, getPrice)
  {
    var r := [x] + rest;
    forall i | 1 <= i < |r|
      ensures r[i].1.noAutoinvested == Value(baseline, getPrice(EndOfDay((day + i) * DayLength)))
    {
      assert r[i] == rest[i - 1];
      assert next + (i - 1) == day + i;
    }
  }

  predicate BaselineMarked(r: seq<(Day, ChartEntry)>, baseline: Position, day: Day, getPrice: PriceFeed) {
    forall i :: 0 <= i < |r| ==> r[i].1.noAutoinvested == Value(baseline, getPrice(EndOfDay((day + i) * DayLength)))
  }

  /** No BUY or SELL decision lies strictly inside the window of any day from `day` to `lastDay`:
      a trade before the range, after it or exactly at a midnight is allowed. */
  predicate NoTradesInRange(decisions: seq<Decision>, day: Day, lastDay: Day) {
    forall x :: x in decisions && day <= DayOf(x.date) <= lastDay && x.date % DayLength != 0 ==>
      x.kind != "BUY" && x.kind != "SELL"
  }

  /** Without BUY or SELL decisions in the range the two legs are equal on every day. */
  lemma {:induction false} NoTradesSameValues(baseline: Position, day: Day, lastDay: Day,
                                              decisions: seq<Decision>, getPrice: PriceFeed)
    requires NoTradesInRange(decisions, day, lastDay)
    ensures LegsEqual(ChartSeries(baseline, baseline, day, lastDay, decisions, getPrice))
    decreases lastDay - day
  {
    if day <= lastDay {
      var current := day * DayLength;
      NoTradesToday(baseline, decisions, day, lastDay, current, getPrice);
      NoTradesSameValues(baseline, day + 1, lastDay, decisions, getPrice);
      ChartSeriesUnfold(baseline, baseline, day, lastDay, decisions, getPrice);
      var eod := getPrice(EndOfDay(current));
      LegsEqualCons((day, ChartEntry(Value(baseline, eod), Value(baseline, eod))),
                    ChartSeries(baseline, baseline, day + 1, lastDay, decisions, getPrice));
    }
  }

  /** A day of the range without trades in its window leaves the position as it was. */
  lemma NoTradesToday(baseline: Position, decisions: seq<Decision>, day: Day, lastDay: Day, current: Time,
                      getPrice: PriceFeed)
    requires NoTradesInRange(decisions, day, lastDay) && day <= lastDay && current == day * DayLength
    ensures ApplyAll(baseline, DecisionsAtDay(decisions, current), getPrice) == baseline
  {
    var todays := DecisionsAtDay(decisions, current);
    forall i | 0 <= i < |todays| ensures todays[i].kind != "BUY" && todays[i].kind != "SELL" {
      assert todays[i] in todays;
      InWindowOnDay(todays[i].date, day, current);
    }
    NoTradesKeepPosition(baseline, todays, getPrice);
  }

  /** A time strictly inside day `day`'s window is on that day and is not a midnight. */
  lemma InWindowOnDay(t: Time, day: Day, current: Time)
    requires current == day * DayLength && DateBetween(t, current, AddDays(current, 1))
    ensures DayOf(t) == day && t % DayLength != 0
  {
    DayOfMidnight(day);
    MidnightMultiple(day);
    DayWindow(t, current);
    assert t == (t / DayLength) * DayLength + t % DayLength;
  }

  lemma LegsEqualCons(x: (Day, ChartEntry), rest: seq<(Day, ChartEntry)>)
    requires x.1.autoinvested == x.1.noAutoinvested && LegsEqual(rest)
    ensures LegsEqual([x] + rest)
  {
    var r := [x] + rest;
    forall i | 1 <= i < |r| ensures r[i].1.autoinvested == r[i].1.noAutoinvested {
      assert r[i] == rest[i - 1];
    }
  }

  predicate LegsEqual(r: seq<(Day, ChartEntry)>) {
    forall i :: 0 <= i < |r| ==> r[i].1.autoinvested == r[i].1.noAutoinvested
  }

  /** Day `k` selects the same decisions from `ds1` as from `ds2`. */
  predicate SameWindow(ds1: seq<Decision>, ds2: seq<Decision>, k: Day) {
    DecisionsBetween(ds1, k * DayLength, AddDays(k * DayLength, 1))
      == DecisionsBetween(ds2, k * DayLength, AddDays(k * DayLength, 1))
  }

  /** Two decision lists that select the same decisions on every day of the
      range produce the same entries. */
  lemma {:induction false} SameWindowsSameSeries(baseline: Position, pos: Position, day: Day, lastDay: Day,
                                                 ds1: seq<Decision>, ds2: seq<Decision>, getPrice: PriceFeed)
    requires forall k :: day <= k <= lastDay ==> SameWindow(ds1, ds2, k)
    ensures ChartSeries(baseline, pos, day, lastDay, ds1, getPrice) == ChartSeries(baseline, pos, day, lastDay, ds2, getPrice)
    decreases lastDay - day
  {
    if day <= lastDay {
      var current := day * DayLength;
      assert SameWindow(ds1, ds2, day);
      var p := ApplyAll(pos, DecisionsAtDay(ds1, current), getPrice);
      SameWindowsSameSeries(baseline, p, day + 1, lastDay, ds1, ds2, getPrice);
      ChartSeriesUnfold(baseline, pos, day, lastDay, ds1, getPrice);
      ChartSeriesUnfold(baseline, pos, day, lastDay, ds2, getPrice);
    }
  }

  /** A decision exactly at a midnight, or on a day outside the range, has no
      effect on any entry, wherever it sits in the decision list. */
  lemma IgnoredDecision(baseline: Position, pos: Position, day: Day, lastDay: Day,
                        decisions: seq<Decision>, i: nat, d: Decision, getPrice: PriceFeed)
    requires i <= |decisions|
    requires d.date % DayLength == 0 || DayOf(d.date) < day || DayOf(d.date) > lastDay
    ensures ChartSeries(baseline, pos, day, lastDay, decisions[..i] + [d] + decisions[i..], getPrice)
         == ChartSeries(baseline, pos, day, lastDay, decisions, getPrice)
  {
    var front, back := decisions[..i], decisions[i..];
    assert front + back == decisions;
    forall k | day <= k <= lastDay
      ensures SameWindow(front + [d] + back, decisions, k)
    {
      WindowSkips(front, d, back, k, k * DayLength);
    }
    SameWindowsSameSeries(baseline, pos, day, lastDay, front + [d] + back, decisions, getPrice);
  }

  /** Day `k`'s window does not select `d` when `d` lies at a midnight or on another day. */
  lemma WindowSkips(front: seq<Decision>, d: Decision, back: seq<Decision>, k: Day, current: Time)
    requires current == k * DayLength
    requires d.date % DayLength == 0 || DayOf(d.date) != k
    ensures DecisionsBetween(front + [d] + back, current, AddDays(current, 1))
         == DecisionsBetween(front + back, current, AddDays(current, 1))
  {
    var next := AddDays(current, 1);
    DayOfMidnight(k);
    MidnightMultiple(k);
    DayWindow(d.date, current);
    assert DecisionsBetween([d], current, next) == [];
    DecisionsBetweenConcat(front + [d], back, current, next);
    DecisionsBetweenConcat(front, [d], current, next);
    DecisionsBetweenConcat(front, back, current, next);
  }

  lemma MidnightMultiple(day: Day)
    ensures (day * DayLength) % DayLength == 0
  {
  }
}
