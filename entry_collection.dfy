/** `ChartEntryCollection`, the page's subclass of the JavaScript `Map` from a
    date key to a pair of values.  A Map remembers the order in which keys
    were first set; `set` on a key that is already there replaces its value
    in place, and iteration visits the keys in that order. */
module EntryCollection {
  import opened Replay

  /** The contents of such a Map: its keys in insertion order and the lookup from key to entry. */
  datatype EntryMap = EntryMap(keys: seq<Day>, values: map<Day, ChartEntry>)

  const Empty := EntryMap([], map[])

  predicate Distinct(keys: seq<Day>) {
    forall i, j :: 0 <= i < j < |keys| ==> keys[i] != keys[j]
  }

  /** Every key is listed exactly once, and the listed keys are the keys of the lookup. */
  ghost predicate WellFormed(m: EntryMap) {
    Distinct(m.keys) && forall k :: k in m.values <==> k in m.keys
  }

  /** `Map.prototype.get`: the entry stored under `k`, or nothing. */
  function Lookup(m: EntryMap, k: Day): Option<ChartEntry> {
    if k in m.values then Some(m.values[k]) else None
  }

  /** `Map.prototype.set`. */
  function Put(m: EntryMap, k: Day, v: ChartEntry): (r: EntryMap)
    requires WellFormed(m)
    ensures WellFormed(r)
    ensures Lookup(r, k) == Some(v)
    ensures forall j :: j != k ==> Lookup(r, j) == Lookup(m, j)
    ensures k in m.values ==> r.keys == m.keys
    ensures k !in m.values ==> r.keys == m.keys + [k]
  {
    EntryMap(if k in m.values then m.keys else m.keys + [k], m.values[k := v])
  }

  /** The (key, value) pairs in iteration order, as `forEach` and `entries()` visit them. */
  function Entries(m: EntryMap): (r: seq<(Day, ChartEntry)>)
    requires WellFormed(m)
    ensures |r| == |m.keys|
    ensures forall i :: 0 <= i < |r| ==> r[i].0 == m.keys[i] && m.values[m.keys[i]] == r[i].1
    decreases |m.keys|
  {
    if m.keys == [] then []
    else
      var n := |m.keys| - 1;
      var init := EntryMap(m.keys[..n], map k | k in m.values && k != m.keys[n] :: m.values[k]);
      assert WellFormed(init) by {
        forall k ensures k in init.values <==> k in init.keys {
          assert m.keys == init.keys + [m.keys[n]];
        }
      }
      Entries(init) + [(m.keys[n], m.values[m.keys[n]])]
  }

  /** Setting a new key appends exactly one pair to the iteration order. */
  lemma EntriesOfNewKey(m: EntryMap, k: Day, v: ChartEntry)
    requires WellFormed(m) && k !in m.values
    ensures Entries(Put(m, k, v)) == Entries(m) + [(k, v)]
  {
    var r := Put(m, k, v);
    var n := |r.keys| - 1;
    assert r.keys[..n] == m.keys && r.keys[n] == k;
    assert (map j | j in r.values && j != k :: r.values[j]) == m.values;
  }

  class ChartEntryCollection {
    var keys: seq<Day>
    var values: map<Day, ChartEntry>

    function Model(): EntryMap
      reads this
    {
      EntryMap(keys, values)
    }

    ghost predicate Valid()
      reads this
    {
      WellFormed(Model())
    }

    constructor ()
      ensures Valid() && Model() == Empty
    {
      keys := [];
      values := map[];
    }

    method Set(key: Day, value: ChartEntry)
      requires Valid()
      modifies this
      ensures Valid() && Model() == Put(old(Model()), key, value)
    {
      if key !in values {
        keys := keys + [key];
      }
      values := values[key := value];
    }

    method Get(key: Day) returns (r: Option<ChartEntry>)
      requires Valid()
      ensures r == Lookup(Model(), key)
      ensures r.Some? <==> key in keys
    {
      r := if key in values then Some(values[key]) else None;
    }
  }
}
