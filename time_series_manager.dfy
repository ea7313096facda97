/**
 * The registry of live time series, keyed by `"<fetcher key>.<value key>"`.
 * One registry is shared by every fetch cycle, so a series keeps its samples
 * from cycle to cycle; asking for a key with a series of another class is a
 * configuration error.
 */
module TimeSeriesManager {
  import opened Wrappers
  import opened Values
  import opened TimeSeries

  /** The observable content of the registry: each key's series state. */
  type Table = map<string, SeriesState>

  const WrongCollectorTypes := RuntimeError("Wrong collector types!")

  /** `get_time_series_key`. */
  function GetTimeSeriesKey(fetcherKey: string, valueKey: string): (r: string)
    ensures |r| == |fetcherKey| + 1 + |valueKey|
    ensures r[..|fetcherKey|] == fetcherKey && r[|fetcherKey|] == '.' && r[|fetcherKey| + 1..] == valueKey
  {
    fetcherKey + "." + valueKey
  }

  /** The index of the first dot in `s`, or `|s|` when there is none. */
  function FirstDot(s: string): (r: nat)
    ensures r <= |s|
  {
    if s == [] || s[0] == '.' then 0 else 1 + FirstDot(s[1..])
  }

  /** In a table key built from a dot-free fetcher key, the first dot ends the fetcher key. */
  lemma {:induction false} FirstDotOfKey(fetcherKey: string, valueKey: string)
    requires '.' !in fetcherKey
    ensures FirstDot(GetTimeSeriesKey(fetcherKey, valueKey)) == |fetcherKey|
  {
    if fetcherKey != [] {
      assert GetTimeSeriesKey(fetcherKey, valueKey)[1..] == GetTimeSeriesKey(fetcherKey[1..], valueKey);
      FirstDotOfKey(fetcherKey[1..], valueKey);
    }
  }

  /** With fetcher keys that hold no dot, distinct (fetcher key, value key) pairs get distinct table keys. */
  lemma KeyInjective(fetcherKey1: string, valueKey1: string, fetcherKey2: string, valueKey2: string)
    requires '.' !in fetcherKey1 && '.' !in fetcherKey2
    ensures GetTimeSeriesKey(fetcherKey1, valueKey1) == GetTimeSeriesKey(fetcherKey2, valueKey2)
            <==> fetcherKey1 == fetcherKey2 && valueKey1 == valueKey2
  {
    FirstDotOfKey(fetcherKey1, valueKey1);
    FirstDotOfKey(fetcherKey2, valueKey2);
  }

  /** What `get_or_add_time_series` hands back: nothing, the series stored under a key, or the kind error. */
  datatype Lookup = NoSeries | Chosen(key: string) | WrongTypes

  /**
   * `get_or_add_time_series` on the registry's content: None for no
   * blueprint; the blueprint, stored with no samples, for a new key; the
   * stored series, untouched, for a key whose series has the blueprint's
   * class; and the error, with nothing changed, otherwise.
   */
  function GetOrAdd(table: Table, fetcherKey: string, blueprint: Option<Blueprint>): (r: (Lookup, Table))
    ensures blueprint.None? ==> r == (NoSeries, table)
    ensures blueprint.Some? ==>
      var key := GetTimeSeriesKey(fetcherKey, blueprint.value.valueKey);
      && (key !in table ==> r == (Chosen(key), table[key := SeriesState(blueprint.value, [])]))
      && (key in table && SameType(table[key].blueprint, blueprint.value) ==> r == (Chosen(key), table))
      && (key in table && !SameType(table[key].blueprint, blueprint.value) ==> r == (WrongTypes, table))
    ensures r.0.Chosen? ==> r.0.key in r.1 && SameType(r.1[r.0.key].blueprint, blueprint.value)
    ensures forall k | k in table :: k in r.1 && ((r.0.Chosen? && k == r.0.key) || r.1[k] == table[k])
    ensures forall k | k in r.1 && k !in table :: r.0 == Chosen(k)
  {
    if blueprint.None? then (NoSeries, table)
    else
      var key := GetTimeSeriesKey(fetcherKey, blueprint.value.valueKey);
      if key in table then
        if SameType(table[key].blueprint, blueprint.value) then (Chosen(key), table) else (WrongTypes, table)
      else (Chosen(key), table[key := SeriesState(blueprint.value, [])])
  }

  /** Asking again with the same blueprint finds the series the first call chose and changes nothing. */
  lemma GetOrAddIdempotent(table: Table, fetcherKey: string, blueprint: Blueprint)
    ensures var (first, t1) := GetOrAdd(table, fetcherKey, Some(blueprint));
            first.Chosen? ==> GetOrAdd(t1, fetcherKey, Some(blueprint)) == (first, t1)
  {
  }

  class TimeSeriesManager {
    var items: map<string, Series>

    constructor ()
      ensures Valid() && items == map[]
    {
      items := map[];
    }

    /** No series object is registered under two keys. */
    ghost predicate Valid()
      reads this
    {
      forall k1, k2 | k1 in items && k2 in items && k1 != k2 :: items[k1] != items[k2]
    }

    ghost function Table(): Table
      reads this, items.Values
    {
      map k | k in items :: items[k].State()
    }

    /** `get_or_add_time_series`: the series to use for this fetcher key and blueprint. */
    method GetOrAddTimeSeries(fetcherKey: string, blueprint: Option<Blueprint>) returns (r: Result<Option<Series>>)
      requires Valid()
      modifies this
      ensures Valid()
      ensures Table() == GetOrAdd(old(Table()), fetcherKey, blueprint).1
      ensures match GetOrAdd(old(Table()), fetcherKey, blueprint).0
        case NoSeries => r == Ok(None) && items == old(items)
        case WrongTypes => r == Raised(WrongCollectorTypes) && items == old(items)
        case Chosen(key) =>
          && r.Ok? && r.value.Some? && key in items && items[key] == r.value.value
          && (key in old(items) ==> items == old(items))
          && (key !in old(items) ==> fresh(r.value.value) && items == old(items)[key := r.value.value])
    {
      if blueprint.None? {
        return Ok(None);
      }
      var key := GetTimeSeriesKey(fetcherKey, blueprint.value.valueKey);
      if key in items {
        var chosen := items[key];
        if !SameType(chosen.blueprint, blueprint.value) {
          return Raised(WrongCollectorTypes);
        }
        return Ok(Some(chosen));
      }
      var series := new Series(blueprint.value);
      items := items[key := series];
      assert Table() == old(Table())[key := series.State()];
      return Ok(Some(series));
    }
  }
}
