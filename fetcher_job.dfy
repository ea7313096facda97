/**
 * One fetch cycle of a weather-station job: scrape the raw strings, transform
 * them field by field, run the fields that have a time series through the
 * shared registry, and wrap the outcome as a fetcher result.
 *
 * Each of the three stages is a loop over the item list that writes into a
 * fresh map; each is a method proved against a recursive specification
 * function over a prefix of the item list, and the lemmas below state what
 * those functions promise.
 */
module FetcherJob {
  import opened Wrappers
  import opened TimeUtils
  import opened Values
  import opened Transformation
  import opened TimeSeries
  import opened TimeSeriesManager
  import opened FetcherResult
  import opened FetcherItem

  /**
   * The page as the scraper sees it: for each html key, the `value`
   * attribute of every `input` element with that name, in page order (None
   * for an element without one). A key that is absent has no element.
   */
  type Page = map<string, seq<Option<string>>>

  /** The elements of the page that match an html key. */
  function Matches(page: Page, htmlKey: string): seq<Option<string>>
  {
    if htmlKey in page then page[htmlKey] else []
  }

  /** The raw value of one item: the value of the only match, None for zero or several. */
  function Extracted(page: Page, htmlKey: string): Option<string>
  {
    if |Matches(page, htmlKey)| == 1 then Matches(page, htmlKey)[0] else None
  }

  // ----- Stage 1: `_load_values` -----

  /** `_load_values` after the items of `items`, in order. */
  function LoadSpec(items: seq<FetcherItem>, page: Page): RawValues
    decreases |items|
  {
    if items == [] then map[]
    else
      var values := LoadSpec(items[..|items| - 1], page);
      var item := items[|items| - 1];
      if item.doFetch then values[item.resultKey := Extracted(page, item.htmlKey)] else values
  }

  /** A raw entry exists exactly for the result keys of the items that are fetched. */
  lemma {:induction false} LoadKeys(items: seq<FetcherItem>, page: Page, k: string)
    ensures k in LoadSpec(items, page) <==> exists i | 0 <= i < |items| :: items[i].doFetch && items[i].resultKey == k
    decreases |items|
  {
    if items != [] {
      var n := |items| - 1;
      var init := items[..n];
      LoadKeys(init, page, k);
      if k in LoadSpec(items, page) && !(items[n].doFetch && items[n].resultKey == k) {
        var i :| 0 <= i < |init| && init[i].doFetch && init[i].resultKey == k;
        assert items[i] == init[i];
      }
      if exists i | 0 <= i < |items| :: items[i].doFetch && items[i].resultKey == k {
        var i :| 0 <= i < |items| && items[i].doFetch && items[i].resultKey == k;
        if i < n {
          assert init[i] == items[i];
        }
      }
    }
  }

  /**
   * The raw entry of a result key comes from the last fetched item with that
   * key: a later item overrides an earlier one.
   */
  lemma {:induction false} LoadEntry(items: seq<FetcherItem>, page: Page, i: nat)
    requires i < |items| && items[i].doFetch
    requires forall j | i < j < |items| && items[j].doFetch :: items[j].resultKey != items[i].resultKey
    ensures items[i].resultKey in LoadSpec(items, page)
    ensures LoadSpec(items, page)[items[i].resultKey] == Extracted(page, items[i].htmlKey)
    decreases |items|
  {
    var n := |items| - 1;
    if i < n {
      var init := items[..n];
      assert init[i] == items[i];
      LoadEntry(init, page, i);
    }
  }

  // ----- Stage 2: `_transform_values` -----

  /** The faults `_transform_values` catches for a single field. */
  predicate Caught(f: Fault)
  {
    f.TypeError?
  }

  /**
   * One field's transformation as `_transform_values` sees it: a caught
   * fault becomes None for that field, any other fault escapes.
   */
  function Guarded(item: FetcherItem, p: Platform, raw: RawValues, now: DateTime): (r: Result<Option<Value>>)
    ensures Transform(item.transform, p, raw, now).Ok? ==> r == Transform(item.transform, p, raw, now)
    ensures r.Raised? <==>
      Transform(item.transform, p, raw, now).Raised? && !Caught(Transform(item.transform, p, raw, now).fault)
    ensures r.Raised? ==> r == Transform(item.transform, p, raw, now)
    ensures r.Ok? && Transform(item.transform, p, raw, now).Raised? ==> r.value.None?
  {
    match Transform(item.transform, p, raw, now)
    case Ok(value) => Ok(value)
    case Raised(f) => if Caught(f) then Ok(None) else Raised(f)
  }

  /** A field's outcome as the transformation loop sees it: the value to store, or the fault that escapes. */
  type Outcome = Result<Option<Value>>

  /**
   * The transformation loop over the items of `items`, in order, given each
   * item's outcome `guard`: the value is stored under the item's result
   * key, and the first escaping fault aborts.
   */
  function Gather(items: seq<FetcherItem>, guard: FetcherItem -> Outcome): Result<ValueMap>
    decreases |items|
  {
    if items == [] then Ok(map[])
    else
      match Gather(items[..|items| - 1], guard)
      case Raised(f) => Raised(f)
      case Ok(results) =>
        var item := items[|items| - 1];
        match guard(item)
        case Raised(f) => Raised(f)
        case Ok(value) => Ok(results[item.resultKey := value])
  }

  /** The outcome `_transform_values` gives each item in this cycle. */
  function GuardOf(p: Platform, raw: RawValues, now: DateTime): (r: FetcherItem -> Outcome)
    ensures forall item :: r(item) == Guarded(item, p, raw, now)
  {
    item => Guarded(item, p, raw, now)
  }

  /** `_transform_values` after the items of `items`, in order; the first escaping fault aborts. */
  function TransformSpec(items: seq<FetcherItem>, p: Platform, raw: RawValues, now: DateTime): Result<ValueMap>
  {
    Gather(items, GuardOf(p, raw, now))
  }

  /** The loop completes exactly when no item's outcome is a fault. */
  lemma {:induction false} GatherOk(items: seq<FetcherItem>, guard: FetcherItem -> Outcome)
    ensures Gather(items, guard).Ok? <==> forall i | 0 <= i < |items| :: guard(items[i]).Ok?
    decreases |items|
  {
    if items != [] {
      var n := |items| - 1;
      var init := items[..n];
      GatherOk(init, guard);
      PrefixAgrees(init, items, n);
    }
  }

  /** When the loop aborts, it is with the fault of the first item whose outcome is one. */
  lemma {:induction false} GatherFault(items: seq<FetcherItem>, guard: FetcherItem -> Outcome)
    requires Gather(items, guard).Raised?
    ensures exists i | 0 <= i < |items| ::
      && guard(items[i]) == Raised(Gather(items, guard).fault)
      && forall j | 0 <= j < i :: guard(items[j]).Ok?
    decreases |items|
  {
    var n := |items| - 1;
    var init := items[..n];
    PrefixAgrees(init, items, n);
    if Gather(init, guard).Raised? {
      GatherFault(init, guard);
      var i :| 0 <= i < |init| && guard(init[i]) == Raised(Gather(init, guard).fault)
               && forall j | 0 <= j < i :: guard(init[j]).Ok?;
      assert items[i] == init[i];
    } else {
      GatherOk(init, guard);
      assert guard(items[n]) == Raised(Gather(items, guard).fault);
    }
  }

  /** A completed loop has an entry for every item's result key and for nothing else. */
  lemma {:induction false} GatherKeys(items: seq<FetcherItem>, guard: FetcherItem -> Outcome, k: string)
    requires Gather(items, guard).Ok?
    ensures k in Gather(items, guard).value <==> exists i | 0 <= i < |items| :: items[i].resultKey == k
    decreases |items|
  {
    if items != [] {
      var n := |items| - 1;
      var init := items[..n];
      GatherKeys(init, guard, k);
      if k in Gather(items, guard).value && items[n].resultKey != k {
        var i :| 0 <= i < |init| && init[i].resultKey == k;
        assert items[i] == init[i];
      }
      if exists i | 0 <= i < |items| :: items[i].resultKey == k {
        var i :| 0 <= i < |items| && items[i].resultKey == k;
        if i < n {
          assert init[i] == items[i];
        }
      }
    }
  }

  /** In a completed loop the entry of a result key is the outcome of the last item with that key. */
  lemma {:induction false} GatherEntry(items: seq<FetcherItem>, guard: FetcherItem -> Outcome, i: nat)
    requires Gather(items, guard).Ok?
    requires i < |items|
    requires forall j | i < j < |items| :: items[j].resultKey != items[i].resultKey
    ensures guard(items[i]).Ok?
    ensures items[i].resultKey in Gather(items, guard).value
    ensures Gather(items, guard).value[items[i].resultKey] == guard(items[i]).value
    decreases |items|
  {
    GatherOk(items, guard);
    var n := |items| - 1;
    if i < n {
      var init := items[..n];
      assert init[i] == items[i];
      PrefixAgrees(init, items, n);
      GatherEntry(init, guard, i);
    }
  }

  /** A key whose every stored outcome is a float or None holds a float or None. */
  lemma {:induction false} GatherNumeric(items: seq<FetcherItem>, guard: FetcherItem -> Outcome, k: string)
    requires Gather(items, guard).Ok?
    requires forall j | 0 <= j < |items| && items[j].resultKey == k && guard(items[j]).Ok? ::
      guard(items[j]).value.None? || guard(items[j]).value.value.Num?
    ensures var v := Get(Gather(items, guard).value, k); v.None? || v.value.Num?
    decreases |items|
  {
    if items != [] {
      var n := |items| - 1;
      var init := items[..n];
      PrefixAgrees(init, items, n);
      GatherNumeric(init, guard, k);
    }
  }

  /** Once the loop has aborted, the later items change nothing. */
  lemma {:induction false} GatherAbortSticks(items: seq<FetcherItem>, guard: FetcherItem -> Outcome, n: nat)
    requires n <= |items|
    requires Gather(items[..n], guard).Raised?
    ensures Gather(items, guard) == Gather(items[..n], guard)
    decreases |items| - n
  {
    if n < |items| {
      var m := |items| - 1;
      assert items[..m][..n] == items[..n];
      GatherAbortSticks(items[..m], guard, n);
    } else {
      assert items[..n] == items;
    }
  }

  /** `init` is `items` cut before position `n`. */
  lemma PrefixAgrees(init: seq<FetcherItem>, items: seq<FetcherItem>, n: nat)
    requires n <= |items| && init == items[..n]
    ensures forall j | 0 <= j < n :: init[j] == items[j]
  {
  }

  /** The stage completes exactly when no field's transformation raises an escaping fault. */
  lemma TransformOk(items: seq<FetcherItem>, p: Platform, raw: RawValues, now: DateTime)
    ensures TransformSpec(items, p, raw, now).Ok? <==> forall i | 0 <= i < |items| :: Guarded(items[i], p, raw, now).Ok?
  {
    GatherOk(items, GuardOf(p, raw, now));
  }

  /** When the stage aborts, it is with the fault of the first field that raised one. */
  lemma TransformFault(items: seq<FetcherItem>, p: Platform, raw: RawValues, now: DateTime)
    requires TransformSpec(items, p, raw, now).Raised?
    ensures exists i | 0 <= i < |items| ::
      && Guarded(items[i], p, raw, now) == Raised(TransformSpec(items, p, raw, now).fault)
      && forall j | 0 <= j < i :: Guarded(items[j], p, raw, now).Ok?
  {
    GatherFault(items, GuardOf(p, raw, now));
  }

  /** A completed stage has an entry for every item's result key and for nothing else. */
  lemma TransformKeys(items: seq<FetcherItem>, p: Platform, raw: RawValues, now: DateTime, k: string)
    requires TransformSpec(items, p, raw, now).Ok?
    ensures k in TransformSpec(items, p, raw, now).value <==> exists i | 0 <= i < |items| :: items[i].resultKey == k
  {
    GatherKeys(items, GuardOf(p, raw, now), k);
  }

  /**
   * In a completed stage the entry of a result key is the guarded value of
   * the last item with that key.
   */
  lemma TransformEntry(items: seq<FetcherItem>, p: Platform, raw: RawValues, now: DateTime, i: nat)
    requires TransformSpec(items, p, raw, now).Ok?
    requires i < |items|
    requires forall j | i < j < |items| :: items[j].resultKey != items[i].resultKey
    ensures Guarded(items[i], p, raw, now).Ok?
    ensures items[i].resultKey in TransformSpec(items, p, raw, now).value
    ensures TransformSpec(items, p, raw, now).value[items[i].resultKey] == Guarded(items[i], p, raw, now).value
  {
    GatherEntry(items, GuardOf(p, raw, now), i);
  }

  /** A key whose every item has a numeric transformation holds a float or None. */
  lemma TransformNumeric(items: seq<FetcherItem>, p: Platform, raw: RawValues, now: DateTime, k: string)
    requires TransformSpec(items, p, raw, now).Ok?
    requires forall j | 0 <= j < |items| && items[j].resultKey == k :: IsNumeric(items[j].transform)
    ensures var v := Get(TransformSpec(items, p, raw, now).value, k); v.None? || v.value.Num?
  {
    var guard := GuardOf(p, raw, now);
    forall j | 0 <= j < |items| && items[j].resultKey == k && guard(items[j]).Ok?
      ensures guard(items[j]).value.None? || guard(items[j]).value.value.Num?
    {
      assert guard(items[j]) == Guarded(items[j], p, raw, now);
    }
    GatherNumeric(items, guard, k);
  }

  /** Once the transformation stage has raised, the later items change nothing. */
  lemma TransformAbortSticks(items: seq<FetcherItem>, p: Platform, raw: RawValues, now: DateTime, n: nat)
    requires n <= |items|
    requires TransformSpec(items[..n], p, raw, now).Raised?
    ensures TransformSpec(items, p, raw, now) == TransformSpec(items[..n], p, raw, now)
  {
    GatherAbortSticks(items, GuardOf(p, raw, now), n);
  }

  // ----- Stage 3: `_calculated_timed_values` -----

  /** Every item with a series receives a value that series accepts. */
  predicate Feedable(items: seq<FetcherItem>, values: ValueMap)
  {
    forall i | 0 <= i < |items| && items[i].timeSeries.Some? ::
      Accepts(items[i].timeSeries.value, Get(values, items[i].resultKey))
  }

  /**
   * One item of `_calculated_timed_values` on the registry content `table`:
   * the value to publish (the given one when the item has no series, the
   * series' delivery otherwise, or the kind error) and the registry after.
   */
  function TimedStep(table: Table, fetcherKey: string, item: FetcherItem, value: Option<Value>, now: real)
    : (r: (Result<Option<Value>>, Table))
    requires item.timeSeries.Some? ==> Accepts(item.timeSeries.value, value)
    ensures item.timeSeries.None? ==> r == (Ok(value), table)
    ensures r.0.Raised? <==> GetOrAdd(table, fetcherKey, item.timeSeries).0.WrongTypes?
    ensures r.0.Raised? ==> r == (Raised(WrongCollectorTypes), table)
    ensures forall k | k in table && Some(k) != SeriesKey(item, fetcherKey) :: k in r.1 && r.1[k] == table[k]
    ensures forall k | k in r.1 && k !in table :: Some(k) == SeriesKey(item, fetcherKey)
    ensures item.timeSeries.Some? && r.0.Ok? ==>
      var key := GetTimeSeriesKey(fetcherKey, item.timeSeries.value.valueKey);
      var st := if key in table then table[key] else SeriesState(item.timeSeries.value, []);
      && Accepts(st.blueprint, value)
      && r == (Ok(Deliver(st, value, now).0), table[key := Deliver(st, value, now).1])
  {
    var (lookup, t2) := GetOrAdd(table, fetcherKey, item.timeSeries);
    match lookup
    case NoSeries => (Ok(value), t2)
    case WrongTypes => (Raised(WrongCollectorTypes), t2)
    case Chosen(key) =>
      var (out, st) := Deliver(t2[key], value, now);
      assert t2[key := st] == table[key := st];
      (Ok(out), t2[key := st])
  }

  /**
   * `_calculated_timed_values` after the items of `items`, on the registry
   * content `table`: the value delivered for each result key and the
   * registry afterwards. Series updated before a kind clash keep their
   * update.
   */
  function TimedSpec(items: seq<FetcherItem>, fetcherKey: string, values: ValueMap, table: Table, now: real)
    : (Result<ValueMap>, Table)
    requires Feedable(items, values)
    decreases |items|
  {
    if items == [] then (Ok(map[]), table)
    else
      var (prev, t) := TimedSpec(items[..|items| - 1], fetcherKey, values, table, now);
      if prev.Raised? then (prev, t)
      else
        var item := items[|items| - 1];
        var (out, t2) := TimedStep(t, fetcherKey, item, Get(values, item.resultKey), now);
        if out.Raised? then (Raised(out.fault), t2)
        else (Ok(prev.value[item.resultKey := out.value]), t2)
  }

  /** The timed stage over one more item: the stage so far, then that item's step. */
  lemma TimedSpecSnoc(items: seq<FetcherItem>, fetcherKey: string, values: ValueMap, table: Table, now: real, i: nat)
    requires Feedable(items, values) && i < |items|
    ensures Feedable(items[..i], values) && Feedable(items[..i + 1], values)
    ensures var (prev, t) := TimedSpec(items[..i], fetcherKey, values, table, now);
      TimedSpec(items[..i + 1], fetcherKey, values, table, now)
      == if prev.Raised? then (prev, t)
         else
           var (out, t2) := TimedStep(t, fetcherKey, items[i], Get(values, items[i].resultKey), now);
           if out.Raised? then (Raised(out.fault), t2) else (Ok(prev.value[items[i].resultKey := out.value]), t2)
  {
    assert items[..i + 1][..i] == items[..i];
  }

  /** Once the stage has raised, the later items change nothing. */
  lemma {:induction false} TimedAbortSticks(items: seq<FetcherItem>, fetcherKey: string, values: ValueMap, table: Table, now: real, n: nat)
    requires Feedable(items, values) && n <= |items|
    requires TimedSpec(items[..n], fetcherKey, values, table, now).0.Raised?
    ensures TimedSpec(items, fetcherKey, values, table, now) == TimedSpec(items[..n], fetcherKey, values, table, now)
    decreases |items| - n
  {
    if n < |items| {
      var m := |items| - 1;
      assert items[..m][..n] == items[..n];
      TimedAbortSticks(items[..m], fetcherKey, values, table, now, n);
    } else {
      assert items[..n] == items;
    }
  }

  /** A completed stage has an entry for every item's result key and for nothing else. */
  lemma {:induction false} TimedKeys(items: seq<FetcherItem>, fetcherKey: string, values: ValueMap, table: Table, now: real, k: string)
    requires Feedable(items, values)
    requires TimedSpec(items, fetcherKey, values, table, now).0.Ok?
    ensures k in TimedSpec(items, fetcherKey, values, table, now).0.value <==> exists i | 0 <= i < |items| :: items[i].resultKey == k
    decreases |items|
  {
    if items != [] {
      var n := |items| - 1;
      var init := items[..n];
      TimedKeys(init, fetcherKey, values, table, now, k);
      if k in TimedSpec(items, fetcherKey, values, table, now).0.value && items[n].resultKey != k {
        var i :| 0 <= i < |init| && init[i].resultKey == k;
        assert items[i] == init[i];
      }
      if exists i | 0 <= i < |items| :: items[i].resultKey == k {
        var i :| 0 <= i < |items| && items[i].resultKey == k;
        if i < n {
          assert init[i] == items[i];
        }
      }
    }
  }

  /** An item without a series passes its transformed value through (the last item with the key wins). */
  lemma {:induction false} TimedPassThrough(items: seq<FetcherItem>, fetcherKey: string, values: ValueMap, table: Table, now: real, i: nat)
    requires Feedable(items, values)
    requires TimedSpec(items, fetcherKey, values, table, now).0.Ok?
    requires i < |items| && items[i].timeSeries.None?
    requires forall j | i < j < |items| :: items[j].resultKey != items[i].resultKey
    ensures items[i].resultKey in TimedSpec(items, fetcherKey, values, table, now).0.value
    ensures TimedSpec(items, fetcherKey, values, table, now).0.value[items[i].resultKey] == Get(values, items[i].resultKey)
    decreases |items|
  {
    var n := |items| - 1;
    if i < n {
      var init := items[..n];
      assert init[i] == items[i];
      PrefixAgrees(init, items, n);
      TimedPassThrough(init, fetcherKey, values, table, now, i);
    }
  }

  /** A last item with another result key leaves a completed stage's entry for `k` as it was. */
  lemma TimedLastKeeps(items: seq<FetcherItem>, fetcherKey: string, values: ValueMap, table: Table, now: real, k: string)
    requires Feedable(items, values) && items != []
    requires TimedSpec(items, fetcherKey, values, table, now).0.Ok?
    requires items[|items| - 1].resultKey != k
    ensures Feedable(items[..|items| - 1], values)
    ensures TimedSpec(items[..|items| - 1], fetcherKey, values, table, now).0.Ok?
    ensures k in TimedSpec(items[..|items| - 1], fetcherKey, values, table, now).0.value ==>
      && k in TimedSpec(items, fetcherKey, values, table, now).0.value
      && TimedSpec(items, fetcherKey, values, table, now).0.value[k]
         == TimedSpec(items[..|items| - 1], fetcherKey, values, table, now).0.value[k]
  {
  }

  /**
   * In a completed stage the entry of a result key is what the last item
   * with that key produced, on the registry as the earlier items left it.
   */
  lemma {:induction false} TimedEntry(items: seq<FetcherItem>, fetcherKey: string, values: ValueMap, table: Table, now: real, i: nat)
    requires Feedable(items, values)
    requires TimedSpec(items, fetcherKey, values, table, now).0.Ok?
    requires i < |items|
    requires forall j | i < j < |items| :: items[j].resultKey != items[i].resultKey
    ensures (TimedSpecSnoc(items, fetcherKey, values, table, now, i);
      var step := TimedStep(TimedSpec(items[..i], fetcherKey, values, table, now).1, fetcherKey, items[i],
                            Get(values, items[i].resultKey), now);
      && step.0.Ok?
      && items[i].resultKey in TimedSpec(items, fetcherKey, values, table, now).0.value
      && TimedSpec(items, fetcherKey, values, table, now).0.value[items[i].resultKey] == step.0.value)
    decreases |items|
  {
    TimedSpecSnoc(items, fetcherKey, values, table, now, i);
    var n := |items| - 1;
    if i == n {
      assert items[..i + 1] == items;
    } else {
      var init := items[..n];
      assert init[i] == items[i];
      assert init[..i] == items[..i];
      TimedLastKeeps(items, fetcherKey, values, table, now, items[i].resultKey);
      TimedEntry(init, fetcherKey, values, table, now, i);
    }
  }

  /**
   * The entry of a series item's result key is what that item's series
   * delivered: `collect_and_deliver` of its transformed value on the series
   * stored under `<fetcher key>.<value key>` when the item was reached, or
   * on a new series of its blueprint when none was stored yet.
   */
  lemma TimedDelivered(items: seq<FetcherItem>, fetcherKey: string, values: ValueMap, table: Table, now: real, i: nat)
    requires Feedable(items, values)
    requires TimedSpec(items, fetcherKey, values, table, now).0.Ok?
    requires i < |items| && items[i].timeSeries.Some?
    requires forall j | i < j < |items| :: items[j].resultKey != items[i].resultKey
    ensures (TimedSpecSnoc(items, fetcherKey, values, table, now, i);
      var before := TimedSpec(items[..i], fetcherKey, values, table, now).1;
      var key := GetTimeSeriesKey(fetcherKey, items[i].timeSeries.value.valueKey);
      var st := if key in before then before[key] else SeriesState(items[i].timeSeries.value, []);
      && Accepts(st.blueprint, Get(values, items[i].resultKey))
      && items[i].resultKey in TimedSpec(items, fetcherKey, values, table, now).0.value
      && TimedSpec(items, fetcherKey, values, table, now).0.value[items[i].resultKey]
         == Deliver(st, Get(values, items[i].resultKey), now).0)
  {
    TimedEntry(items, fetcherKey, values, table, now, i);
  }

  /** The table key an item's series lives under, if it has one. */
  function SeriesKey(item: FetcherItem, fetcherKey: string): Option<string>
  {
    if item.timeSeries.None? then None else Some(GetTimeSeriesKey(fetcherKey, item.timeSeries.value.valueKey))
  }

  /**
   * The stage touches only the registry entries of the items' series: every
   * other entry is unchanged and no other entry is added.
   */
  lemma {:induction false} TimedFrame(items: seq<FetcherItem>, fetcherKey: string, values: ValueMap, table: Table, now: real, key: string)
    requires Feedable(items, values)
    requires forall i | 0 <= i < |items| :: SeriesKey(items[i], fetcherKey) != Some(key)
    ensures key in TimedSpec(items, fetcherKey, values, table, now).1 <==> key in table
    ensures key in table ==> TimedSpec(items, fetcherKey, values, table, now).1[key] == table[key]
    decreases |items|
  {
    if items != [] {
      var n := |items| - 1;
      var init := items[..n];
      PrefixAgrees(init, items, n);
      TimedFrame(init, fetcherKey, values, table, now, key);
    }
  }

  // ----- The whole cycle: `fetch` and `fetch_safe` -----

  /** The fault `_load_page` raises when the url cannot be opened. */
  function PageFault(url: string): Fault
  {
    FetcherException("could not open url (" + url + ")!")
  }

  /**
   * A sound item list: a windowed-maximum series is only fed by result keys
   * whose every item has a numeric transformation.
   */
  predicate WellFormed(items: seq<FetcherItem>)
  {
    forall i, j | 0 <= i < |items| && 0 <= j < |items| ::
      items[i].timeSeries.Some? && items[i].timeSeries.value.Max? && items[j].resultKey == items[i].resultKey
      ==> IsNumeric(items[j].transform)
  }

  /** A well-formed item list feeds its series acceptable values. */
  lemma WellFormedFeedable(items: seq<FetcherItem>, p: Platform, raw: RawValues, now: DateTime)
    requires WellFormed(items) && TransformSpec(items, p, raw, now).Ok?
    ensures Feedable(items, TransformSpec(items, p, raw, now).value)
  {
    forall i | 0 <= i < |items| && items[i].timeSeries.Some? && items[i].timeSeries.value.Max?
      ensures Accepts(items[i].timeSeries.value, Get(TransformSpec(items, p, raw, now).value, items[i].resultKey))
    {
      TransformNumeric(items, p, raw, now, items[i].resultKey);
    }
  }

  /**
   * `fetch`: the values of the cycle and the registry afterwards. A missing
   * page raises `FetcherException`; the series clock reads `now`.
   */
  function FetchSpec(items: seq<FetcherItem>, fetcherKey: string, p: Platform, url: string,
                     page: Option<Page>, now: DateTime, table: Table): (Result<ValueMap>, Table)
    requires WellFormed(items)
  {
    if page.None? then (Raised(PageFault(url)), table)
    else
      var raw := LoadSpec(items, page.value);
      match TransformSpec(items, p, raw, now)
      case Raised(f) => (Raised(f), table)
      case Ok(values) =>
        WellFormedFeedable(items, p, raw, now);
        TimedSpec(items, fetcherKey, values, table, Seconds(now))
  }

  /** `fetch_safe`: an escaping fault becomes `(ERROR, {})`, a completed cycle `(OK, values)`. */
  function FetchSafeSpec(items: seq<FetcherItem>, fetcherKey: string, p: Platform, url: string,
                         page: Option<Page>, now: DateTime, table: Table): (r: (FetcherResult, Table))
    requires WellFormed(items)
    ensures r.1 == FetchSpec(items, fetcherKey, p, url, page, now, table).1
    ensures r.0.status == Some(OK) || r.0 == FetcherResult(Some(ERROR), Some(map[]))
    ensures r.0.status == Some(OK) <==> FetchSpec(items, fetcherKey, p, url, page, now, table).0.Ok?
    ensures r.0.status == Some(OK) ==> r.0.values == Some(FetchSpec(items, fetcherKey, p, url, page, now, table).0.value)
  {
    var (values, t) := FetchSpec(items, fetcherKey, p, url, page, now, table);
    match values
    case Ok(m) => (FetcherResult(Some(OK), Some(m)), t)
    case Raised(_) => (FetcherResult(Some(ERROR), Some(map[])), t)
  }

  /**
   * A field whose transformation raises a fault that is not a `TypeError`
   * (an outdated or unparsable timestamp, an unparsable float) turns the
   * whole cycle into `(ERROR, {})` and no series is updated.
   */
  lemma EscapingFaultAbortsCycle(items: seq<FetcherItem>, fetcherKey: string, p: Platform, url: string,
                                 page: Page, now: DateTime, table: Table, i: nat)
    requires WellFormed(items) && i < |items|
    requires Guarded(items[i], p, LoadSpec(items, page), now).Raised?
    ensures FetchSafeSpec(items, fetcherKey, p, url, Some(page), now, table)
            == (FetcherResult(Some(ERROR), Some(map[])), table)
  {
    TransformOk(items, p, LoadSpec(items, page), now);
  }

  /** The cycle is OK exactly when the page loads, no field raises an escaping fault and no series clashes. */
  lemma FetchOk(items: seq<FetcherItem>, fetcherKey: string, p: Platform, url: string,
                page: Option<Page>, now: DateTime, table: Table)
    requires WellFormed(items)
    ensures FetchSafeSpec(items, fetcherKey, p, url, page, now, table).0.status == Some(OK) <==>
      && page.Some?
      && (forall i | 0 <= i < |items| :: Guarded(items[i], p, LoadSpec(items, page.value), now).Ok?)
      && TransformSpec(items, p, LoadSpec(items, page.value), now).Ok?
      && (WellFormedFeedable(items, p, LoadSpec(items, page.value), now);
          TimedSpec(items, fetcherKey, TransformSpec(items, p, LoadSpec(items, page.value), now).value,
                    table, Seconds(now)).0.Ok?)
  {
    if page.Some? {
      TransformOk(items, p, LoadSpec(items, page.value), now);
    }
  }

  /** A fetcher job: its url, its series key (the class name), its item list and the shared registry. */
  class FetcherJob {
    const url: string
    const timeSeriesKey: string
    const items: seq<FetcherItem>
    const platform: Platform
    const manager: TimeSeriesManager

    constructor (url: string, timeSeriesKey: string, items: seq<FetcherItem>, platform: Platform, manager: TimeSeriesManager)
      ensures this.url == url && this.timeSeriesKey == timeSeriesKey && this.items == items
      ensures this.platform == platform && this.manager == manager
    {
      this.url := url;
      this.timeSeriesKey := timeSeriesKey;
      this.items := items;
      this.platform := platform;
      this.manager := manager;
    }

    /** `_load_values`: one entry per fetched item, keyed by its result key. */
    method LoadValues(page: Page) returns (values: RawValues)
      ensures values == LoadSpec(items, page)
    {
      values := map[];
      for i := 0 to |items|
        invariant values == LoadSpec(items[..i], page)
      {
        assert items[..i + 1][..i] == items[..i];
        var item := items[i];
        if !item.doFetch {
          continue;
        }
        var value: Option<string> := None;
        var elements := if item.htmlKey in page then page[item.htmlKey] else [];
        if |elements| == 1 {
          value := elements[0];
        }
        values := values[item.resultKey := value];
      }
      assert items[..|items|] == items;
    }

    /** `_transform_values`: one entry per item; a caught fault sets only that field to None. */
    method TransformValues(raw: RawValues, now: DateTime) returns (r: Result<ValueMap>)
      ensures r == TransformSpec(items, platform, raw, now)
    {
      var results: ValueMap := map[];
      for i := 0 to |items|
        invariant TransformSpec(items[..i], platform, raw, now) == Ok(results)
      {
        assert items[..i + 1][..i] == items[..i];
        var item := items[i];
        var value: Option<Value>;
        match Transform(item.transform, platform, raw, now) {
          case Ok(v) =>
            value := v;
          case Raised(f) =>
            if !Caught(f) {
              TransformAbortSticks(items, platform, raw, now, i + 1);
              return Raised(f);
            }
            value := None;
        }
        results := results[item.resultKey := value];
      }
      assert items[..|items|] == items;
      r := Ok(results);
    }

    /** `collect_and_deliver` on the series registered under `key`; only that entry of the registry changes. */
    method DeliverThrough(s: Series, ghost key: string, value: Option<Value>, now: real) returns (out: Option<Value>)
      requires manager.Valid() && key in manager.items && manager.items[key] == s
      requires Accepts(s.blueprint, value)
      modifies s
      ensures manager.Valid()
      ensures (out, s.State()) == Deliver(old(s.State()), value, now)
      ensures manager.Table() == old(manager.Table())[key := s.State()]
    {
      ghost var middle := manager.Table();
      out := s.CollectAndDeliver(value, now);
      assert manager.Table() == middle[key := s.State()] by {
        forall k | k in manager.items
          ensures manager.Table()[k] == middle[key := s.State()][k]
        {
          if k != key {
            assert manager.items[k] != s;
          }
        }
      }
    }

    /** One item of `_calculated_timed_values`: look up its series and let it deliver. */
    method TimedValue(item: FetcherItem, value: Option<Value>, now: real) returns (r: Result<Option<Value>>)
      requires manager.Valid()
      requires item.timeSeries.Some? ==> Accepts(item.timeSeries.value, value)
      modifies manager, manager.items.Values
      ensures manager.Valid()
      ensures forall s | s in manager.items.Values :: s in old(manager.items.Values) || fresh(s)
      ensures (r, manager.Table()) == TimedStep(old(manager.Table()), timeSeriesKey, item, value, now)
    {
      ghost var lookup := GetOrAdd(manager.Table(), timeSeriesKey, item.timeSeries).0;
      var found := manager.GetOrAddTimeSeries(timeSeriesKey, item.timeSeries);
      if found.Raised? {
        return Raised(found.fault);
      }
      if found.value.None? {
        return Ok(value);
      }
      var s := found.value.value;
      assert manager.Table() == GetOrAdd(old(manager.Table()), timeSeriesKey, item.timeSeries).1;
      var out := DeliverThrough(s, lookup.key, value, now);
      r := Ok(out);
    }

    /**
     * `_calculated_timed_values`: each item's transformed value, run through
     * its series from the shared registry when it has one.
     */
    method CalculatedTimedValues(values: ValueMap, now: real) returns (r: Result<ValueMap>)
      requires manager.Valid() && Feedable(items, values)
      modifies manager, manager.items.Values
      ensures manager.Valid()
      ensures (r, manager.Table()) == TimedSpec(items, timeSeriesKey, values, old(manager.Table()), now)
    {
      var results: ValueMap := map[];
      for i := 0 to |items|
        invariant manager.Valid()
        invariant forall s | s in manager.items.Values :: s in old(manager.items.Values) || fresh(s)
        invariant (Ok(results), manager.Table()) == TimedSpec(items[..i], timeSeriesKey, values, old(manager.Table()), now)
      {
        TimedSpecSnoc(items, timeSeriesKey, values, old(manager.Table()), now, i);
        var item := items[i];
        var value := TimedValue(item, Get(values, item.resultKey), now);
        if value.Raised? {
          TimedAbortSticks(items, timeSeriesKey, values, old(manager.Table()), now, i + 1);
          return Raised(value.fault);
        }
        results := results[item.resultKey := value.value];
      }
      assert items[..|items|] == items;
      r := Ok(results);
    }

    /** `fetch`: load, transform and time the values of one cycle. */
    method Fetch(page: Option<Page>, now: DateTime) returns (r: Result<ValueMap>)
      requires manager.Valid() && WellFormed(items)
      modifies manager, manager.items.Values
      ensures manager.Valid()
      ensures (r, manager.Table()) == FetchSpec(items, timeSeriesKey, platform, url, page, now, old(manager.Table()))
    {
      if page.None? {
        return Raised(PageFault(url));
      }
      var raw := LoadValues(page.value);
      var transformed := TransformValues(raw, now);
      if transformed.Raised? {
        return transformed;
      }
      WellFormedFeedable(items, platform, raw, now);
      r := CalculatedTimedValues(transformed.value, Seconds(now));
    }

    /** `fetch_safe`: `fetch`, with every escaping fault turned into `(ERROR, {})`. */
    method FetchSafe(page: Option<Page>, now: DateTime) returns (r: FetcherResult)
      requires manager.Valid() && WellFormed(items)
      modifies manager, manager.items.Values
      ensures manager.Valid()
      ensures (r, manager.Table()) == FetchSafeSpec(items, timeSeriesKey, platform, url, page, now, old(manager.Table()))
    {
      var values := Fetch(page, now);
      match values
      case Ok(m) =>
        r := FetcherResult(Some(OK), Some(m));
      case Raised(_) =>
        r := FetcherResult(Some(ERROR), Some(map[]));
    }
  }
}
