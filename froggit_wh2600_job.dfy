/**
 * The fetcher job for the Froggit WH2600 weather station: the item table
 * that scrapes the station's live-data page.
 */
module FroggitWh2600Job {
  import opened Wrappers
  import opened TimeUtils
  import opened Values
  import opened Transformation
  import opened TimeSeries
  import opened TimeSeriesManager
  import opened FetcherKey
  import opened FetcherResult
  import opened FetcherItem
  import opened FetcherJob

  /** A receiver time older than this many seconds makes the cycle fail. */
  const OUTDATED_TIME_IN_SECONDS: real := 90.0

  /** The window of the gust maximum: fifteen minutes. */
  const GUST_WINDOW: real := 900.0

  /** The job's series key, its class name. */
  const TIME_SERIES_KEY := "FroggitWh2600Job"

  /** The two transformation classes `add_standard` is used with. */
  datatype Kind = StringKind | FloatKind

  /** `add_standard`'s item: the result key doubles as the transformation's lookup key. */
  function Standard(htmlKey: string, key: string, kind: Kind): FetcherItem
  {
    var transform := match kind
      case StringKind => StringTransformation(key, true)
      case FloatKind => FloatTransformation(key);
    NewItem(key, htmlKey, transform, None)
  }

  /** The receiver time, e.g. "14:04 8/25/2019", checked for freshness. */
  function TimestampItem(): FetcherItem
  {
    NewItem(TIMESTAMP, "CurrTime", TimeStringTransformationChecker(TIMESTAMP, Some(OUTDATED_TIME_IN_SECONDS)), None)
  }

  /** The wind gust: the larger of speed and gust, then the fifteen-minute maximum. */
  function GustItem(): FetcherItem
  {
    NewItem(WIND_GUST, "gustspeed", GustTransformation(WIND_SPEED, WIND_GUST), Some(Max(WIND_GUST, GUST_WINDOW)))
  }

  /** The relative pressure, computed from the absolute pressure and the outdoor temperature. */
  function RelPressureItem(altitude: real): FetcherItem
  {
    NewItem(PRESSURE_REL, "AbsPress", RelPressureTransformation(PRESSURE_REL, TEMP_OUTSIDE, altitude), None)
  }

  /** The item table of the station: fixed rows, plus the relative pressure when the altitude is known. */
  function FroggitItems(altitude: Option<real>): seq<FetcherItem>
  {
    FroggitBase() + (if altitude.Some? then [RelPressureItem(altitude.value)] else [])
  }

  /** The rows that do not depend on the configuration. */
  function FroggitBase(): seq<FetcherItem>
  {
    [ FetcherItem(TIMESTAMP, "CurrTime", TimeStringTransformationChecker(TIMESTAMP, Some(OUTDATED_TIME_IN_SECONDS)), None, true),
      FetcherItem(BATTERY_OUTSIDE, "outBattSta1", StringTransformation(BATTERY_OUTSIDE, true), None, true),
      FetcherItem(BATTERY_INSIDE, "inBattSta", StringTransformation(BATTERY_INSIDE, true), None, true),
      FetcherItem(TEMP_INSIDE, "inTemp", FloatTransformation(TEMP_INSIDE), None, true),
      FetcherItem(HUMI_INSIDE, "inHumi", FloatTransformation(HUMI_INSIDE), None, true),
      FetcherItem(PRESSURE_ABS, "AbsPress", FloatTransformation(PRESSURE_ABS), None, true),
      FetcherItem(TEMP_OUTSIDE, "outTemp", FloatTransformation(TEMP_OUTSIDE), None, true),
      FetcherItem(HUMI_OUTSIDE, "outHumi", FloatTransformation(HUMI_OUTSIDE), None, true),
      FetcherItem(WIND_DIRECTION, "windir", FloatTransformation(WIND_DIRECTION), None, true),
      FetcherItem(WIND_SPEED, "windspeed", FloatTransformation(WIND_SPEED), None, true),
      FetcherItem(WIND_SPEED, "avgwind", FloatTransformation(WIND_SPEED), None, true),
      FetcherItem(SOLAR_RADIATION, "solarrad", FloatTransformation(SOLAR_RADIATION), None, true),
      FetcherItem(UVI, "uvi", FloatTransformation(UVI), None, true),
      FetcherItem(RAIN_HOURLY, "rainofhourly", FloatTransformation(RAIN_HOURLY), None, true),
      FetcherItem(RAIN_COUNTER, "rainofyearly", FloatTransformation(RAIN_COUNTER), None, true),
      FetcherItem(WIND_GUST, "gustspeed", GustTransformation(WIND_SPEED, WIND_GUST), Some(Max(WIND_GUST, GUST_WINDOW)), true) ]
  }

  /** `config_fetcher_items`: the item list, built by appending one item at a time. */
  method ConfigFetcherItems(altitude: Option<real>) returns (items: seq<FetcherItem>)
    ensures items == FroggitItems(altitude)
  {
    items := [];
    items := items + [TimestampItem()];
    assert items == FroggitBase()[..1];
    items := items + [Standard("outBattSta1", BATTERY_OUTSIDE, StringKind)];
    assert items == FroggitBase()[..2];
    items := items + [Standard("inBattSta", BATTERY_INSIDE, StringKind)];
    assert items == FroggitBase()[..3];
    items := items + [Standard("inTemp", TEMP_INSIDE, FloatKind)];
    assert items == FroggitBase()[..4];
    items := items + [Standard("inHumi", HUMI_INSIDE, FloatKind)];
    assert items == FroggitBase()[..5];
    items := items + [Standard("AbsPress", PRESSURE_ABS, FloatKind)];
    assert items == FroggitBase()[..6];
    items := items + [Standard("outTemp", TEMP_OUTSIDE, FloatKind)];
    assert items == FroggitBase()[..7];
    items := items + [Standard("outHumi", HUMI_OUTSIDE, FloatKind)];
    assert items == FroggitBase()[..8];
    items := items + [Standard("windir", WIND_DIRECTION, FloatKind)];
    assert items == FroggitBase()[..9];
    items := items + [Standard("windspeed", WIND_SPEED, FloatKind)];
    assert items == FroggitBase()[..10];
    items := items + [Standard("avgwind", WIND_SPEED, FloatKind)];
    assert items == FroggitBase()[..11];
    items := items + [Standard("solarrad", SOLAR_RADIATION, FloatKind)];
    assert items == FroggitBase()[..12];
    items := items + [Standard("uvi", UVI, FloatKind)];
    assert items == FroggitBase()[..13];
    items := items + [Standard("rainofhourly", RAIN_HOURLY, FloatKind)];
    assert items == FroggitBase()[..14];
    items := items + [Standard("rainofyearly", RAIN_COUNTER, FloatKind)];
    assert items == FroggitBase()[..15];
    items := items + [GustItem()];
    assert items == FroggitBase()[..16];
    if altitude.Some? {
      items := items + [RelPressureItem(altitude.value)];
    }
  }

  /** One cycle of the station's job, `fetch_safe`, on the registry content `table`. */
  function FroggitCycle(altitude: Option<real>, p: Platform, url: string, page: Option<Page>, now: DateTime, table: Table)
    : (FetcherResult, Table)
  {
    FroggitWellFormed(altitude);
    FetchSafeSpec(FroggitItems(altitude), TIME_SERIES_KEY, p, url, page, now, table)
  }

  /** The factory's job: this item table, this class name as series key, and the shared registry. */
  method CreateFetcherJob(url: string, altitude: Option<real>, platform: Platform, manager: TimeSeriesManager)
    returns (job: FetcherJob)
    ensures fresh(job)
    ensures job.items == FroggitItems(altitude) && job.timeSeriesKey == TIME_SERIES_KEY
    ensures job.url == url && job.platform == platform && job.manager == manager
  {
    var items := ConfigFetcherItems(altitude);
    job := new FetcherJob(url, TIME_SERIES_KEY, items, platform, manager);
  }

  /** Sixteen items without an altitude, seventeen with one. */
  lemma FroggitItemCount(altitude: Option<real>)
    ensures |FroggitItems(altitude)| == if altitude.Some? then 17 else 16
  {
  }

  /** Every item is fetched; the first is the receiver time with its 90 s freshness check. */
  lemma FroggitFirstIsTimestamp(altitude: Option<real>)
    ensures forall i | 0 <= i < |FroggitItems(altitude)| :: FroggitItems(altitude)[i].doFetch
    ensures FroggitItems(altitude)[0].resultKey == TIMESTAMP && FroggitItems(altitude)[0].htmlKey == "CurrTime"
    ensures FroggitItems(altitude)[0].transform == TimeStringTransformationChecker(TIMESTAMP, Some(90.0))
  {
  }

  /**
   * The standard items look up their own result key, so they read the raw
   * value the load stage stored under that key.
   */
  lemma FroggitStandardItemsReadOwnKey(altitude: Option<real>)
    ensures forall i | 1 <= i < 15 ::
      ReadKeys(FroggitItems(altitude)[i].transform) == {FroggitItems(altitude)[i].resultKey}
      && FroggitItems(altitude)[i].timeSeries.None?
  {
  }

  /** The gust item combines the speed and gust raws and has the fifteen-minute maximum. */
  lemma FroggitGustItem(altitude: Option<real>)
    ensures var item := FroggitItems(altitude)[15];
      && item.resultKey == WIND_GUST && item.htmlKey == "gustspeed"
      && item.transform == GustTransformation(WIND_SPEED, WIND_GUST)
      && item.timeSeries == Some(Max(WIND_GUST, 900.0))
    ensures forall i | 0 <= i < |FroggitItems(altitude)| && i != 15 :: FroggitItems(altitude)[i].timeSeries.None?
  {
  }

  /** The relative pressure is the last item exactly when the altitude is configured. */
  lemma FroggitRelPressure(altitude: Option<real>)
    ensures altitude.Some? ==>
      FroggitItems(altitude)[16] == FetcherItem(PRESSURE_REL, "AbsPress",
        RelPressureTransformation(PRESSURE_REL, TEMP_OUTSIDE, altitude.value), None, true)
    ensures (exists i | 0 <= i < |FroggitItems(altitude)| :: FroggitItems(altitude)[i].resultKey == PRESSURE_REL)
            <==> altitude.Some?
  {
    if altitude.Some? {
      assert FroggitItems(altitude)[16].resultKey == PRESSURE_REL;
    }
  }

  /** The only series is fed by the gust key, whose only item is numeric. */
  lemma FroggitWellFormed(altitude: Option<real>)
    ensures WellFormed(FroggitItems(altitude))
  {
    var items := FroggitItems(altitude);
    FroggitGustItem(altitude);
    assert forall j | 3 <= j < |items| :: IsNumeric(items[j].transform);
    forall i, j | 0 <= i < |items| && 0 <= j < |items| &&
      items[i].timeSeries.Some? && items[i].timeSeries.value.Max? && items[j].resultKey == items[i].resultKey
      ensures IsNumeric(items[j].transform)
    {
      assert i == 15 && items[j].resultKey == WIND_GUST;
      assert items[0].resultKey != WIND_GUST && items[1].resultKey != WIND_GUST && items[2].resultKey != WIND_GUST;
    }
  }

  /**
   * Both "windspeed" and "avgwind" load into the wind-speed key; the later
   * "avgwind" wins, even when it is missing from the page.
   */
  lemma AvgwindOverridesWindspeed(altitude: Option<real>, page: Page)
    ensures WIND_SPEED in LoadSpec(FroggitItems(altitude), page)
    ensures LoadSpec(FroggitItems(altitude), page)[WIND_SPEED] == Extracted(page, "avgwind")
  {
    var items := FroggitItems(altitude);
    assert items[10].htmlKey == "avgwind" && items[10].resultKey == WIND_SPEED;
    LoadEntry(items, page, 10);
  }

  /** With an altitude, the relative pressure reads the same "AbsPress" element as the absolute one. */
  lemma RelPressureReadsAbsPress(altitude: real, page: Page)
    ensures var raw := LoadSpec(FroggitItems(Some(altitude)), page);
      && PRESSURE_ABS in raw && PRESSURE_REL in raw
      && raw[PRESSURE_REL] == raw[PRESSURE_ABS] == Extracted(page, "AbsPress")
  {
    var items := FroggitItems(Some(altitude));
    LoadEntry(items, page, 5);
    LoadEntry(items, page, 16);
  }

  /**
   * A receiver time that parses without a zone and lies more than 90 s
   * before `now` makes the whole cycle `(ERROR, {})`, and the gust series
   * is left as it was.
   */
  lemma OutdatedTimestampFailsCycle(altitude: Option<real>, p: Platform, url: string, page: Page,
                                    now: DateTime, table: Table, text: string, parsed: DateTime)
    requires Extracted(page, "CurrTime") == Some(text)
    requires p.parseTime(text) == Some(parsed) && parsed.zone.None?
    requires now.wall - parsed.wall > 90.0
    ensures WellFormed(FroggitItems(altitude))
    ensures FetchSafeSpec(FroggitItems(altitude), TIME_SERIES_KEY, p, url, Some(page), now, table)
            == (FetcherResult(Some(ERROR), Some(map[])), table)
  {
    var items := FroggitItems(altitude);
    FroggitWellFormed(altitude);
    LoadEntry(items, page, 0);
    assert Get(LoadSpec(items, page), TIMESTAMP) == Some(text);
    assert Transform(items[0].transform, p, LoadSpec(items, page), now) == Raised(OutdatedError);
    EscapingFaultAbortsCycle(items, TIME_SERIES_KEY, p, url, page, now, table, 0);
  }
}
