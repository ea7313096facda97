# weather-mqtt-bridge in Dafny

This project models the polling bridge that scrapes a Froggit WH2600 weather station's live-data page and publishes each reading as one JSON record over MQTT. It also proves properties of the model. The core has four parts, and each has its own modules:

- **Value transformations** (`transformation.dfy`). These map the page's raw strings to typed values:
  - the `"--"` "no reading" marker;
  - floats;
  - trimmed texts;
  - the receiver time with its freshness check;
  - the gust rule;
  - the relative pressure, where only the None handling is modelled.
- **The windowed maximum** (`time_series.dfy`). This is the windowed-maximum series: a class whose sample list is purged from the front, appended at the back and scanned for its maximum. Its method is proved against pure functions. On top of that, `SlidingWindowMaximum` shows that with a clock that never goes back, the output is the maximum over the trailing window of everything submitted.
- **The series registry** (`time_series_manager.dfy`). This is a class holding a `map<string, Series>`. It gets or inserts a series under the key `"<fetcher key>.<value key>"` and fails on a kind mismatch. Its abstraction `Table()` maps each key to the series' state.
- **The fetch cycle and the service loop.**
  - `fetcher_job.dfy` has the three stages of one fetch: load, transform and time the values. They are loops writing fresh maps, proved against prefix-recursive functions.
  - `froggit_wh2600_job.dfy` has the station's item table.
  - `runner.dfy` has the runner's four scheduling fields:
    - the next fetch trigger;
    - the resilience reference;
    - the outstanding task;
    - its start time.

    It also has the single-flight start, the harvest with its tolerate-or-abort rule, one tick of the periodic loop and `close`.

`fetcher_key.dfy`, `fetcher_result.dfy` and `fetcher_item.dfy` hold the key constants, the `(status, values)` result and the item record. `values.dfy` and `time_utils.dfy` hold the value and fault types and the date-time abstraction. `wrappers.dfy` holds `Option`.

The model never runs the host routines it depends on. They are passed in as parameters:

- **`Platform`** carries three routines: `float()`, `strptime` with the station's format, and the barometric formula with its rounding.
- **The page** is a map from html key to the `value` attributes of the matching `input` elements.
- **The clock** is a parameter of every step that reads it.
- **The MQTT client** is modelled in two parts: flags saying whether a publish got through, and the list of messages the broker accepted.

The model follows the code where the code and its documentation disagree. The main case is freshness. The freshness check raises `ValueError`, and `_transform_values` only catches `TypeError` and `AttributeError` (src/fetcher/fetcher_job.py:104-108). An outdated or unparsable receiver time therefore does not just blank that field: it aborts the whole cycle, and `fetch_safe` reports `(ERROR, {})`. `OutdatedTimestampFailsCycle` states this. A second case is `_start_fetcher_task`, which measures the running time as `started - now` (src/runner.py:112). That value is never positive, so with a task outstanding it only warns. `StartOnlyWarns` and `TickNeverTaskNotFinished` state this as written.

## Model

| member | source | states |
|---|---|---|
| TimeUtils.Diff | src/fetcher/transformation.py:116 | date-time subtraction is defined exactly when both sides are naive or both are aware, and is the wall-clock difference when the zones agree |
| Transformation.Convert2Float | src/fetcher/transformation.py:17-23 | None exactly for a missing, empty or `"--"`-prefixed value; otherwise the parsed float, or the float ValueError exactly when parsing fails |
| Transformation.Strip | src/fetcher/transformation.py:57-58 | the result is the slice of the text between a leading and a trailing run of white space, and it neither starts nor ends with white space |
| Transformation.StripIdempotent | src/fetcher/transformation.py:57-58 | stripping a stripped text changes nothing |
| Transformation.CheckDeliveryTime | src/fetcher/transformation.py:110-118 | no fault exactly when the difference `now - delivery` is defined and at most the limit; elapsed time equal to the limit passes |
| Transformation.RelPressure | src/fetcher/transformation.py:133-155 | None when the absolute pressure converts to None, and also when it is a number and the temperature converts to None; the float ValueError exactly when the pressure conversion raises, or the pressure is a number and the temperature conversion raises; a number exactly when both convert to numbers, and then it is the formula of the two |
| Transformation.GustSpeed | src/fetcher/transformation.py:167-182 | None exactly when both speeds are None; otherwise one of the present speeds, and at least as large as each present one |
| Transformation.Transform | src/fetcher/transformation.py:43-45 | the numeric transformations yield floats, the string transformation always yields a text, and only the receiver-time transformation raises TypeError |
| Transformation.TransformReadsOnlyItsKeys | src/fetcher/transformation.py:43-45 | two raw maps that agree on the keys a transformation reads give the same result |
| Transformation.FloatTransformConverts | src/fetcher/transformation.py:43-45 | the float transformation is `convert2float` of the raw value under its own key, faults included |
| Transformation.StringTransformText | src/fetcher/transformation.py:50-59 | the raw text, stripped when `trim` is set and unchanged otherwise; a missing key yields the text "None" |
| Transformation.TimeTransformChecks | src/fetcher/transformation.py:95-108 | missing raw gives TypeError, an unparsable one ValueError; a naive time takes `now`'s zone; with no limit there is no check; with a limit it is "outdated" exactly when elapsed exceeds the limit |
| Transformation.FreshnessExample | src/fetcher/transformation.py:110-118 | with a 120 s limit at 14:05, a receiver time of 14:03 passes and 14:02 is outdated |
| Transformation.GustTransformConverts | src/fetcher/transformation.py:167-182 | the speed is converted before the gust; the result raises exactly when the speed conversion raises, or the speed converts and the gust conversion raises, with that fault; otherwise it is the combined speed of the two conversions as a float, or None |
| Transformation.GustExamples | src/fetcher/transformation.py:167-182 | the gust of 4.0 and 12.2 is 12.2, of 24.1 and 12.2 is 24.1, and of two "----" values is None |
| Transformation.SentinelExamples | src/fetcher/transformation.py:19-20 | "--.-", "----", "--", the empty text and a missing value all convert to None |
| TimeSeries.Purged | src/fetcher/time_series.py:39-44 | the purge never grows the list, and what it keeps starts no earlier than the limit |
| TimeSeries.PurgedSuffix | src/fetcher/time_series.py:39-44 | the purge removes only from the front, and only samples strictly older than the limit |
| TimeSeries.Appended | src/fetcher/time_series.py:46-47 | None appends nothing; a value appends exactly one `(now, value)` sample at the back |
| TimeSeries.MaxValue | src/fetcher/time_series.py:49-54 | the scan yields None exactly for an empty list |
| TimeSeries.MaxValueIsMaximum | src/fetcher/time_series.py:49-54 | the scan's result is one of the kept values and no kept value exceeds it |
| TimeSeries.Deliver | src/fetcher/time_series.py:21-54 | a delivery keeps the series' kind and parameters; the identity series returns its input and keeps its state; the maximum keeps the purged-then-appended samples and returns their maximum |
| TimeSeries.Series.CollectAndDeliver | src/fetcher/time_series.py:34-54 | the identity series returns its input and keeps its samples; the maximum keeps exactly the purged-then-appended samples and returns their maximum as a float |
| TimeSeries.WindowMembers | src/fetcher/time_series.py:36-44 | the trailing window holds exactly the samples no older than the limit |
| TimeSeries.WindowAllOlder | src/fetcher/time_series.py:36-44 | a window over samples that are all older than the limit is empty |
| TimeSeries.PurgedTwice | src/fetcher/time_series.py:39-44 | purging at a limit and then at a later one is purging at the later one |
| TimeSeries.PurgedAppend | src/fetcher/time_series.py:39-47 | a sample at or after the limit survives a purge at the back |
| TimeSeries.PurgedSortedIsWindow | src/fetcher/time_series.py:39-44 | on time-ordered samples the front purge keeps exactly the trailing window |
| TimeSeries.PurgedAllOlder | src/fetcher/time_series.py:39-44 | when every sample is older than the limit, the purge empties the list |
| TimeSeries.RunIsPurgedHistory | src/fetcher/time_series.py:34-54 | with a clock that never goes back, the kept samples after any calls are the purge of everything submitted |
| TimeSeries.SubmittedSorted | src/fetcher/time_series.py:36-47 | with a clock that never goes back, the submitted samples are time-ordered and none lies after the last call |
| TimeSeries.SlidingWindowMaximum | src/fetcher/time_series.py:34-54 | with a clock that never goes back, the kept samples are the time-ordered window of all submissions, and the last output is its maximum |
| TimeSeries.SortedSuffix | src/fetcher/time_series.py:39-44 | removing from the front keeps samples time-ordered |
| TimeSeries.CollectedWithinWindow | src/fetcher/time_series.py:36-47 | after a call on ordered samples, no kept sample is strictly older than `now - timeDelta` |
| TimeSeries.FirstCalls | src/fetcher/time_series.py:46-54 | a first call with None reports None; a first call with a value reports that value |
| TimeSeries.TwentySecondWindowScenario | test/fetcher/test_time_series.py:10-44 | a 20 s window fed None, 1, 5, 2, None, 1 at 0, 1, 5, 30, 31, 32 s reports None, 1, 5, 2, 2, 2 |
| TimeSeriesManager.GetTimeSeriesKey | src/fetcher/time_series_manager.py:14-15 | the key is the fetcher key, a dot, then the value key |
| TimeSeriesManager.KeyInjective | src/fetcher/time_series_manager.py:14-15 | with dot-free fetcher keys, two keys are equal exactly when both parts are equal |
| TimeSeriesManager.GetOrAdd | src/fetcher/time_series_manager.py:17-32 | no blueprint returns nothing and changes nothing; an absent key stores and returns a new, empty series of the blueprint's kind and parameters; a present key of the same kind returns the stored series untouched; another kind raises and changes nothing; only the requested key is ever written |
| TimeSeriesManager.GetOrAddIdempotent | src/fetcher/time_series_manager.py:17-32 | asking again with the same blueprint returns the same series and changes nothing |
| TimeSeriesManager.TimeSeriesManager.GetOrAddTimeSeries | src/fetcher/time_series_manager.py:17-32 | the registry's new content is `GetOrAdd` of the old; the call returns the chosen series object, a newly allocated one (not the caller's blueprint) only for an absent key, or the "Wrong collector types!" error; no series object sits under two keys |
| FetcherJob.LoadKeys | src/fetcher/fetcher_job.py:68-97 | a raw entry exists exactly for the result keys of the items that are fetched |
| FetcherJob.LoadEntry | src/fetcher/fetcher_job.py:72-95 | a key's raw entry is the last fetched item's single match, or None unless exactly one element matched |
| FetcherJob.Guarded | src/fetcher/fetcher_job.py:104-108 | a field's transformation with TypeError caught: a caught fault gives None; any other fault escapes unchanged |
| FetcherJob.TransformOk | src/fetcher/fetcher_job.py:99-112 | the stage completes exactly when no field raises an uncaught fault |
| FetcherJob.TransformFault | src/fetcher/fetcher_job.py:103-110 | an aborted stage carries the fault of the first field that raised one |
| FetcherJob.TransformKeys | src/fetcher/fetcher_job.py:103-110 | a completed stage has an entry for every item's result key and no other |
| FetcherJob.TransformEntry | src/fetcher/fetcher_job.py:103-110 | a key's entry is the guarded value of the last item with that key |
| FetcherJob.TransformNumeric | src/fetcher/fetcher_job.py:103-110 | a key whose items are all numeric transformations holds a float or None |
| FetcherJob.TransformAbortSticks | src/fetcher/fetcher_job.py:103-110 | after an uncaught fault the remaining items change nothing |
| FetcherJob.TimedStep | src/fetcher/fetcher_job.py:118-124 | an item without a series passes its value through and leaves the registry alone; a kind clash raises with the registry unchanged; otherwise the value is `collect_and_deliver` on the series under `<fetcher key>.<value key>`, or on a new empty one of the blueprint, and that series' new state is stored there; only the item's own series key is touched |
| FetcherJob.TimedAbortSticks | src/fetcher/fetcher_job.py:117-124 | after a kind clash the remaining items change nothing |
| FetcherJob.TimedKeys | src/fetcher/fetcher_job.py:117-126 | a completed stage has an entry for every item's result key and no other |
| FetcherJob.TimedPassThrough | src/fetcher/fetcher_job.py:118-124 | an item without a series publishes its transformed value; the last item with the key wins |
| FetcherJob.TimedEntry | src/fetcher/fetcher_job.py:117-126 | in a completed stage, a result key's entry is what the last item with that key produced on the registry the earlier items left |
| FetcherJob.TimedDelivered | src/fetcher/fetcher_job.py:117-126 | a series item's result key, when no later item shares it, holds what that item's series delivered: `collect_and_deliver` of its value on the series stored under its key, or on a new empty one |
| FetcherJob.TimedFrame | src/fetcher/fetcher_job.py:117-124 | registry entries that are no item's series key are unchanged and no other key is added |
| FetcherJob.WellFormedFeedable | src/fetcher/fetcher_job.py:114-122 | when the item list is well formed, every windowed maximum is fed a float or None |
| FetcherJob.FetchSafeSpec | src/fetcher/fetcher_job.py:40-45 | the result is OK with the cycle's values exactly when `fetch` completes, and `(ERROR, {})` otherwise; the registry is as `fetch` left it |
| FetcherJob.EscapingFaultAbortsCycle | src/fetcher/fetcher_job.py:40-58 | a field raising an uncaught fault makes the cycle `(ERROR, {})` with no series updated |
| FetcherJob.FetchOk | src/fetcher/fetcher_job.py:47-58 | the cycle is OK exactly when the page loads, no field raises an uncaught fault and no series kind clashes |
| FetcherJob.FetcherJob.LoadValues | src/fetcher/fetcher_job.py:68-97 | the loop builds the load stage's map |
| FetcherJob.FetcherJob.TransformValues | src/fetcher/fetcher_job.py:99-112 | the loop builds the transform stage's map, or returns its escaping fault |
| FetcherJob.FetcherJob.TimedValue | src/fetcher/fetcher_job.py:118-122 | the series lookup and delivery for one item, updating only that series in the registry |
| FetcherJob.FetcherJob.CalculatedTimedValues | src/fetcher/fetcher_job.py:114-126 | the loop builds the timed stage's map, and the registry ends as the stage specifies |
| FetcherJob.FetcherJob.Fetch | src/fetcher/fetcher_job.py:47-66 | the three stages in order; a missing page raises FetcherException |
| FetcherJob.FetcherJob.FetchSafe | src/fetcher/fetcher_job.py:40-45 | `fetch` with every escaping fault turned into `(ERROR, {})` |
| FroggitWh2600Job.ConfigFetcherItems | src/fetcher/froggit_wh2600_job.py:18-81 | the appended list is the station's item table |
| FroggitWh2600Job.CreateFetcherJob | src/fetcher/fetcher_factory.py:13-14 | a new job with the station's items, its class name as series key, and the shared registry |
| FroggitWh2600Job.FroggitItemCount | src/fetcher/froggit_wh2600_job.py:28-79 | 16 items without an altitude, 17 with one |
| FroggitWh2600Job.FroggitFirstIsTimestamp | src/fetcher/froggit_wh2600_job.py:13-34 | every item is fetched; the first is the receiver time from "CurrTime" with a 90 s check |
| FroggitWh2600Job.FroggitStandardItemsReadOwnKey | src/fetcher/froggit_wh2600_job.py:23-25 | each standard item reads exactly its own result key and has no series |
| FroggitWh2600Job.FroggitGustItem | src/fetcher/froggit_wh2600_job.py:60-68 | the gust item combines the speed and gust raws under a 15-minute maximum, and it is the only item with a series |
| FroggitWh2600Job.FroggitRelPressure | src/fetcher/froggit_wh2600_job.py:70-79 | a relative-pressure item exists exactly when the altitude is configured, and it is then the last one |
| FroggitWh2600Job.AvgwindOverridesWindspeed | src/fetcher/froggit_wh2600_job.py:49-52 | the wind-speed raw is the "avgwind" element, even when that is missing from the page |
| FroggitWh2600Job.RelPressureReadsAbsPress | src/fetcher/froggit_wh2600_job.py:70-79 | both pressure keys load the same "AbsPress" element |
| FroggitWh2600Job.OutdatedTimestampFailsCycle | src/fetcher/froggit_wh2600_job.py:28-34 | a receiver time more than 90 s old makes the whole cycle `(ERROR, {})` with no series updated |
| Runner.TimingOverrides | src/runner.py:33-37 | each configured period overrides its default |
| Runner.TimingDefaults | src/runner.py:22-37 | the defaults are 60, `min(2.2·refresh, 300)` and `max(refresh/2, 30)` |
| Runner.FinalMessages | src/runner.py:180-190 | exactly one payload last will on the payload topic when it is configured and exactly one stopped text on the service topic when it and the topic are configured, and nothing else; the last will, when configured, comes first; the stopped text is there whenever it and the service topic are configured |
| Runner.RunningMessages | src/runner.py:92-93 | the running message is sent exactly when both its text and the service topic are configured, and it is then exactly the running text on the service topic |
| Runner.PublishedValues | src/runner.py:151-156 | the record is the cycle's values plus the status text; a missing or falsy timestamp is replaced by `now`; every other key is unchanged |
| Runner.StartSingleFlight | src/runner.py:109-120 | with a task outstanding nothing changes; otherwise a pending task starts at `now` |
| Runner.StartOnlyWarns | src/runner.py:110-117 | with a task outstanding, the error comes exactly from a missing start time or `started - now` at least the timeout; a start in the past only warns |
| Runner.HandleNoOp | src/runner.py:142-143 | with no task, or an unfinished one, harvesting changes nothing |
| Runner.HandleHarvest | src/runner.py:145-163 | harvesting clears the task and start time and keeps the trigger; the record is sent exactly when the broker takes it |
| Runner.HandleResilience | src/runner.py:159-178 | fatal exactly outside the resilience period when the publish fails or the status is not OK; a failed publish outside it is the publish error, otherwise the abort |
| Runner.HandleReference | src/runner.py:171-172 | the reference moves to `now` exactly after an OK cycle that was published |
| Runner.TickStartsTask | src/runner.py:101-107 | a tick starts a task exactly when harvesting went on, the trigger is due and no task remains |
| Runner.TickNeverTaskNotFinished | src/runner.py:101-117 | with consistent fields, a clock that does not go back and a positive timeout, a tick never fails for an unfinished task, and the fields stay consistent |
| Runner.FetchDataKeepsValid | src/runner.py:130-131 | finishing the task keeps the fields consistent and sets the trigger to `now + refresh` |
| Runner.ResilienceScenario | test/test_runner.py:131-176 | with refresh 30 s and resilience 75 s, a failed cycle at +74 s is tolerated and published, and at +76 s it aborts with the fetcher error |
| Runner.Runner.AnnounceRunning | src/runner.py:89-96 | once connected, the running message is sent when it is configured |
| Runner.Runner.StartFetcherTask | src/runner.py:109-120 | `_start_fetcher_task` on the fields |
| Runner.Runner.RunFetcherJob | src/runner.py:134-135 | a new job of the factory runs `fetch_safe` once on the shared registry, leaving the registry and returning the result as one station cycle specifies |
| Runner.Runner.FetchDataTimeout | src/runner.py:122-139 | sets the trigger, runs a new job on the shared registry, and finishes the task with that result, or with `(TIMEOUT, {})` when the timeout fired |
| Runner.Runner.HandleFetchResult | src/runner.py:141-178 | `_handle_fetch_result` on the fields and the broker's log |
| Runner.Runner.Tick | src/runner.py:101-107 | one pass of the periodic loop: harvest, then start when due |
| Runner.Runner.Close | src/runner.py:180-190 | with the client in place, the first `accepted` final messages are sent in order, and a publish the broker refuses ends the sequence; without a client nothing is sent; afterwards the client is gone and nothing else changes |

## Left out

- Host routines. `float()`, `strptime` with `%H:%M %m/%d/%Y` and the barometric formula with `round` are the three fields of `Platform`. Their behaviour is not modelled. `isoformat` strings are `Stamp` values.
- Time zones. These are fixed UTC offsets. `tzlocal` lookup and daylight-saving changes are not modelled.
- Arithmetic. Numbers are exact reals, so the float rounding of `refresh * 2.2` is ignored: the default resilience for 60 s is exactly 132 s. Arithmetic faults inside the pressure formula are not modelled either.
- Loading the page.
  - The page load through `urllib` is left out. A missing page stands for a URL that cannot be opened.
  - BeautifulSoup's `find_all` is replaced by the page map.
  - `json.dumps` is left out. The record is a map, not bytes.
  - The MQTT client's connection handling is left out. This covers connect, `is_connected`, the wait loop with its 10 s limit, and last-will registration beyond the `lastWills` list.
- Concurrency.
  - The asyncio event loop, `wait_for` and `sleep` are left out. A timeout is an input flag of `FetchDataTimeout`, and the task's run is one atomic step.
  - Signal handlers and `threading.Lock` are left out. Each call and each tick is atomic.
- Clock readings within a step. Each step reads the clock once. The source reads it again within one harvest and within one fetch: in the time-stamp transformation and in every `collect_and_deliver`.
- FetcherJob.FetcherJob.CalculatedTimedValues: it requires that every windowed maximum is fed a float or None. A Python `MaxTimeSeries` would also compare texts, but no item table here feeds it one, and `WellFormed` holds for the station's table.
- TimeSeriesManager.GetOrAdd: for an absent key the registry stores a new, empty series of the blueprint's kind and parameters, not the caller's own blueprint object. Aliasing between an item's blueprint and the registry, and samples already held by a passed blueprint, are not modelled. The difference cannot show here, because `config_fetcher_items` builds fresh, empty blueprints for every job.
- TimeSeriesManager.TimeSeriesManager.GetOrAddTimeSeries: for an absent key it allocates a new `Series` rather than storing the caller's blueprint object, for the reason given for `GetOrAdd`.
- FetcherJob.Guarded: the source also catches AttributeError. None of the modelled transformations raise one, so `Caught` is TypeError only.
- The relative pressure: only its None handling and its dependence on the two raw values are modelled. The formula's value is `Platform.relPressure`.
- src/utils/time_utils.py, imported by the transformation and series modules, is not part of this model. Their clock is a parameter too.
- Outside the core: logging, the CLI and process setup in src/weather_mqtt_bridge.py, the JSON schemas in src/runner_config.py and src/fetcher/fetcher_config.py, and the test fixtures in test/setup_test.py.
- The expected record in test/fetcher/test_froggit_wh2600_job.py:43-61 names keys that src/fetcher/fetcher_key.py does not define. It is not restated.
- Payload splitting. No code splits the record into inside and outside payloads, so the single record published by src/runner.py:158-163 is the one modelled.
