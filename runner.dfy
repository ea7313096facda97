/**
 * The service loop: it starts a fetch cycle whenever the refresh trigger
 * is due, publishes each finished cycle's record over MQTT, and decides
 * whether a failure is tolerated (within the resilience period since the
 * last good cycle) or ends the service.
 *
 * The asyncio task is an optional task state, its completion is the
 * `FetchDataTimeout` step, the MQTT client is the list of messages the
 * broker accepted, and each clock reading is a parameter.
 */
module Runner {
  import opened Wrappers
  import opened TimeUtils
  import opened Values
  import opened Transformation
  import opened TimeSeriesManager
  import opened FetcherKey
  import opened FetcherResult
  import opened FetcherJob
  import opened FroggitWh2600Job

  const DEFAULT_REFRESH_TIME: real := 60.0

  /** The runner's configuration; the optional entries may be missing. */
  datatype RunnerConfig = RunnerConfig(
    refreshTime: Option<real>,
    resilienceTime: Option<real>,
    fetchTimeout: Option<real>,
    payloadTopic: string,
    payloadLastWill: Option<string>,
    serviceRunning: Option<string>,
    serviceStopped: Option<string>,
    serviceTopic: Option<string>)

  /** The three periods in seconds: refresh, resilience and fetch timeout. */
  datatype Timing = Timing(refresh: real, resilience: real, timeout: real)

  function Min(a: real, b: real): real { if a <= b then a else b }
  function Max(a: real, b: real): real { if a >= b then a else b }

  /** The configured periods; a missing entry takes its default. */
  function Timings(c: RunnerConfig): Timing
  {
    var refresh := if c.refreshTime.Some? then c.refreshTime.value else DEFAULT_REFRESH_TIME;
    var resilience := if c.resilienceTime.Some? then c.resilienceTime.value else Min(refresh * 22.0 / 10.0, 300.0);
    var timeout := if c.fetchTimeout.Some? then c.fetchTimeout.value else Max(refresh / 2.0, 30.0);
    Timing(refresh, resilience, timeout)
  }

  /** Each period is the configured value when there is one. */
  lemma TimingOverrides(c: RunnerConfig)
    ensures c.refreshTime.Some? ==> Timings(c).refresh == c.refreshTime.value
    ensures c.resilienceTime.Some? ==> Timings(c).resilience == c.resilienceTime.value
    ensures c.fetchTimeout.Some? ==> Timings(c).timeout == c.fetchTimeout.value
  {
  }

  /**
   * Without configuration the periods are 60 s, 132 s and 30 s; a default
   * resilience is 2.2 refresh periods capped at five minutes, and a default
   * timeout is half a refresh period but at least 30 s.
   */
  lemma TimingDefaults(c: RunnerConfig)
    ensures c.refreshTime.None? && c.resilienceTime.None? && c.fetchTimeout.None? ==>
      Timings(c) == Timing(60.0, 132.0, 30.0)
    ensures c.resilienceTime.None? ==>
      && Timings(c).resilience <= 300.0 && Timings(c).resilience <= Timings(c).refresh * 2.2
      && (Timings(c).resilience == 300.0 || Timings(c).resilience == Timings(c).refresh * 2.2)
    ensures c.fetchTimeout.None? ==>
      && Timings(c).timeout >= 30.0 && Timings(c).timeout >= Timings(c).refresh / 2.0
      && (Timings(c).timeout == 30.0 || Timings(c).timeout == Timings(c).refresh / 2.0)
  {
  }

  /** Python truthiness of an optional configuration string. */
  predicate Truthy(s: Option<string>)
  {
    s.Some? && s.value != ""
  }

  /** What an MQTT message carries: the JSON record of a cycle or a plain text. */
  datatype Payload = Json(record: ValueMap) | Plain(text: string)

  datatype Message = Message(topic: string, payload: Payload)

  /** The messages announcing the end of the service: the payload last will and the stopped state. */
  function FinalMessages(c: RunnerConfig): (r: seq<Message>)
    ensures |r| == (if Truthy(c.payloadLastWill) then 1 else 0)
                 + (if Truthy(c.serviceStopped) && Truthy(c.serviceTopic) then 1 else 0)
    ensures Message(c.payloadTopic, Plain(c.payloadLastWill.value)) in r <== Truthy(c.payloadLastWill)
    ensures Message(c.serviceTopic.value, Plain(c.serviceStopped.value)) in r <== Truthy(c.serviceStopped) && Truthy(c.serviceTopic)
    ensures Truthy(c.payloadLastWill) ==> r != [] && r[0] == Message(c.payloadTopic, Plain(c.payloadLastWill.value))
    ensures forall m | m in r ::
      || (Truthy(c.payloadLastWill) && m == Message(c.payloadTopic, Plain(c.payloadLastWill.value)))
      || (Truthy(c.serviceStopped) && Truthy(c.serviceTopic) && m == Message(c.serviceTopic.value, Plain(c.serviceStopped.value)))
  {
    (if Truthy(c.payloadLastWill) then [Message(c.payloadTopic, Plain(c.payloadLastWill.value))] else [])
    + (if Truthy(c.serviceStopped) && Truthy(c.serviceTopic) then [Message(c.serviceTopic.value, Plain(c.serviceStopped.value))] else [])
  }

  /** The message announcing that the service runs, sent once the broker connection is up. */
  function RunningMessages(c: RunnerConfig): (r: seq<Message>)
    ensures |r| <= 1
    ensures r != [] <==> Truthy(c.serviceRunning) && Truthy(c.serviceTopic)
    ensures r != [] ==> r == [Message(c.serviceTopic.value, Plain(c.serviceRunning.value))]
  {
    if Truthy(c.serviceRunning) && Truthy(c.serviceTopic) then [Message(c.serviceTopic.value, Plain(c.serviceRunning.value))] else []
  }

  /** The state of the fetch task: still running, or done with its result. */
  datatype TaskState = Pending | Done(result: FetcherResult)

  /** The four fields the loop's decisions depend on; instants are seconds. */
  datatype Schedule = Schedule(
    task: Option<TaskState>,
    started: Option<real>,
    nextFetchTrigger: real,
    resilienceReference: real)

  datatype RunnerError = PublishFailed | FetcherAborted(status: Option<Status>) | TaskNotFinished

  /** Whether the loop goes on, or the service ends with an error. */
  datatype Verdict = Proceed | Fatal(error: RunnerError)

  /** A decision step's verdict, the fields afterwards and the messages the broker accepted. */
  datatype Outcome = Outcome(verdict: Verdict, schedule: Schedule, sent: seq<Message>)

  // ----- The published record -----

  /** A result's status, a missing one read as ERROR. */
  function EffectiveStatus(result: FetcherResult): Status
  {
    if result.status.Some? then result.status.value else ERROR
  }

  /** A result's values, missing ones read as the empty map. */
  function EffectiveValues(result: FetcherResult): ValueMap
  {
    if result.values.Some? then result.values.value else map[]
  }

  /** Python truthiness of a transformed value. */
  predicate TruthyValue(v: Option<Value>)
  {
    v.Some? && match v.value
      case Num(x) => x != 0.0
      case Text(s) => s != ""
      case Stamp(_) => true
  }

  /**
   * The record published for a finished cycle: its values with the status
   * text added and, when the cycle has no usable timestamp, the clock
   * reading `now` as the timestamp.
   */
  function PublishedValues(result: FetcherResult, now: DateTime): (r: ValueMap)
    ensures STATUS in r && r[STATUS] == Some(Text(StatusText(EffectiveStatus(result))))
    ensures TIMESTAMP in r && TruthyValue(r[TIMESTAMP])
    ensures TruthyValue(Get(EffectiveValues(result), TIMESTAMP)) ==> r[TIMESTAMP] == EffectiveValues(result)[TIMESTAMP]
    ensures !TruthyValue(Get(EffectiveValues(result), TIMESTAMP)) ==> r[TIMESTAMP] == Some(Stamp(now))
    ensures forall k | k != STATUS && k != TIMESTAMP ::
      (k in r <==> k in EffectiveValues(result)) && (k in r ==> r[k] == EffectiveValues(result)[k])
  {
    var values := EffectiveValues(result)[STATUS := Some(Text(StatusText(EffectiveStatus(result))))];
    if TruthyValue(Get(values, TIMESTAMP)) then values else values[TIMESTAMP := Some(Stamp(now))]
  }

  // ----- The decision steps -----

  /** `_start_fetcher_task` at the instant `now`. */
  function StartSpec(s: Schedule, now: real, timeout: real): Outcome
  {
    if s.task.Some? then
      var running := if s.started.Some? then Some(s.started.value - now) else None;
      if running.Some? && running.value < timeout then Outcome(Proceed, s, [])
      else Outcome(Fatal(TaskNotFinished), s, [])
    else Outcome(Proceed, s.(task := Some(Pending), started := Some(now)), [])
  }

  /** What `_fetch_data_timeout` leaves behind: the next trigger and the finished task. */
  function FetchDataSpec(s: Schedule, now: real, refresh: real, result: FetcherResult): Schedule
  {
    s.(task := Some(Done(result)), nextFetchTrigger := now + refresh)
  }

  /** The result of a task that timed out. */
  const TimeoutResult := FetcherResult(Some(TIMEOUT), Some(map[]))

  /** `_handle_fetch_result` at the clock reading `now`; `publishOk` says whether the broker took the record. */
  function HandleSpec(s: Schedule, now: DateTime, timing: Timing, topic: string, publishOk: bool): Outcome
  {
    if s.task.None? || s.task.value.Pending? then Outcome(Proceed, s, [])
    else
      var result := s.task.value.result;
      var cleared := s.(task := None, started := None);
      var status := EffectiveStatus(result);
      var message := Message(topic, Json(PublishedValues(result, now)));
      var within := Seconds(now) - s.resilienceReference <= timing.resilience;
      if !publishOk && !within then Outcome(Fatal(PublishFailed), cleared, [])
      else
        var reference := if status == OK && publishOk then Seconds(now) else s.resilienceReference;
        var next := cleared.(resilienceReference := reference);
        var sent := if publishOk then [message] else [];
        if status != OK && !within then Outcome(Fatal(FetcherAborted(result.status)), next, sent)
        else Outcome(Proceed, next, sent)
  }

  /** One pass of the `_periodic` loop: harvest a finished task, then start one when the trigger is due. */
  function TickSpec(s: Schedule, now: DateTime, timing: Timing, topic: string, publishOk: bool): Outcome
  {
    var handled := HandleSpec(s, now, timing, topic, publishOk);
    if handled.verdict.Fatal? then handled
    else if Seconds(now) >= handled.schedule.nextFetchTrigger then
      var start := StartSpec(handled.schedule, Seconds(now), timing.timeout);
      Outcome(start.verdict, start.schedule, handled.sent)
    else handled
  }

  // ----- What the steps promise -----

  /** With a task outstanding, no second task is created and nothing changes. */
  lemma StartSingleFlight(s: Schedule, now: real, timeout: real)
    ensures s.task.Some? ==> StartSpec(s, now, timeout).schedule == s
    ensures s.task.None? ==>
      StartSpec(s, now, timeout) == Outcome(Proceed, s.(task := Some(Pending), started := Some(now)), [])
  {
  }

  /**
   * Because the running time is computed as `started - now`, an
   * outstanding task whose start lies in the past only ever draws a
   * warning; the error needs a missing start time or a clock that went back.
   */
  lemma StartOnlyWarns(s: Schedule, now: real, timeout: real)
    requires s.task.Some?
    ensures s.started.Some? && s.started.value <= now && timeout > 0.0 ==> StartSpec(s, now, timeout).verdict == Proceed
    ensures StartSpec(s, now, timeout).verdict.Fatal? <==>
      s.started.None? || s.started.value - now >= timeout
  {
  }

  /** Harvesting is a no-op while no task is outstanding or it has not finished. */
  lemma HandleNoOp(s: Schedule, now: DateTime, timing: Timing, topic: string, publishOk: bool)
    requires s.task.None? || s.task.value.Pending?
    ensures HandleSpec(s, now, timing, topic, publishOk) == Outcome(Proceed, s, [])
  {
  }

  /**
   * Harvesting a finished task clears the task and its start time whatever
   * happens next, and leaves the fetch trigger alone; the record is sent
   * exactly when the broker takes it, and holds the status.
   */
  lemma HandleHarvest(s: Schedule, now: DateTime, timing: Timing, topic: string, publishOk: bool)
    requires s.task.Some? && s.task.value.Done?
    ensures var r := HandleSpec(s, now, timing, topic, publishOk);
      && r.schedule.task.None? && r.schedule.started.None?
      && r.schedule.nextFetchTrigger == s.nextFetchTrigger
      && (r.sent != [] <==> publishOk)
      && (publishOk ==> r.sent == [Message(topic, Json(PublishedValues(s.task.value.result, now)))])
  {
  }

  /**
   * The resilience rule, with `within` meaning at most the resilience
   * period since the reference: a failed publish or a non-OK status is
   * tolerated within the period and fatal outside it.
   */
  lemma HandleResilience(s: Schedule, now: DateTime, timing: Timing, topic: string, publishOk: bool)
    requires s.task.Some? && s.task.value.Done?
    ensures var r := HandleSpec(s, now, timing, topic, publishOk);
      var within := Seconds(now) - s.resilienceReference <= timing.resilience;
      var status := EffectiveStatus(s.task.value.result);
      && (r.verdict.Fatal? <==> !within && (!publishOk || status != OK))
      && (!within && !publishOk ==> r.verdict == Fatal(PublishFailed))
      && (!within && publishOk && status != OK ==> r.verdict == Fatal(FetcherAborted(s.task.value.result.status)))
  {
  }

  /** The resilience reference moves to `now` exactly after an OK cycle whose record was published. */
  lemma HandleReference(s: Schedule, now: DateTime, timing: Timing, topic: string, publishOk: bool)
    ensures var r := HandleSpec(s, now, timing, topic, publishOk);
      r.schedule.resilienceReference ==
        if s.task.Some? && s.task.value.Done? && EffectiveStatus(s.task.value.result) == OK && publishOk
        then Seconds(now) else s.resilienceReference
  {
  }

  /** A new task is started exactly when harvesting went on, the trigger is due and no task is left. */
  lemma TickStartsTask(s: Schedule, now: DateTime, timing: Timing, topic: string, publishOk: bool)
    ensures var handled := HandleSpec(s, now, timing, topic, publishOk);
      var r := TickSpec(s, now, timing, topic, publishOk);
      (r.schedule.task != handled.schedule.task) <==>
        handled.verdict == Proceed && Seconds(now) >= handled.schedule.nextFetchTrigger && handled.schedule.task.None?
    ensures TickSpec(s, now, timing, topic, publishOk).sent == HandleSpec(s, now, timing, topic, publishOk).sent
  {
  }

  /** The fields are consistent: a task has a start time, at or before `now`. */
  ghost predicate ScheduleValid(s: Schedule, now: real)
  {
    (s.task.Some? <==> s.started.Some?) && (s.started.Some? ==> s.started.value <= now)
  }

  /**
   * With a clock that does not go back and a positive timeout, a tick never
   * fails for an unfinished task, and the fields stay consistent.
   */
  lemma TickNeverTaskNotFinished(s: Schedule, now: DateTime, timing: Timing, topic: string, publishOk: bool)
    requires ScheduleValid(s, Seconds(now)) && timing.timeout > 0.0
    ensures TickSpec(s, now, timing, topic, publishOk).verdict != Fatal(TaskNotFinished)
    ensures ScheduleValid(TickSpec(s, now, timing, topic, publishOk).schedule, Seconds(now))
  {
  }

  /** Finishing the task keeps the fields consistent, at any later instant. */
  lemma FetchDataKeepsValid(s: Schedule, now: real, later: real, refresh: real, result: FetcherResult)
    requires ScheduleValid(s, now) && s.task == Some(Pending) && now <= later
    ensures ScheduleValid(FetchDataSpec(s, later, refresh, result), later)
    ensures FetchDataSpec(s, later, refresh, result).nextFetchTrigger == later + refresh
  {
  }

  /**
   * Two failed cycles after a start at `t0` with a 30 s refresh and a 75 s
   * resilience period:
   * the one harvested at `t0 + 74` is tolerated and published, the one
   * harvested at `t0 + 76` ends the service with the fetcher error.
   */
  lemma ResilienceScenario(t0: real, topic: string, result: FetcherResult)
    requires result.status == Some(ERROR)
    ensures var timing := Timings(RunnerConfig(Some(30.0), Some(75.0), None, topic, None, None, None, None));
      var s0 := Schedule(None, None, t0, t0);
      var start1 := StartSpec(s0, t0, timing.timeout);
      var done1 := FetchDataSpec(start1.schedule, t0, timing.refresh, result);
      var h1 := HandleSpec(done1, DateTime(t0 + 74.0, None), timing, topic, true);
      var start2 := StartSpec(h1.schedule, t0 + 74.0, timing.timeout);
      var done2 := FetchDataSpec(start2.schedule, t0 + 74.0, timing.refresh, result);
      var h2 := HandleSpec(done2, DateTime(t0 + 76.0, None), timing, topic, true);
      && start1.verdict == Proceed && h1.verdict == Proceed && start2.verdict == Proceed
      && h1.schedule.resilienceReference == t0
      && h1.sent == [Message(topic, Json(PublishedValues(result, DateTime(t0 + 74.0, None))))]
      && h2.verdict == Fatal(FetcherAborted(Some(ERROR)))
      && |h2.sent| == 1
  {
  }

  /** The service loop's state, the MQTT client and the shared registry of the fetcher factory. */
  class Runner {
    const config: RunnerConfig
    const timing: Timing
    const url: string
    const altitude: Option<real>
    const platform: Platform
    const manager: TimeSeriesManager
    /** The last wills registered with the broker. */
    const lastWills: seq<Message>

    var task: Option<TaskState>
    var started: Option<real>
    var nextFetchTrigger: real
    var resilienceReference: real
    /** Whether the MQTT client is still in place (`close` drops it). */
    var clientOpen: bool
    /** The messages the broker accepted, in order. */
    var sent: seq<Message>

    function State(): Schedule
      reads this
    {
      Schedule(task, started, nextFetchTrigger, resilienceReference)
    }

    /** `__init__` at the clock reading `now`: both the trigger and the reference start at `now`. */
    constructor (config: RunnerConfig, now: DateTime, url: string, altitude: Option<real>,
                 platform: Platform, manager: TimeSeriesManager)
      ensures this.config == config && timing == Timings(config)
      ensures this.url == url && this.altitude == altitude && this.platform == platform && this.manager == manager
      ensures lastWills == FinalMessages(config)
      ensures State() == Schedule(None, None, Seconds(now), Seconds(now))
      ensures clientOpen && sent == []
    {
      this.config := config;
      timing := Timings(config);
      this.url := url;
      this.altitude := altitude;
      this.platform := platform;
      this.manager := manager;
      var wills: seq<Message> := [];
      if Truthy(config.payloadLastWill) {
        wills := wills + [Message(config.payloadTopic, Plain(config.payloadLastWill.value))];
      }
      if Truthy(config.serviceStopped) && Truthy(config.serviceTopic) {
        wills := wills + [Message(config.serviceTopic.value, Plain(config.serviceStopped.value))];
      }
      lastWills := wills;
      nextFetchTrigger := Seconds(now);
      resilienceReference := Seconds(now);
      task := None;
      started := None;
      clientOpen := true;
      sent := [];
    }

    /** Once connected: announce that the service runs, when a topic and a text are configured. */
    method AnnounceRunning()
      modifies this
      ensures sent == old(sent) + RunningMessages(config)
      ensures State() == old(State()) && clientOpen == old(clientOpen)
    {
      if Truthy(config.serviceRunning) && Truthy(config.serviceTopic) {
        sent := sent + [Message(config.serviceTopic.value, Plain(config.serviceRunning.value))];
      }
    }

    /** `_start_fetcher_task` at the instant `now`. */
    method StartFetcherTask(now: real) returns (v: Verdict)
      modifies this
      ensures Outcome(v, State(), []) == StartSpec(old(State()), now, timing.timeout)
      ensures sent == old(sent) && clientOpen == old(clientOpen)
    {
      if task.Some? {
        var running: Option<real> := if started.Some? then Some(started.value - now) else None;
        if running.Some? && running.value < timing.timeout {
          return Proceed;
        }
        return Fatal(TaskNotFinished);
      }
      task := Some(Pending);
      started := Some(now);
      return Proceed;
    }

    /** A new job of the factory, run once on the page with the shared registry. */
    method RunFetcherJob(page: Option<Page>, now: DateTime) returns (result: FetcherResult)
      requires manager.Valid()
      modifies manager, manager.items.Values
      ensures manager.Valid()
      ensures (result, manager.Table()) == FroggitCycle(altitude, platform, url, page, now, old(manager.Table()))
    {
      var job := CreateFetcherJob(url, altitude, platform, manager);
      FroggitWellFormed(altitude);
      result := job.FetchSafe(page, now);
    }

    /**
     * The task's run at the clock reading `now`: set the next trigger, run a
     * new job of the factory on the page and, when the timeout fired, report
     * a timeout instead of the job's result.
     */
    method FetchDataTimeout(page: Option<Page>, now: DateTime, timedOut: bool)
      requires task == Some(Pending) && manager.Valid()
      modifies this, manager, manager.items.Values
      ensures manager.Valid()
      ensures var (result, table) := FroggitCycle(altitude, platform, url, page, now, old(manager.Table()));
        && manager.Table() == table
        && State() == FetchDataSpec(old(State()), Seconds(now), timing.refresh, if timedOut then TimeoutResult else result)
      ensures sent == old(sent) && clientOpen == old(clientOpen)
    {
      var result := RunFetcherJob(page, now);
      if timedOut {
        result := TimeoutResult;
      }
      nextFetchTrigger, task := Seconds(now) + timing.refresh, Some(Done(result));
    }

    /** `_handle_fetch_result` at the clock reading `now`; `publishOk` says whether the broker took the record. */
    method HandleFetchResult(now: DateTime, publishOk: bool) returns (v: Verdict)
      modifies this
      ensures var r := HandleSpec(old(State()), now, timing, config.payloadTopic, publishOk);
        v == r.verdict && State() == r.schedule && sent == old(sent) + r.sent
      ensures clientOpen == old(clientOpen)
    {
      if task.None? || task.value.Pending? {
        return Proceed;
      }
      var result := task.value.result;
      task := None;
      started := None;
      var status := EffectiveStatus(result);
      var values := EffectiveValues(result);
      values := values[STATUS := Some(Text(StatusText(status)))];
      if !TruthyValue(Get(values, TIMESTAMP)) {
        values := values[TIMESTAMP := Some(Stamp(now))];
      }
      var within := Seconds(now) - resilienceReference <= timing.resilience;
      if publishOk {
        sent := sent + [Message(config.payloadTopic, Json(values))];
      } else if !within {
        return Fatal(PublishFailed);
      }
      if status == OK && publishOk {
        resilienceReference := Seconds(now);
      }
      if status != OK && !within {
        return Fatal(FetcherAborted(result.status));
      }
      return Proceed;
    }

    /** One pass of the `_periodic` loop at the clock reading `now`. */
    method Tick(now: DateTime, publishOk: bool) returns (v: Verdict)
      modifies this
      ensures var r := TickSpec(old(State()), now, timing, config.payloadTopic, publishOk);
        v == r.verdict && State() == r.schedule && sent == old(sent) + r.sent
      ensures clientOpen == old(clientOpen)
    {
      v := HandleFetchResult(now, publishOk);
      if v.Fatal? {
        return;
      }
      if Seconds(now) >= nextFetchTrigger {
        v := StartFetcherTask(Seconds(now));
      }
    }

    /**
     * `close`: while the client is in place, publish the final messages,
     * then drop the client. The broker accepts the first `accepted`
     * publishes; the next one raises, which ends the `try`, so no later
     * message is tried.
     */
    method Close(accepted: nat)
      modifies this
      ensures !clientOpen && State() == old(State())
      ensures old(clientOpen) ==>
        var finals := FinalMessages(config);
        sent == old(sent) + finals[..if accepted < |finals| then accepted else |finals|]
      ensures !old(clientOpen) ==> sent == old(sent)
    {
      if clientOpen {
        var published := 0;
        if Truthy(config.payloadLastWill) && published < accepted {
          sent := sent + [Message(config.payloadTopic, Plain(config.payloadLastWill.value))];
          published := published + 1;
        }
        if Truthy(config.serviceStopped) && Truthy(config.serviceTopic) && published < accepted {
          sent := sent + [Message(config.serviceTopic.value, Plain(config.serviceStopped.value))];
        }
        clientOpen := false;
      }
    }
  }
}
