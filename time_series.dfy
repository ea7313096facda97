/**
 * Time series: the identity series, which hands its input back and keeps
 * nothing, and the windowed maximum, which keeps the timestamped samples of
 * a trailing window (oldest first) and reports their largest value.
 */
module TimeSeries {
  import opened Wrappers
  import opened Values

  /** One timestamped sample (a `Tiva`); the time is the clock's instant in seconds. */
  datatype Sample = Sample(time: real, value: real)

  /** The kind of a series and its parameters: what a blueprint series describes. */
  datatype Blueprint =
    | Identity(valueKey: string)
    | Max(valueKey: string, timeDelta: real)

  /** `type(a) == type(b)`: the same series class, whatever the parameters. */
  predicate SameType(a: Blueprint, b: Blueprint)
  {
    a.Identity? == b.Identity?
  }

  /** The observable state of one series object. */
  datatype SeriesState = SeriesState(blueprint: Blueprint, samples: seq<Sample>)

  /**
   * The purge loop: drop samples from the front while the oldest is strictly
   * older than `limit`; it stops at the first sample that is not.
   */
  function Purged(s: seq<Sample>, limit: real): (r: seq<Sample>)
    ensures |r| <= |s|
    ensures r != [] ==> limit <= r[0].time
  {
    if s != [] && s[0].time < limit then Purged(s[1..], limit) else s
  }

  /** The purge only removes from the front, and only samples strictly older than the limit. */
  lemma {:induction false} PurgedSuffix(s: seq<Sample>, limit: real)
    ensures Purged(s, limit) == s[|s| - |Purged(s, limit)|..]
    ensures forall k | 0 <= k < |s| - |Purged(s, limit)| :: s[k].time < limit
  {
    if s != [] && s[0].time < limit {
      PurgedSuffix(s[1..], limit);
      assert forall k | 1 <= k < |s| :: s[k] == s[1..][k - 1];
    }
  }

  /** The append step: one `(now, value)` sample at the back, or nothing for None. */
  function Appended(s: seq<Sample>, value: Option<real>, now: real): (r: seq<Sample>)
    ensures value.None? ==> r == s
    ensures value.Some? ==> r == s + [Sample(now, value.value)]
  {
    if value.None? then s else s + [Sample(now, value.value)]
  }

  /** The samples a windowed maximum keeps after one `collect_and_deliver` at `now`. */
  function Collected(s: seq<Sample>, value: Option<real>, now: real, timeDelta: real): seq<Sample>
  {
    Appended(Purged(s, now - timeDelta), value, now)
  }

  /** The scan for the largest value, or None for no samples. */
  function MaxValue(s: seq<Sample>): (r: Option<real>)
    ensures r.None? <==> s == []
  {
    if s == [] then None
    else
      var m := MaxValue(s[..|s| - 1]);
      if m.None? || m.value < s[|s| - 1].value then Some(s[|s| - 1].value) else m
  }

  /** The scan's result is one of the values and no value exceeds it. */
  lemma {:induction false} MaxValueIsMaximum(s: seq<Sample>)
    requires s != []
    ensures exists k | 0 <= k < |s| :: s[k].value == MaxValue(s).value
    ensures forall k | 0 <= k < |s| :: s[k].value <= MaxValue(s).value
  {
    var init := s[..|s| - 1];
    if init == [] {
      assert s[0].value == MaxValue(s).value;
    } else {
      MaxValueIsMaximum(init);
      var k0 :| 0 <= k0 < |init| && init[k0].value == MaxValue(init).value;
      assert s[k0] == init[k0];
      assert forall k | 0 <= k < |init| :: s[k] == init[k];
    }
  }

  /** An optional float as an optional value. */
  function AsValue(x: Option<real>): (r: Option<Value>)
    ensures r.None? <==> x.None?
    ensures r.Some? ==> r.value == Num(x.value)
  {
    if x.None? then None else Some(Num(x.value))
  }

  /** An optional value that is a float or None, as an optional float. */
  function AsNumber(v: Option<Value>): (r: Option<real>)
    requires v.None? || v.value.Num?
    ensures AsValue(r) == v
  {
    if v.None? then None else Some(v.value.x)
  }

  /** What a series of this kind accepts: a windowed maximum only takes floats. */
  predicate Accepts(b: Blueprint, value: Option<Value>)
  {
    b.Max? ==> value.None? || value.value.Num?
  }

  /** One `collect_and_deliver` on a series state: the delivered value and the next state. */
  function Deliver(st: SeriesState, value: Option<Value>, now: real): (r: (Option<Value>, SeriesState))
    requires Accepts(st.blueprint, value)
    ensures r.1.blueprint == st.blueprint
    ensures st.blueprint.Identity? ==> r == (value, st)
    ensures st.blueprint.Max? ==>
      && r.1.samples == Collected(st.samples, AsNumber(value), now, st.blueprint.timeDelta)
      && r.0 == AsValue(MaxValue(r.1.samples))
  {
    match st.blueprint
    case Identity(_) => (value, st)
    case Max(_, timeDelta) =>
      var samples := Collected(st.samples, AsNumber(value), now, timeDelta);
      (AsValue(MaxValue(samples)), SeriesState(st.blueprint, samples))
  }

  /** A series object; `samples` is the source's `_tivas` list. */
  class Series {
    const blueprint: Blueprint
    var samples: seq<Sample>

    constructor (blueprint: Blueprint)
      ensures this.blueprint == blueprint && samples == []
    {
      this.blueprint := blueprint;
      samples := [];
    }

    function State(): SeriesState
      reads this
    {
      SeriesState(blueprint, samples)
    }

    /**
     * `collect_and_deliver(value)` at the clock instant `now`. The identity
     * series returns its input and keeps no state; the windowed maximum
     * purges, appends and returns the maximum of what it keeps.
     */
    method CollectAndDeliver(value: Option<Value>, now: real) returns (r: Option<Value>)
      requires Accepts(blueprint, value)
      modifies this
      ensures blueprint.Identity? ==> r == value && samples == old(samples)
      ensures blueprint.Max? ==>
        samples == Collected(old(samples), AsNumber(value), now, blueprint.timeDelta)
      ensures blueprint.Max? ==> r == AsValue(MaxValue(samples))
      ensures (r, State()) == Deliver(old(State()), value, now)
    {
      if blueprint.Identity? {
        return value;
      }
      var limit := now - blueprint.timeDelta;
      while |samples| > 0
        invariant Purged(samples, limit) == Purged(old(samples), limit)
        decreases |samples|
      {
        if samples[0].time < limit {
          samples := samples[1..];
        } else {
          break;
        }
      }
      if value.Some? {
        samples := samples + [Sample(now, value.value.x)];
      }
      var maxValue: Option<real> := None;
      for i := 0 to |samples|
        invariant maxValue == MaxValue(samples[..i])
      {
        assert samples[..i + 1][..i] == samples[..i];
        if maxValue.None? || maxValue.value < samples[i].value {
          maxValue := Some(samples[i].value);
        }
      }
      assert samples[..|samples|] == samples;
      r := AsValue(maxValue);
    }
  }

  // ----- The sliding-window property -----

  /** Timestamps never decrease along `s`. */
  ghost predicate Sorted(s: seq<Sample>)
  {
    forall i, j | 0 <= i <= j < |s| :: s[i].time <= s[j].time
  }

  /** The samples of `s` no older than `limit`, in their order. */
  function Window(s: seq<Sample>, limit: real): seq<Sample>
  {
    if s == [] then []
    else if limit <= s[|s| - 1].time then Window(s[..|s| - 1], limit) + [s[|s| - 1]]
    else Window(s[..|s| - 1], limit)
  }

  /** The window holds exactly the samples of `s` that are no older than the limit. */
  lemma {:induction false} WindowMembers(s: seq<Sample>, limit: real, x: Sample)
    ensures x in Window(s, limit) <==> x in s && limit <= x.time
  {
    if s != [] {
      var init := s[..|s| - 1];
      WindowMembers(init, limit, x);
      assert s == init + [s[|s| - 1]];
    }
  }

  /** A window of samples that are all older than the limit is empty. */
  lemma {:induction false} WindowAllOlder(s: seq<Sample>, limit: real)
    requires forall k | 0 <= k < |s| :: s[k].time < limit
    ensures Window(s, limit) == []
  {
    if s != [] {
      WindowAllOlder(s[..|s| - 1], limit);
    }
  }

  /** One call of `collect_and_deliver` on a windowed maximum: the clock and the input. */
  datatype Call = Call(time: real, value: Option<real>)

  /** The samples kept after a series of calls on a fresh windowed maximum. */
  function Run(calls: seq<Call>, timeDelta: real): seq<Sample>
  {
    if calls == [] then []
    else
      var last := calls[|calls| - 1];
      Collected(Run(calls[..|calls| - 1], timeDelta), last.value, last.time, timeDelta)
  }

  /** Every sample submitted by a series of calls, in order. */
  function Submitted(calls: seq<Call>): seq<Sample>
  {
    if calls == [] then []
    else
      var last := calls[|calls| - 1];
      Appended(Submitted(calls[..|calls| - 1]), last.value, last.time)
  }

  /** The clock does not go backwards along the calls. */
  ghost predicate Monotone(calls: seq<Call>)
  {
    forall i, j | 0 <= i <= j < |calls| :: calls[i].time <= calls[j].time
  }

  /** The output of the last of a series of calls. */
  function LastOutput(calls: seq<Call>, timeDelta: real): Option<real>
  {
    MaxValue(Run(calls, timeDelta))
  }

  /** Purging at a limit and then at a later one is purging at the later one. */
  lemma {:induction false} PurgedTwice(s: seq<Sample>, limit1: real, limit2: real)
    requires limit1 <= limit2
    ensures Purged(Purged(s, limit1), limit2) == Purged(s, limit2)
  {
    if s != [] && s[0].time < limit1 {
      PurgedTwice(s[1..], limit1, limit2);
    }
  }

  /** A sample at or after the limit survives the purge at the back. */
  lemma {:induction false} PurgedAppend(s: seq<Sample>, x: Sample, limit: real)
    requires limit <= x.time
    ensures Purged(s + [x], limit) == Purged(s, limit) + [x]
  {
    if s != [] {
      assert (s + [x])[0] == s[0];
      assert (s + [x])[1..] == s[1..] + [x];
      if s[0].time < limit {
        PurgedAppend(s[1..], x, limit);
      }
    }
  }

  /** On sorted samples the purge keeps exactly the window. */
  lemma {:induction false} PurgedSortedIsWindow(s: seq<Sample>, limit: real)
    requires Sorted(s)
    ensures Purged(s, limit) == Window(s, limit)
  {
    if s != [] {
      var init := s[..|s| - 1];
      var last := s[|s| - 1];
      assert s == init + [last];
      assert Sorted(init);
      PurgedSortedIsWindow(init, limit);
      if limit <= last.time {
        PurgedAppend(init, last, limit);
      } else {
        assert forall k | 0 <= k < |s| :: s[k].time < limit;
        assert Purged(s, limit) == [] by {
          PurgedAllOlder(s, limit);
        }
        WindowAllOlder(init, limit);
      }
    }
  }

  /** When every sample is older than the limit, the purge empties the list. */
  lemma {:induction false} PurgedAllOlder(s: seq<Sample>, limit: real)
    requires forall k | 0 <= k < |s| :: s[k].time < limit
    ensures Purged(s, limit) == []
  {
    if s != [] {
      PurgedAllOlder(s[1..], limit);
    }
  }

  /** Without a clock going backwards, the kept samples are the purge of everything submitted. */
  lemma {:induction false} RunIsPurgedHistory(calls: seq<Call>, timeDelta: real)
    requires calls != [] && Monotone(calls) && 0.0 <= timeDelta
    ensures Run(calls, timeDelta) == Purged(Submitted(calls), calls[|calls| - 1].time - timeDelta)
  {
    var init := calls[..|calls| - 1];
    var last := calls[|calls| - 1];
    var limit := last.time - timeDelta;
    assert Monotone(init);
    assert Run(calls, timeDelta) == Appended(Purged(Run(init, timeDelta), limit), last.value, last.time);
    assert Submitted(calls) == Appended(Submitted(init), last.value, last.time);
    if init == [] {
      assert Run(init, timeDelta) == [] && Submitted(init) == [];
      if last.value.Some? {
        PurgedAppend([], Sample(last.time, last.value.value), limit);
      }
    } else {
      RunIsPurgedHistory(init, timeDelta);
      var prevLimit := init[|init| - 1].time - timeDelta;
      assert init[|init| - 1] == calls[|calls| - 2];
      assert prevLimit <= limit;
      PurgedTwice(Submitted(init), prevLimit, limit);
      if last.value.Some? {
        PurgedAppend(Submitted(init), Sample(last.time, last.value.value), limit);
      }
    }
  }

  /** Without a clock going backwards, the submitted samples are in time order, none after the last call. */
  lemma {:induction false} SubmittedSorted(calls: seq<Call>)
    requires Monotone(calls)
    ensures Sorted(Submitted(calls))
    ensures calls != [] ==> forall k | 0 <= k < |Submitted(calls)| :: Submitted(calls)[k].time <= calls[|calls| - 1].time
  {
    if calls != [] {
      var init := calls[..|calls| - 1];
      var last := calls[|calls| - 1];
      assert Monotone(init);
      SubmittedSorted(init);
      var h := Submitted(init);
      if init != [] {
        assert init[|init| - 1] == calls[|calls| - 2];
        assert forall k | 0 <= k < |h| :: h[k].time <= last.time;
      }
      if last.value.Some? {
        var x := Sample(last.time, last.value.value);
        assert Submitted(calls) == h + [x];
        forall i, j | 0 <= i <= j < |h + [x]|
          ensures (h + [x])[i].time <= (h + [x])[j].time
        {
          if j < |h| {
            assert (h + [x])[i] == h[i] && (h + [x])[j] == h[j];
          }
        }
      }
    }
  }

  /**
   * The sliding-window theorem: when the clock never goes backwards, the
   * samples kept after any series of calls are exactly the submitted samples
   * no older than `now - timeDelta`, in time order, and the last output is
   * their maximum, whatever the cadence of the calls.
   */
  lemma {:induction false} SlidingWindowMaximum(calls: seq<Call>, timeDelta: real)
    requires calls != [] && Monotone(calls) && 0.0 <= timeDelta
    ensures Run(calls, timeDelta) == Window(Submitted(calls), calls[|calls| - 1].time - timeDelta)
    ensures Sorted(Run(calls, timeDelta))
    ensures LastOutput(calls, timeDelta) == MaxValue(Window(Submitted(calls), calls[|calls| - 1].time - timeDelta))
  {
    var limit := calls[|calls| - 1].time - timeDelta;
    var s := Submitted(calls);
    assert Run(calls, timeDelta) == Purged(s, limit) by {
      RunIsPurgedHistory(calls, timeDelta);
    }
    assert Sorted(s) by {
      SubmittedSorted(calls);
    }
    assert Purged(s, limit) == Window(s, limit) by {
      PurgedSortedIsWindow(s, limit);
    }
    assert Sorted(Purged(s, limit)) by {
      PurgedSuffix(s, limit);
      SortedSuffix(s, |s| - |Purged(s, limit)|);
    }
  }

  /** A suffix of a sorted sequence is sorted. */
  lemma SortedSuffix(s: seq<Sample>, from: nat)
    requires Sorted(s) && from <= |s|
    ensures Sorted(s[from..])
  {
    var t := s[from..];
    forall i, j | 0 <= i <= j < |t|
      ensures t[i].time <= t[j].time
    {
      assert t[i] == s[from + i] && t[j] == s[from + j];
    }
  }

  /** After a call on sorted samples, no kept sample is strictly older than `now - timeDelta`. */
  lemma CollectedWithinWindow(s: seq<Sample>, value: Option<real>, now: real, timeDelta: real)
    requires Sorted(s) && 0.0 <= timeDelta
    ensures forall k | 0 <= k < |Collected(s, value, now, timeDelta)| ::
      now - timeDelta <= Collected(s, value, now, timeDelta)[k].time
  {
    var limit := now - timeDelta;
    var p := Purged(s, limit);
    PurgedSuffix(s, limit);
    SortedSuffix(s, |s| - |p|);
    assert forall k | 0 <= k < |p| :: p[0].time <= p[k].time;
  }

  /** The first call with no value reports None; a call with a value on an empty window reports that value. */
  lemma FirstCalls(value: real, now: real, timeDelta: real)
    ensures MaxValue(Collected([], None, now, timeDelta)) == None
    ensures MaxValue(Collected([], Some(value), now, timeDelta)) == Some(value)
  {
    assert Collected([], Some(value), now, timeDelta) == [Sample(now, value)];
  }

  /**
   * A 20-second window driven at 0, 1, 5, 30, 31 and 32 seconds with the inputs
   * None, 1, 5, 2, None, 1 reports None, 1, 5, 2, 2, 2.
   */
  lemma TwentySecondWindowScenario()
    ensures var calls := [Call(0.0, None), Call(1.0, Some(1.0)), Call(5.0, Some(5.0)),
                          Call(30.0, Some(2.0)), Call(31.0, None), Call(32.0, Some(1.0))];
      && LastOutput(calls[..1], 20.0) == None
      && LastOutput(calls[..2], 20.0) == Some(1.0)
      && LastOutput(calls[..3], 20.0) == Some(5.0)
      && LastOutput(calls[..4], 20.0) == Some(2.0)
      && LastOutput(calls[..5], 20.0) == Some(2.0)
      && LastOutput(calls, 20.0) == Some(2.0)
  {
    var calls := [Call(0.0, None), Call(1.0, Some(1.0)), Call(5.0, Some(5.0)),
                  Call(30.0, Some(2.0)), Call(31.0, None), Call(32.0, Some(1.0))];
    assert calls[..1][..0] == [];
    assert Run(calls[..1], 20.0) == [];
    assert calls[..2][..1] == calls[..1];
    assert Run(calls[..2], 20.0) == [Sample(1.0, 1.0)];
    assert calls[..3][..2] == calls[..2];
    assert Run(calls[..3], 20.0) == [Sample(1.0, 1.0), Sample(5.0, 5.0)];
    assert calls[..4][..3] == calls[..3];
    assert Purged([Sample(1.0, 1.0), Sample(5.0, 5.0)], 10.0) == [];
    assert Run(calls[..4], 20.0) == [Sample(30.0, 2.0)];
    assert calls[..5][..4] == calls[..4];
    assert Run(calls[..5], 20.0) == [Sample(30.0, 2.0)];
    assert calls[..5] == calls[..|calls| - 1];
    assert Run(calls, 20.0) == [Sample(30.0, 2.0), Sample(32.0, 1.0)];
    assert MaxValue([Sample(30.0, 2.0), Sample(32.0, 1.0)]) == Some(2.0) by {
      assert [Sample(30.0, 2.0), Sample(32.0, 1.0)][..1] == [Sample(30.0, 2.0)];
    }
  }
}
