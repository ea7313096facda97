/**
 * The value transformations: each maps the raw strings of one cycle to an
 * optional typed value, or raises. TypeError is the one kind the fetch stages
 * tolerate per field; a ValueError aborts the whole cycle.
 */
module Transformation {
  import opened Wrappers
  import opened TimeUtils
  import opened Values

  /**
   * The host-language routines the transformations call and that are not
   * modelled here: `float(s)` (None where it raises ValueError),
   * `datetime.strptime(s, '%H:%M %m/%d/%Y')` (None where it raises
   * ValueError), and the barometric formula with its rounding to one
   * decimal, over absolute pressure, station temperature and altitude.
   */
  datatype Platform = Platform(
    parseFloat: string -> Option<real>,
    parseTime: string -> Option<DateTime>,
    relPressure: (real, real, real) -> real)

  datatype Transformation =
    | FloatTransformation(valueKey: string)
    | StringTransformation(valueKey: string, trim: bool)
    | TimeStringTransformationChecker(valueKey: string, outdateSec: Option<real>)
    | RelPressureTransformation(absPresKey: string, tempKey: string, altitude: real)
    | GustTransformation(speedKey: string, gustKey: string)

  const FloatError := ValueError("could not convert string to float")
  const TimeFormatError := ValueError("time data does not match format")
  const StrptimeTypeError := TypeError("strptime() argument 1 must be str")
  const OutdatedError := ValueError("delivery time check failed - outdated")

  /** The station's "no reading" marker: text that begins with "--", such as "--.-". */
  predicate IsSentinel(s: string)
  {
    "--" <= s
  }

  /** `convert2float`: None for a missing, empty or "--" value; otherwise `float()`. */
  function Convert2Float(p: Platform, valueIn: Option<string>): (r: Result<Option<real>>)
    ensures r == Ok(None) <==> valueIn.None? || valueIn.value == "" || IsSentinel(valueIn.value)
    ensures r.Ok? && r.value.Some? ==> p.parseFloat(valueIn.value) == r.value
    ensures r.Raised? <==> valueIn.Some? && valueIn.value != "" && !IsSentinel(valueIn.value)
                           && p.parseFloat(valueIn.value).None?
    ensures r.Raised? ==> r.fault == FloatError
  {
    if valueIn.None? || valueIn.value == "" || IsSentinel(valueIn.value) then Ok(None)
    else match p.parseFloat(valueIn.value)
      case Some(x) => Ok(Some(x))
      case None => Raised(FloatError)
  }

  /** `str(v)` of a raw value: the text itself, or "None". */
  function PyStr(v: Option<string>): string
  {
    if v.None? then "None" else v.value
  }

  /** The characters Python's `str.isspace` accepts, which `str.strip()` removes. */
  predicate IsSpace(c: char)
  {
    || '\U{0009}' <= c <= '\U{000D}'
    || '\U{001C}' <= c <= '\U{0020}'
    || c == '\U{0085}' || c == '\U{00A0}' || c == '\U{1680}'
    || '\U{2000}' <= c <= '\U{200A}'
    || c == '\U{2028}' || c == '\U{2029}' || c == '\U{202F}' || c == '\U{205F}' || c == '\U{3000}'
  }

  /** The longest suffix of `s` that does not begin with white space. */
  function StripLeft(s: string): (r: string)
    ensures |r| <= |s| && r == s[|s| - |r|..]
    ensures forall k | 0 <= k < |s| - |r| :: IsSpace(s[k])
    ensures r != [] ==> !IsSpace(r[0])
  {
    if s != [] && IsSpace(s[0]) then StripLeft(s[1..]) else s
  }

  /** The longest prefix of `s` that does not end with white space. */
  function StripRight(s: string): (r: string)
    ensures |r| <= |s| && r == s[..|r|]
    ensures forall k | |r| <= k < |s| :: IsSpace(s[k])
    ensures r != [] ==> !IsSpace(r[|r| - 1])
  {
    if s != [] && IsSpace(s[|s| - 1]) then StripRight(s[..|s| - 1]) else s
  }

  /** How many white-space characters `strip` removes from the front of `s`. */
  function LeadingSpaces(s: string): nat
  {
    |s| - |StripLeft(s)|
  }

  /**
   * `s.strip()`: `s` without its leading and trailing white space; the
   * result is the slice of `s` between the two runs of white space.
   */
  function Strip(s: string): (r: string)
    ensures LeadingSpaces(s) + |r| <= |s| && r == s[LeadingSpaces(s)..LeadingSpaces(s) + |r|]
    ensures forall k | 0 <= k < LeadingSpaces(s) :: IsSpace(s[k])
    ensures forall k | LeadingSpaces(s) + |r| <= k < |s| :: IsSpace(s[k])
    ensures r != [] ==> !IsSpace(r[0]) && !IsSpace(r[|r| - 1])
  {
    var left := StripLeft(s);
    var r := StripRight(left);
    assert r != [] ==> r[0] == left[0];
    r
  }

  /** Stripping twice is stripping once. */
  lemma {:induction false} StripIdempotent(s: string)
    ensures Strip(Strip(s)) == Strip(s)
  {
    var r := Strip(s);
    if r != [] {
      assert StripLeft(r) == r;
      assert StripRight(r) == r;
    }
  }

  /** `_check_delivery_time`: a fault when the delivery is older than the limit allows. */
  function CheckDeliveryTime(deliveryTime: DateTime, now: DateTime, outdateSec: real): (r: Option<Fault>)
    ensures r.None? <==> Diff(now, deliveryTime).Some? && Diff(now, deliveryTime).value <= outdateSec
  {
    match Diff(now, deliveryTime)
    case None => Some(TypeError("can't subtract offset-naive and offset-aware datetimes"))
    case Some(elapsed) => if elapsed > outdateSec then Some(OutdatedError) else None
  }

  /** `TimeStringTransformationChecker.transform` at the clock reading `now`. */
  function TransformTime(p: Platform, valueKey: string, outdateSec: Option<real>, raw: RawValues, now: DateTime)
    : Result<Option<Value>>
  {
    match Get(raw, valueKey)
    case None => Raised(StrptimeTypeError)
    case Some(text) =>
      match p.parseTime(text)
      case None => Raised(TimeFormatError)
      case Some(parsed) =>
        var value := if parsed.zone.None? then WithZone(parsed, now.zone) else parsed;
        if outdateSec.None? then Ok(Some(Stamp(value)))
        else match CheckDeliveryTime(value, now, outdateSec.value)
          case Some(fault) => Raised(fault)
          case None => Ok(Some(Stamp(value)))
  }

  /**
   * `RelPressureTransformation.transform`: None unless both the absolute
   * pressure and the temperature are readings; the temperature is not even
   * converted when the pressure is missing.
   */
  function RelPressure(p: Platform, absPresKey: string, tempKey: string, altitude: real, raw: RawValues)
    : (r: Result<Option<Value>>)
    ensures Convert2Float(p, Get(raw, absPresKey)) == Ok(None) ==> r == Ok(None)
    ensures r.Ok? && r.value.Some? <==>
      Convert2Float(p, Get(raw, absPresKey)).Ok? && Convert2Float(p, Get(raw, absPresKey)).value.Some? &&
      Convert2Float(p, Get(raw, tempKey)).Ok? && Convert2Float(p, Get(raw, tempKey)).value.Some?
    ensures r.Ok? && r.value.Some? ==>
      r.value.value == Num(p.relPressure(Convert2Float(p, Get(raw, absPresKey)).value.value,
                                         Convert2Float(p, Get(raw, tempKey)).value.value, altitude))
    ensures (&& Convert2Float(p, Get(raw, absPresKey)).Ok? && Convert2Float(p, Get(raw, absPresKey)).value.Some?
             && Convert2Float(p, Get(raw, tempKey)) == Ok(None)) ==> r == Ok(None)
    ensures r.Raised? <==>
      || Convert2Float(p, Get(raw, absPresKey)).Raised?
      || (Convert2Float(p, Get(raw, absPresKey)).Ok? && Convert2Float(p, Get(raw, absPresKey)).value.Some?
          && Convert2Float(p, Get(raw, tempKey)).Raised?)
    ensures r.Raised? ==> r.fault == FloatError
  {
    match Convert2Float(p, Get(raw, absPresKey))
    case Raised(f) => Raised(f)
    case Ok(None) => Ok(None)
    case Ok(Some(absPress)) =>
      match Convert2Float(p, Get(raw, tempKey))
      case Raised(f) => Raised(f)
      case Ok(None) => Ok(None)
      case Ok(Some(temp)) => Ok(Some(Num(p.relPressure(absPress, temp, altitude))))
  }

  /** The gust rule over two optional speeds: the larger of two, the one present, or None. */
  function GustSpeed(speed1: Option<real>, speed2: Option<real>): (r: Option<real>)
    ensures r.None? <==> speed1.None? && speed2.None?
    ensures r.Some? ==> r == speed1 || r == speed2
    ensures speed1.Some? ==> r.Some? && speed1.value <= r.value
    ensures speed2.Some? ==> r.Some? && speed2.value <= r.value
  {
    var speed :=
      if speed1.None? || speed2.None? then
        if speed2.Some? then speed2 else if speed1.Some? then speed1 else None
      else Some(if speed1.value < speed2.value then speed2.value else speed1.value);
    speed
  }

  /** `GustTransformation.transform`: the speed is converted first, then the gust. */
  function Gust(p: Platform, speedKey: string, gustKey: string, raw: RawValues): Result<Option<Value>>
  {
    match Convert2Float(p, Get(raw, speedKey))
    case Raised(f) => Raised(f)
    case Ok(speed1) =>
      match Convert2Float(p, Get(raw, gustKey))
      case Raised(f) => Raised(f)
      case Ok(speed2) =>
        var speed := GustSpeed(speed1, speed2);
        if speed.None? then Ok(None) else Ok(Some(Num(speed.value)))
  }

  /** The transformations whose result is a float or None. */
  predicate IsNumeric(t: Transformation)
  {
    t.FloatTransformation? || t.RelPressureTransformation? || t.GustTransformation?
  }

  /** `item.transform.transform(values)`; the checker reads the clock `now`. */
  function Transform(t: Transformation, p: Platform, raw: RawValues, now: DateTime): (r: Result<Option<Value>>)
    ensures IsNumeric(t) && r.Ok? && r.value.Some? ==> r.value.value.Num?
    ensures t.StringTransformation? ==> r.Ok? && r.value.Some? && r.value.value.Text?
    ensures r.Raised? && r.fault.TypeError? ==> t.TimeStringTransformationChecker?
  {
    match t
    case FloatTransformation(key) =>
      (match Convert2Float(p, Get(raw, key))
       case Raised(f) => Raised(f)
       case Ok(None) => Ok(None)
       case Ok(Some(x)) => Ok(Some(Num(x))))
    case StringTransformation(key, trim) =>
      var value := PyStr(Get(raw, key));
      Ok(Some(Text(if trim then Strip(value) else value)))
    case TimeStringTransformationChecker(key, outdateSec) => TransformTime(p, key, outdateSec, raw, now)
    case RelPressureTransformation(absKey, tempKey, altitude) => RelPressure(p, absKey, tempKey, altitude, raw)
    case GustTransformation(speedKey, gustKey) => Gust(p, speedKey, gustKey, raw)
  }

  /** The raw keys a transformation looks up. */
  function ReadKeys(t: Transformation): set<string>
  {
    match t
    case FloatTransformation(key) => {key}
    case StringTransformation(key, _) => {key}
    case TimeStringTransformationChecker(key, _) => {key}
    case RelPressureTransformation(absKey, tempKey, _) => {absKey, tempKey}
    case GustTransformation(speedKey, gustKey) => {speedKey, gustKey}
  }

  // ----- What the transformations promise -----

  /** A transformation depends only on the raw values of the keys it reads. */
  lemma TransformReadsOnlyItsKeys(t: Transformation, p: Platform, raw1: RawValues, raw2: RawValues, now: DateTime)
    requires forall k | k in ReadKeys(t) :: Get(raw1, k) == Get(raw2, k)
    ensures Transform(t, p, raw1, now) == Transform(t, p, raw2, now)
  {
    match t
    case FloatTransformation(key) => assert key in ReadKeys(t);
    case StringTransformation(key, _) => assert key in ReadKeys(t);
    case TimeStringTransformationChecker(key, _) => assert key in ReadKeys(t);
    case RelPressureTransformation(absKey, tempKey, _) => assert absKey in ReadKeys(t) && tempKey in ReadKeys(t);
    case GustTransformation(speedKey, gustKey) => assert speedKey in ReadKeys(t) && gustKey in ReadKeys(t);
  }

  /** The float transformation is `convert2float` of its own raw value. */
  lemma FloatTransformConverts(key: string, p: Platform, raw: RawValues, now: DateTime)
    ensures var r := Transform(FloatTransformation(key), p, raw, now);
      var c := Convert2Float(p, Get(raw, key));
      && (r.Ok? <==> c.Ok?)
      && (c.Raised? ==> r == Raised(c.fault))
      && (c.Ok? ==> r.value == if c.value.None? then None else Some(Num(c.value.value)))
  {
  }

  /**
   * The gust transformation converts the speed first and the gust second; a
   * fault of either escapes in that order, and otherwise the result is the
   * combined speed of the two conversions as a float, or None.
   */
  lemma GustTransformConverts(speedKey: string, gustKey: string, p: Platform, raw: RawValues, now: DateTime)
    ensures var r := Transform(GustTransformation(speedKey, gustKey), p, raw, now);
      var c1 := Convert2Float(p, Get(raw, speedKey));
      var c2 := Convert2Float(p, Get(raw, gustKey));
      && (r.Raised? <==> c1.Raised? || (c1.Ok? && c2.Raised?))
      && (c1.Raised? ==> r == Raised(c1.fault))
      && (c1.Ok? && c2.Raised? ==> r == Raised(c2.fault))
      && (c1.Ok? && c2.Ok? ==>
            r == if GustSpeed(c1.value, c2.value).None? then Ok(None)
                 else Ok(Some(Num(GustSpeed(c1.value, c2.value).value))))
  {
  }

  /** `StripRight` leaves a text alone whose last character is not white space. */
  lemma StripRightKeeps(s: string)
    requires s != [] && !IsSpace(s[|s| - 1])
    ensures StripRight(s) == s
  {
  }

  /**
   * The string transformation gives the text, stripped when `trim` is set;
   * a missing raw value gives the text "None", never None.
   */
  lemma StringTransformText(key: string, trim: bool, p: Platform, raw: RawValues, now: DateTime)
    ensures Get(raw, key).Some? ==>
      Transform(StringTransformation(key, trim), p, raw, now)
      == Ok(Some(Text(if trim then Strip(Get(raw, key).value) else Get(raw, key).value)))
    ensures Get(raw, key).None? ==> Transform(StringTransformation(key, trim), p, raw, now) == Ok(Some(Text("None")))
  {
    var none := "None";
    assert !IsSpace(none[0]);
    assert StripLeft(none) == none;
    StripRightKeeps(none);
  }

  /**
   * The receiver-time transformation: a missing raw value raises
   * TypeError, an unparsable one ValueError; a parsed time without a zone
   * takes the zone of `now`; without a limit there is no freshness check,
   * and with one the result is the "outdated" ValueError exactly when
   * more than the limit has elapsed since the parsed time.
   */
  lemma TimeTransformChecks(key: string, outdateSec: Option<real>, p: Platform, raw: RawValues, now: DateTime)
    ensures var r := Transform(TimeStringTransformationChecker(key, outdateSec), p, raw, now);
      && (Get(raw, key).None? ==> r == Raised(StrptimeTypeError))
      && (Get(raw, key).Some? && p.parseTime(Get(raw, key).value).None? ==> r == Raised(TimeFormatError))
      && (Get(raw, key).Some? && p.parseTime(Get(raw, key).value).Some? ==>
            var parsed := p.parseTime(Get(raw, key).value).value;
            var value := if parsed.zone.None? then WithZone(parsed, now.zone) else parsed;
            && (outdateSec.None? ==> r == Ok(Some(Stamp(value))))
            && (outdateSec.Some? && value.zone.Some? == now.zone.Some? ==>
                  (r == Raised(OutdatedError) <==> Seconds(now) - Seconds(value) > outdateSec.value)
                  && (r.Ok? <==> Seconds(now) - Seconds(value) <= outdateSec.value)
                  && (r.Ok? ==> r == Ok(Some(Stamp(value))))))
  {
  }

  /**
   * With a 120 s limit and the clock at 14:05, a receiver time of 14:03
   * passes, exactly at the limit, and 14:02 is outdated (`day` is the
   * start of the day in seconds, all times naive).
   */
  lemma FreshnessExample(p: Platform, key: string, day: real)
    requires p.parseTime("14:03 8/25/2019") == Some(DateTime(day + 50580.0, None))
    requires p.parseTime("14:02 8/25/2019") == Some(DateTime(day + 50520.0, None))
    ensures var now := DateTime(day + 50700.0, None);
      var checker := TimeStringTransformationChecker(key, Some(120.0));
      && Transform(checker, p, map[key := Some("14:03 8/25/2019")], now) == Ok(Some(Stamp(DateTime(day + 50580.0, None))))
      && Transform(checker, p, map[key := Some("14:02 8/25/2019")], now) == Raised(OutdatedError)
  {
    var now := DateTime(day + 50700.0, None);
    TimeTransformChecks(key, Some(120.0), p, map[key := Some("14:03 8/25/2019")], now);
    TimeTransformChecks(key, Some(120.0), p, map[key := Some("14:02 8/25/2019")], now);
  }

  /** The gust of 4.0 and 12.2 is 12.2, of 24.1 and 12.2 is 24.1, and of two "----" is None. */
  lemma GustExamples(p: Platform)
    requires p.parseFloat("4.0") == Some(4.0) && p.parseFloat("12.2") == Some(12.2) && p.parseFloat("24.1") == Some(24.1)
    ensures var gust := GustTransformation("windspeed", "gustspeed");
      && Transform(gust, p, map["windir" := Some("121"), "windspeed" := Some("4.0"), "gustspeed" := Some("12.2")],
                   DateTime(0.0, None)) == Ok(Some(Num(12.2)))
      && Transform(gust, p, map["windir" := Some("121"), "windspeed" := Some("24.1"), "gustspeed" := Some("12.2")],
                   DateTime(0.0, None)) == Ok(Some(Num(24.1)))
      && Transform(gust, p, map["windir" := Some("---"), "windspeed" := Some("----"), "gustspeed" := Some("----")],
                   DateTime(0.0, None)) == Ok(None)
  {
    var s1, s2, s3 := "4.0", "12.2", "24.1";
    assert s1[0] != '-' && s2[0] != '-' && s3[0] != '-';
    assert !IsSentinel(s1) && !IsSentinel(s2) && !IsSentinel(s3);
  }

  /** The sentinels "--.-", "----" and "--", the empty text and a missing value all convert to None. */
  lemma SentinelExamples(p: Platform)
    ensures Convert2Float(p, Some("--.-")) == Ok(None) && Convert2Float(p, Some("----")) == Ok(None)
    ensures Convert2Float(p, Some("--")) == Ok(None)
    ensures Convert2Float(p, Some("")) == Ok(None) && Convert2Float(p, None) == Ok(None)
  {
  }
}
